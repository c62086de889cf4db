/** The scoring half of `BigFiveAnalyzer`, as functions of its inputs: the
    sentiment aggregate over a list of texts, keyword frequency, lexical
    diversity, the five weighted blends and the whole analysis of a
    snapshot, with its default policy and its error case. */
module Scoring {
  import opened Wrappers
  import opened Text
  import opened Numeric
  import opened Sentiment
  import opened Snapshot

  // ---------------------------------------------------------------------
  // analyze_text_sentiment

  /** What `analyze_text_sentiment` returns. */
  datatype AggregateSentiment = AggregateSentiment(
    positive: nat,
    negative: nat,
    neutral: nat,
    avgPolarity: real,
    sentimentBalance: real,
    totalTextsAnalyzed: nat)

  /** The guard shared with `analyze_sentiment`: texts that are empty or
      shorter than 5 characters after stripping are skipped. */
  predicate Analyzable(text: string) {
    text != [] && |Strip(text)| >= 5
  }

  /** The rounded polarities of the analyzable texts, in order. */
  function Polarities(lex: Lexicon, texts: seq<string>): (ps: seq<real>)
    ensures |ps| <= |texts|
  {
    if texts == [] then []
    else
      var init := Polarities(lex, texts[..|texts| - 1]);
      var last := texts[|texts| - 1];
      if Analyzable(last) then init + [SentimentOf(lex, last).polarity] else init
  }

  /** Every polarity in the list lies in [-1, 1]. */
  lemma {:induction false} PolaritiesInRange(lex: Lexicon, texts: seq<string>)
    ensures forall k :: 0 <= k < |Polarities(lex, texts)| ==> -1.0 <= Polarities(lex, texts)[k] <= 1.0
  {
    if texts != [] {
      PolaritiesInRange(lex, texts[..|texts| - 1]);
      SentimentBounds(lex, texts[|texts| - 1]);
    }
  }

  /** Texts counted in the positive bucket: polarity above 0.2. */
  function Positives(ps: seq<real>): (n: nat)
    ensures n <= |ps|
  {
    if ps == [] then 0
    else Positives(ps[..|ps| - 1]) + (if ps[|ps| - 1] > 0.2 then 1 else 0)
  }

  /** Texts counted in the negative bucket: polarity below -0.2. */
  function Negatives(ps: seq<real>): (n: nat)
    ensures n <= |ps|
  {
    if ps == [] then 0
    else Negatives(ps[..|ps| - 1]) + (if ps[|ps| - 1] < -0.2 then 1 else 0)
  }

  /** Texts counted in the neutral bucket: polarity in [-0.2, 0.2]. */
  function Neutrals(ps: seq<real>): (n: nat)
    ensures n <= |ps|
  {
    if ps == [] then 0
    else Neutrals(ps[..|ps| - 1]) + (if -0.2 <= ps[|ps| - 1] <= 0.2 then 1 else 0)
  }

  /** Each text lands in exactly one bucket. */
  lemma {:induction false} BucketsPartition(ps: seq<real>)
    ensures Positives(ps) + Negatives(ps) + Neutrals(ps) == |ps|
  {
    if ps != [] {
      BucketsPartition(ps[..|ps| - 1]);
    }
  }

  function Sum(ps: seq<real>): real {
    if ps == [] then 0.0 else Sum(ps[..|ps| - 1]) + ps[|ps| - 1]
  }

  /** A sum of values in [-1, 1] lies in [-n, n]. */
  lemma {:induction false} SumBounds(ps: seq<real>)
    requires forall k :: 0 <= k < |ps| ==> -1.0 <= ps[k] <= 1.0
    ensures -(|ps| as real) <= Sum(ps) <= |ps| as real
  {
    if ps != [] {
      SumBounds(ps[..|ps| - 1]);
    }
  }

  /** `max(n, 1)` as a divisor. */
  function AtLeastOne(n: nat): (r: real)
    ensures r >= 1.0 && (n >= 1 ==> r == n as real)
  {
    if n >= 1 then n as real else 1.0
  }

  /** A count over `max(total, 1)` lies in [0, 1]. */
  lemma ShareInUnit(part: nat, total: nat)
    requires part <= total
    ensures 0.0 <= part as real / AtLeastOne(total) <= 1.0
  {
    if total >= 1 {
      RatioInUnit(part, total);
    }
  }

  /** The mean of the polarities, 0 for none. */
  function Mean(ps: seq<real>): real {
    if ps == [] then 0.0 else Sum(ps) / |ps| as real
  }

  lemma MeanBounds(ps: seq<real>)
    requires forall k :: 0 <= k < |ps| ==> -1.0 <= ps[k] <= 1.0
    ensures -1.0 <= Mean(ps) <= 1.0
  {
    if ps != [] {
      SumBounds(ps);
      var m := Sum(ps) / |ps| as real;
      assert m * |ps| as real == Sum(ps);
    }
  }

  /** The aggregate of a list of polarities: bucket counts, the rounded
      mean and the share of positive entries. */
  function Aggregate(ps: seq<real>): AggregateSentiment {
    AggregateSentiment(Positives(ps), Negatives(ps), Neutrals(ps), Round3(Mean(ps)),
                       Positives(ps) as real / AtLeastOne(|ps|), |ps|)
  }

  /** `analyze_text_sentiment`: the aggregate of the analysable texts'
      polarities. */
  function AggregateOf(lex: Lexicon, texts: seq<string>): AggregateSentiment {
    Aggregate(Polarities(lex, texts))
  }

  /** The buckets partition the analysed texts, at most all of them; the
      balance lies in [0, 1] and the mean polarity in [-1, 1]. */
  lemma AggregateBounds(lex: Lexicon, texts: seq<string>)
    ensures var s := AggregateOf(lex, texts);
      && s.positive + s.negative + s.neutral == s.totalTextsAnalyzed <= |texts|
      && 0.0 <= s.sentimentBalance <= 1.0
      && -1.0 <= s.avgPolarity <= 1.0
  {
    var ps := Polarities(lex, texts);
    BucketsPartition(ps);
    ShareInUnit(Positives(ps), |ps|);
    PolaritiesInRange(lex, texts);
    MeanBounds(ps);
    RoundWithin(Mean(ps), -1000, 1000);
  }

  /** No text is analysable exactly when nothing is counted. */
  lemma {:induction false} NoPolarities(lex: Lexicon, texts: seq<string>)
    ensures Polarities(lex, texts) == [] <==> forall k :: 0 <= k < |texts| ==> !Analyzable(texts[k])
  {
    if texts != [] {
      var init, last := texts[..|texts| - 1], texts[|texts| - 1];
      NoPolarities(lex, init);
      if Analyzable(last) {
        assert |Polarities(lex, texts)| == |Polarities(lex, init)| + 1;
      } else {
        assert Polarities(lex, texts) == Polarities(lex, init);
        if Polarities(lex, texts) == [] {
          forall k | 0 <= k < |texts| ensures !Analyzable(texts[k]) {
            if k < |init| {
              assert texts[k] == init[k];
            }
          }
        } else {
          var k :| 0 <= k < |init| && Analyzable(init[k]);
          assert texts[k] == init[k];
        }
      }
    }
  }

  /** With no analysable text the aggregate is all zeros, balance
      included. */
  lemma EmptyAggregate(lex: Lexicon, texts: seq<string>)
    ensures Polarities(lex, texts) == [] ==> AggregateOf(lex, texts) == AggregateSentiment(0, 0, 0, 0.0, 0.0, 0)
  {
    NoPolarities(lex, texts);
    assert Round3(0.0) == 0.0 by { RoundWithin(0.0, 0, 0); }
  }

  // ---------------------------------------------------------------------
  // calculate_word_frequency and lexical diversity

  /** `set(w.lower() for w in word_list)`. */
  function LowerSet(wordList: seq<string>): set<string> {
    set w | w in wordList :: LowerStr(w)
  }

  /** `calculate_word_frequency`: the share of the tokens of the joined,
      lower-cased texts that are keywords. */
  function WordFrequency(texts: seq<string>, wordList: seq<string>): (r: real)
    ensures 0.0 <= r <= 1.0
  {
    if texts == [] || wordList == [] then 0.0
    else
      var words := Tokens(LowerStr(JoinSpace(texts)));
      if words == [] then 0.0
      else
        RatioInUnit(CountIn(words, LowerSet(wordList)), |words|);
        CountIn(words, LowerSet(wordList)) as real / |words| as real
  }

  /** Joining and lower-casing commute with tokenizing: the frequency is
      taken over the tokens of the lower-cased texts, one after another. */
  lemma WordFrequencyPerText(texts: seq<string>, wordList: seq<string>)
    requires texts != [] && wordList != []
    ensures var words := TokensOfAll(LowerAll(texts));
      WordFrequency(texts, wordList) ==
        if words == [] then 0.0
        else CountIn(words, LowerSet(wordList)) as real / |words| as real
  {
    LowerJoin(texts);
    TokensOfJoin(LowerAll(texts));
  }

  /** The frequency is zero exactly when there are no texts, no
      keywords, or no token is a keyword. */
  lemma WordFrequencyZeroIff(texts: seq<string>, wordList: seq<string>)
    ensures WordFrequency(texts, wordList) == 0.0 <==>
      texts == [] || wordList == [] || NoKeyword(Tokens(LowerStr(JoinSpace(texts))), LowerSet(wordList))
  {
    var words := Tokens(LowerStr(JoinSpace(texts)));
    CountInZeroIff(words, LowerSet(wordList));
    if texts != [] && wordList != [] && words != [] {
      RatioInUnit(CountIn(words, LowerSet(wordList)), |words|);
    }
  }

  /** No token is a keyword. */
  predicate NoKeyword(words: seq<string>, keywords: set<string>) {
    forall j :: 0 <= j < |words| ==> words[j] !in keywords
  }

  /** Distinct tokens over tokens, 0 for no tokens. */
  function LexicalDiversity(words: seq<string>): (r: real)
    ensures 0.0 <= r <= 1.0
    ensures r > 0.0 <==> words != []
  {
    if words == [] then 0.0
    else
      DistinctBounds(words);
      var q := |Distinct(words)| as real / |words| as real;
      RatioInUnit(|Distinct(words)|, |words|);
      assert q * |words| as real == |Distinct(words)| as real;
      q
  }

  // ---------------------------------------------------------------------
  // The keyword lists set up by BigFiveAnalyzer.__init__

  const NeuroticismWords: seq<string> := [
    "ansioso", "preocupado", "nervioso", "triste", "enfadado", "estresado",
    "miedo", "pánico", "desesperado", "culpable", "deprimido", "angustiado",
    "inseguro", "temeroso", "asustado", "irritado", "frustrado", "abatido"
  ]

  const ExtraversionWords: seq<string> := [
    "fiesta", "amigos", "social", "divertido", "energía", "hablar", "grupo",
    "celebración", "reunión", "alegre", "extrovertido", "risa", "baile",
    "concierto", "evento", "compañía", "socializar", "festejo", "júbilo"
  ]

  const OpennessWords: seq<string> := [
    "arte", "música", "creativo", "innovador", "imaginación", "curioso",
    "aprender", "filosofía", "viajar", "cultura", "libro", "película", "nuevo",
    "diferente", "experiencia", "descubrir", "explorar", "conocimiento", "leer",
    "educación", "tecnología", "ciencia"
  ]

  const AgreeablenessWords: seq<string> := [
    "amable", "compasivo", "ayudar", "cooperar", "empatía", "perdonar",
    "generoso", "considerado", "paciente", "apoyar", "amor", "cariño",
    "bondad", "respeto", "solidaridad", "comprender", "escuchar", "colaborar"
  ]

  const ConscientiousnessWords: seq<string> := [
    "organizado", "responsable", "disciplinado", "trabajo", "esfuerzo",
    "planificar", "cumplir", "puntual", "detallista", "persistente", "metas",
    "logro", "estudio", "proyecto", "deadline", "eficiente", "productivo",
    "ordenado", "sistemático", "constante"
  ]

  /** The five keyword lists, one per trait. */
  datatype Keywords = Keywords(
    neuroticism: seq<string>,
    extraversion: seq<string>,
    openness: seq<string>,
    agreeableness: seq<string>,
    conscientiousness: seq<string>)

  /** The lists `BigFiveAnalyzer.__init__` sets up. */
  const TraitKeywords := Keywords(
    NeuroticismWords, ExtraversionWords, OpennessWords, AgreeablenessWords, ConscientiousnessWords)

  // ---------------------------------------------------------------------
  // The five blends

  /** Friends (capped at 1000), reactions per text (capped at 50) and
      extraversion keywords, weighted 0.3 / 0.4 / 0.3. */
  function ExtraversionBlend(friends: real, reactions: real, texts: nat, wordFreq: real): real {
    Min(friends / 1000.0, 1.0) * 0.3
    + Min(reactions / AtLeastOne(texts) / 50.0, 1.0) * 0.4
    + wordFreq * 0.3
  }

  /** Negative share, imbalance and neuroticism keywords, weighted
      0.4 / 0.3 / 0.3. */
  function NeuroticismBlend(s: AggregateSentiment, wordFreq: real): real {
    s.negative as real / AtLeastOne(s.totalTextsAnalyzed) * 0.4
    + (1.0 - s.sentimentBalance) * 0.3
    + wordFreq * 0.3
  }

  /** Groups (capped at 10), openness keywords and lexical diversity,
      weighted 0.3 / 0.4 / 0.3. */
  function OpennessBlend(groups: nat, wordFreq: real, diversity: real): real {
    Min(groups as real / 10.0, 1.0) * 0.3 + wordFreq * 0.4 + diversity * 0.3
  }

  /** Positive share, agreeableness keywords and comments per text (capped
      at 10), weighted 0.4 / 0.4 / 0.2. */
  function AgreeablenessBlend(s: AggregateSentiment, wordFreq: real, comments: real, texts: nat): real {
    s.positive as real / AtLeastOne(s.totalTextsAnalyzed) * 0.4
    + wordFreq * 0.4
    + Min(comments / AtLeastOne(texts) / 10.0, 1.0) * 0.2
  }

  /** Conscientiousness keywords, consistency (at least 5 texts) and a
      complete biography, weighted 0.6 / 0.2 / 0.2; the last two score
      0.3 when they fail. */
  function ConscientiousnessBlend(wordFreq: real, texts: nat, bioComplete: bool): real {
    wordFreq * 0.6 + (if texts >= 5 then 1.0 else 0.3) * 0.2 + (if bioComplete then 1.0 else 0.3) * 0.2
  }

  // ---------------------------------------------------------------------
  // calculate_big_five_scores

  datatype TraitScores = TraitScores(
    extraversion: real,
    neuroticism: real,
    openness: real,
    agreeableness: real,
    conscientiousness: real)

  predicate InUnit(x: real) { 0.0 <= x <= 1.0 }

  predicate ScoresInUnit(t: TraitScores) {
    InUnit(t.extraversion) && InUnit(t.neuroticism) && InUnit(t.openness)
    && InUnit(t.agreeableness) && InUnit(t.conscientiousness)
  }

  datatype Metadata = Metadata(
    postsAnalyzed: nat,
    wordsAnalyzed: nat,
    uniqueWords: nat,
    lexicalDiversity: real,
    sentiment: AggregateSentiment)

  /** `calculated_components`: the inputs of the extraversion and
      neuroticism blends, kept for inspection. */
  datatype Components = Components(
    friendsNormalized: real,
    reactionsPerPost: real,
    extraversionWordFrequency: real,
    negativeRatio: real,
    sentimentBalance: real,
    neuroticismWordFrequency: real)

  /** What `calculate_big_five_scores` stores in `results`; the defaults
      carry no components. */
  datatype AnalysisResult = AnalysisResult(scores: TraitScores, metadata: Metadata, components: Option<Components>)

  const DefaultScores := TraitScores(0.5, 0.5, 0.5, 0.5, 0.5)

  /** `_get_default_scores`'s results: zero counters and balance 0.5. */
  const DefaultResult := AnalysisResult(
    DefaultScores,
    Metadata(0, 0, 0, 0.0, AggregateSentiment(0, 0, 0, 0.0, 0.5, 0)),
    None)

  /** The snapshot is empty, not a dict, or has no post with text. */
  predicate IsDefaulted(data: Json) {
    !Truthy(data) || !data.Object? || UsableTexts(PostsOf(data.fields)) == []
  }

  /** Each score clamped into [0, 1]. */
  function ClampScores(t: TraitScores): (r: TraitScores)
    ensures ScoresInUnit(r)
  {
    TraitScores(Clamp01(t.extraversion), Clamp01(t.neuroticism), Clamp01(t.openness),
                Clamp01(t.agreeableness), Clamp01(t.conscientiousness))
  }

  /** The five clamped blends of a snapshot with texts. */
  function ScoresOf(lex: Lexicon, kw: Keywords, fields: map<string, Json>, texts: seq<string>, bioComplete: bool): (t: TraitScores)
    ensures ScoresInUnit(t)
  {
    ClampScores(UnclampedScores(lex, kw, fields, texts, bioComplete))
  }

  /** The metadata of a snapshot with texts. */
  function MetadataOf(lex: Lexicon, texts: seq<string>): Metadata {
    var words := Tokens(JoinSpace(texts));
    Metadata(|texts|, |words|, if words == [] then 0 else |Distinct(words)|,
             Round3(LexicalDiversity(words)), AggregateOf(lex, texts))
  }

  /** What every stored result satisfies: scores in [0, 1], buckets that
      partition the analysed texts, at most as many analysed texts as posts,
      and no more distinct words than words. */
  predicate WellFormed(r: AnalysisResult) {
    var m := r.metadata;
    && ScoresInUnit(r.scores)
    && m.sentiment.positive + m.sentiment.negative + m.sentiment.neutral
       == m.sentiment.totalTextsAnalyzed <= m.postsAnalyzed
    && m.uniqueWords <= m.wordsAnalyzed
    && 0.0 <= m.lexicalDiversity <= 1.0
  }

  /** `calculate_big_five_scores` as a function of the snapshot: the stored
      result, or the error it raises. */
  function Analysis(lex: Lexicon, kw: Keywords, data: Json): Outcome<AnalysisResult> {
    if IsDefaulted(data) then Done(DefaultResult)
    else TextsAnalysis(lex, kw, data.fields, UsableTexts(PostsOf(data.fields)))
  }

  /** The branch of `calculate_big_five_scores` that has texts: the scores
      and metadata, or the error the biography lookup raises. */
  function TextsAnalysis(lex: Lexicon, kw: Keywords, fields: map<string, Json>, texts: seq<string>): Outcome<AnalysisResult> {
    match BioComplete(BioOf(fields))
    case Raised(e) => Raised(e)
    case Done(bio) =>
      Done(AnalysisResult(ScoresOf(lex, kw, fields, texts, bio), MetadataOf(lex, texts), Some(ComponentsOf(lex, kw, fields, texts))))
  }

  /** The components of a snapshot with texts. */
  function ComponentsOf(lex: Lexicon, kw: Keywords, fields: map<string, Json>, texts: seq<string>): Components {
    var sentiment := AggregateOf(lex, texts);
    Components(
      Min(FriendsCount(fields) / 1000.0, 1.0),
      FieldSum(PostsOf(fields), "reactions") / AtLeastOne(|texts|),
      WordFrequency(texts, kw.extraversion),
      sentiment.negative as real / AtLeastOne(sentiment.totalTextsAnalyzed),
      sentiment.sentimentBalance,
      WordFrequency(texts, kw.neuroticism))
  }

  /** The stored components are exactly what the extraversion and
      neuroticism blends are made of, with the blends' own weights. */
  lemma ComponentsExplainBlends(lex: Lexicon, kw: Keywords, fields: map<string, Json>, texts: seq<string>, bioComplete: bool)
    ensures var c := ComponentsOf(lex, kw, fields, texts);
      var u := UnclampedScores(lex, kw, fields, texts, bioComplete);
      && u.extraversion == c.friendsNormalized * 0.3 + Min(c.reactionsPerPost / 50.0, 1.0) * 0.4
                           + c.extraversionWordFrequency * 0.3
      && u.neuroticism == c.negativeRatio * 0.4 + (1.0 - c.sentimentBalance) * 0.3
                          + c.neuroticismWordFrequency * 0.3
  {
  }

  /** The defaults are used exactly when the snapshot gives no text: then
      the call succeeds with all five traits at 0.5, and otherwise any
      result it stores counts at least one post. */
  lemma DefaultPolicy(lex: Lexicon, kw: Keywords, data: Json)
    ensures IsDefaulted(data) ==> Analysis(lex, kw, data) == Done(DefaultResult)
    ensures IsDefaulted(data) ==> Analysis(lex, kw, data).value.scores == TraitScores(0.5, 0.5, 0.5, 0.5, 0.5)
    ensures Analysis(lex, kw, data).Done? ==>
      (Analysis(lex, kw, data).value.metadata.postsAnalyzed == 0 <==> IsDefaulted(data))
  {
  }

  /** The call raises exactly when the snapshot has texts and a truthy
      biography that is not a string, and the error is `AttributeError`. */
  lemma RaisesIff(lex: Lexicon, kw: Keywords, data: Json)
    ensures Analysis(lex, kw, data).Raised? <==>
      !IsDefaulted(data) && Truthy(BioOf(data.fields)) && !BioOf(data.fields).Str?
    ensures Analysis(lex, kw, data).Raised? ==> Analysis(lex, kw, data).error == AttributeError
  {
  }

  /** Every stored result has its five scores in [0, 1], and metadata that
      agrees with itself: buckets that partition the analysed texts, at most
      as many analysed texts as posts and no more distinct words than
      words. */
  lemma ResultWellFormed(lex: Lexicon, kw: Keywords, data: Json)
    requires Analysis(lex, kw, data).Done?
    ensures ScoresInUnit(Analysis(lex, kw, data).value.scores)
    ensures var m := Analysis(lex, kw, data).value.metadata;
      && m.sentiment.positive + m.sentiment.negative + m.sentiment.neutral
         == m.sentiment.totalTextsAnalyzed <= m.postsAnalyzed
      && m.uniqueWords <= m.wordsAnalyzed
      && 0.0 <= m.lexicalDiversity <= 1.0
  {
    if !IsDefaulted(data) {
      TextsResultWellFormed(lex, kw, data.fields, UsableTexts(PostsOf(data.fields)));
    }
  }

  /** The same for the branch with texts, for any texts. */
  lemma TextsResultWellFormed(lex: Lexicon, kw: Keywords, fields: map<string, Json>, texts: seq<string>)
    requires TextsAnalysis(lex, kw, fields, texts).Done?
    ensures WellFormed(TextsAnalysis(lex, kw, fields, texts).value)
  {
    AggregateBounds(lex, texts);
    var words := Tokens(JoinSpace(texts));
    DistinctBounds(words);
    RoundWithin(LexicalDiversity(words), 0, 1000);
  }

  /** The metadata of a non-default result counts the usable texts and the
      tokens of their join, case-sensitively. */
  lemma MetadataCounts(lex: Lexicon, kw: Keywords, data: Json)
    requires !IsDefaulted(data) && Analysis(lex, kw, data).Done?
    ensures var texts := UsableTexts(PostsOf(data.fields));
      && Analysis(lex, kw, data).value.metadata.postsAnalyzed == |texts| > 0
      && Analysis(lex, kw, data).value.metadata.wordsAnalyzed == |TokensOfAll(texts)|
      && Analysis(lex, kw, data).value.metadata.sentiment == AggregateOf(lex, texts)
  {
    TokensOfJoin(UsableTexts(PostsOf(data.fields)));
  }

  lemma PerTextNonNegative(sum: real, texts: nat, cap: real)
    requires sum >= 0.0 && cap > 0.0
    ensures sum / AtLeastOne(texts) / cap >= 0.0
  {
    var d := AtLeastOne(texts);
    var q := sum / d;
    assert q * d == sum;
    var r := q / cap;
    assert r * cap == q;
  }

  lemma ExtraversionInUnit(friends: real, reactions: real, texts: nat, wordFreq: real)
    requires friends >= 0.0 && reactions >= 0.0 && InUnit(wordFreq)
    ensures InUnit(ExtraversionBlend(friends, reactions, texts, wordFreq))
  {
    PerTextNonNegative(reactions, texts, 50.0);
  }

  lemma NeuroticismInUnit(s: AggregateSentiment, wordFreq: real)
    requires s.negative <= s.totalTextsAnalyzed && InUnit(s.sentimentBalance) && InUnit(wordFreq)
    ensures InUnit(NeuroticismBlend(s, wordFreq))
  {
    ShareInUnit(s.negative, s.totalTextsAnalyzed);
  }

  lemma OpennessInUnit(groups: nat, wordFreq: real, diversity: real)
    requires InUnit(wordFreq) && InUnit(diversity)
    ensures InUnit(OpennessBlend(groups, wordFreq, diversity))
  {
  }

  lemma AgreeablenessInUnit(s: AggregateSentiment, wordFreq: real, comments: real, texts: nat)
    requires s.positive <= s.totalTextsAnalyzed && comments >= 0.0 && InUnit(wordFreq)
    ensures InUnit(AgreeablenessBlend(s, wordFreq, comments, texts))
  {
    ShareInUnit(s.positive, s.totalTextsAnalyzed);
    PerTextNonNegative(comments, texts, 10.0);
  }

  lemma ConscientiousnessInUnit(wordFreq: real, texts: nat, bioComplete: bool)
    requires InUnit(wordFreq)
    ensures InUnit(ConscientiousnessBlend(wordFreq, texts, bioComplete))
  {
  }

  /** With non-negative friends, reactions and comments, every blend already
      lies in [0, 1]: the final clamp changes nothing. */
  lemma BlendsInUnit(lex: Lexicon, kw: Keywords, fields: map<string, Json>, texts: seq<string>, bioComplete: bool)
    requires FriendsCount(fields) >= 0.0
    requires FieldSum(PostsOf(fields), "reactions") >= 0.0
    requires FieldSum(PostsOf(fields), "comments") >= 0.0
    ensures ScoresOf(lex, kw, fields, texts, bioComplete) == UnclampedScores(lex, kw, fields, texts, bioComplete)
  {
    var posts := PostsOf(fields);
    var sentiment := AggregateOf(lex, texts);
    AggregateBounds(lex, texts);
    ExtraversionInUnit(FriendsCount(fields), FieldSum(posts, "reactions"), |texts|,
                       WordFrequency(texts, kw.extraversion));
    NeuroticismInUnit(sentiment, WordFrequency(texts, kw.neuroticism));
    OpennessInUnit(GroupCount(fields), WordFrequency(texts, kw.openness),
                   LexicalDiversity(Tokens(JoinSpace(texts))));
    AgreeablenessInUnit(sentiment, WordFrequency(texts, kw.agreeableness),
                        FieldSum(posts, "comments"), |texts|);
    ConscientiousnessInUnit(WordFrequency(texts, kw.conscientiousness), |texts|, bioComplete);
  }

  /** The five blends before clamping. */
  function UnclampedScores(lex: Lexicon, kw: Keywords, fields: map<string, Json>, texts: seq<string>, bioComplete: bool): TraitScores {
    var posts := PostsOf(fields);
    var sentiment := AggregateOf(lex, texts);
    TraitScores(
      ExtraversionBlend(FriendsCount(fields), FieldSum(posts, "reactions"), |texts|,
                        WordFrequency(texts, kw.extraversion)),
      NeuroticismBlend(sentiment, WordFrequency(texts, kw.neuroticism)),
      OpennessBlend(GroupCount(fields), WordFrequency(texts, kw.openness),
                    LexicalDiversity(Tokens(JoinSpace(texts)))),
      AgreeablenessBlend(sentiment, WordFrequency(texts, kw.agreeableness),
                         FieldSum(posts, "comments"), |texts|),
      ConscientiousnessBlend(WordFrequency(texts, kw.conscientiousness), |texts|, bioComplete))
  }

  /** More friends never lower the extraversion blend. */
  lemma ExtraversionMonotone(a: real, b: real, reactions: real, texts: nat, wordFreq: real)
    requires a <= b
    ensures ExtraversionBlend(a, reactions, texts, wordFreq) <= ExtraversionBlend(b, reactions, texts, wordFreq)
  {
  }

  /** Raising the friend count never lowers extraversion, and changes no
      other trait, neither the outcome's kind nor the metadata. */
  lemma FriendsMonotone(lex: Lexicon, kw: Keywords, fields: map<string, Json>, a: real, b: real)
    requires a <= b
    ensures var lo := Analysis(lex, kw, Object(fields["friends_count" := Num(a)]));
      var hi := Analysis(lex, kw, Object(fields["friends_count" := Num(b)]));
      && lo.Done? == hi.Done?
      && (lo.Done? ==>
          && lo.value.scores.extraversion <= hi.value.scores.extraversion
          && lo.value.scores.(extraversion := 0.0) == hi.value.scores.(extraversion := 0.0)
          && lo.value.metadata == hi.value.metadata)
  {
    var lo := fields["friends_count" := Num(a)];
    var hi := fields["friends_count" := Num(b)];
    SameExceptFriends(fields, a, b);
    var texts := UsableTexts(PostsOf(lo));
    var bio := BioComplete(BioOf(lo));
    if texts != [] && bio.Done? {
      ScoresFriendsMonotone(lex, kw, lo, hi, texts, bio.value);
    }
  }

  /** Setting the friend count leaves posts, groups and biography alone. */
  lemma SameExceptFriends(fields: map<string, Json>, a: real, b: real)
    ensures var lo := fields["friends_count" := Num(a)];
      var hi := fields["friends_count" := Num(b)];
      && PostsOf(lo) == PostsOf(hi) && GroupCount(lo) == GroupCount(hi) && BioOf(lo) == BioOf(hi)
      && Truthy(Object(lo)) && Truthy(Object(hi))
      && FriendsCount(lo) == a && FriendsCount(hi) == b
  {
    var lo := fields["friends_count" := Num(a)];
    var hi := fields["friends_count" := Num(b)];
    assert Get(lo, "posts", List([])) == Get(hi, "posts", List([]));
    assert Get(lo, "groups", List([])) == Get(hi, "groups", List([]));
    assert Get(lo, "basic_info", Object(map[])) == Get(hi, "basic_info", Object(map[]));
    assert "friends_count" in lo && "friends_count" in hi;
  }

  lemma ScoresFriendsMonotone(lex: Lexicon, kw: Keywords, lo: map<string, Json>, hi: map<string, Json>, texts: seq<string>, bio: bool)
    requires PostsOf(lo) == PostsOf(hi) && GroupCount(lo) == GroupCount(hi)
    requires FriendsCount(lo) <= FriendsCount(hi)
    ensures ScoresOf(lex, kw, lo, texts, bio).extraversion <= ScoresOf(lex, kw, hi, texts, bio).extraversion
    ensures ScoresOf(lex, kw, lo, texts, bio).(extraversion := 0.0) == ScoresOf(lex, kw, hi, texts, bio).(extraversion := 0.0)
  {
    var posts := PostsOf(lo);
    ExtraversionMonotone(FriendsCount(lo), FriendsCount(hi), FieldSum(posts, "reactions"), |texts|,
                         WordFrequency(texts, kw.extraversion));
  }
}
