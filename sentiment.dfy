/** The lexicon-based sentiment analyzer for Spanish text
    (`SpanishSentimentAnalyzer`): four word lists, a cursor-driven scan with
    negation lookahead, and the polarity, subjectivity and label computed
    from the two hit counts. The scan reads its lists through `cls`, so it
    is stated for any lexicon and instantiated with the Spanish one. */
module Sentiment {
  import opened Wrappers
  import opened Text
  import opened Numeric

  const PositiveWords: set<string> := {
    "feliz", "contento", "alegre", "emocionado", "encantado", "amor",
    "maravilloso", "fantástico", "excelente", "genial", "increíble",
    "perfecto", "bueno", "bonito", "hermoso", "divertido", "agradable",
    "positivo", "optimista", "satisfecho", "encanta", "gusta", "apasiona",
    "entusiasma", "admira"
  }

  const NegativeWords: set<string> := {
    "triste", "deprimido", "enojado", "enfadado", "molesto", "frustrado",
    "asustado", "preocupado", "ansioso", "nervioso", "estresado", "malo",
    "horrible", "terrible", "pésimo", "aburrido", "cansado", "agotado",
    "desanimado", "desesperado", "odio", "detesto", "molesta", "irrita",
    "desagrada"
  }

  const Intensifiers: set<string> := {
    "muy", "mucho", "realmente", "totalmente", "absolutamente", "extremadamente"
  }

  const Negations: set<string> := {
    "no", "nunca", "jamás", "tampoco", "nada", "ningún", "ninguna"
  }

  /** The four class-level word lists the scan consults. */
  datatype Lexicon = Lexicon(
    positive: set<string>,
    negative: set<string>,
    intensifiers: set<string>,
    negations: set<string>)

  const Spanish := Lexicon(PositiveWords, NegativeWords, Intensifiers, Negations)

  predicate IsSentimentWord(lex: Lexicon, w: string) {
    w in lex.positive || w in lex.negative
  }

  /** No word is both positive and negative, and neither an intensifier
      nor a negation carries sentiment of its own. */
  predicate Separated(lex: Lexicon) {
    && (forall w :: w in lex.positive ==> w !in lex.negative)
    && (forall w :: w in lex.intensifiers ==> !IsSentimentWord(lex, w))
    && (forall w :: w in lex.negations ==> !IsSentimentWord(lex, w))
  }

  lemma PolaritiesDisjoint(w: string)
    ensures !(w in PositiveWords && w in NegativeWords)
  {
  }

  lemma IntensifiersNeutral(w: string)
    ensures w in Intensifiers ==> !(w in PositiveWords || w in NegativeWords)
  {
  }

  lemma NegationsNeutral(w: string)
    ensures w in Negations ==> !(w in PositiveWords || w in NegativeWords)
  {
  }

  /** The Spanish word lists are separated. */
  lemma SpanishSeparated()
    ensures Separated(Spanish)
  {
    forall w ensures !(w in PositiveWords && w in NegativeWords) {
      PolaritiesDisjoint(w);
    }
    forall w ensures w in Intensifiers ==> !(w in PositiveWords || w in NegativeWords) {
      IntensifiersNeutral(w);
    }
    forall w ensures w in Negations ==> !(w in PositiveWords || w in NegativeWords) {
      NegationsNeutral(w);
    }
  }

  /** The two hit counters of the scan. */
  datatype Tally = Tally(pos: nat, neg: nat)

  /** `min(4, len(words) - i)`: the exclusive end of the lookahead offsets
      tried after a negation at position `i`. */
  function WindowEnd(n: nat, i: nat): (e: nat)
    requires i < n
    ensures 1 <= e <= 4 && i + e <= n
  {
    if 4 <= n - i then 4 else n - i
  }

  /** The offset of the first sentiment word among offsets `k ..` of the
      lookahead window after position `i`, if any. */
  function SentimentAhead(lex: Lexicon, words: seq<string>, i: nat, k: nat): (r: Option<nat>)
    requires i < |words| && 1 <= k
    ensures r.Some? ==>
      && k <= r.value < WindowEnd(|words|, i)
      && IsSentimentWord(lex, words[i + r.value])
      && forall j :: i + k <= j < i + r.value ==> !IsSentimentWord(lex, words[j])
    ensures r.None? ==>
      forall j :: i + k <= j < i + WindowEnd(|words|, i) ==> !IsSentimentWord(lex, words[j])
    decreases 4 - k
  {
    if k >= WindowEnd(|words|, i) then None
    else if IsSentimentWord(lex, words[i + k]) then Some(k)
    else SentimentAhead(lex, words, i, k + 1)
  }

  /** What the scan does at cursor position `i`: the hits it adds and the
      position it moves the cursor to. */
  datatype Move = Move(hit: Tally, next: nat)

  /** One iteration of the scan. A negation with a sentiment word in its
      window adds one hit of the opposite sign and moves past that word;
      any other token adds its own hit, if it has one, and moves by one. */
  function Step(lex: Lexicon, words: seq<string>, i: nat): (m: Move)
    requires i < |words|
    ensures i < m.next <= |words|
    ensures m.hit.pos + m.hit.neg <= 1
  {
    if words[i] in lex.negations && SentimentAhead(lex, words, i, 1).Some? then
      var k := SentimentAhead(lex, words, i, 1).value;
      Move(if words[i + k] in lex.positive then Tally(0, 1) else Tally(1, 0), i + k + 1)
    else
      Move(if words[i] in lex.positive then Tally(1, 0)
           else if words[i] in lex.negative then Tally(0, 1)
           else Tally(0, 0),
           i + 1)
  }

  function Add(a: Tally, b: Tally): Tally {
    Tally(a.pos + b.pos, a.neg + b.neg)
  }

  /** The hits the scan collects from cursor position `i` to the end. */
  function ScanFrom(lex: Lexicon, words: seq<string>, i: nat): (t: Tally)
    requires i <= |words|
    ensures t.pos + t.neg <= |words| - i
    decreases |words| - i
  {
    if i == |words| then Tally(0, 0)
    else
      var m := Step(lex, words, i);
      Add(m.hit, ScanFrom(lex, words, m.next))
  }

  /** The weight `analyze_sentiment` gives the token at `i`: 1.5 when that
      token is an intensifier directly followed by a sentiment word, else
      1.0. The weight is only ever added for the token itself, and an
      intensifier is never a sentiment word, so every token that is
      counted is counted with weight 1.0. */
  function Intensity(lex: Lexicon, words: seq<string>, i: nat): (w: real)
    requires Separated(lex) && i < |words|
    ensures IsSentimentWord(lex, words[i]) ==> w == 1.0
    ensures w == 1.0 || w == 1.5
  {
    if words[i] in lex.intensifiers && i + 1 < |words| && IsSentimentWord(lex, words[i + 1]) then 1.5
    else 1.0
  }

  /** `(pos - neg) / (pos + neg)`, or 0 when nothing was hit. */
  function Polarity(t: Tally): (p: real)
    ensures -1.0 <= p <= 1.0
    ensures p > 0.0 <==> t.pos > t.neg
    ensures p < 0.0 <==> t.neg > t.pos
    ensures t.neg == 0 && t.pos > 0 ==> p == 1.0
    ensures t.pos == 0 && t.neg > 0 ==> p == -1.0
  {
    var total := (t.pos + t.neg) as real;
    if total > 0.0 then
      var d := (t.pos as real - t.neg as real);
      assert -total <= d <= total;
      DivisionBounds(d, total);
      d / total
    else 0.0
  }

  lemma DivisionBounds(d: real, total: real)
    requires total > 0.0 && -total <= d <= total
    ensures -1.0 <= d / total <= 1.0
    ensures d / total > 0.0 <==> d > 0.0
    ensures d / total < 0.0 <==> d < 0.0
    ensures d == total ==> d / total == 1.0
    ensures d == -total ==> d / total == -1.0
  {
    var q := d / total;
    assert q * total == d;
  }

  datatype Label = Positivo | Negativo | Neutro

  /** The label thresholds, applied to the unrounded polarity. */
  function LabelOf(p: real): Label {
    if p > 0.15 then Positivo else if p < -0.15 then Negativo else Neutro
  }

  /** What `analyze_sentiment` returns. */
  datatype SentimentResult = SentimentResult(
    polarity: real,
    subjectivity: real,
    sentimentLabel: Label,
    positiveScore: real,
    negativeScore: real)

  /** The fixed result for texts the analyzer does not score. */
  const NeutralResult := SentimentResult(0.0, 0.0, Neutro, 0.0, 0.0)

  /** The tokens of the lower-cased text. */
  function Words(text: string): seq<string> {
    Tokens(LowerStr(text))
  }

  /** The text is long enough and has at least one token. */
  predicate IsScored(text: string) {
    text != [] && |Strip(text)| >= 5 && Words(text) != []
  }

  /** The polarity before rounding: the one the label is taken from. */
  function RawPolarity(lex: Lexicon, text: string): (p: real)
    ensures -1.0 <= p <= 1.0
  {
    if IsScored(text) then Polarity(ScanFrom(lex, Words(text), 0)) else 0.0
  }

  /** The result for a text of `n` tokens on which the scan hit `t`. */
  function ResultOf(t: Tally, n: nat): SentimentResult
    requires n > 0
  {
    var p := Polarity(t);
    var subjectivity := (t.pos + t.neg) as real / n as real;
    SentimentResult(Round3(p), Round3(Min(subjectivity, 1.0)), LabelOf(p),
                    t.pos as real, t.neg as real)
  }

  /** The specification of `analyze_sentiment`. */
  function SentimentOf(lex: Lexicon, text: string): SentimentResult {
    if !IsScored(text) then NeutralResult
    else
      var words := Words(text);
      ResultOf(ScanFrom(lex, words, 0), |words|)
  }

  /** `SpanishSentimentAnalyzer.analyze_sentiment`: the length guard, the
      tokenizer, the scan, then polarity, subjectivity and label. */
  method AnalyzeSentiment(lex: Lexicon, text: string) returns (r: SentimentResult)
    requires Separated(lex)
    ensures r == SentimentOf(lex, text)
  {
    if text == [] || |Strip(text)| < 5 {
      return NeutralResult;
    }
    var words := Tokens(LowerStr(text));
    if words == [] {
      return NeutralResult;
    }
    var totalWords := |words|;
    var positiveScore, negativeScore := ScanScores(lex, words);
    r := Summarize(positiveScore, negativeScore, totalWords, ScanFrom(lex, words, 0));
  }

  /** The tail of `analyze_sentiment`: polarity, subjectivity and label from
      the two scores and the number of tokens. */
  method Summarize(positiveScore: real, negativeScore: real, totalWords: nat, ghost t: Tally)
    returns (r: SentimentResult)
    requires totalWords > 0
    requires positiveScore == t.pos as real && negativeScore == t.neg as real
    ensures r == ResultOf(t, totalWords)
  {
    var totalScore := positiveScore + negativeScore;
    var polarity := if totalScore > 0.0 then (positiveScore - negativeScore) / totalScore else 0.0;
    var subjectivity := if totalWords > 0 then totalScore / totalWords as real else 0.0;
    r := SentimentResult(Round3(polarity), Round3(Min(subjectivity, 1.0)), LabelOf(polarity),
                         positiveScore, negativeScore);
  }

  /** The `while i < len(words)` loop of `analyze_sentiment`: the cursor
      scan with the negation lookahead and the intensifier weight. */
  method ScanScores(lex: Lexicon, words: seq<string>) returns (positiveScore: real, negativeScore: real)
    requires Separated(lex)
    ensures positiveScore == ScanFrom(lex, words, 0).pos as real
    ensures negativeScore == ScanFrom(lex, words, 0).neg as real
  {
    positiveScore, negativeScore := 0.0, 0.0;
    var i := 0;
    while i < |words|
      invariant 0 <= i <= |words|
      invariant positiveScore + ScanFrom(lex, words, i).pos as real == ScanFrom(lex, words, 0).pos as real
      invariant negativeScore + ScanFrom(lex, words, i).neg as real == ScanFrom(lex, words, 0).neg as real
      decreases |words| - i
    {
      ghost var start, pos0, neg0 := i, positiveScore, negativeScore;
      var word := words[i];
      var isNegated := false;
      if word in lex.negations {
        var found := NegationLookahead(lex, words, i);
        if found.Some? {
          NegatedMove(lex, words, i);
          if words[i + found.value] in lex.positive {
            negativeScore := negativeScore + 1.0;  // a negated positive counts as negative
          } else {
            positiveScore := positiveScore + 1.0;  // a negated negative counts as positive
          }
          isNegated := true;
          i := i + found.value;
        }
      }
      if isNegated {
        i := i + 1;
      } else {
        PlainMove(lex, words, i);
        var intensity := Intensity(lex, words, i);
        if word in lex.positive {
          positiveScore := positiveScore + intensity;
        } else if word in lex.negative {
          negativeScore := negativeScore + intensity;
        }
        i := i + 1;
      }
      assert i == Step(lex, words, start).next;
      assert positiveScore == pos0 + Step(lex, words, start).hit.pos as real;
      assert negativeScore == neg0 + Step(lex, words, start).hit.neg as real;
      ScanAdvance(lex, words, start, pos0, neg0, positiveScore, negativeScore);
    }
  }

  /** The step at a negation whose lookahead finds a sentiment word. */
  lemma NegatedMove(lex: Lexicon, words: seq<string>, i: nat)
    requires i < |words| && words[i] in lex.negations
    requires SentimentAhead(lex, words, i, 1).Some?
    ensures var k := SentimentAhead(lex, words, i, 1).value;
      Step(lex, words, i) ==
        Move(if words[i + k] in lex.positive then Tally(0, 1) else Tally(1, 0), i + k + 1)
  {
  }

  /** The step at any other token: its own hit, if any, and a move by one. */
  lemma PlainMove(lex: Lexicon, words: seq<string>, i: nat)
    requires i < |words|
    requires words[i] in lex.negations ==> SentimentAhead(lex, words, i, 1).None?
    ensures Step(lex, words, i) ==
      Move(if words[i] in lex.positive then Tally(1, 0)
           else if words[i] in lex.negative then Tally(0, 1)
           else Tally(0, 0),
           i + 1)
  {
  }

  /** The loop invariant of `ScanScores` survives one iteration. */
  lemma ScanAdvance(lex: Lexicon, words: seq<string>, i: nat, pos0: real, neg0: real, pos1: real, neg1: real)
    requires i < |words|
    requires pos0 + ScanFrom(lex, words, i).pos as real == ScanFrom(lex, words, 0).pos as real
    requires neg0 + ScanFrom(lex, words, i).neg as real == ScanFrom(lex, words, 0).neg as real
    requires pos1 == pos0 + Step(lex, words, i).hit.pos as real
    requires neg1 == neg0 + Step(lex, words, i).hit.neg as real
    ensures pos1 + ScanFrom(lex, words, Step(lex, words, i).next).pos as real == ScanFrom(lex, words, 0).pos as real
    ensures neg1 + ScanFrom(lex, words, Step(lex, words, i).next).neg as real == ScanFrom(lex, words, 0).neg as real
  {
  }

  /** The `for lookahead in range(1, min(4, len(words) - i))` loop run at a
      negation: the offset of the first sentiment word after it, if any. */
  method NegationLookahead(lex: Lexicon, words: seq<string>, i: nat) returns (found: Option<nat>)
    requires i < |words|
    ensures found == SentimentAhead(lex, words, i, 1)
  {
    var stop := if 4 < |words| - i then 4 else |words| - i;
    var lookahead := 1;
    while lookahead < stop
      invariant stop == WindowEnd(|words|, i) && 1 <= lookahead <= stop
      invariant SentimentAhead(lex, words, i, lookahead) == SentimentAhead(lex, words, i, 1)
      decreases stop - lookahead
    {
      var nextWord := words[i + lookahead];
      if nextWord in lex.positive || nextWord in lex.negative {
        return Some(lookahead);
      }
      lookahead := lookahead + 1;
    }
    return None;
  }

  /** From a position with no negation ahead, every token counts for
      itself: the scan counts the positive and the negative tokens. */
  lemma {:induction false} ScanWithoutNegations(lex: Lexicon, words: seq<string>, i: nat)
    requires Separated(lex) && i <= |words|
    requires forall j :: i <= j < |words| ==> words[j] !in lex.negations
    ensures ScanFrom(lex, words, i) ==
      Tally(CountIn(words[i..], lex.positive), CountIn(words[i..], lex.negative))
    decreases |words| - i
  {
    if i < |words| {
      PlainMove(lex, words, i);
      ScanUnfold(lex, words, i);
      assert words[i..][1..] == words[i + 1..];
      ScanWithoutNegations(lex, words, i + 1);
    }
  }

  /** With no sentiment word from position `i` on, the scan adds nothing. */
  lemma {:induction false} ScanWithoutSentiment(lex: Lexicon, words: seq<string>, i: nat)
    requires i <= |words|
    requires forall j :: i <= j < |words| ==> !IsSentimentWord(lex, words[j])
    ensures ScanFrom(lex, words, i) == Tally(0, 0)
    decreases |words| - i
  {
    if i < |words| {
      NothingAhead(lex, words, i);
      QuietStep(lex, words, i);
      ScanWithoutSentiment(lex, words, i + 1);
    } else {
      assert ScanFrom(lex, words, i) == Tally(0, 0);
    }
  }

  /** A negation followed, within three tokens and with no sentiment word in
      between, by the sentiment word at `j`: the scan adds one hit of the
      opposite sign and resumes after `j`. */
  lemma Negated(lex: Lexicon, words: seq<string>, i: nat, j: nat)
    requires i < j < |words| && j <= i + 3
    requires words[i] in lex.negations && IsSentimentWord(lex, words[j])
    requires forall k :: i < k < j ==> !IsSentimentWord(lex, words[k])
    ensures ScanFrom(lex, words, i) ==
      Add(if words[j] in lex.positive then Tally(0, 1) else Tally(1, 0), ScanFrom(lex, words, j + 1))
  {
    SentimentAheadFinds(lex, words, i, 1, j - i);
    var m := Step(lex, words, i);
    assert m == Move(if words[j] in lex.positive then Tally(0, 1) else Tally(1, 0), j + 1);
    assert ScanFrom(lex, words, i) == Add(m.hit, ScanFrom(lex, words, m.next));
  }

  /** The lookahead finds the first sentiment word of the window. */
  lemma {:induction false} SentimentAheadFinds(lex: Lexicon, words: seq<string>, i: nat, k: nat, d: nat)
    requires i < |words| && 1 <= k <= d && d <= 3 && i + d < |words|
    requires IsSentimentWord(lex, words[i + d])
    requires forall j :: i + k <= j < i + d ==> !IsSentimentWord(lex, words[j])
    ensures SentimentAhead(lex, words, i, k) == Some(d)
    decreases d - k
  {
    if k < d {
      SentimentAheadFinds(lex, words, i, k + 1, d);
    }
  }

  /** A negation with no sentiment word among the next three tokens is an
      ordinary token that carries no sentiment. */
  lemma NegationWithoutTarget(lex: Lexicon, words: seq<string>, i: nat)
    requires Separated(lex)
    requires i < |words| && words[i] in lex.negations
    requires forall j :: i < j < |words| && j <= i + 3 ==> !IsSentimentWord(lex, words[j])
    ensures ScanFrom(lex, words, i) == ScanFrom(lex, words, i + 1)
  {
    NothingAhead(lex, words, i);
  }

  /** A token that is no sentiment word, where the lookahead finds nothing,
      adds nothing and moves the cursor by one. */
  lemma QuietStep(lex: Lexicon, words: seq<string>, i: nat)
    requires i < |words| && !IsSentimentWord(lex, words[i])
    requires SentimentAhead(lex, words, i, 1).None?
    ensures ScanFrom(lex, words, i) == ScanFrom(lex, words, i + 1)
  {
    QuietMove(lex, words, i);
    ScanUnfold(lex, words, i);
  }

  /** The step at a token that is no sentiment word, where the lookahead
      finds nothing, hits nothing and moves by one. */
  lemma QuietMove(lex: Lexicon, words: seq<string>, i: nat)
    requires i < |words| && !IsSentimentWord(lex, words[i])
    requires SentimentAhead(lex, words, i, 1).None?
    ensures Step(lex, words, i) == Move(Tally(0, 0), i + 1)
  {
  }

  /** The scan from a position before the end is that position's step
      followed by the scan from where the step moves to. */
  lemma ScanUnfold(lex: Lexicon, words: seq<string>, i: nat)
    requires i < |words|
    ensures ScanFrom(lex, words, i) ==
      Add(Step(lex, words, i).hit, ScanFrom(lex, words, Step(lex, words, i).next))
  {
  }

  /** With no sentiment word among the three tokens after `i`, the
      lookahead finds nothing. */
  lemma NothingAhead(lex: Lexicon, words: seq<string>, i: nat)
    requires i < |words|
    requires forall j :: i < j < |words| && j <= i + 3 ==> !IsSentimentWord(lex, words[j])
    ensures SentimentAhead(lex, words, i, 1) == None
  {
  }

  /** For a scan that hit at most `n` of `n` tokens, polarity and
      subjectivity stay in their ranges. */
  lemma ResultBounds(t: Tally, n: nat)
    requires 0 < n && t.pos + t.neg <= n
    ensures -1.0 <= ResultOf(t, n).polarity <= 1.0
    ensures 0.0 <= ResultOf(t, n).subjectivity <= 1.0
  {
    RoundWithin(Polarity(t), -1000, 1000);
    var a := (t.pos + t.neg) as real;
    var q := a / n as real;
    assert q * n as real == a;
    assert 0.0 <= q;
    RoundWithin(Min(q, 1.0), 0, 1000);
  }

  /** Polarity, subjectivity and the two scores stay in their ranges, and
      no token is counted twice. */
  lemma SentimentBounds(lex: Lexicon, text: string)
    ensures -1.0 <= SentimentOf(lex, text).polarity <= 1.0
    ensures 0.0 <= SentimentOf(lex, text).subjectivity <= 1.0
    ensures 0.0 <= SentimentOf(lex, text).positiveScore && 0.0 <= SentimentOf(lex, text).negativeScore
    ensures SentimentOf(lex, text).positiveScore + SentimentOf(lex, text).negativeScore
            <= |Words(text)| as real
  {
    if IsScored(text) {
      var words := Words(text);
      ResultBounds(ScanFrom(lex, words, 0), |words|);
    }
  }

  /** The label is read off the unrounded polarity; after rounding, a
      positive label still means a polarity of at least 0.15, a negative one
      at most -0.15, and a rounded polarity beyond a threshold always comes
      with that threshold's label. */
  lemma LabelThresholds(lex: Lexicon, text: string)
    ensures SentimentOf(lex, text).sentimentLabel == Positivo <==> RawPolarity(lex, text) > 0.15
    ensures SentimentOf(lex, text).sentimentLabel == Negativo <==> RawPolarity(lex, text) < -0.15
    ensures SentimentOf(lex, text).sentimentLabel == Positivo ==> SentimentOf(lex, text).polarity >= 0.15
    ensures SentimentOf(lex, text).sentimentLabel == Negativo ==> SentimentOf(lex, text).polarity <= -0.15
    ensures SentimentOf(lex, text).polarity > 0.15 ==> SentimentOf(lex, text).sentimentLabel == Positivo
    ensures SentimentOf(lex, text).polarity < -0.15 ==> SentimentOf(lex, text).sentimentLabel == Negativo
  {
    if IsScored(text) {
      var p := RawPolarity(lex, text);
      if p > 0.15 {
        RoundWithin(p, 150, 1000);
      } else if p < -0.15 {
        RoundWithin(p, -1000, -150);
      } else {
        RoundWithin(p, -150, 150);
      }
    }
  }

  /** Tokens with positive words but no negative word and no negation
      give only positive hits, at least one. */
  lemma PositiveOnlyScan(lex: Lexicon, words: seq<string>)
    requires Separated(lex)
    requires forall j :: 0 <= j < |words| ==> words[j] !in lex.negations && words[j] !in lex.negative
    requires exists j :: 0 <= j < |words| && words[j] in lex.positive
    ensures ScanFrom(lex, words, 0).neg == 0 < ScanFrom(lex, words, 0).pos
  {
    ScanWithoutNegations(lex, words, 0);
    assert words[0..] == words;
    CountInZeroIff(words, lex.negative);
    CountInZeroIff(words, lex.positive);
  }

  /** Tokens with negative words but no positive word and no negation
      give only negative hits, at least one. */
  lemma NegativeOnlyScan(lex: Lexicon, words: seq<string>)
    requires Separated(lex)
    requires forall j :: 0 <= j < |words| ==> words[j] !in lex.negations && words[j] !in lex.positive
    requires exists j :: 0 <= j < |words| && words[j] in lex.negative
    ensures ScanFrom(lex, words, 0).pos == 0 < ScanFrom(lex, words, 0).neg
  {
    ScanWithoutNegations(lex, words, 0);
    assert words[0..] == words;
    CountInZeroIff(words, lex.negative);
    CountInZeroIff(words, lex.positive);
  }

  /** Hits of one sign only give polarity 1 or -1 and the matching label. */
  lemma OneSidedResult(t: Tally, n: nat)
    requires 0 < n
    ensures t.neg == 0 < t.pos ==>
      ResultOf(t, n).polarity == 1.0 && ResultOf(t, n).sentimentLabel == Positivo
    ensures t.pos == 0 < t.neg ==>
      ResultOf(t, n).polarity == -1.0 && ResultOf(t, n).sentimentLabel == Negativo
  {
    assert Round3(1.0) == 1.0 by { RoundWithin(1.0, 1000, 1000); }
    assert Round3(-1.0) == -1.0 by { RoundWithin(-1.0, -1000, -1000); }
  }

  /** A scored text whose tokens hold positive words but no negative word
      and no negation has polarity 1 and is labelled positive. */
  lemma OnlyPositive(lex: Lexicon, text: string)
    requires Separated(lex) && IsScored(text)
    requires forall j :: 0 <= j < |Words(text)| ==>
      Words(text)[j] !in lex.negations && Words(text)[j] !in lex.negative
    requires exists j :: 0 <= j < |Words(text)| && Words(text)[j] in lex.positive
    ensures SentimentOf(lex, text).polarity == 1.0
    ensures SentimentOf(lex, text).sentimentLabel == Positivo
  {
    var words := Words(text);
    PositiveOnlyScan(lex, words);
    OneSidedResult(ScanFrom(lex, words, 0), |words|);
  }

  /** A scored text whose tokens hold negative words but no positive word
      and no negation has polarity -1 and is labelled negative. */
  lemma OnlyNegative(lex: Lexicon, text: string)
    requires Separated(lex) && IsScored(text)
    requires forall j :: 0 <= j < |Words(text)| ==>
      Words(text)[j] !in lex.negations && Words(text)[j] !in lex.positive
    requires exists j :: 0 <= j < |Words(text)| && Words(text)[j] in lex.negative
    ensures SentimentOf(lex, text).polarity == -1.0
    ensures SentimentOf(lex, text).sentimentLabel == Negativo
  {
    var words := Words(text);
    NegativeOnlyScan(lex, words);
    OneSidedResult(ScanFrom(lex, words, 0), |words|);
  }
  /** A scored text that opens with a negation whose window holds the only
      sentiment word of the text takes that word's polarity reversed, and
      the matching label. "No me siento feliz con esto" has this shape with
      the Spanish lists: "no" is a negation, "feliz" at offset 3 is
      positive and no other token carries sentiment, so here the polarity
      is -1 and the label negative. */
  lemma NegatedText(lex: Lexicon, text: string, j: nat)
    requires Separated(lex) && IsScored(text)
    requires 0 < j <= 3 && j < |Words(text)|
    requires Words(text)[0] in lex.negations && IsSentimentWord(lex, Words(text)[j])
    requires forall k :: 0 <= k < |Words(text)| && k != j ==> !IsSentimentWord(lex, Words(text)[k])
    ensures Words(text)[j] in lex.positive ==>
      SentimentOf(lex, text).polarity == -1.0 && SentimentOf(lex, text).sentimentLabel == Negativo
    ensures Words(text)[j] in lex.negative ==>
      SentimentOf(lex, text).polarity == 1.0 && SentimentOf(lex, text).sentimentLabel == Positivo
  {
    var words := Words(text);
    NegatedScan(lex, words, j);
    OneSidedResult(ScanFrom(lex, words, 0), |words|);
  }

  /** The scan of such tokens hits once, with the sign reversed. */
  lemma NegatedScan(lex: Lexicon, words: seq<string>, j: nat)
    requires 0 < j <= 3 && j < |words|
    requires words[0] in lex.negations && IsSentimentWord(lex, words[j])
    requires forall k :: 0 <= k < |words| && k != j ==> !IsSentimentWord(lex, words[k])
    ensures ScanFrom(lex, words, 0) == if words[j] in lex.positive then Tally(0, 1) else Tally(1, 0)
  {
    Negated(lex, words, 0, j);
    ScanWithoutSentiment(lex, words, j + 1);
  }


  /** A text without any sentiment word is neutral with zero scores,
      whether or not it passes the length guard. */
  lemma NoSentimentIsNeutral(lex: Lexicon, text: string)
    requires forall j :: 0 <= j < |Words(text)| ==> !IsSentimentWord(lex, Words(text)[j])
    ensures SentimentOf(lex, text) == NeutralResult
  {
    if IsScored(text) {
      var words := Words(text);
      ScanWithoutSentiment(lex, words, 0);
      NothingHit(|words|);
    }
  }

  /** A scan without hits gives the neutral result. */
  lemma NothingHit(n: nat)
    requires 0 < n
    ensures ResultOf(Tally(0, 0), n) == NeutralResult
  {
    assert 0.0 / n as real == 0.0;
    assert Round3(0.0) == 0.0 by { RoundWithin(0.0, 0, 0); }
  }

}
