/** `BigFiveAnalyzer` as an object: its one piece of state is `results`,
    which every scoring call overwrites and the report reads. The methods
    follow the loops of the source and are proved against the functions of
    `Scoring` and `Report`. */
module Analyzer {
  import opened Wrappers
  import opened Text
  import opened Numeric
  import opened Sentiment
  import opened Snapshot
  import opened Scoring
  import opened Report

  /** The loop over `posts` that collects `posts_text`. */
  method CollectPostTexts(posts: seq<Json>) returns (postsText: seq<string>)
    ensures postsText == UsableTexts(posts)
  {
    postsText := [];
    for k := 0 to |posts|
      invariant postsText == UsableTexts(posts[..k])
    {
      assert posts[..k + 1][..k] == posts[..k];
      var post := posts[k];
      if post.Object? {
        var text := Get(post.fields, "text", Str(""));
        if Truthy(text) && text.Str? && |Strip(text.s)| > 0 {
          postsText := postsText + [Strip(text.s)];
        }
      }
    }
    assert posts[..|posts|] == posts;
  }

  /** The loops over `posts` that add up `reactions` and `comments`. */
  method SumNumericField(posts: seq<Json>, key: string) returns (total: real)
    ensures total == FieldSum(posts, key)
  {
    total := 0.0;
    for k := 0 to |posts|
      invariant total == FieldSum(posts[..k], key)
    {
      assert posts[..k + 1][..k] == posts[..k];
      var post := posts[k];
      if post.Object? {
        var value := Get(post.fields, key, Num(0.0));
        if IsNumber(value) {
          total := total + NumericValue(value);
        }
      }
    }
    assert posts[..|posts|] == posts;
  }

  /** One more text extends the polarity list exactly when it is
      analysable. */
  lemma PolaritiesStep(lex: Lexicon, texts: seq<string>, k: nat)
    requires k < |texts|
    ensures Polarities(lex, texts[..k + 1]) ==
      if Analyzable(texts[k]) then Polarities(lex, texts[..k]) + [SentimentOf(lex, texts[k]).polarity]
      else Polarities(lex, texts[..k])
  {
    assert texts[..k + 1][..k] == texts[..k];
  }

  /** One more polarity lands in exactly the bucket its value says. */
  lemma BucketsStep(ps: seq<real>, p: real)
    ensures Positives(ps + [p]) == Positives(ps) + (if p > 0.2 then 1 else 0)
    ensures Negatives(ps + [p]) == Negatives(ps) + (if p < -0.2 then 1 else 0)
    ensures Neutrals(ps + [p]) == Neutrals(ps) + (if -0.2 <= p <= 0.2 then 1 else 0)
  {
    assert (ps + [p])[..|ps|] == ps;
  }

  /** One more trait adds its row at the end. */
  lemma RowsStep(s: TraitScores, traits: seq<Trait>, k: nat)
    requires k < |traits|
    ensures RowsOf(s, traits[..k + 1]) == RowsOf(s, traits[..k]) + [RowOf(s, traits[k])]
  {
    assert traits[..k + 1][..k] == traits[..k];
  }

  class BigFiveAnalyzer {
    /** `self.results`: `None` stands for the empty dict. */
    var results: Option<AnalysisResult>
    /** The word lists of `self.sentiment_analyzer`. */
    const lexicon: Lexicon
    /** `self.neuroticism_words` and the other four keyword lists. */
    const keywords: Keywords

    /** The lexicon is separated and every result stored is well formed. */
    predicate Valid()
      reads this
    {
      && Separated(lexicon)
      && (results.Some? ==> WellFormed(results.value))
    }

    /** `__init__`: the Spanish lexicon, the five keyword lists and no
        results. */
    constructor()
      ensures lexicon == Spanish && keywords == TraitKeywords
      ensures results == None
      ensures Valid()
    {
      lexicon := Spanish;
      keywords := TraitKeywords;
      results := None;
      SpanishSeparated();
    }

    /** `analyze_text_sentiment`: one pass over the texts, counting each
        analysable text into one bucket. */
    method AnalyzeTextSentiment(texts: seq<string>) returns (s: AggregateSentiment)
      requires Separated(lexicon)
      ensures s == AggregateOf(lexicon, texts)
    {
      var positive, negative, neutral := 0, 0, 0;
      var polarities: seq<real> := [];
      for k := 0 to |texts|
        invariant polarities == Polarities(lexicon, texts[..k])
        invariant positive == Positives(polarities)
        invariant negative == Negatives(polarities)
        invariant neutral == Neutrals(polarities)
      {
        PolaritiesStep(lexicon, texts, k);
        var text := texts[k];
        if text == [] || |Strip(text)| < 5 {
          continue;
        }
        var sentiment := AnalyzeSentiment(lexicon, text);
        BucketsStep(polarities, sentiment.polarity);
        polarities := polarities + [sentiment.polarity];
        if sentiment.polarity > 0.2 {
          positive := positive + 1;
        } else if sentiment.polarity < -0.2 {
          negative := negative + 1;
        } else {
          neutral := neutral + 1;
        }
      }
      assert texts[..|texts|] == texts;
      var avgPolarity := Mean(polarities);
      var total := AtLeastOne(|polarities|);
      s := AggregateSentiment(positive, negative, neutral, Round3(avgPolarity),
                              positive as real / total, |polarities|);
    }

    /** `_get_default_scores`: all five traits at 0.5, stored with zero
        counters. */
    method GetDefaultScores() returns (scores: TraitScores)
      requires Separated(lexicon)
      modifies this
      ensures scores == DefaultScores
      ensures results == Some(DefaultResult)
      ensures Valid()
    {
      scores := TraitScores(0.5, 0.5, 0.5, 0.5, 0.5);
      results := Some(AnalysisResult(
        scores, Metadata(0, 0, 0, 0.0, AggregateSentiment(0, 0, 0, 0.0, 0.5, 0)), None));
    }

    /** `calculate_big_five_scores`: the defaults when the snapshot gives no
        text; otherwise the five clamped blends, stored with their metadata.
        When the biography lookup raises, nothing is stored. */
    method CalculateBigFiveScores(data: Json) returns (r: Outcome<TraitScores>)
      requires Valid()
      modifies this
      ensures Valid()
      ensures Analysis(lexicon, keywords, data).Done? ==>
        && r == Done(Analysis(lexicon, keywords, data).value.scores)
        && results == Some(Analysis(lexicon, keywords, data).value)
      ensures Analysis(lexicon, keywords, data).Raised? ==>
        r == Raised(Analysis(lexicon, keywords, data).error) && results == old(results)
    {
      if !Truthy(data) || !data.Object? {
        var scores := GetDefaultScores();
        return Done(scores);
      }
      var posts := PostsOf(data.fields);
      var postsText := CollectPostTexts(posts);
      if postsText == [] {
        var scores := GetDefaultScores();
        return Done(scores);
      }
      var outcome := ScoreTexts(data.fields, posts, postsText);
      if outcome.Raised? {
        return Raised(outcome.error);
      }
      results := Some(outcome.value);
      return Done(outcome.value.scores);
    }

    /** The part of `calculate_big_five_scores` after the texts are
        collected: the five blends in the source's order, the biography
        lookup inside the last one, the clamping and the metadata. */
    method ScoreTexts(fields: map<string, Json>, posts: seq<Json>, postsText: seq<string>)
      returns (r: Outcome<AnalysisResult>)
      requires Separated(lexicon) && posts == PostsOf(fields)
      ensures r == TextsAnalysis(lexicon, keywords, fields, postsText)
      ensures r.Done? ==> WellFormed(r.value)
    {
      var allText := JoinSpace(postsText);

      var friendsCount := FriendsCount(fields);
      var totalReactions := SumNumericField(posts, "reactions");
      var extraversionScore := ExtraversionBlend(friendsCount, totalReactions, |postsText|,
                                                 WordFrequency(postsText, keywords.extraversion));

      var sentiment := AnalyzeTextSentiment(postsText);
      var neuroticismScore := NeuroticismBlend(sentiment, WordFrequency(postsText, keywords.neuroticism));

      var groups := GroupCount(fields);
      var words := Tokens(allText);
      var lexicalDiversity := LexicalDiversity(words);
      var opennessScore := OpennessBlend(groups, WordFrequency(postsText, keywords.openness), lexicalDiversity);

      var totalComments := SumNumericField(posts, "comments");
      var agreeablenessScore := AgreeablenessBlend(sentiment, WordFrequency(postsText, keywords.agreeableness),
                                                   totalComments, |postsText|);

      var bio := BioComplete(BioOf(fields));
      if bio.Raised? {
        return Raised(bio.error);
      }
      var conscientiousnessScore :=
        ConscientiousnessBlend(WordFrequency(postsText, keywords.conscientiousness), |postsText|, bio.value);

      var scores := TraitScores(
        Clamp01(extraversionScore), Clamp01(neuroticismScore), Clamp01(opennessScore),
        Clamp01(agreeablenessScore), Clamp01(conscientiousnessScore));
      var components := Components(
        Min(friendsCount / 1000.0, 1.0), totalReactions / AtLeastOne(|postsText|),
        WordFrequency(postsText, keywords.extraversion),
        sentiment.negative as real / AtLeastOne(sentiment.totalTextsAnalyzed),
        sentiment.sentimentBalance, WordFrequency(postsText, keywords.neuroticism));
      var metadata := Metadata(
        |postsText|, |words|, if words != [] then |Distinct(words)| else 0,
        Round3(lexicalDiversity), sentiment);
      assert scores == ScoresOf(lexicon, keywords, fields, postsText, bio.value);
      assert metadata == MetadataOf(lexicon, postsText);
      assert components == ComponentsOf(lexicon, keywords, fields, postsText);
      r := Done(AnalysisResult(scores, metadata, Some(components)));
      TextsResultWellFormed(lexicon, keywords, fields, postsText);
    }

    /** `generate_personality_report`: one line per score entry, with its
        level; an unknown key raises `KeyError`. */
    method GeneratePersonalityReport(items: seq<(string, real)>) returns (r: Outcome<seq<PersonalityLine>>)
      ensures r == PersonalityReportOf(items)
    {
      var lines: seq<PersonalityLine> := [];
      for k := 0 to |items|
        invariant PersonalityReportOf(items[..k]) == Done(lines)
      {
        assert items[..k + 1][..k] == items[..k];
        var (key, score) := items[k];
        var level := if score < 0.3 then MuyBajo
          else if score < 0.45 then Bajo
          else if score < 0.55 then Promedio
          else if score < 0.7 then Alto
          else MuyAlto;
        var t := TraitOfKey(key);
        if t.None? {
          PersonalityReportShape(items[..k + 1]);
          PersonalityReportShape(items);
          assert items[..k + 1][k] == items[k];
          return Raised(KeyError);
        }
        lines := lines + [PersonalityLine(t.value, score, level)];
      }
      assert items[..|items|] == items;
      r := Done(lines);
    }

    /** `generate_report`: the fixed text without results, otherwise the
        metadata counts, one row per trait and the sentiment counts. For a
        well-formed result every bar has exactly 20 cells. */
    method GenerateReport() returns (rep: Report)
      ensures rep == ReportOf(results)
      ensures Valid() && rep.Rendered? ==> forall k :: 0 <= k < |rep.rows| ==> |rep.rows[k].bar| == 20
    {
      if results.None? {
        return NoResults;
      }
      var r := results.value;
      var rows: seq<TraitRow> := [];
      for k := 0 to |ReportOrder|
        invariant rows == RowsOf(r.scores, ReportOrder[..k])
      {
        RowsStep(r.scores, ReportOrder, k);
        var t := ReportOrder[k];
        var score := ScoreOf(r.scores, t);
        var barLength := Trunc(score * 100.0 / 5.0);
        var bar := Repeat('█', barLength) + Repeat('░', 20 - barLength);
        assert bar == Bar(score);
        var interpretation := if score < 0.3 then Low
          else if score < 0.5 then MediumLow
          else if score < 0.7 then MediumHigh
          else High;
        assert TraitRow(t, score, bar, interpretation) == RowOf(r.scores, t);
        rows := rows + [TraitRow(t, score, bar, interpretation)];
      }
      assert ReportOrder[..|ReportOrder|] == ReportOrder;
      rep := Rendered(r.metadata.postsAnalyzed, r.metadata.wordsAnalyzed, r.metadata.uniqueWords,
                      rows, r.metadata.sentiment);
      if Valid() {
        ReportShape(r);
      }
    }

    /** `save_results` without the file writes: nothing without results,
        otherwise the results and their report, which are what it writes. */
    method SaveResults() returns (saved: Option<(AnalysisResult, Report)>)
      ensures results.None? <==> saved.None?
      ensures saved.Some? ==> saved.value == (results.value, ReportOf(results))
    {
      if results.None? {
        return None;
      }
      var report := GenerateReport();
      return Some((results.value, report));
    }
  }

  /** Scoring the same snapshot twice gives the same scores and leaves the
      same results as scoring it once. */
  method ScoreTwice(analyzer: BigFiveAnalyzer, data: Json)
    returns (first: Outcome<TraitScores>, second: Outcome<TraitScores>)
    requires analyzer.Valid()
    modifies analyzer
    ensures first == second
    ensures Analysis(analyzer.lexicon, analyzer.keywords, data).Done? ==>
      analyzer.results == Some(Analysis(analyzer.lexicon, analyzer.keywords, data).value)
  {
    first := analyzer.CalculateBigFiveScores(data);
    ghost var after := analyzer.results;
    second := analyzer.CalculateBigFiveScores(data);
    assert first.Done? ==> analyzer.results == after;
  }
}
