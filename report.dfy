/** The two renderers of `BigFiveAnalyzer`, as the structure they print:
    `generate_personality_report` bands each score into one of five levels,
    and `generate_report` shows the stored metadata, one row per trait with a
    20-cell bar and a four-way interpretation, and the sentiment counts. */
module Report {
  import opened Wrappers
  import opened Scoring

  datatype Trait = Extraversion | Neuroticism | Openness | Agreeableness | Conscientiousness

  /** The trait a score key names, if any. */
  function TraitOfKey(key: string): (r: Option<Trait>)
    ensures r.Some? ==> KeyOf(r.value) == key
  {
    if key == "extraversion" then Some(Extraversion)
    else if key == "neuroticism" then Some(Neuroticism)
    else if key == "openness" then Some(Openness)
    else if key == "agreeableness" then Some(Agreeableness)
    else if key == "conscientiousness" then Some(Conscientiousness)
    else None
  }

  /** The key under which a trait's score is stored. */
  function KeyOf(t: Trait): string {
    match t
    case Extraversion => "extraversion"
    case Neuroticism => "neuroticism"
    case Openness => "openness"
    case Agreeableness => "agreeableness"
    case Conscientiousness => "conscientiousness"
  }

  /** Keys and traits are in one-to-one correspondence. */
  lemma KeyRoundTrip(t: Trait)
    ensures TraitOfKey(KeyOf(t)) == Some(t)
  {
  }

  function ScoreOf(s: TraitScores, t: Trait): real {
    match t
    case Extraversion => s.extraversion
    case Neuroticism => s.neuroticism
    case Openness => s.openness
    case Agreeableness => s.agreeableness
    case Conscientiousness => s.conscientiousness
  }

  // ---------------------------------------------------------------------
  // generate_personality_report

  /** The five levels: "Muy bajo", "Bajo", "Promedio", "Alto", "Muy alto". */
  datatype Level = MuyBajo | Bajo | Promedio | Alto | MuyAlto

  function LevelOf(score: real): Level {
    if score < 0.3 then MuyBajo
    else if score < 0.45 then Bajo
    else if score < 0.55 then Promedio
    else if score < 0.7 then Alto
    else MuyAlto
  }

  function LevelRank(l: Level): nat {
    match l
    case MuyBajo => 0
    case Bajo => 1
    case Promedio => 2
    case Alto => 3
    case MuyAlto => 4
  }

  /** A higher score never gets a lower level. */
  lemma LevelMonotone(a: real, b: real)
    requires a <= b
    ensures LevelRank(LevelOf(a)) <= LevelRank(LevelOf(b))
  {
  }

  /** One line of the personality report. */
  datatype PersonalityLine = PersonalityLine(dimension: Trait, score: real, level: Level)

  /** `generate_personality_report` over the score entries in order; a key
      that names no trait makes the description lookup raise `KeyError`. */
  function PersonalityReportOf(items: seq<(string, real)>): Outcome<seq<PersonalityLine>> {
    if items == [] then Done([])
    else
      var init := PersonalityReportOf(items[..|items| - 1]);
      var (key, score) := items[|items| - 1];
      if init.Raised? then init
      else match TraitOfKey(key)
        case None => Raised(KeyError)
        case Some(t) => Done(init.value + [PersonalityLine(t, score, LevelOf(score))])
  }

  /** The report fails exactly when some key names no trait, and then with
      `KeyError`; otherwise it has one line per entry, in order, with that
      entry's trait, score and level. */
  lemma {:induction false} PersonalityReportShape(items: seq<(string, real)>)
    ensures PersonalityReportOf(items).Raised? <==>
      exists k :: 0 <= k < |items| && TraitOfKey(items[k].0).None?
    ensures PersonalityReportOf(items).Raised? ==> PersonalityReportOf(items).error == KeyError
    ensures PersonalityReportOf(items).Done? ==>
      var lines := PersonalityReportOf(items).value;
      && |lines| == |items|
      && forall k :: 0 <= k < |items| ==>
           && KeyOf(lines[k].dimension) == items[k].0
           && lines[k].score == items[k].1
           && lines[k].level == LevelOf(items[k].1)
  {
    if items != [] {
      var n := |items| - 1;
      var init := items[..n];
      PersonalityReportShape(init);
      var before := PersonalityReportOf(init);
      if before.Raised? {
        var k :| 0 <= k < |init| && TraitOfKey(init[k].0).None?;
        assert items[k] == init[k];
      } else if TraitOfKey(items[n].0).None? {
        assert PersonalityReportOf(items) == Raised(KeyError);
      } else {
        var t := TraitOfKey(items[n].0).value;
        var lines := before.value + [PersonalityLine(t, items[n].1, LevelOf(items[n].1))];
        assert PersonalityReportOf(items) == Done(lines);
        forall k | 0 <= k < |items|
          ensures TraitOfKey(items[k].0).Some?
          ensures KeyOf(lines[k].dimension) == items[k].0
          ensures lines[k].score == items[k].1 && lines[k].level == LevelOf(items[k].1)
        {
          if k < n {
            assert items[k] == init[k];
            assert lines[k] == before.value[k];
          }
        }
      }
    }
  }

  /** The entries of the scores dict `calculate_big_five_scores` returns,
      in its order. */
  function ScoreItems(s: TraitScores): seq<(string, real)> {
    [("extraversion", s.extraversion), ("neuroticism", s.neuroticism), ("openness", s.openness),
     ("agreeableness", s.agreeableness), ("conscientiousness", s.conscientiousness)]
  }

  /** The scores the analyzer returns always render: five lines, one per
      trait. */
  lemma ScoreItemsRender(s: TraitScores)
    ensures PersonalityReportOf(ScoreItems(s)).Done?
    ensures |PersonalityReportOf(ScoreItems(s)).value| == 5
  {
    PersonalityReportShape(ScoreItems(s));
  }

  // ---------------------------------------------------------------------
  // generate_report

  /** The four interpretations: "BAJO", "MEDIO-BAJO", "MEDIO-ALTO", "ALTO". */
  datatype Interpretation = Low | MediumLow | MediumHigh | High

  function InterpretationOf(score: real): Interpretation {
    if score < 0.3 then Low
    else if score < 0.5 then MediumLow
    else if score < 0.7 then MediumHigh
    else High
  }

  function InterpretationRank(i: Interpretation): nat {
    match i
    case Low => 0
    case MediumLow => 1
    case MediumHigh => 2
    case High => 3
  }

  /** A higher score never gets a lower interpretation. */
  lemma InterpretationMonotone(a: real, b: real)
    requires a <= b
    ensures InterpretationRank(InterpretationOf(a)) <= InterpretationRank(InterpretationOf(b))
  {
  }

  /** Python's `int(x)`: truncation toward zero. */
  function Trunc(x: real): (n: int)
    ensures x >= 0.0 ==> n == x.Floor
    ensures n as real <= x < n as real + 1.0 || x < 0.0
  {
    if x >= 0.0 then x.Floor else -((-x).Floor)
  }

  /** `int(x)` rounds toward zero on both sides: the floor of a
      non-negative value and the ceiling of a negative one, so the result
      is never further from zero than `x` and less than 1 closer to it. */
  lemma TruncTowardZero(x: real)
    ensures x >= 0.0 ==> 0 <= Trunc(x) && Trunc(x) as real <= x < Trunc(x) as real + 1.0
    ensures x < 0.0 ==> Trunc(x) <= 0 && Trunc(x) as real - 1.0 < x <= Trunc(x) as real
  {
  }

  /** Python's `c * n`: empty for `n <= 0`. */
  function Repeat(c: char, n: int): (r: string)
    ensures |r| == if n > 0 then n else 0
    ensures forall k :: 0 <= k < |r| ==> r[k] == c
  {
    if n <= 0 then "" else Repeat(c, n - 1) + [c]
  }

  /** The score bar: `int(score * 100 / 5)` filled cells, then empty cells
      up to 20. */
  function Bar(score: real): string {
    var n := Trunc(score * 100.0 / 5.0);
    Repeat('█', n) + Repeat('░', 20 - n)
  }

  /** For a score in [0, 1] the bar has exactly 20 cells, and cell `j` is
      filled exactly when the score reaches (j + 1) / 20: the bar shows
      floor(20 * score) filled cells. */
  lemma BarShape(score: real)
    requires 0.0 <= score <= 1.0
    ensures |Bar(score)| == 20
    ensures forall j :: 0 <= j < 20 ==> (Bar(score)[j] == '█' <==> (j + 1) as real <= score * 20.0)
    ensures forall j :: 0 <= j < 20 ==> (Bar(score)[j] == '░' <==> score * 20.0 < (j + 1) as real)
  {
    var n := Trunc(score * 100.0 / 5.0);
    assert score * 100.0 / 5.0 == score * 20.0;
    assert 0 <= n <= 20;
    var filled, empty := Repeat('█', n), Repeat('░', 20 - n);
    assert forall j :: 0 <= j < n ==> Bar(score)[j] == filled[j];
    assert forall j :: n <= j < 20 ==> Bar(score)[j] == empty[j - n];
  }

  /** One trait row of the report. */
  datatype TraitRow = TraitRow(dimension: Trait, score: real, bar: string, interpretation: Interpretation)

  function RowOf(s: TraitScores, t: Trait): TraitRow {
    var score := ScoreOf(s, t);
    TraitRow(t, score, Bar(score), InterpretationOf(score))
  }

  /** The order of the rows: the order of the description table. */
  const ReportOrder: seq<Trait> := [Neuroticism, Extraversion, Openness, Agreeableness, Conscientiousness]

  function RowsOf(s: TraitScores, traits: seq<Trait>): (rows: seq<TraitRow>)
    ensures |rows| == |traits|
    ensures forall k :: 0 <= k < |traits| ==> rows[k] == RowOf(s, traits[k])
  {
    if traits == [] then [] else RowsOf(s, traits[..|traits| - 1]) + [RowOf(s, traits[|traits| - 1])]
  }

  /** What `generate_report` prints: the fixed "no results" text, or the
      metadata counts, the trait rows and the sentiment counts. */
  datatype Report =
    | NoResults
    | Rendered(postsAnalyzed: nat, wordsAnalyzed: nat, uniqueWords: nat,
               rows: seq<TraitRow>, sentiment: AggregateSentiment)

  function ReportOf(results: Option<AnalysisResult>): Report {
    match results
    case None => NoResults
    case Some(r) =>
      Rendered(r.metadata.postsAnalyzed, r.metadata.wordsAnalyzed, r.metadata.uniqueWords,
               RowsOf(r.scores, ReportOrder), r.metadata.sentiment)
  }

  /** A report on stored results has one row per trait in the fixed order,
      each with a 20-cell bar and the interpretation of its score. */
  lemma ReportShape(r: AnalysisResult)
    requires ScoresInUnit(r.scores)
    ensures ReportOf(Some(r)).Rendered?
    ensures var rows := ReportOf(Some(r)).rows;
      && |rows| == 5
      && forall k :: 0 <= k < 5 ==>
           && rows[k].dimension == ReportOrder[k]
           && rows[k].score == ScoreOf(r.scores, ReportOrder[k])
           && |rows[k].bar| == 20
           && rows[k].interpretation == InterpretationOf(rows[k].score)
  {
    forall t: Trait ensures |Bar(ScoreOf(r.scores, t))| == 20 {
      BarShape(ScoreOf(r.scores, t));
    }
  }
}
