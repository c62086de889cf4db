# Big Five analysis of a Facebook profile snapshot, in Dafny

This project models the analysis core in `src/personality.py` of the
Facebook Big Five analyzer and proves properties of it. The core has two
classes.

- `SpanishSentimentAnalyzer.analyze_sentiment` scores one Spanish text.
  - It lower-cases and tokenizes the text.
  - It scans the tokens with a cursor. A negation ("no", "nunca", …)
    followed within three tokens by a positive or negative word flips that
    word's sign and skips past it.
  - From the two hit counts it computes a polarity in [-1, 1], a
    subjectivity in [0, 1] and a label (POSITIVO / NEGATIVO / NEUTRO).
- `BigFiveAnalyzer` holds the state.
  - It keeps five keyword lists and a `results` dict.
  - `calculate_big_five_scores` reads a profile snapshot: posts with text,
    reactions and comments, friends, groups and a biography. It computes five
    weighted blends of counts, keyword frequencies, lexical diversity and the
    aggregate sentiment, clamps them into [0, 1] and stores them with their
    metadata and components.
  - Two renderers present the result: `generate_personality_report` and
    `generate_report`.

The model is layered the way the source is.

- `Text` (text.dfy) holds the string primitives the code relies on:
  `str.strip()`, `str.lower()`, the `\w` class, `re.findall(r"\b\w+\b", …)`
  and `" ".join`.
- `Numeric` (numeric.dfy) holds the float helpers: `round(x, 3)`, `min`,
  `max` and `min(max(x, 0), 1)`.
- `Sentiment` (sentiment.dfy) holds the lexicon.
  - It defines the scan as a function `ScanFrom` over a cursor position.
  - The `while` loop and the lookahead `for` loop are methods proved
    against it.
  - The scan is stated for any `Lexicon` whose lists are `Separated`:
    positive and negative are disjoint, and intensifiers and negations carry
    no sentiment. `SpanishSeparated` proves this of the Spanish lists.
- `Snapshot` (snapshot.dfy) defines the snapshot as a JSON-like value. This
  lets a snapshot that is not a dict, an absent field and a field of the
  wrong type all be stated. It also holds the lookups with their Python
  defaults and `isinstance` guards.
- `Scoring` (scoring.dfy) defines the analysis as functions of the input:
  - `AggregateOf` for `analyze_text_sentiment` and `WordFrequency`;
  - `LexicalDiversity` and the five blends;
  - `Analysis`, which returns the stored result or the error raised.
- `Report` (report.dfy) gives the structure the two reports print.
- `Analyzer` (analyzer.dfy) is the class `BigFiveAnalyzer`.
  - It has a mutable `results` field and the lexicon and keyword lists as
    constants.
  - Every method follows the source's loops and is proved against the
    functions above.
  - `Valid()` is the class invariant: every stored result is well formed.

Where the code's own comments or names suggest more than the code does,
the model follows the code.

- **Intensifiers.** The weight 1.5 is computed while the cursor stands on
  the intensifier itself, and the intensifier is in neither sentiment
  list. So the weight is never added to any score. The model keeps the
  computation (`Intensity`) and proves that every counted token has weight
  1.0; the scores are whole counts.
- **Score bar.** `generate_report` truncates the bar length with `int()`;
  it does not round.
- **Labels.** The sentiment label is taken from the unrounded polarity;
  only the returned polarity is rounded.
- **Metadata counts.** The word and distinct-word counts and the lexical
  diversity come from the joined texts without lower-casing, so they are
  case-sensitive. The keyword frequencies are lower-cased.
- **Per-post averages.** Reactions and comments are summed over every post
  dict, but divided by the number of posts that have text.
- **Biography.** A truthy `bio` that is not a string has no `strip`, so the
  scorer raises `AttributeError` and stores nothing.
- **Personality report.** A score key that names no trait makes the report
  raise `KeyError`.

Python's errors are made explicit as an `Outcome` (`Done` or `Raised`). `Snapshot.Get` is Python's `dict.get` with a default, a plain lookup the other definitions are written with.

In the table below, "definition" rows are the reference functions the methods are proved equal to, with the lemmas that state their properties; "proof helper" rows are lemmas that only carry a proof step.

## Model

| member | source | states |
|---|---|---|
| Text.IsSpace | src/personality.py:361 | definition: the characters `str.isspace()` accepts, which `strip` removes; `StripEmptyIff` states what stripping them means |
| Text.IsWordChar | src/personality.py:92 | definition: the `\w` class on Latin-1; `Tokens` promises every token is made of these |
| Text.Lower | src/personality.py:92 | lower-casing keeps every white-space character |
| Text.LowerStr | src/personality.py:92 | lower-casing keeps the length |
| Text.StripLeading | src/personality.py:361-362 | the result is a suffix; the characters dropped are all white space; the first kept one is not |
| Text.StripTrailing | src/personality.py:361-362 | the result is a prefix; the characters dropped are all white space; the last kept one is not |
| Text.Strip | src/personality.py:361-362 | the stripped text is no longer than the input and starts and ends with a non-space character |
| Text.StripEmptyIff | src/personality.py:361 | a text strips to nothing exactly when every character is white space |
| Text.StripIdempotent | src/personality.py:362 | stripping an already stripped text changes nothing |
| Text.WordPrefixLength | src/personality.py:92 | the length of the maximal leading run of word characters |
| Text.Tokens | src/personality.py:92 | every token is a non-empty run of word characters, and there are no more tokens than characters |
| Text.TokensAppend | src/personality.py:404 | a text cut just before a non-word character tokenizes piecewise |
| Text.WordPrefixAppend | src/personality.py:404 | proof helper: the leading word run does not reach across a non-word character |
| Text.JoinSpace | src/personality.py:368 | a non-empty list joins to its total length plus one separator per gap, starting with the first text, and a single text joins to itself; `TokensOfJoin` and `LowerJoin` show that tokenizing and lower-casing commute with the join |
| Text.TokensOfAll | src/personality.py:404 | definition: the tokens of each text, one text after another; `TokensOfJoin` proves it equals tokenizing the join |
| Text.TokensOfJoin | src/personality.py:368-404 | the tokens of the space-joined texts are the tokens of the texts, in order, so joining glues no two words together |
| Text.LowerAll | src/personality.py:331 | lower-casing a list of texts keeps its length |
| Text.LowerStrAppend | src/personality.py:331 | proof helper: lower-casing distributes over concatenation |
| Text.LowerJoin | src/personality.py:331 | lower-casing the joined text is joining the lower-cased texts |
| Numeric.Round3 | src/personality.py:165-166 | the result is a multiple of 0.001 within half a unit of the input |
| Numeric.RoundWithin | src/personality.py:165-166 | rounding never crosses a multiple of 0.001, so such bounds survive rounding |
| Numeric.RatioInUnit | src/personality.py:407 | a count over a larger positive count lies in [0, 1] and is 0 only for a zero count |
| Numeric.Clamp01 | src/personality.py:446-452 | a value below 0 becomes 0, a value above 1 becomes 1, and a value in [0, 1] is unchanged |
| Text.CountIn | src/personality.py:342 | a count of keyword tokens never exceeds the number of tokens |
| Text.CountInZeroIff | src/personality.py:342 | the keyword count is zero exactly when no token is a keyword |
| Text.Distinct | src/personality.py:406 | definition: `set(words)`; `DistinctBounds` bounds its size by the token count |
| Numeric.Min | src/personality.py:384 | definition: `min` of two reals, used by the caps and the clamp; `Clamp01` states the clamp's range |
| Numeric.Max | src/personality.py:447 | definition: `max` of two reals; `Clamp01` states the clamp's range |
| Text.DistinctBounds | src/personality.py:404-407 | a non-empty token list has between 1 and that many distinct tokens |
| Sentiment.IsSentimentWord | src/personality.py:116-121 | definition: membership in the positive or the negative list, the test of the lookahead and of counting |
| Sentiment.Separated | src/personality.py:13-78 | definition: the separation of the four lists; `SpanishSeparated` proves the Spanish lists have it |
| Sentiment.PolaritiesDisjoint | src/personality.py:13-67 | no Spanish word is both positive and negative |
| Sentiment.IntensifiersNeutral | src/personality.py:13-77 | no intensifier is a positive or negative word |
| Sentiment.NegationsNeutral | src/personality.py:13-78 | no negation is a positive or negative word |
| Sentiment.SpanishSeparated | src/personality.py:13-78 | the four Spanish class lists satisfy the separation every scan lemma assumes |
| Sentiment.WindowEnd | src/personality.py:114 | the lookahead tries at most the three offsets after the negation and never runs past the last token |
| Sentiment.SentimentAhead | src/personality.py:114-125 | a result is the offset of the first sentiment word of the window; an empty result means the window holds none |
| Sentiment.Step | src/personality.py:107-144 | each iteration moves the cursor forward, within the list, and adds at most one hit |
| Sentiment.ScanFrom | src/personality.py:106-144 | the hits from a position on never exceed the tokens left |
| Sentiment.Intensity | src/personality.py:131-136 | the weight is 1.0 or 1.5 and is 1.0 on every sentiment word, so the intensifier weight never reaches a score |
| Sentiment.Polarity | src/personality.py:146-151 | the polarity lies in [-1, 1]; it is positive iff there are more positive hits, and negative iff more negative ones; it is 1 or -1 for one-sided hits |
| Sentiment.DivisionBounds | src/personality.py:149 | proof helper: a difference bounded by the total divides into [-1, 1], keeping its sign |
| Sentiment.RawPolarity | src/personality.py:146-151 | the unrounded polarity lies in [-1, 1] |
| Sentiment.Words | src/personality.py:92 | definition: the tokens of the lower-cased text; `Tokens` promises each is a word |
| Sentiment.IsScored | src/personality.py:83-101 | definition: the two guards that return the neutral result; `NoSentimentIsNeutral` shows a text failing them, or without sentiment words, is neutral |
| Sentiment.LabelOf | src/personality.py:156-162 | definition: the 0.15 / -0.15 thresholds; `LabelThresholds` proves how the label relates to the unrounded and the rounded polarity |
| Sentiment.ResultOf | src/personality.py:146-170 | definition: polarity, subjectivity, label and scores from a tally; `ResultBounds`, `OneSidedResult` and `NothingHit` state its ranges and extreme cases |
| Sentiment.SentimentOf | src/personality.py:81-170 | specification of `analyze_sentiment`: `AnalyzeSentiment` is proved equal to it, and `SentimentBounds`, `LabelThresholds`, `NegatedText`, `OnlyPositive`, `OnlyNegative` and `NoSentimentIsNeutral` state what it promises, `NegatedText` taking the negation rule through to the returned polarity and label |
| Sentiment.AnalyzeSentiment | src/personality.py:81-170 | the method returns exactly the specified result: neutral for short or token-less text, otherwise the scan's polarity, subjectivity, label and counts |
| Sentiment.Summarize | src/personality.py:146-170 | polarity, subjectivity and label computed from the two scores are those of the tally |
| Sentiment.ScanScores | src/personality.py:102-144 | the cursor loop ends with the positive and negative hit counts of the scan specification |
| Sentiment.ScanAdvance | src/personality.py:106-144 | proof helper: one iteration keeps the loop invariant of the scan |
| Sentiment.NegationLookahead | src/personality.py:114-125 | the lookahead loop finds the first sentiment word within three tokens after a negation, or none |
| Sentiment.ScanWithoutNegations | src/personality.py:127-144 | without negations the scan counts exactly the positive and the negative tokens |
| Sentiment.ScanWithoutSentiment | src/personality.py:106-144 | without sentiment words the scan hits nothing |
| Sentiment.Negated | src/personality.py:112-129 | a negation followed within three tokens by a sentiment word adds one hit of the opposite sign and resumes after that word |
| Sentiment.SentimentAheadFinds | src/personality.py:114-125 | proof helper: the lookahead finds the first sentiment word in the window |
| Sentiment.NegationWithoutTarget | src/personality.py:112-129 | a negation with no sentiment word among the next three tokens adds nothing and moves on by one |
| Sentiment.QuietStep | src/personality.py:127-144 | proof helper: a token without sentiment, where the lookahead finds nothing, adds nothing and moves on by one |
| Sentiment.QuietMove | src/personality.py:127-144 | proof helper: the step at such a token hits nothing and moves the cursor by one |
| Sentiment.NegatedMove | src/personality.py:112-129 | proof helper: the step at a negation whose lookahead finds a sentiment word hits the opposite sign and moves past that word |
| Sentiment.PlainMove | src/personality.py:131-144 | proof helper: the step at any other token hits its own sign, if any, and moves by one |
| Sentiment.ScanUnfold | src/personality.py:106-144 | proof helper: the scan from a position is that position's step followed by the scan from where it moves to |
| Sentiment.NothingAhead | src/personality.py:114-125 | proof helper: with no sentiment word among the three tokens after a position, the lookahead finds nothing |
| Sentiment.ResultBounds | src/personality.py:146-166 | for hits within the token count, polarity lies in [-1, 1] and subjectivity in [0, 1] |
| Sentiment.SentimentBounds | src/personality.py:146-170 | for every text the polarity lies in [-1, 1] and the subjectivity in [0, 1]; the two scores are non-negative and together at most the number of tokens |
| Sentiment.LabelThresholds | src/personality.py:156-166 | the label is POSITIVO iff the unrounded polarity exceeds 0.15, and NEGATIVO iff it is below -0.15; the rounded polarity agrees with the label on each side |
| Sentiment.PositiveOnlyScan | src/personality.py:138-143 | positive words without negative words or negations give only positive hits, at least one |
| Sentiment.NegativeOnlyScan | src/personality.py:138-143 | negative words without positive words or negations give only negative hits, at least one |
| Sentiment.OneSidedResult | src/personality.py:146-166 | one-sided hits give polarity 1 with POSITIVO, or -1 with NEGATIVO |
| Sentiment.OnlyPositive | src/personality.py:81-170 | a scored text with positive words and no negative word or negation has polarity 1 and label POSITIVO |
| Sentiment.OnlyNegative | src/personality.py:81-170 | a scored text with negative words and no positive word or negation has polarity -1 and label NEGATIVO |
| Sentiment.NegatedText | src/personality.py:81-170 | a scored text that opens with a negation whose window holds its only sentiment word gets that word's polarity reversed: -1 and NEGATIVO for a positive word, 1 and POSITIVO for a negative one |
| Sentiment.NegatedScan | src/personality.py:106-144 | the scan of such a text hits exactly once, with the reversed sign |
| Sentiment.NoSentimentIsNeutral | src/personality.py:83-100 | a text without any sentiment word gets the neutral zero result, whether or not it passes the length guard |
| Sentiment.NothingHit | src/personality.py:146-166 | a scan without hits gives the neutral zero result |
| Snapshot.NumericValue | src/personality.py:372-373 | a non-number counts as 0 and a JSON number as its value; only a negative number gives a negative value, and a number or bool counts as non-zero exactly when Python finds it truthy, so `True` adds 1 |
| Snapshot.Truthy | src/personality.py:349 | definition: Python truthiness of a JSON value; `BioComplete` and `NumericValue` state their results in its terms |
| Snapshot.IsNumber | src/personality.py:372 | definition: `isinstance(x, (int, float))`, with bool counted as int; `NumericValue` states what a number contributes |
| Snapshot.PostsOf | src/personality.py:353-355 | definition: the posts list, replaced by the empty list when absent or not a list; `UsableTexts` and `SumNumericField` work over it |
| Snapshot.HasText | src/personality.py:359-361 | definition: a dict post with a truthy string text that is not all white space; `PostText` promises its text is non-empty |
| Snapshot.PostText | src/personality.py:360-362 | a post that has text contributes a non-empty stripped text |
| Snapshot.UsableTexts | src/personality.py:357-362 | there are no more texts than posts, and none is empty |
| Snapshot.FieldOf | src/personality.py:378-381 | definition: one post's reactions or comments, 0 for a non-dict post or a non-number; `NumericValue` states the value of a number |
| Snapshot.FieldSum | src/personality.py:376-381 | definition: the sum over all posts; `SumNumericField` is proved equal to it |
| Snapshot.FriendsCount | src/personality.py:371-373 | definition: the friend count, 0 when absent or not a number; `SameExceptFriends` and `FriendsMonotone` state how it drives extraversion |
| Snapshot.GroupCount | src/personality.py:399-401 | definition: the number of groups, 0 when absent or not a list; `OpennessInUnit` bounds the blend it feeds |
| Snapshot.BioOf | src/personality.py:433-434 | definition: the bio, empty when `basic_info` is absent or not a dict; `RaisesIff` states when it makes the analysis raise |
| Snapshot.BioComplete | src/personality.py:433-441 | raises exactly for a truthy non-string bio, with AttributeError; the bio is complete iff it is a string longer than 20 characters once stripped |
| Scoring.Analyzable | src/personality.py:300 | definition: the length guard of `analyze_text_sentiment`; `NoPolarities` and `PolaritiesStep` relate it to what is counted |
| Scoring.Polarities | src/personality.py:299-305 | there are no more polarities than texts |
| Scoring.PolaritiesInRange | src/personality.py:299-305 | every collected polarity lies in [-1, 1] |
| Scoring.Positives | src/personality.py:307-308 | the positive bucket never exceeds the texts analysed |
| Scoring.Negatives | src/personality.py:309-310 | the negative bucket never exceeds the texts analysed |
| Scoring.Neutrals | src/personality.py:311-312 | the neutral bucket never exceeds the texts analysed |
| Scoring.BucketsPartition | src/personality.py:307-312 | every analysed text lands in exactly one of the three buckets |
| Scoring.Sum | src/personality.py:315 | definition: `sum(polarities)`; `SumBounds` bounds it |
| Scoring.Mean | src/personality.py:315 | definition: the average polarity, 0 for none; `MeanBounds` puts it in [-1, 1] |
| Scoring.Aggregate | src/personality.py:314-324 | definition: the returned dict from a polarity list; `AggregateBounds` and `EmptyAggregate` state its ranges and its empty case |
| Scoring.AggregateOf | src/personality.py:292-324 | specification of `analyze_text_sentiment`: `AnalyzeTextSentiment` is proved equal to it; `AggregateBounds` and `EmptyAggregate` state what it promises |
| Scoring.SumBounds | src/personality.py:315 | a sum of polarities in [-1, 1] lies in [-n, n] |
| Scoring.AtLeastOne | src/personality.py:314 | the divisor is at least 1 and equals the count whenever the count is positive |
| Scoring.ShareInUnit | src/personality.py:322 | a bucket over `max(total, 1)` lies in [0, 1] |
| Scoring.MeanBounds | src/personality.py:315 | the mean polarity lies in [-1, 1] |
| Scoring.AggregateBounds | src/personality.py:292-324 | the buckets partition the analysed texts, at most all texts; the balance lies in [0, 1] and the average polarity in [-1, 1] |
| Scoring.NoPolarities | src/personality.py:299-305 | nothing is analysed iff every text fails the length guard |
| Scoring.EmptyAggregate | src/personality.py:314-323 | when nothing is analysed, which `NoPolarities` shows is exactly when no text passes the guard, every counter, the average and the balance are 0 |
| Scoring.LowerSet | src/personality.py:339-340 | definition: the lower-cased keyword set; `WordFrequencyPerText` states the frequency in its terms |
| Scoring.NoKeyword | src/personality.py:342 | definition: no token is a keyword; `WordFrequencyZeroIff` proves it is exactly the zero-frequency case |
| Scoring.WordFrequency | src/personality.py:326-344 | the keyword frequency lies in [0, 1] |
| Scoring.WordFrequencyPerText | src/personality.py:331-344 | the frequency is the keyword share among the tokens of the lower-cased texts, one after another |
| Scoring.WordFrequencyZeroIff | src/personality.py:326-344 | the frequency is 0 iff there are no texts, no keywords or no keyword token |
| Scoring.LexicalDiversity | src/personality.py:404-409 | lexical diversity lies in [0, 1] and is positive iff there is a token |
| Scoring.ExtraversionBlend | src/personality.py:383-388 | definition: the 0.3 / 0.4 / 0.3 blend of capped friends, capped reactions per text and keyword frequency; `ExtraversionInUnit`, `ExtraversionMonotone` and `ComponentsExplainBlends` state its range, monotonicity and components |
| Scoring.NeuroticismBlend | src/personality.py:392-396 | definition: the 0.4 / 0.3 / 0.3 blend of negative share, imbalance and keyword frequency; `NeuroticismInUnit` and `ComponentsExplainBlends` state its range and components |
| Scoring.OpennessBlend | src/personality.py:411-415 | definition: the 0.3 / 0.4 / 0.3 blend of capped groups, keyword frequency and lexical diversity; `OpennessInUnit` states its range |
| Scoring.AgreeablenessBlend | src/personality.py:425-430 | definition: the 0.4 / 0.4 / 0.2 blend of positive share, keyword frequency and capped comments per text; `AgreeablenessInUnit` states its range |
| Scoring.ConscientiousnessBlend | src/personality.py:436-443 | definition: the 0.6 / 0.2 / 0.2 blend of keyword frequency, consistency and a complete bio; `ConscientiousnessInUnit` states its range |
| Scoring.UnclampedScores | src/personality.py:383-443 | definition: the five blends before clamping; `BlendsInUnit` proves the clamp leaves them unchanged for non-negative counts |
| Scoring.InUnit | src/personality.py:446-452 | definition: a value in [0, 1]; `ClampScores` promises it of every score |
| Scoring.ScoresInUnit | src/personality.py:446-452 | definition: all five scores in [0, 1]; `ResultWellFormed` promises it of every stored result |
| Scoring.ClampScores | src/personality.py:446-452 | all five clamped scores lie in [0, 1] |
| Scoring.ScoresOf | src/personality.py:383-452 | the five scores of a snapshot with texts lie in [0, 1] |
| Scoring.IsDefaulted | src/personality.py:349-366 | definition: the two guards that fall back to the defaults; `DefaultPolicy` states what they lead to |
| Scoring.MetadataOf | src/personality.py:455-463 | definition: the stored metadata; `MetadataCounts` and `TextsResultWellFormed` state what it counts and that it agrees with itself |
| Scoring.ComponentsOf | src/personality.py:464-479 | definition: the stored `calculated_components`; `ComponentsExplainBlends` proves they reproduce the extraversion and neuroticism blends |
| Scoring.WellFormed | src/personality.py:455-463 | definition: the consistency of a stored result; `ResultWellFormed` proves every analysis has it, and the class invariant keeps it |
| Scoring.TextsAnalysis | src/personality.py:368-483 | specification of the branch with texts: `ScoreTexts` is proved equal to it, and `TextsResultWellFormed` states it is well formed |
| Scoring.Analysis | src/personality.py:346-483 | specification of `calculate_big_five_scores`: `CalculateBigFiveScores` is proved equal to it, and `DefaultPolicy`, `RaisesIff`, `ResultWellFormed`, `MetadataCounts` and `FriendsMonotone` state what it promises |
| Scoring.ComponentsExplainBlends | src/personality.py:464-479 | the stored components, with weights 0.3/0.4/0.3 and 0.4/0.3/0.3, give the extraversion and neuroticism blends |
| Scoring.DefaultPolicy | src/personality.py:346-366 | a snapshot with no text (empty, not a dict, or no post with text) gives the default result with all traits 0.5; any other result counts at least one post |
| Scoring.RaisesIff | src/personality.py:433-441 | the analysis raises exactly for a snapshot with texts and a truthy non-string bio, and then with AttributeError |
| Scoring.ResultWellFormed | src/personality.py:455-463 | every stored result has scores in [0, 1], buckets that partition the analysed texts, at most as many analysed texts as posts, and no more distinct words than words |
| Scoring.TextsResultWellFormed | src/personality.py:455-463 | the same for the branch with texts, for any list of texts |
| Scoring.MetadataCounts | src/personality.py:455-463 | the metadata counts the usable texts, the case-sensitive tokens of their join, and their aggregate sentiment |
| Scoring.PerTextNonNegative | src/personality.py:385 | proof helper: a non-negative total per text over a cap is non-negative |
| Scoring.ExtraversionInUnit | src/personality.py:383-388 | with non-negative friends and reactions the extraversion blend lies in [0, 1] |
| Scoring.NeuroticismInUnit | src/personality.py:392-396 | the neuroticism blend lies in [0, 1] |
| Scoring.OpennessInUnit | src/personality.py:411-415 | the openness blend lies in [0, 1] |
| Scoring.AgreeablenessInUnit | src/personality.py:425-430 | with non-negative comments the agreeableness blend lies in [0, 1] |
| Scoring.ConscientiousnessInUnit | src/personality.py:436-443 | the conscientiousness blend lies in [0, 1] |
| Scoring.BlendsInUnit | src/personality.py:383-452 | with non-negative friends, reactions and comments the final clamp changes no score |
| Scoring.ExtraversionMonotone | src/personality.py:383-388 | more friends never lower the extraversion blend |
| Scoring.FriendsMonotone | src/personality.py:371-388 | raising the friend count never lowers extraversion, and changes neither the other four traits, the outcome's kind nor the metadata |
| Scoring.SameExceptFriends | src/personality.py:371-373 | proof helper: setting the friend count leaves posts, groups and biography unchanged |
| Scoring.ScoresFriendsMonotone | src/personality.py:383-452 | with equal posts and groups, more friends raise only extraversion, never lowering it |
| Report.KeyOf | src/personality.py:532-540 | definition: the score key of each trait; `KeyRoundTrip` proves keys and traits correspond one to one |
| Report.ScoreOf | src/personality.py:582 | definition: the stored score of a trait; `ReportShape` states each row shows it |
| Report.LevelOf | src/personality.py:519-529 | definition: the five levels; `LevelMonotone` proves them ordered by score |
| Report.PersonalityReportOf | src/personality.py:515-542 | specification of `generate_personality_report`: `GeneratePersonalityReport` is proved equal to it, and `PersonalityReportShape` and `ScoreItemsRender` state what it promises |
| Report.ScoreItems | src/personality.py:446-452 | definition: the scores dict as entries in its order; `ScoreItemsRender` proves it always renders |
| Report.TraitOfKey | src/personality.py:532-540 | a recognised key is the key of the trait it names |
| Report.KeyRoundTrip | src/personality.py:532-540 | each trait's key is recognised as that trait |
| Report.LevelMonotone | src/personality.py:519-529 | a higher score never gets a lower level |
| Report.PersonalityReportShape | src/personality.py:515-542 | the report raises KeyError exactly when some key names no trait; otherwise it has one line per entry, in order, with that entry's trait, score and level |
| Report.ScoreItemsRender | src/personality.py:515-542 | the scores the analyzer returns always render, as five lines |
| Report.InterpretationOf | src/personality.py:588-596 | definition: the four interpretations; `InterpretationMonotone` proves them ordered by score |
| Report.InterpretationMonotone | src/personality.py:588-596 | a higher score never gets a lower interpretation |
| Report.Trunc | src/personality.py:585 | `int()` of a non-negative value is its floor; `TruncTowardZero` states the negative side |
| Report.TruncTowardZero | src/personality.py:585 | `int()` truncates toward zero: the floor of a non-negative value and the ceiling of a negative one |
| Report.Repeat | src/personality.py:586 | repeating a character `n` times gives `max(n, 0)` copies of that character |
| Report.Bar | src/personality.py:583-586 | definition: the 20-cell bar with `int()` truncation; `BarShape` proves its length and which cells are filled |
| Report.RowOf | src/personality.py:581-601 | definition: one trait row; `ReportShape` states its fields for a stored result |
| Report.BarShape | src/personality.py:583-586 | for a score in [0, 1] the bar has 20 cells; cell j is filled exactly when the score reaches (j+1)/20 and empty exactly when it does not |
| Report.RowsOf | src/personality.py:581-601 | one row per trait, each the row of that trait's score |
| Report.ReportOf | src/personality.py:544-615 | specification of `generate_report`: `GenerateReport` is proved equal to it, and `ReportShape` states the shape of every report on a stored result |
| Report.ReportShape | src/personality.py:544-601 | a report on a result with scores in [0, 1] has five rows in the fixed order, each with a 20-cell bar and its score's interpretation |
| Analyzer.CollectPostTexts | src/personality.py:357-362 | the loop collects exactly the stripped texts of the posts that have one, in order |
| Analyzer.SumNumericField | src/personality.py:376-381 | the loop adds up exactly the numeric values of the field over the post dicts |
| Analyzer.PolaritiesStep | src/personality.py:299-305 | proof helper: one more text extends the polarities exactly when it passes the length guard |
| Analyzer.BucketsStep | src/personality.py:307-312 | proof helper: one more polarity increments exactly the bucket its value falls in |
| Analyzer.RowsStep | src/personality.py:581-601 | proof helper: one more trait appends its row |
| Analyzer.BigFiveAnalyzer.constructor | src/personality.py:174-290 | a new analyzer has the Spanish lexicon, the five keyword lists and no results, and satisfies the invariant |
| Analyzer.BigFiveAnalyzer.AnalyzeTextSentiment | src/personality.py:292-324 | the one-pass counting loop returns exactly the aggregate of the analysable texts' polarities |
| Analyzer.BigFiveAnalyzer.GetDefaultScores | src/personality.py:485-513 | returns all traits at 0.5 and stores the default result, keeping the invariant |
| Analyzer.BigFiveAnalyzer.CalculateBigFiveScores | src/personality.py:346-483 | returns and stores exactly the specified analysis; when the bio lookup raises, it returns the error and leaves `results` as it was; the invariant is kept |
| Analyzer.BigFiveAnalyzer.ScoreTexts | src/personality.py:368-483 | the blends, clamping, metadata and components equal the specified analysis of the texts, and the result is well formed |
| Analyzer.BigFiveAnalyzer.GeneratePersonalityReport | src/personality.py:515-542 | the loop produces exactly the specified personality report, or KeyError |
| Analyzer.BigFiveAnalyzer.GenerateReport | src/personality.py:544-626 | the rendering is exactly the report of the stored results; under the invariant every bar has 20 cells |
| Analyzer.BigFiveAnalyzer.SaveResults | src/personality.py:628-649 | nothing is saved without results; otherwise the results and their report are what is saved |
| Analyzer.ScoreTwice | src/personality.py:346-483 | scoring the same snapshot again gives the same outcome, and leaves the same results as scoring it once |

## Left out

- File I/O and console output. `save_results` creates directories, writes the JSON file and the text report, and prints to the console. These are not modelled; `SaveResults` returns what would be written.
- Text formatting of the reports is not modelled. This covers the f-strings, upper-casing of trait names, `:.2f` and `:.3f`, thousands separators, emoji and banner lines. The reports are modelled as the structure they print.
- Floating point. Python floats are modelled as exact reals, with no NaN, infinity or rounding error in sums and divisions. `round(x, 3)` rounds half to even on the exact value. An integer too large for a float is not modelled either: in Python `friends_count / 1000`, `total_reactions / max(len(posts_text), 1)` and `total_comments / max(len(posts_text), 1)` raise `OverflowError` for such an integer, where the model computes a clamped score.
- Unicode beyond Latin-1. `str.lower()`, `str.isspace()` and `\w` are exact only up to U+00FF. Word characters above it are treated as non-word.
- Report.PersonalityReportOf: the scores dict is given as a sequence of key/score entries in iteration order. Non-numeric scores are left out; in Python they would fail the comparison with a `TypeError`.
- Analyzer.BigFiveAnalyzer.GenerateReport: the `.get` defaults for `big_five_scores`, `metadata` and the trait keys are not modelled. So is the `if sentiment:` test. Every result the class stores has all these keys, and its sentiment dict is never empty, so none of them can take effect.
- `results` is `Option<AnalysisResult>`: `None` stands for the initial empty dict, the only empty value it can hold.
- The lexicon and keyword lists are constant fields of the class. The lexicon corresponds to the class attributes of `SpanishSentimentAnalyzer` and the keyword lists to the attributes set in `__init__`. The `SpanishSentimentAnalyzer` instance itself carries no other state.
- `CollectPostTexts`, `SumNumericField`, `ScanScores`, `NegationLookahead`, `Summarize` and `ScoreTexts` are pieces of longer source functions, split out as methods.
- The scraper (`src/scraper.py`), the entry point (`main.py`), configuration (`config.py`) and helpers (`src/utils.py`) are not part of this model.
