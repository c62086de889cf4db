/** Text primitives shared by the sentiment analyzer and the trait scorer:
    Python's `str.strip()`, `str.lower()`, the word-character class `\w`,
    the tokenizer `re.findall(r"\b\w+\b", s)` and `" ".join(...)`, stated
    on Dafny strings. */
module Text {

  /** Python's `str.isspace()`: the characters `str.strip()` removes. */
  predicate IsSpace(c: char) {
    ('\t' <= c <= '\r') || ('\U{1C}' <= c <= '\U{1F}') || c == ' '
    || c == '\U{85}' || c == '\U{A0}' || c == '\U{1680}'
    || ('\U{2000}' <= c <= '\U{200A}') || c == '\U{2028}' || c == '\U{2029}'
    || c == '\U{202F}' || c == '\U{205F}' || c == '\U{3000}'
  }

  /** Python's `\w` on Latin-1: letters, digits, numerals and `_`.
      Characters above U+00FF are treated as non-word characters. */
  predicate IsWordChar(c: char) {
    ('a' <= c <= 'z') || ('A' <= c <= 'Z') || ('0' <= c <= '9') || c == '_'
    || c == '\U{AA}' || c == '\U{B2}' || c == '\U{B3}' || c == '\U{B5}'
    || c == '\U{B9}' || c == '\U{BA}' || ('\U{BC}' <= c <= '\U{BE}')
    || ('\U{C0}' <= c <= '\U{FF}' && c != '\U{D7}' && c != '\U{F7}')
  }

  /** Python's `str.lower()` on one character: ASCII and Latin-1 capitals
      map to their small letters, every other character is kept. */
  function Lower(c: char): (r: char)
    ensures IsSpace(c) ==> r == c
  {
    if 'A' <= c <= 'Z' || ('\U{C0}' <= c <= '\U{DE}' && c != '\U{D7}')
    then (c as int + 32) as char
    else c
  }

  function LowerStr(s: string): (r: string)
    ensures |r| == |s|
  {
    seq(|s|, i requires 0 <= i < |s| => Lower(s[i]))
  }

  function StripLeading(s: string): (r: string)
    ensures |r| <= |s| && r == s[|s| - |r|..]
    ensures r == [] || !IsSpace(r[0])
    ensures forall k :: 0 <= k < |s| - |r| ==> IsSpace(s[k])
  {
    if s != [] && IsSpace(s[0]) then StripLeading(s[1..]) else s
  }

  function StripTrailing(s: string): (r: string)
    ensures |r| <= |s| && r == s[..|r|]
    ensures r == [] || !IsSpace(r[|r| - 1])
    ensures forall k :: |r| <= k < |s| ==> IsSpace(s[k])
  {
    if s != [] && IsSpace(s[|s| - 1]) then StripTrailing(s[..|s| - 1]) else s
  }

  /** Python's `str.strip()`. */
  function Strip(s: string): (r: string)
    ensures |r| <= |s|
    ensures r == [] || (!IsSpace(r[0]) && !IsSpace(r[|r| - 1]))
  {
    StripTrailing(StripLeading(s))
  }

  /** A string strips to nothing exactly when it is all white space, so
      `len(s.strip()) > 0` means "s holds a non-space character". */
  lemma StripEmptyIff(s: string)
    ensures Strip(s) == [] <==> forall k :: 0 <= k < |s| ==> IsSpace(s[k])
  {
    var l := StripLeading(s);
    if Strip(s) == [] {
      assert l == [];
    }
  }

  /** Stripping twice strips nothing more. */
  lemma StripIdempotent(s: string)
    ensures Strip(Strip(s)) == Strip(s)
  {
    var r := Strip(s);
    assert StripLeading(r) == r;
    assert StripTrailing(r) == r;
  }

  /** Length of the longest prefix made of word characters. */
  function WordPrefixLength(s: string): (n: nat)
    ensures n <= |s|
    ensures forall k :: 0 <= k < n ==> IsWordChar(s[k])
    ensures n == |s| || !IsWordChar(s[n])
  {
    if s != [] && IsWordChar(s[0]) then 1 + WordPrefixLength(s[1..]) else 0
  }

  /** All characters of `w` are word characters. */
  predicate IsWord(w: string) {
    w != [] && forall k :: 0 <= k < |w| ==> IsWordChar(w[k])
  }

  /** `re.findall(r"\b\w+\b", s)`: the maximal runs of word characters,
      left to right. */
  function Tokens(s: string): (ws: seq<string>)
    ensures forall j :: 0 <= j < |ws| ==> IsWord(ws[j])
    ensures |ws| <= |s|
    decreases |s|
  {
    if s == [] then []
    else if !IsWordChar(s[0]) then Tokens(s[1..])
    else
      var n := WordPrefixLength(s);
      [s[..n]] + Tokens(s[n..])
  }

  /** A string cut at a non-word character tokenizes piecewise. */
  lemma {:induction false} TokensAppend(a: string, b: string)
    requires b == [] || !IsWordChar(b[0])
    ensures Tokens(a + b) == Tokens(a) + Tokens(b)
    decreases |a|
  {
    if a == [] {
      assert a + b == b;
    } else if !IsWordChar(a[0]) {
      assert (a + b)[1..] == a[1..] + b;
      TokensAppend(a[1..], b);
    } else {
      var n := WordPrefixLength(a);
      WordPrefixAppend(a, b);
      assert (a + b)[..n] == a[..n];
      assert (a + b)[n..] == a[n..] + b;
      TokensAppend(a[n..], b);
    }
  }

  lemma {:induction false} WordPrefixAppend(a: string, b: string)
    requires b == [] || !IsWordChar(b[0])
    ensures WordPrefixLength(a + b) == WordPrefixLength(a)
    decreases |a|
  {
    if a == [] {
      assert a + b == b;
    } else if IsWordChar(a[0]) {
      assert (a + b)[1..] == a[1..] + b;
      WordPrefixAppend(a[1..], b);
    }
  }

  /** The total length of the texts. */
  function TotalLength(ts: seq<string>): nat {
    if ts == [] then 0 else |ts[0]| + TotalLength(ts[1..])
  }

  /** Python's `" ".join(ts)`: the texts in order with one separator
      between neighbours, so a non-empty list joins to its total length plus
      one character per gap, and the join starts with the first text. */
  function JoinSpace(ts: seq<string>): (r: string)
    ensures |ts| == 1 ==> r == ts[0]
    ensures ts != [] ==> |r| == TotalLength(ts) + |ts| - 1
    ensures ts != [] ==> r[..|ts[0]|] == ts[0]
  {
    if ts == [] then ""
    else if |ts| == 1 then ts[0]
    else ts[0] + " " + JoinSpace(ts[1..])
  }

  /** The tokens of every text, in order. */
  function TokensOfAll(ts: seq<string>): seq<string> {
    if ts == [] then [] else Tokens(ts[0]) + TokensOfAll(ts[1..])
  }

  /** Joining with single spaces never glues two words together: the
      tokens of the joined text are the tokens of its parts. */
  lemma {:induction false} TokensOfJoin(ts: seq<string>)
    ensures Tokens(JoinSpace(ts)) == TokensOfAll(ts)
  {
    if |ts| == 1 {
      assert ts[1..] == [];
    } else if |ts| > 1 {
      var rest := " " + JoinSpace(ts[1..]);
      assert ts[0] + " " + JoinSpace(ts[1..]) == ts[0] + rest;
      TokensAppend(ts[0], rest);
      assert rest[1..] == JoinSpace(ts[1..]);
      TokensOfJoin(ts[1..]);
    }
  }

  function LowerAll(ts: seq<string>): (r: seq<string>)
    ensures |r| == |ts|
  {
    if ts == [] then [] else [LowerStr(ts[0])] + LowerAll(ts[1..])
  }

  lemma LowerStrAppend(a: string, b: string)
    ensures LowerStr(a + b) == LowerStr(a) + LowerStr(b)
  {
    assert forall i :: 0 <= i < |a + b| ==>
      LowerStr(a + b)[i] == (LowerStr(a) + LowerStr(b))[i];
  }

  /** Lower-casing the joined text is joining the lower-cased texts. */
  lemma {:induction false} LowerJoin(ts: seq<string>)
    ensures LowerStr(JoinSpace(ts)) == JoinSpace(LowerAll(ts))
  {
    if |ts| > 1 {
      LowerStrAppend(ts[0] + " ", JoinSpace(ts[1..]));
      LowerStrAppend(ts[0], " ");
      assert LowerStr(" ") == " ";
      LowerJoin(ts[1..]);
      assert LowerAll(ts)[1..] == LowerAll(ts[1..]);
    }
  }

  /** Number of elements of `words` that belong to `s`. */
  function CountIn(words: seq<string>, s: set<string>): (n: nat)
    ensures n <= |words|
  {
    if words == [] then 0
    else (if words[0] in s then 1 else 0) + CountIn(words[1..], s)
  }

  /** The count is zero exactly when no element belongs to the set. */
  lemma {:induction false} CountInZeroIff(words: seq<string>, s: set<string>)
    ensures CountIn(words, s) == 0 <==> forall j :: 0 <= j < |words| ==> words[j] !in s
  {
    if words != [] {
      CountInZeroIff(words[1..], s);
      assert forall j :: 1 <= j < |words| ==> words[j] == words[1..][j - 1];
    }
  }

  /** The distinct elements of a sequence: Python's `set(words)`. */
  function Distinct(words: seq<string>): set<string> {
    set w | w in words
  }

  /** There are at least one and at most `|words|` distinct words. */
  lemma {:induction false} DistinctBounds(words: seq<string>)
    ensures |Distinct(words)| <= |words|
    ensures words != [] ==> |Distinct(words)| >= 1
  {
    if words != [] {
      var init := words[..|words| - 1];
      DistinctBounds(init);
      assert words == init + [words[|words| - 1]];
      assert Distinct(words) == Distinct(init) + {words[|words| - 1]};
    }
  }
}
