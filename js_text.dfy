/** The parts of JavaScript's string semantics the chat component relies on:
    the whitespace set shared by `String.prototype.trim` and the regular
    expression class `\s`, `trim` itself, and the "blank after trim" test. */
module JsText {

  /** The ECMAScript WhiteSpace and LineTerminator code points: exactly the
      characters `trim` removes and `\s` matches. */
  predicate IsWhitespace(c: char): (r: bool)
    ensures c == ' ' || c == '\t' || c == '\n' || c == '\r' ==> r
    ensures r ==> c != ':' && c != '"' && c != '{' && c != '}'
  {
    || c == '\t' || c == '\n' || c == '\U{000B}' || c == '\U{000C}' || c == '\r'
    || c == ' ' || c == '\U{00A0}' || c == '\U{1680}'
    || ('\U{2000}' <= c <= '\U{200A}')
    || c == '\U{2028}' || c == '\U{2029}' || c == '\U{202F}' || c == '\U{205F}'
    || c == '\U{3000}' || c == '\U{FEFF}'
  }

  /** The first position at or after `p` that does not hold whitespace. */
  function SkipWhitespace(s: string, p: nat): (q: nat)
    requires p <= |s|
    ensures p <= q <= |s|
    ensures forall t :: p <= t < q ==> IsWhitespace(s[t])
    ensures q == |s| || !IsWhitespace(s[q])
    decreases |s| - p
  {
    if p < |s| && IsWhitespace(s[p]) then SkipWhitespace(s, p + 1) else p
  }

  /** The end of a whitespace run is unique: any `q` with only whitespace in
      `[p, q)` and no whitespace at `q` is the one `SkipWhitespace` finds. */
  lemma SkipWhitespaceUnique(s: string, p: nat, q: nat)
    requires p <= q <= |s|
    requires forall t :: p <= t < q ==> IsWhitespace(s[t])
    requires q == |s| || !IsWhitespace(s[q])
    ensures SkipWhitespace(s, p) == q
  {
  }

  /** The smallest position `q` in `[lo, hi]` such that `s[q..hi]` is all
      whitespace. */
  function SkipWhitespaceBack(s: string, lo: nat, hi: nat): (q: nat)
    requires lo <= hi <= |s|
    ensures lo <= q <= hi
    ensures forall t :: q <= t < hi ==> IsWhitespace(s[t])
    ensures q == lo || !IsWhitespace(s[q - 1])
    decreases hi
  {
    if lo < hi && IsWhitespace(s[hi - 1]) then SkipWhitespaceBack(s, lo, hi - 1) else hi
  }

  /** `s[a..b]` is what is left of `s` once leading and trailing whitespace
      are removed: everything outside it is whitespace, and unless it is
      empty it neither starts nor ends with whitespace. */
  ghost predicate TrimsTo(s: string, a: int, b: int) {
    && 0 <= a <= b <= |s|
    && (forall t :: 0 <= t < a ==> IsWhitespace(s[t]))
    && (forall t :: b <= t < |s| ==> IsWhitespace(s[t]))
    && (a < b ==> !IsWhitespace(s[a]) && !IsWhitespace(s[b - 1]))
  }

  /** `String.prototype.trim`. */
  function Trim(s: string): (r: string)
    ensures exists a, b :: TrimsTo(s, a, b) && r == s[a..b]
  {
    var a := SkipWhitespace(s, 0);
    var b := SkipWhitespaceBack(s, a, |s|);
    assert TrimsTo(s, a, b);
    s[a..b]
  }

  /** The cut `Trim` makes, named. */
  lemma TrimCut(s: string) returns (a: int, b: int)
    ensures TrimsTo(s, a, b) && Trim(s) == s[a..b]
  {
    a := SkipWhitespace(s, 0);
    b := SkipWhitespaceBack(s, a, |s|);
  }

  /** Any way of cutting `s` as `TrimsTo` describes gives the same text, so
      `Trim` is fully determined by its contract. */
  lemma TrimUnique(s: string, a: int, b: int)
    requires TrimsTo(s, a, b)
    ensures Trim(s) == s[a..b]
  {
    var a', b' := TrimCut(s);
    if a < b {
      assert !IsWhitespace(s[a]) && !IsWhitespace(s[b - 1]);
    }
    if a' < b' {
      assert !IsWhitespace(s[a']) && !IsWhitespace(s[b' - 1]);
    }
  }

  /** The trimmed text is empty exactly when every character is whitespace. */
  lemma TrimEmptyIff(s: string)
    ensures Trim(s) == "" <==> forall t :: 0 <= t < |s| ==> IsWhitespace(s[t])
  {
    var a, b := TrimCut(s);
    if a < b {
      assert !IsWhitespace(s[a]);
    }
  }

  /** Trimming twice is trimming once. */
  lemma TrimIdempotent(s: string)
    ensures Trim(Trim(s)) == Trim(s)
  {
    var a, b := TrimCut(s);
    var r := s[a..b];
    assert TrimsTo(r, 0, |r|);
    TrimUnique(r, 0, |r|);
  }

  /** The guard `!text.trim()`: the text is empty once trimmed. */
  /** Every character of `s` is whitespace. */
  ghost predicate AllWhitespace(s: string) {
    forall t :: 0 <= t < |s| ==> IsWhitespace(s[t])
  }

  predicate IsBlank(s: string): (r: bool)
    ensures r <==> AllWhitespace(s)
  {
    TrimEmptyIff(s);
    Trim(s) == ""
  }

  /** Text is blank exactly when its trim is blank. */
  lemma TrimKeepsNonBlank(s: string)
    ensures IsBlank(Trim(s)) == IsBlank(s)
  {
    TrimIdempotent(s);
  }
}
