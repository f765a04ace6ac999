/** The regular expression `/"response"\s*:\s*"([^"]*)"/` of the chat
    component, as an explicit scanner, together with the set of matches it
    denotes and a proof that `String.prototype.match` (no `g` flag) returns
    the leftmost of them.

    The pattern leaves the matcher no backtracking choice: each `\s*` is
    followed by a character that is not whitespace (`:` or `"`), and `[^"]*`
    is followed by `"`, so a greedy scan at a given start position is the
    only way to match there. */
module ResponsePattern {
  import opened Optional
  import opened JsText

  /** The literal prefix `"response"` of the pattern, quotes included. */
  const Key: string := "\"response\""

  /** The pattern matches `s` starting at `i`, with its `:` at `j`, the
      quote that opens the captured group at `k` and the quote that closes it
      at `e`; the captured group is `s[k + 1..e]`. */
  ghost predicate IsMatch(s: string, i: int, j: int, k: int, e: int) {
    && 0 <= i && i + |Key| <= j < k < e < |s|
    && s[i..i + |Key|] == Key
    && (forall t :: i + |Key| <= t < j ==> IsWhitespace(s[t]))
    && s[j] == ':'
    && (forall t :: j < t < k ==> IsWhitespace(s[t]))
    && s[k] == '"'
    && (forall t :: k < t < e ==> s[t] != '"')
    && s[e] == '"'
  }

  /** No match of the pattern starts before `i`. */
  ghost predicate NoMatchBefore(s: string, i: int) {
    forall i', j, k, e :: IsMatch(s, i', j, k, e) ==> i <= i'
  }

  /** Where one match sits: its start, its `:`, and its two quotes. */
  datatype Match = Match(at: nat, colon: nat, open: nat, close: nat)

  /** The first position at or after `p` that holds a `"`, or `|s|`. */
  function SkipNonQuote(s: string, p: nat): (q: nat)
    requires p <= |s|
    ensures p <= q <= |s|
    ensures forall t :: p <= t < q ==> s[t] != '"'
    ensures q == |s| || s[q] == '"'
    decreases |s| - p
  {
    if p < |s| && s[p] != '"' then SkipNonQuote(s, p + 1) else p
  }

  /** The end of a run without quotes is unique. */
  lemma SkipNonQuoteUnique(s: string, p: nat, q: nat)
    requires p <= q <= |s|
    requires forall t :: p <= t < q ==> s[t] != '"'
    requires q == |s| || s[q] == '"'
    ensures SkipNonQuote(s, p) == q
  {
  }

  /** Tries the pattern at start position `i` alone. */
  function MatchAt(s: string, i: nat): (r: Option<Match>)
    ensures r.Some? ==> r.value.at == i && IsMatch(s, i, r.value.colon, r.value.open, r.value.close)
  {
    if i + |Key| <= |s| && s[i..i + |Key|] == Key then
      var j := SkipWhitespace(s, i + |Key|);
      if j < |s| && s[j] == ':' then
        var k := SkipWhitespace(s, j + 1);
        if k < |s| && s[k] == '"' then
          var e := SkipNonQuote(s, k + 1);
          if e < |s| then Some(Match(i, j, k, e)) else None
        else None
      else None
    else None
  }

  /** The scanner finds every match at its start position, and there is only
      one: a match at `i` is the one `MatchAt` returns. */
  lemma MatchAtComplete(s: string, i: nat, j: int, k: int, e: int)
    requires IsMatch(s, i, j, k, e)
    ensures MatchAt(s, i) == Some(Match(i, j, k, e))
  {
    SkipWhitespaceUnique(s, i + |Key|, j);
    SkipWhitespaceUnique(s, j + 1, k);
    SkipNonQuoteUnique(s, k + 1, e);
  }

  /** Tries start positions `from`, `from + 1`, ... in turn and returns the
      first that matches. */
  function FindFrom(s: string, from: nat): (r: Option<Match>)
    ensures r.Some? ==> from <= r.value.at < |s| && MatchAt(s, r.value.at) == r
    ensures r.Some? ==> forall i :: from <= i < r.value.at ==> MatchAt(s, i).None?
    ensures r.None? ==> forall i :: from <= i < |s| ==> MatchAt(s, i).None?
    decreases |s| - from
  {
    if from >= |s| then None
    else
      match MatchAt(s, from)
      case Some(m) => Some(m)
      case None => FindFrom(s, from + 1)
  }

  /** `s.match(pattern)`: the first match, searching from the start. */
  function FirstMatch(s: string): (r: Option<Match>)
    ensures r.Some? ==> IsMatch(s, r.value.at, r.value.colon, r.value.open, r.value.close)
    ensures r.Some? ==> forall i :: 0 <= i < r.value.at ==> MatchAt(s, i).None?
    ensures r.None? ==> forall i :: 0 <= i < |s| ==> MatchAt(s, i).None?
  {
    FindFrom(s, 0)
  }

  /** The group the match captures (`responseMatch[1]`): the characters
      strictly between its two quotes, none of which is a quote. */
  function Captured(s: string, m: Match): (r: string)
    requires IsMatch(s, m.at, m.colon, m.open, m.close)
    ensures |r| == m.close - m.open - 1
    ensures forall t :: 0 <= t < |r| ==> r[t] == s[m.open + 1 + t]
    ensures '"' !in r
  {
    CapturedHasNoQuote(s, m.at, m.colon, m.open, m.close);
    s[m.open + 1..m.close]
  }

  /** What `FirstMatch` returns is a match, and no match starts earlier. */
  lemma FirstMatchSound(s: string)
    ensures FirstMatch(s).Some? ==>
      var m := FirstMatch(s).value;
      IsMatch(s, m.at, m.colon, m.open, m.close) && NoMatchBefore(s, m.at)
  {
    if FirstMatch(s).Some? {
      var m := FirstMatch(s).value;
      forall i', j, k, e | IsMatch(s, i', j, k, e) ensures m.at <= i' {
        MatchAtComplete(s, i', j, k, e);
      }
    }
  }

  /** Any match is found: `FirstMatch` returns one that starts no later, and
      if it starts at the same place it is the same match. */
  lemma FirstMatchComplete(s: string, i: int, j: int, k: int, e: int)
    requires IsMatch(s, i, j, k, e)
    ensures FirstMatch(s).Some? && FirstMatch(s).value.at <= i
    ensures FirstMatch(s).value.at == i ==> FirstMatch(s).value == Match(i, j, k, e)
  {
    MatchAtComplete(s, i, j, k, e);
  }

  /** `FirstMatch` finds nothing exactly when the text has no match at all. */
  lemma FirstMatchNoneIff(s: string)
    ensures FirstMatch(s).None? <==> forall i, j, k, e :: !IsMatch(s, i, j, k, e)
  {
    if FirstMatch(s).None? {
      forall i, j, k, e | IsMatch(s, i, j, k, e) ensures false {
        FirstMatchComplete(s, i, j, k, e);
      }
    } else {
      FirstMatchSound(s);
    }
  }

  /** The captured group is a contiguous part of the text and holds no `"`. */
  lemma CapturedHasNoQuote(s: string, i: int, j: int, k: int, e: int)
    requires IsMatch(s, i, j, k, e)
    ensures 0 <= k + 1 <= e <= |s|
    ensures '"' !in s[k + 1..e]
  {
    var g := s[k + 1..e];
    forall t | 0 <= t < |g| ensures g[t] != '"' {
      assert g[t] == s[k + 1 + t];
    }
  }
}
