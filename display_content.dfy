/** `getDisplayContent` of the chat component: the text a message is
    rendered from. `JSON.parse` is a library call whose internals are not
    modelled; it is passed in as a function that says, for a given text,
    whether parsing throws and otherwise whether the parsed value is an
    object with a `response` key and what that key holds. */
module DisplayContent {
  import opened Optional
  import opened JsText
  import opened ResponsePattern

  /** What `JSON.parse(text)` leads to in the component: a thrown
      `SyntaxError`, or a value that is (`Some`) or is not (`None`) a
      non-null object with a `response` key, together with that key's value. */
  datatype ParseResult = Unparsable | Parsed(response: Option<string>)

  /** The test `content.trim().startsWith('{') && content.trim().endsWith('}')`. */
  predicate LooksLikeJson(content: string): (r: bool)
    ensures r ==> 2 <= |Trim(content)|
  {
    var t := Trim(content);
    |t| > 0 && t[0] == '{' && t[|t| - 1] == '}'
  }

  /** JSON-shaped content is exactly content whose first and last
      non-whitespace characters are a `{` and a later `}`. */
  lemma LooksLikeJsonIff(content: string, a: int, b: int)
    requires TrimsTo(content, a, b)
    ensures LooksLikeJson(content) <==> a + 2 <= b && content[a] == '{' && content[b - 1] == '}'
  {
    TrimUnique(content, a, b);
    var t := content[a..b];
    if a < b {
      assert t[0] == content[a] && t[|t| - 1] == content[b - 1];
    }
  }

  /** The regular-expression fallback: the captured group of the first match,
      or the content unchanged when there is no match. */
  function FromPattern(content: string): (r: string)
    ensures r == content || exists i, j, k, e :: IsMatch(content, i, j, k, e) && NoMatchBefore(content, i) && r == content[k + 1..e]
  {
    FirstMatchSound(content);
    match FirstMatch(content)
    case Some(m) => Captured(content, m)
    case None => content
  }

  /** `getDisplayContent(content)`. It has no precondition: every input,
      including one on which `parse` throws, yields a text, and that text is
      the content itself, the parsed `response`, or the group captured by
      the leftmost match of the pattern. */
  function GetDisplayContent(content: string, parse: string -> ParseResult): (r: string)
    ensures || r == content
            || (LooksLikeJson(content) && parse(content) == Parsed(Some(r)))
            || exists i, j, k, e :: IsMatch(content, i, j, k, e) && NoMatchBefore(content, i) && r == content[k + 1..e]
  {
    if LooksLikeJson(content) then
      match parse(content)
      // the throw jumps straight to the catch, which returns the content
      case Unparsable => content
      case Parsed(Some(v)) => v
      case Parsed(None) => FromPattern(content)
    else
      FromPattern(content)
  }

  /** The path on which the regular expression is tried: the content is not
      shaped like a JSON object, or it parses but has no `response` key. */
  predicate TriesPattern(content: string, parse: string -> ParseResult) {
    !LooksLikeJson(content) || parse(content) == Parsed(None)
  }

  /** JSON-shaped content on which `JSON.parse` throws is returned exactly as
      it is, whether or not the pattern would have matched it. */
  lemma ParseFailureKeepsContent(content: string, parse: string -> ParseResult)
    requires LooksLikeJson(content) && parse(content) == Unparsable
    ensures GetDisplayContent(content, parse) == content
    ensures !TriesPattern(content, parse)
  {
  }

  /** A JSON-shaped text that is not valid JSON (a trailing comma) but
      contains a match of the pattern. */
  const TrailingComma: string := "{\"response\": \"hi\",}"

  lemma TrailingCommaMatches()
    ensures IsMatch(TrailingComma, 1, 11, 13, 16)
  {
    var s := TrailingComma;
    var w := s[1..11];
    assert |w| == |Key| == 10;
    assert w[0] == Key[0] && w[1] == Key[1] && w[2] == Key[2] && w[3] == Key[3] && w[4] == Key[4];
    assert w[5] == Key[5] && w[6] == Key[6] && w[7] == Key[7] && w[8] == Key[8] && w[9] == Key[9];
    assert w == Key;
    assert IsWhitespace(s[12]);
  }

  lemma TrailingCommaLooksLikeJson()
    ensures LooksLikeJson(TrailingComma)
  {
    var s := TrailingComma;
    assert TrimsTo(s, 0, |s|);
    TrimUnique(s, 0, |s|);
  }

  /** On that text the fallback would extract `hi`, yet the throw from
      `JSON.parse` skips it and the whole text is shown. */
  lemma ParseFailureSkipsPattern(parse: string -> ParseResult)
    requires parse(TrailingComma) == Unparsable
    ensures FromPattern(TrailingComma) == "hi"
    ensures GetDisplayContent(TrailingComma, parse) == TrailingComma
  {
    var s := TrailingComma;
    TrailingCommaMatches();
    FirstMatchComplete(s, 1, 11, 13, 16);
    assert FirstMatch(s).value.at != 0 by {
      FirstMatchSound(s);
      assert s[0] != Key[0];
    }
    assert Captured(s, Match(1, 11, 13, 16)) == "hi";
    TrailingCommaLooksLikeJson();
  }

  /** A parsed object with a `response` key yields that key's value. */
  lemma ParsedResponseShown(content: string, parse: string -> ParseResult, v: string)
    requires LooksLikeJson(content) && parse(content) == Parsed(Some(v))
    ensures GetDisplayContent(content, parse) == v
  {
  }

  /** On the pattern path, text without any match is returned unchanged. */
  lemma NoMatchKeepsContent(content: string, parse: string -> ParseResult)
    requires TriesPattern(content, parse)
    requires forall i, j, k, e :: !IsMatch(content, i, j, k, e)
    ensures GetDisplayContent(content, parse) == content
  {
    FirstMatchNoneIff(content);
  }

  /** On the pattern path, the leftmost match decides the result: it is that
      match's captured group, a contiguous part of the content without a
      `"` in it. */
  lemma PatternPathLeftmost(content: string, parse: string -> ParseResult, i: int, j: int, k: int, e: int)
    requires TriesPattern(content, parse)
    requires IsMatch(content, i, j, k, e) && NoMatchBefore(content, i)
    ensures 0 <= k + 1 <= e <= |content|
    ensures GetDisplayContent(content, parse) == content[k + 1..e]
    ensures '"' !in GetDisplayContent(content, parse)
  {
    FirstMatchComplete(content, i, j, k, e);
    var m := FirstMatch(content).value;
    assert i <= m.at;
    assert m == Match(i, j, k, e);
    assert FromPattern(content) == content[k + 1..e];
    CapturedHasNoQuote(content, i, j, k, e);
  }

  /** Conversely, on the pattern path the result is the content itself or
      the captured group of the leftmost match, which holds no `"`. */
  lemma PatternPathSound(content: string, parse: string -> ParseResult)
    requires TriesPattern(content, parse)
    ensures || GetDisplayContent(content, parse) == content
            || (&& FirstMatch(content).Some?
                && var m := FirstMatch(content).value;
                && IsMatch(content, m.at, m.colon, m.open, m.close)
                && NoMatchBefore(content, m.at)
                && GetDisplayContent(content, parse) == content[m.open + 1..m.close]
                && '"' !in GetDisplayContent(content, parse))
  {
    FirstMatchSound(content);
    if FirstMatch(content).Some? {
      var m := FirstMatch(content).value;
      CapturedHasNoQuote(content, m.at, m.colon, m.open, m.close);
    }
  }
}
