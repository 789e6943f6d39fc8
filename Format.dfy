/**
 * The pure text helpers of src/utils/format.ts: `truncateText` and `escapeHtml`.
 * Strings are sequences of characters; see README for the UTF-16 caveat.
 */
module Format {

  /** Default `maxLength` of `truncateText` in src/utils/format.ts. */
  const DefaultMaxLength := 50

  const Ellipsis := "..."

  /**
   * JavaScript's `s.slice(0, end)` for an integer `end`: an end past the length
   * takes everything, a negative end counts back from the length.
   */
  function SliceTo(s: string, end: int): (r: string)
    ensures r <= s
    ensures 0 <= end ==> |r| == if end < |s| then end else |s|
    ensures end < 0 ==> |r| == if |s| + end < 0 then 0 else |s| + end
  {
    if end >= |s| then s
    else if end >= 0 then s[..end]
    else if |s| + end < 0 then []
    else s[..|s| + end]
  }

  /**
   * `truncateText(text, maxLength)`: the text itself when it fits, otherwise a
   * prefix of it followed by the ellipsis.
   */
  function TruncateText(text: string, maxLength: int): (r: string)
    ensures |text| <= maxLength ==> r == text
    ensures |text| > maxLength ==> |r| >= 3 && r[..|r| - 3] <= text && r[|r| - 3..] == Ellipsis
    ensures 0 <= maxLength < |text| ==> r == text[..maxLength] + Ellipsis && |r| == maxLength + 3
  {
    if |text| <= maxLength then text else SliceTo(text, maxLength) + Ellipsis
  }

  /** `truncateText(text)` with the default limit of 50. */
  function TruncateTextDefault(text: string): (r: string)
    ensures |text| <= DefaultMaxLength ==> r == text
    ensures |text| > DefaultMaxLength ==> r == text[..DefaultMaxLength] + Ellipsis && |r| == DefaultMaxLength + 3
  {
    TruncateText(text, DefaultMaxLength)
  }

  /** A truncated text is never longer than the limit plus the ellipsis. */
  lemma TruncateTextBound(text: string, maxLength: nat)
    ensures |TruncateText(text, maxLength)| <= maxLength + |Ellipsis|
    ensures |TruncateText(text, maxLength)| <= |text| + |Ellipsis|
  {
  }

  /** The five characters `escapeHtml` rewrites. */
  predicate IsSpecial(c: char) {
    c == '&' || c == '<' || c == '>' || c == '"' || c == '\''
  }

  /** The entity `escapeHtml` puts in place of one character. */
  function EscapeChar(c: char): (r: string)
    ensures c == '&' ==> r == "&amp;"
    ensures c == '<' ==> r == "&lt;"
    ensures c == '>' ==> r == "&gt;"
    ensures c == '"' ==> r == "&quot;"
    ensures c == '\'' ==> r == "&#039;"
    ensures !IsSpecial(c) ==> r == [c]
  {
    match c
    case '&' => "&amp;"
    case '<' => "&lt;"
    case '>' => "&gt;"
    case '"' => "&quot;"
    case '\'' => "&#039;"
    case _ => [c]
  }

  /** `escapeHtml(text)`: every character replaced by its entity, left to right. */
  function EscapeHtml(text: string): (r: string)
    ensures |r| >= |text|
    decreases |text|
  {
    if text == [] then [] else EscapeChar(text[0]) + EscapeHtml(text[1..])
  }

  /** Escaping distributes over concatenation. */
  lemma {:induction false} EscapeHtmlConcat(a: string, b: string)
    ensures EscapeHtml(a + b) == EscapeHtml(a) + EscapeHtml(b)
    decreases |a|
  {
    if a == [] {
      assert a + b == b;
    } else {
      assert (a + b)[1..] == a[1..] + b;
      EscapeHtmlConcat(a[1..], b);
    }
  }

  /** A text with none of the five characters is left as it is. */
  lemma {:induction false} EscapeHtmlIdentity(text: string)
    requires forall i :: 0 <= i < |text| ==> !IsSpecial(text[i])
    ensures EscapeHtml(text) == text
    decreases |text|
  {
    if text != [] {
      EscapeHtmlIdentity(text[1..]);
    }
  }

  /** Characters that may not appear in escaped output. */
  predicate IsMarkup(c: char) {
    c == '<' || c == '>' || c == '"' || c == '\''
  }

  /** The escaped text holds no `<`, `>`, `"` or `'`. */
  lemma {:induction false} EscapeHtmlSafe(text: string)
    ensures forall i :: 0 <= i < |EscapeHtml(text)| ==> !IsMarkup(EscapeHtml(text)[i])
    decreases |text|
  {
    if text != [] {
      EscapeHtmlSafe(text[1..]);
      var head, tail := EscapeChar(text[0]), EscapeHtml(text[1..]);
      assert EscapeHtml(text) == head + tail;
      forall i | 0 <= i < |head + tail| ensures !IsMarkup((head + tail)[i]) {
        if i >= |head| {
          assert (head + tail)[i] == tail[i - |head|];
        }
      }
    }
  }

  predicate StartsWith(s: string, prefix: string) {
    |prefix| <= |s| && s[..|prefix|] == prefix
  }

  /** Reading back the five entities; the inverse of `EscapeHtml`. */
  function Unescape(s: string): (r: string)
    decreases |s|
  {
    if s == [] then []
    else if StartsWith(s, "&amp;") then "&" + Unescape(s[5..])
    else if StartsWith(s, "&lt;") then "<" + Unescape(s[4..])
    else if StartsWith(s, "&gt;") then ">" + Unescape(s[4..])
    else if StartsWith(s, "&quot;") then "\"" + Unescape(s[6..])
    else if StartsWith(s, "&#039;") then "'" + Unescape(s[6..])
    else [s[0]] + Unescape(s[1..])
  }

  /** Strings that differ in their second character cannot be prefixes of each other. */
  lemma NotStartsWith(s: string, prefix: string)
    requires 2 <= |prefix| && 2 <= |s| && s[1] != prefix[1]
    ensures !StartsWith(s, prefix)
  {
  }

  /** A string starts with any of its prefixes, and what follows the prefix is the rest. */
  lemma StartsWithConcat(e: string, rest: string)
    ensures StartsWith(e + rest, e) && (e + rest)[|e|..] == rest
  {
    assert (e + rest)[..|e|] == e;
  }

  /** An entity in front of `rest` is read back as the character it stands for. */
  lemma UnescapeStep(c: char, rest: string)
    ensures Unescape(EscapeChar(c) + rest) == [c] + Unescape(rest)
  {
    var e := EscapeChar(c);
    var s := e + rest;
    StartsWithConcat(e, rest);
    if !IsSpecial(c) {
      assert s[0] == c && s[1..] == rest;
      assert !StartsWith(s, "&amp;") && !StartsWith(s, "&lt;") && !StartsWith(s, "&gt;");
      assert !StartsWith(s, "&quot;") && !StartsWith(s, "&#039;");
    } else if c == '&' {
    } else if c == '<' {
      NotStartsWith(s, "&amp;");
    } else if c == '>' {
      NotStartsWith(s, "&amp;");
      NotStartsWith(s, "&lt;");
    } else if c == '"' {
      NotStartsWith(s, "&amp;");
      NotStartsWith(s, "&lt;");
      NotStartsWith(s, "&gt;");
    } else {
      NotStartsWith(s, "&amp;");
      NotStartsWith(s, "&lt;");
      NotStartsWith(s, "&gt;");
      NotStartsWith(s, "&quot;");
    }
  }

  /** Escaping loses nothing: decoding the entities gives back the text. */
  lemma {:induction false} UnescapeEscapeHtml(text: string)
    ensures Unescape(EscapeHtml(text)) == text
    decreases |text|
  {
    if text != [] {
      UnescapeStep(text[0], EscapeHtml(text[1..]));
      UnescapeEscapeHtml(text[1..]);
    }
  }
}
