/**
 Escaping a label key for a JSON Patch path (pkg/node/node.go, jsonPatchEscape), against
 sections 3 and 4 of RFC 6901.
 */
module JsonPointer {

  /** strings.Replace of one character by a string, everywhere. */
  function ReplaceChar(s: string, c: char, r: string): string {
    if s == "" then "" else (if s[0] == c then r else [s[0]]) + ReplaceChar(s[1..], c, r)
  }

  /** strings.Replace of the pair "~d" by one character, left to right, everywhere. */
  function ReplacePair(s: string, d: char, r: char): string {
    if |s| >= 2 && s[0] == '~' && s[1] == d then [r] + ReplacePair(s[2..], d, r)
    else if s == "" then ""
    else [s[0]] + ReplacePair(s[1..], d, r)
  }

  /** The two passes of the code. */
  function JsonPatchEscape(s: string): string { ReplaceChar(ReplaceChar(s, '~', "~0"), '/', "~1") }

  /** Section 3: each character on its own. */
  function EscapeChar(c: char): string { if c == '~' then "~0" else if c == '/' then "~1" else [c] }

  function Escape(s: string): string { if s == "" then "" else EscapeChar(s[0]) + Escape(s[1..]) }

  /** Section 4: first "~1" to "/", then "~0" to "~". */
  function Unescape(s: string): string { ReplacePair(ReplacePair(s, '1', '/'), '0', '~') }

  lemma ReplaceFirst(h: char, s: string, c: char, r: string)
    ensures ReplaceChar([h] + s, c, r) == (if h == c then r else [h]) + ReplaceChar(s, c, r)
  {
    assert ([h] + s)[1..] == s;
  }

  lemma ReplaceAfterTilde(s: string)
    ensures ReplaceChar("~0" + s, '/', "~1") == "~0" + ReplaceChar(s, '/', "~1")
  {
    assert "~0" + s == ['~'] + (['0'] + s);
    ReplaceFirst('~', ['0'] + s, '/', "~1");
    ReplaceFirst('0', s, '/', "~1");
  }

  /** Two passes do what one pass should. */
  lemma {:induction false} EscapeIsOnePass(s: string)
    ensures JsonPatchEscape(s) == Escape(s)
  {
    if s != "" {
      EscapeIsOnePass(s[1..]);
      var rest := ReplaceChar(s[1..], '~', "~0");
      if s[0] == '~' {
        ReplaceAfterTilde(rest);
      } else {
        ReplaceFirst(s[0], rest, '/', "~1");
      }
    }
  }

  lemma {:induction false} EscapedHasNoSlash(s: string)
    ensures '/' !in Escape(s)
  {
    if s != "" {
      EscapedHasNoSlash(s[1..]);
    }
  }

  /** What is left after the first decoding pass: only the tildes are still escaped. */
  function HalfEscape(s: string): string { ReplaceChar(s, '~', "~0") }

  lemma {:induction false} FirstPass(s: string)
    ensures ReplacePair(Escape(s), '1', '/') == HalfEscape(s)
  {
    if s != "" {
      FirstPass(s[1..]);
      var rest := Escape(s[1..]);
      if s[0] == '/' {
        assert Escape(s) == "~1" + rest && ("~1" + rest)[2..] == rest;
      } else if s[0] == '~' {
        var t := "~0" + rest;
        assert Escape(s) == t && t[1..] == "0" + rest && ("0" + rest)[1..] == rest;
        assert ReplacePair(t, '1', '/') == "~" + ReplacePair("0" + rest, '1', '/');
        assert ReplacePair("0" + rest, '1', '/') == "0" + ReplacePair(rest, '1', '/');
      } else {
        assert Escape(s) == [s[0]] + rest && ([s[0]] + rest)[1..] == rest;
      }
    }
  }

  lemma {:induction false} SecondPass(s: string)
    ensures ReplacePair(HalfEscape(s), '0', '~') == s
  {
    if s != "" {
      SecondPass(s[1..]);
      var rest := HalfEscape(s[1..]);
      if s[0] == '~' {
        assert HalfEscape(s) == "~0" + rest && ("~0" + rest)[2..] == rest;
      } else {
        assert HalfEscape(s) == [s[0]] + rest && ([s[0]] + rest)[1..] == rest;
      }
    }
  }

  /** Decoding in the order of the RFC gives every key back, with no slash left on the way. */
  lemma EscapeRoundTrip(s: string)
    ensures Unescape(JsonPatchEscape(s)) == s && '/' !in JsonPatchEscape(s)
  {
    EscapeIsOnePass(s);
    EscapedHasNoSlash(s);
    FirstPass(s);
    SecondPass(s);
  }

  /** Different keys get different paths. */
  lemma EscapeInjective(s: string, t: string)
    requires JsonPatchEscape(s) == JsonPatchEscape(t)
    ensures s == t
  {
    EscapeRoundTrip(s);
    EscapeRoundTrip(t);
  }
}
