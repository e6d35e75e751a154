/** String helpers used by the access gate and the score search: ASCII case mapping
    (the part of JavaScript's toUpperCase/toLowerCase this model covers) and substring
    search (String.prototype.includes). */
module Text {

  /** Upper-case of one character; only the ASCII letters a-z change. */
  function UpperChar(c: char): char
  {
    if 'a' <= c <= 'z' then (c as int - 32) as char else c
  }

  /** Lower-case of one character; only the ASCII letters A-Z change. */
  function LowerChar(c: char): char
  {
    if 'A' <= c <= 'Z' then (c as int + 32) as char else c
  }

  function ToUpper(s: string): string
  {
    seq(|s|, i requires 0 <= i < |s| => UpperChar(s[i]))
  }

  function ToLower(s: string): string
  {
    seq(|s|, i requires 0 <= i < |s| => LowerChar(s[i]))
  }

  /** Lower-casing an upper-cased character gives the lower-cased character, and each
      mapping is idempotent. */
  lemma CharCaseLaws(c: char)
    ensures LowerChar(UpperChar(c)) == LowerChar(c)
    ensures UpperChar(UpperChar(c)) == UpperChar(c) && LowerChar(LowerChar(c)) == LowerChar(c)
  {
  }

  /** Case mapping keeps the length; lower-casing forgets whether the text was upper-cased
      first, so two texts that differ only in case lower-case alike; and applying a
      mapping twice is applying it once. */
  lemma {:induction false} CaseLaws(s: string)
    ensures |ToUpper(s)| == |s| && |ToLower(s)| == |s|
    ensures ToLower(ToUpper(s)) == ToLower(s)
    ensures ToUpper(ToUpper(s)) == ToUpper(s) && ToLower(ToLower(s)) == ToLower(s)
  {
    forall i | 0 <= i < |s|
      ensures ToLower(ToUpper(s))[i] == ToLower(s)[i]
      ensures ToUpper(ToUpper(s))[i] == ToUpper(s)[i] && ToLower(ToLower(s))[i] == ToLower(s)[i]
    {
      CharCaseLaws(s[i]);
    }
  }

  /** The characters that upper-case to a given upper-case letter are that letter
      and its lower-case form, and nothing else. */
  lemma UpperCharPreimage(c: char, u: char)
    requires 'A' <= u <= 'Z'
    ensures UpperChar(c) == u <==> c == u || c == LowerChar(u)
  {
  }

  /** A character that is not a lower-case ASCII letter upper-cases to a
      non-letter character only from itself. */
  lemma UpperCharFixedPreimage(c: char, d: char)
    requires !('A' <= d <= 'Z') && !('a' <= d <= 'z')
    ensures UpperChar(c) == d <==> c == d
  {
  }

  predicate IsPrefix(part: string, text: string)
  {
    |part| <= |text| && text[..|part|] == part
  }

  /** text.includes(part): part occurs in text at some offset. */
  predicate Contains(text: string, part: string)
    decreases |text|
  {
    IsPrefix(part, text) || (text != [] && Contains(text[1..], part))
  }

  /** Every string contains the empty string, so an empty search matches everything. */
  lemma ContainsEmpty(text: string)
    ensures Contains(text, "")
  {
    assert IsPrefix("", text);
  }

  /** Containment is occurrence at an offset: both directions. */
  lemma {:induction false} ContainsAt(text: string, part: string)
    ensures Contains(text, part) <==>
            exists k :: 0 <= k <= |text| - |part| && IsPrefix(part, text[k..])
    decreases |text|
  {
    if IsPrefix(part, text) {
      assert text[0..] == text;
    } else if text == [] {
    } else {
      ContainsAt(text[1..], part);
      if Contains(text, part) {
        var k :| 0 <= k <= |text[1..]| - |part| && IsPrefix(part, text[1..][k..]);
        assert text[1..][k..] == text[k + 1..];
      } else {
        forall k | 0 <= k <= |text| - |part|
          ensures !IsPrefix(part, text[k..])
        {
          if k > 0 {
            assert text[1..][k - 1..] == text[k..];
          } else {
            assert text[0..] == text;
          }
        }
      }
    }
  }

  /** A string only contains strings no longer than itself. */
  lemma {:induction false} ContainsShorter(text: string, part: string)
    requires Contains(text, part)
    ensures |part| <= |text|
    decreases |text|
  {
    if !IsPrefix(part, text) {
      ContainsShorter(text[1..], part);
    }
  }
}
