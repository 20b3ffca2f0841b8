/** The save button's guard and the download file name. */
module Persistence {
  import opened Types

  /** Saving needs at least two messages in the log. */
  predicate CanSave(messages: seq<Message>) {
    |messages| >= 2
  }

  /** A UTF-16 code unit, the unit JavaScript strings are indexed, measured
      and matched by (a regular expression without the `u` flag). */
  type CodeUnit = u: int | 0 <= u < 0x1_0000

  /** The UTF-16 encoding of one character: itself below U+10000, otherwise a
      high surrogate followed by a low surrogate. */
  function Units(c: char): (r: seq<CodeUnit>)
    ensures c as int < 0x1_0000 ==> r == [c as int]
    ensures c as int >= 0x1_0000 ==>
      && |r| == 2 && 0xD800 <= r[0] < 0xDC00 && 0xDC00 <= r[1] < 0xE000
      && (r[0] as int - 0xD800) * 0x400 + (r[1] as int - 0xDC00) + 0x1_0000 == c as int
  {
    if c as int < 0x1_0000 then [c as int]
    else
      var v := c as int - 0x1_0000;
      [0xD800 + v / 0x400, 0xDC00 + v % 0x400]
  }

  /** The string as JavaScript sees it: its sequence of UTF-16 code units. */
  function Utf16(s: string): (r: seq<CodeUnit>)
    ensures |r| >= |s|
  {
    if s == [] then [] else Units(s[0]) + Utf16(s[1..])
  }

  lemma {:induction false} Utf16Append(a: string, b: string)
    ensures Utf16(a + b) == Utf16(a) + Utf16(b)
  {
    if a == [] {
      assert a + b == b;
    } else {
      assert (a + b)[0] == a[0];
      assert (a + b)[1..] == a[1..] + b;
      Utf16Append(a[1..], b);
      calc {
        Utf16(a + b);
        Units(a[0]) + Utf16(a[1..] + b);
        Units(a[0]) + (Utf16(a[1..]) + Utf16(b));
        (Units(a[0]) + Utf16(a[1..])) + Utf16(b);
      }
    }
  }

  /** Below U+10000 a string and its code units agree position by position. */
  lemma {:induction false} Utf16Bmp(s: string)
    requires forall i :: 0 <= i < |s| ==> s[i] as int < 0x1_0000
    ensures |Utf16(s)| == |s|
    ensures forall i :: 0 <= i < |s| ==> Utf16(s)[i] == s[i] as int
  {
    if s != [] {
      Utf16Bmp(s[1..]);
    }
  }

  /** `/[a-z0-9]/i` on one code unit: without the `u` flag only ASCII matches. */
  predicate IsAsciiAlnumUnit(u: CodeUnit) {
    'a' as int <= u <= 'z' as int || 'A' as int <= u <= 'Z' as int || '0' as int <= u <= '9' as int
  }

  predicate IsAsciiAlnum(c: char) {
    'a' <= c <= 'z' || 'A' <= c <= 'Z' || '0' <= c <= '9'
  }

  predicate IsSafeChar(c: char) {
    'a' <= c <= 'z' || '0' <= c <= '9' || c == '-'
  }

  function LowerChar(c: char): char {
    if 'A' <= c <= 'Z' then (c as int + 32) as char else c
  }

  /** `replace(/[^a-z0-9]/gi, '-')`, one code unit at a time: a surrogate is
      never alphanumeric, so a character above U+FFFF becomes "--". */
  function ReplaceUnsafe(units: seq<CodeUnit>): (r: string)
    ensures |r| == |units|
    ensures forall i :: 0 <= i < |units| ==> r[i] == if IsAsciiAlnumUnit(units[i]) then units[i] as char else '-'
  {
    if units == [] then []
    else [if IsAsciiAlnumUnit(units[0]) then units[0] as char else '-'] + ReplaceUnsafe(units[1..])
  }

  /** `toLowerCase()`, applied to a text that is ASCII by then. */
  function LowerCase(s: string): (r: string)
    ensures |r| == |s|
    ensures forall i :: 0 <= i < |s| ==> r[i] == LowerChar(s[i])
  {
    if s == [] then [] else [LowerChar(s[0])] + LowerCase(s[1..])
  }

  /** The sanitised title has the title's JavaScript length (its UTF-16 units)
      and holds only `[a-z0-9-]`; letters and digits survive (lower-cased) in
      place, every other code unit becomes '-'. */
  function SafeTitle(title: string): (r: string)
    ensures |r| == |Utf16(title)|
    ensures forall i :: 0 <= i < |r| ==> IsSafeChar(r[i])
    ensures forall i :: 0 <= i < |r| ==> (r[i] == '-' <==> !IsAsciiAlnumUnit(Utf16(title)[i]))
    ensures forall i :: 0 <= i < |r| && IsAsciiAlnumUnit(Utf16(title)[i]) ==>
      r[i] == LowerChar(Utf16(title)[i] as char)
  {
    LowerCase(ReplaceUnsafe(Utf16(title)))
  }

  /** For a title without characters above U+FFFF, sanitising works
      character by character. */
  lemma SafeTitleBmp(title: string)
    requires forall i :: 0 <= i < |title| ==> title[i] as int < 0x1_0000
    ensures |SafeTitle(title)| == |title|
    ensures forall i :: 0 <= i < |title| ==> (SafeTitle(title)[i] == '-' <==> !IsAsciiAlnum(title[i]))
    ensures forall i :: 0 <= i < |title| && IsAsciiAlnum(title[i]) ==> SafeTitle(title)[i] == LowerChar(title[i])
  {
    Utf16Bmp(title);
  }

  lemma {:induction false} ReplaceUnsafeAppend(a: seq<CodeUnit>, b: seq<CodeUnit>)
    ensures ReplaceUnsafe(a + b) == ReplaceUnsafe(a) + ReplaceUnsafe(b)
  {
    if a == [] {
      assert a + b == b;
    } else {
      assert (a + b)[0] == a[0] && (a + b)[1..] == a[1..] + b;
      ReplaceUnsafeAppend(a[1..], b);
    }
  }

  lemma {:induction false} LowerCaseAppend(a: string, b: string)
    ensures LowerCase(a + b) == LowerCase(a) + LowerCase(b)
  {
    if a == [] {
      assert a + b == b;
    } else {
      assert (a + b)[0] == a[0] && (a + b)[1..] == a[1..] + b;
      LowerCaseAppend(a[1..], b);
    }
  }

  /** Sanitising works code unit by code unit, so it distributes over concatenation. */
  lemma SafeTitleAppend(a: string, b: string)
    ensures SafeTitle(a + b) == SafeTitle(a) + SafeTitle(b)
  {
    Utf16Append(a, b);
    ReplaceUnsafeAppend(Utf16(a), Utf16(b));
    LowerCaseAppend(ReplaceUnsafe(Utf16(a)), ReplaceUnsafe(Utf16(b)));
  }

  /** A character above U+FFFF counts twice: it becomes "--". */
  lemma SafeTitleOutsideBmp(before: string, c: char, after: string)
    requires c as int >= 0x1_0000
    ensures SafeTitle(before + [c] + after) == SafeTitle(before) + "--" + SafeTitle(after)
  {
    SafeTitleAppend(before + [c], after);
    SafeTitleAppend(before, [c]);
    assert Utf16([c]) == Units(c) + Utf16([]) by {
      assert [c][1..] == [];
    }
    var w := SafeTitle([c]);
    assert |w| == 2 && w[0] == '-' && w[1] == '-';
    assert w == "--";
  }

  /** The title "a" followed by U+1F9E0 has JavaScript length 3 and
      sanitises to "a--". */
  lemma SafeTitleAstralExample()
    ensures SafeTitle("a\U{1F9E0}") == "a--"
  {
    SafeTitleOutsideBmp("a", '\U{1F9E0}', "");
    assert "a" + ['\U{1F9E0}'] + "" == "a\U{1F9E0}";
    SafeTitleFixes("a");
    SafeTitleFixes("");
  }

  /** A title already made of safe characters is its own sanitised form. */
  lemma SafeTitleFixes(title: string)
    requires forall i :: 0 <= i < |title| ==> IsSafeChar(title[i])
    ensures SafeTitle(title) == title
  {
    Utf16Bmp(title);
  }

  /** Sanitising twice changes nothing more. */
  lemma SafeTitleIdempotent(title: string)
    ensures SafeTitle(SafeTitle(title)) == SafeTitle(title)
  {
    SafeTitleFixes(SafeTitle(title));
  }

  /** `arch-${safeTitle}.json` */
  function DownloadName(title: string): (r: string)
    ensures |r| == |Utf16(title)| + 10
    ensures r[..5] == "arch-" && r[|r| - 5..] == ".json"
    ensures r[5..|r| - 5] == SafeTitle(title)
  {
    "arch-" + SafeTitle(title) + ".json"
  }
}
