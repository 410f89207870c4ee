/**
 The textual forms of a UUID that `uuid.UUID(text)` accepts, and the one form that `str(uuid)`
 prints. The database compares parsed values; keys, cache keys and some guards compare texts.
 Only ASCII digits and ASCII spaces are considered.
 */
module Uuid {
  import opened Prelude

  /** Sixteen to the power k. */
  function Pow16(k: nat): (r: nat)
    ensures r >= 1
  {
    if k == 0 then 1 else 16 * Pow16(k - 1)
  }

  type Id = n: nat | n < Pow16(32) witness (assert 0 < Pow16(32); 0)

  // ---------------------------------------------------------------------------
  // String operations used by uuid.UUID and by str.strip
  // ---------------------------------------------------------------------------

  /** `s.replace(pat, "")`: occurrences are removed from the left, without overlap. */
  function Remove(s: string, pat: string): (r: string)
    requires |pat| > 0
    ensures |r| <= |s|
    decreases |s|
  {
    if |s| < |pat| then s
    else if pat <= s then Remove(s[|pat|..], pat)
    else [s[0]] + Remove(s[1..], pat)
  }

  function StripLeft(s: string, chars: set<char>): (r: string)
    ensures |r| <= |s|
    ensures r != [] ==> r[0] !in chars
  {
    if s != [] && s[0] in chars then StripLeft(s[1..], chars) else s
  }

  function StripRight(s: string, chars: set<char>): (r: string)
    ensures |r| <= |s|
    ensures r != [] ==> r[|r| - 1] !in chars
  {
    if s != [] && s[|s| - 1] in chars then StripRight(s[..|s| - 1], chars) else s
  }

  /** `s.strip(chars)`. */
  function Strip(s: string, chars: set<char>): (r: string)
    ensures |r| <= |s|
  {
    StripRight(StripLeft(s, chars), chars)
  }

  predicate AllIn(s: string, chars: set<char>) {
    forall i :: 0 <= i < |s| ==> s[i] in chars
  }

  lemma {:induction false} StripLeftIs(s: string, chars: set<char>) returns (left: string)
    ensures s == left + StripLeft(s, chars) && AllIn(left, chars)
  {
    left := [];
    if s != [] && s[0] in chars {
      left := StripLeftIs(s[1..], chars);
      left := [s[0]] + left;
    }
  }

  lemma {:induction false} StripRightIs(s: string, chars: set<char>) returns (right: string)
    ensures s == StripRight(s, chars) + right && AllIn(right, chars)
    ensures StripRight(s, chars) != [] ==> s != [] && StripRight(s, chars)[0] == s[0]
  {
    right := [];
    if s != [] && s[|s| - 1] in chars {
      right := StripRightIs(s[..|s| - 1], chars);
      right := right + [s[|s| - 1]];
    }
  }

  /** Stripping takes away characters of the set at both ends, and all that are there. */
  lemma StripIs(s: string, chars: set<char>) returns (left: string, right: string)
    ensures s == left + Strip(s, chars) + right && AllIn(left, chars) && AllIn(right, chars)
    ensures var r := Strip(s, chars); r != [] ==> r[0] !in chars && r[|r| - 1] !in chars
    ensures Strip(s, chars) == [] <==> AllIn(s, chars)
  {
    hide StripLeft;
    hide StripRight;
    left := StripLeftIs(s, chars);
    right := StripRightIs(StripLeft(s, chars), chars);
    var r := Strip(s, chars);
    if r != [] {
      assert s[|left|] == r[0];
    }
  }

  // ---------------------------------------------------------------------------
  // int(text, 16)
  // ---------------------------------------------------------------------------

  const ASCII_SPACES: set<char> := {' ', '\t', '\n', '\r', '\U{000B}', '\U{000C}'}

  function HexValue(c: char): (v: Option<nat>)
    ensures v.Some? ==> v.value < 16
  {
    if '0' <= c <= '9' then Some((c - '0') as nat)
    else if 'a' <= c <= 'f' then Some((c - 'a') as nat + 10)
    else if 'A' <= c <= 'F' then Some((c - 'A') as nat + 10)
    else None
  }

  /** Hex digits with single underscores between them; `afterDigit` says what came before. */
  function Digits(s: string, acc: nat, afterDigit: bool): Option<nat> {
    if s == [] then
      if afterDigit then Some(acc) else None
    else if s[0] == '_' then
      if afterDigit then Digits(s[1..], acc, false) else None
    else
      match HexValue(s[0])
      case None => None
      case Some(v) => Digits(s[1..], 16 * acc + v, true)
  }

  /** The text after an optional 0x or 0x_ prefix. */
  function WithoutBase(t: string): (r: string)
    ensures |r| <= |t|
  {
    if |t| >= 2 && t[0] == '0' && (t[1] == 'x' || t[1] == 'X') then
      if |t| >= 3 && t[2] == '_' then t[3..] else t[2..]
    else t
  }

  /** The text after an optional plus sign and an optional 0x or 0x_ prefix. */
  function WithoutPrefix(s: string): (r: string)
    ensures |r| <= |s|
  {
    WithoutBase(if s != [] && s[0] == '+' then s[1..] else s)
  }

  function IntBase16(s: string): Option<nat> {
    Digits(WithoutPrefix(Strip(s, ASCII_SPACES)), 0, false)
  }

  lemma AppendDigitBound(acc: nat, v: nat, p: nat)
    requires v < 16
    ensures (16 * acc + v + 1) * p <= (acc + 1) * (16 * p)
  {
    assert (16 * acc + v + 1) * p <= (16 * acc + 16) * p;
  }

  lemma {:induction false} DigitsBound(s: string, acc: nat, afterDigit: bool, k: nat)
    requires |s| <= k && Digits(s, acc, afterDigit).Some?
    ensures Digits(s, acc, afterDigit).value < (acc + 1) * Pow16(k)
  {
    if s == [] {
      MulMonotone(acc + 1, 1, Pow16(k));
    } else if s[0] == '_' {
      DigitsBound(s[1..], acc, false, k - 1);
      MulMonotone(acc + 1, Pow16(k - 1), Pow16(k));
    } else {
      var v := HexValue(s[0]).value;
      DigitsBound(s[1..], 16 * acc + v, true, k - 1);
      AppendDigitBound(acc, v, Pow16(k - 1));
    }
  }

  lemma MulMonotone(a: nat, p: nat, q: nat)
    requires p <= q
    ensures a * p <= a * q
  {
  }

  /** Thirty-two characters can spell no value of 128 bits or more. */
  lemma IntBase16Bound(s: string, k: nat)
    requires |s| <= k && IntBase16(s).Some?
    ensures IntBase16(s).value < Pow16(k)
  {
    DigitsBound(WithoutPrefix(Strip(s, ASCII_SPACES)), 0, false, k);
  }

  // ---------------------------------------------------------------------------
  // uuid.UUID(text) and str(uuid)
  // ---------------------------------------------------------------------------

  /** What is left of a text when URN prefixes, braces and hyphens are gone. */
  function Stripped(text: string): string {
    Remove(Strip(Remove(Remove(text, "urn:"), "uuid:"), {'{', '}'}), "-")
  }

  /** `uuid.UUID(text)`; None stands for the ValueError. */
  function Parse(text: string): (r: Option<Id>) {
    var hex := Stripped(text);
    if |hex| != 32 then None
    else
      match IntBase16(hex)
      case None => None
      case Some(v) =>
        IntBase16Bound(hex, 32);
        Some(v)
  }

  predicate IsLowerHex(c: char) {
    '0' <= c <= '9' || 'a' <= c <= 'f'
  }

  function LowerDigit(v: nat): (c: char)
    requires v < 16
    ensures IsLowerHex(c) && HexValue(c) == Some(v)
  {
    if v < 10 then '0' + v as char else 'a' + (v - 10) as char
  }

  /** The k lowest hex digits of n. */
  function Hex(n: nat, k: nat): (r: string)
    ensures |r| == k
    ensures forall i :: 0 <= i < k ==> IsLowerHex(r[i])
  {
    if k == 0 then [] else Hex(n / 16, k - 1) + [LowerDigit(n % 16)]
  }

  function Grouped(h: string): string
    requires |h| == 32
  {
    h[..8] + "-" + h[8..12] + "-" + h[12..16] + "-" + h[16..20] + "-" + h[20..]
  }

  /** `str(uuid)`: lower-case digits in groups of 8-4-4-4-12 (section 4 of RFC 9562). */
  function Print(n: Id): string {
    Grouped(Hex(n, 32))
  }

  // ---------------------------------------------------------------------------
  // What a parsed text can contain
  // ---------------------------------------------------------------------------

  /** Removing a pattern keeps every character that the pattern does not contain. */
  lemma {:induction false} RemoveKeeps(s: string, pat: string, c: char)
    requires |pat| > 0 && c !in pat
    ensures c in Remove(s, pat) <==> c in s
    decreases |s|
  {
    if |s| < |pat| {
    } else if pat <= s {
      RemoveKeeps(s[|pat|..], pat, c);
      assert s == pat + s[|pat|..];
    } else {
      RemoveKeeps(s[1..], pat, c);
      assert s == [s[0]] + s[1..];
    }
  }

  lemma {:induction false} StripLeftKeeps(s: string, chars: set<char>, c: char)
    requires c !in chars
    ensures c in StripLeft(s, chars) <==> c in s
  {
    if s != [] && s[0] in chars {
      StripLeftKeeps(s[1..], chars, c);
      assert s == [s[0]] + s[1..];
    }
  }

  lemma {:induction false} StripRightKeeps(s: string, chars: set<char>, c: char)
    requires c !in chars
    ensures c in StripRight(s, chars) <==> c in s
  {
    if s != [] && s[|s| - 1] in chars {
      StripRightKeeps(s[..|s| - 1], chars, c);
      assert s == s[..|s| - 1] + [s[|s| - 1]];
    }
  }

  lemma StripKeeps(s: string, chars: set<char>, c: char)
    requires c !in chars
    ensures c in Strip(s, chars) <==> c in s
  {
    StripLeftKeeps(s, chars, c);
    StripRightKeeps(StripLeft(s, chars), chars, c);
  }

  lemma DigitsAreHex(s: string, acc: nat, afterDigit: bool, c: char)
    requires Digits(s, acc, afterDigit).Some? && c in s
    ensures c == '_' || HexValue(c).Some?
  {
    if c != s[0] {
      assert c in s[1..];
      if s[0] == '_' {
        DigitsAreHex(s[1..], acc, false, c);
      } else {
        DigitsAreHex(s[1..], 16 * acc + HexValue(s[0]).value, true, c);
      }
    }
  }

  lemma StrippedKeeps(text: string, c: char)
    requires c == '/' || c == '.'
    ensures c in Stripped(text) <==> c in text
  {
    RemoveKeeps(text, "urn:", c);
    RemoveKeeps(Remove(text, "urn:"), "uuid:", c);
    var t := Remove(Remove(text, "urn:"), "uuid:");
    StripKeeps(t, {'{', '}'}, c);
    RemoveKeeps(Strip(t, {'{', '}'}), "-", c);
  }

  lemma PrefixKeeps(s: string, c: char)
    requires c == '/' || c == '.'
    requires c in s
    ensures c in WithoutPrefix(s)
  {
    var k :| 0 <= k < |s| && s[k] == c;
    var t := WithoutPrefix(s);
    var cut := |s| - |t|;
    assert t == s[cut..];
    assert k >= cut;
    assert t[k - cut] == c;
  }

  lemma IntBase16Chars(s: string, c: char)
    requires c == '/' || c == '.'
    requires IntBase16(s).Some?
    ensures c !in s
  {
    if c in s {
      var core := Strip(s, ASCII_SPACES);
      assert c in core by { StripKeeps(s, ASCII_SPACES, c); }
      PrefixKeeps(core, c);
      DigitsAreHex(WithoutPrefix(core), 0, false, c);
    }
  }

  lemma StrippedLength(text: string)
    ensures |Stripped(text)| <= |text|
  {
  }

  /** No accepted text contains a path separator or a dot, and none is empty. */
  lemma TextIsPathSafe(text: string)
    requires Parse(text).Some?
    ensures '/' !in text && '.' !in text && |text| >= 32
  {
    StrippedLength(text);
    IntBase16Chars(Stripped(text), '/');
    IntBase16Chars(Stripped(text), '.');
    StrippedKeeps(text, '/');
    StrippedKeeps(text, '.');
  }

  // ---------------------------------------------------------------------------
  // Printing and parsing are inverse
  // ---------------------------------------------------------------------------

  lemma RemoveNothing(s: string, pat: string)
    requires |pat| > 0 && pat[0] !in s
    ensures Remove(s, pat) == s
    decreases |s|
  {
    if |s| >= |pat| {
      assert pat[0] == pat[..1][0];
      assert s[0] in s;
      RemoveNothing(s[1..], pat);
      assert s == [s[0]] + s[1..];
    }
  }

  lemma StripNothing(s: string, chars: set<char>)
    requires s != [] ==> s[0] !in chars && s[|s| - 1] !in chars
    ensures Strip(s, chars) == s
  {
  }

  /** Removing hyphens distributes over concatenation. */
  lemma {:induction false} RemoveHyphenConcat(a: string, b: string)
    ensures Remove(a + b, "-") == Remove(a, "-") + Remove(b, "-")
    decreases |a|
  {
    if a == [] {
      assert a + b == b;
    } else {
      RemoveHyphenConcat(a[1..], b);
      assert (a + b)[1..] == a[1..] + b;
      assert (a + b)[0] == a[0];
      assert ("-" <= a + b) == ("-" <= a) == (a[0] == '-');
    }
  }

  lemma {:induction false} AppendDigit(a: string, b: char, acc: nat, afterDigit: bool)
    requires forall i :: 0 <= i < |a| ==> IsLowerHex(a[i])
    requires IsLowerHex(b)
    requires a != [] || afterDigit
    ensures Digits(a, acc, afterDigit).Some?
    ensures Digits(a + [b], acc, afterDigit)
            == Some(16 * Digits(a, acc, afterDigit).value + HexValue(b).value)
  {
    if a == [] {
      assert a + [b] == [b];
      assert [b][1..] == [];
    } else {
      assert IsLowerHex(a[0]);
      assert (a + [b])[1..] == a[1..] + [b];
      AppendDigit(a[1..], b, 16 * acc + HexValue(a[0]).value, true);
    }
  }

  lemma {:induction false} HexRoundTrip(n: nat, k: nat)
    requires 0 < k && n < Pow16(k)
    ensures Digits(Hex(n, k), 0, false) == Some(n)
  {
    if k == 1 {
      assert Pow16(1) == 16 * Pow16(0);
      assert Hex(n, 1) == [LowerDigit(n)];
      assert [LowerDigit(n)][1..] == [];
    } else {
      HexRoundTrip(n / 16, k - 1);
      AppendDigit(Hex(n / 16, k - 1), LowerDigit(n % 16), 0, false);
    }
  }

  lemma PartWithHyphen(part: string, rest: string)
    requires '-' !in part
    ensures Remove(part + ("-" + rest), "-") == part + Remove(rest, "-")
  {
    RemoveHyphenConcat(part, "-" + rest);
    RemoveNothing(part, "-");
    assert ("-" + rest)[1..] == rest;
  }

  /** Cutting a hyphen-free text in five and joining it with hyphens is undone by removing them. */
  lemma GroupsJoined(h: string)
    requires |h| == 32 && '-' !in h
    ensures Remove(Grouped(h), "-") == h
  {
    var d := h[16..20] + ("-" + h[20..]);
    var c := h[12..16] + ("-" + d);
    var b := h[8..12] + ("-" + c);
    PartWithHyphen(h[..8], b);
    PartWithHyphen(h[8..12], c);
    PartWithHyphen(h[12..16], d);
    PartWithHyphen(h[16..20], h[20..]);
    RemoveNothing(h[20..], "-");
    assert Grouped(h) == h[..8] + ("-" + b);
    assert h[..8] + (h[8..12] + (h[12..16] + (h[16..20] + h[20..]))) == h;
  }

  lemma NotInHex(n: nat, k: nat, c: char)
    requires !IsLowerHex(c)
    ensures c !in Hex(n, k)
  {
  }

  /** A printed text holds hyphens and lower-case digits only. */
  lemma PrintChars(n: Id, c: char)
    requires c != '-' && !IsLowerHex(c)
    ensures c !in Print(n)
  {
    NotInHex(n, 32, c);
  }

  lemma PrintIs(n: Id)
    ensures Print(n) == Grouped(Hex(n, 32))
  {
  }

  /** A printed text has 36 characters, with hyphens at four places. */
  lemma PrintLayout(n: Id, i: nat)
    requires i < 36
    ensures |Print(n)| == 36 && (if i == 8 || i == 13 || i == 18 || i == 23 then Print(n)[i] == '-'
                                 else IsLowerHex(Print(n)[i]))
  {
    hide Hex;
  }

  lemma PrintEnds(n: Id)
    ensures |Print(n)| == 36 && IsLowerHex(Print(n)[0]) && IsLowerHex(Print(n)[35])
  {
    PrintLayout(n, 0);
    PrintLayout(n, 35);
  }

  lemma PrintStripped(n: Id)
    ensures Stripped(Print(n)) == Hex(n, 32)
  {
    var h := Hex(n, 32);
    LowerChars(h);
    GroupsStripped(h);
  }

  predicate IsHex(c: char) {
    '0' <= c <= '9' || 'a' <= c <= 'f' || 'A' <= c <= 'F'
  }

  lemma DigitsReadBack(h: string)
    requires |h| >= 2 && IsHex(h[0]) && IsHex(h[1]) && IsHex(h[|h| - 1])
    ensures IntBase16(h) == Digits(h, 0, false)
  {
    hide Digits;
    StripNothing(h, ASCII_SPACES);
    assert WithoutPrefix(h) == h;
  }

  lemma HexReadsBack(n: Id)
    ensures IntBase16(Hex(n, 32)) == Some(n)
  {
    DigitsReadBack(Hex(n, 32));
    HexRoundTrip(n, 32);
  }

  /** `uuid.UUID(str(u)) == u`. */
  lemma ParsePrint(n: Id)
    ensures Parse(Print(n)) == Some(n)
  {
    PrintStripped(n);
    HexReadsBack(n);
  }

  /** Hence a printed text names one id only. */
  lemma PrintInjective(m: Id, n: Id)
    requires Print(m) == Print(n)
    ensures m == n
  {
    ParsePrint(m);
    ParsePrint(n);
  }

  /** A text in the form that `str(uuid)` prints. */
  predicate Canonical(text: string) {
    Parse(text).Some? && text == Print(Parse(text).value)
  }

  lemma StripBraces(b: string)
    requires b != [] && b[0] !in {'{', '}'} && b[|b| - 1] !in {'{', '}'}
    ensures Strip("{" + b + "}", {'{', '}'}) == b
  {
    var braces := {'{', '}'};
    var a := "{" + b + "}";
    assert a[1..] == b + "}";
    assert (b + "}")[..|b|] == b;
    assert StripLeft(b + "}", braces) == b + "}";
    assert StripRight(b, braces) == b;
  }

  /** The parser is not injective: a text in braces names the same id as the bare text. */
  lemma BracedText(n: Id)
    ensures Parse("{" + Print(n) + "}") == Some(n)
    ensures !Canonical("{" + Print(n) + "}")
  {
    var b := Print(n);
    var a := "{" + b + "}";
    assert 'u' !in a by { PrintChars(n, 'u'); }
    RemoveNothing(a, "urn:");
    RemoveNothing(a, "uuid:");
    PrintEnds(n);
    StripBraces(b);
    NotInHex(n, 32, '-');
    GroupsJoined(Hex(n, 32));
    HexReadsBack(n);
  }

  // ---------------------------------------------------------------------------
  // Other spellings of the same id
  // ---------------------------------------------------------------------------

  function UpperChar(c: char): char {
    if 'a' <= c <= 'z' then c - 'a' + 'A' else c
  }

  /** `text.upper()` of an ASCII text. */
  function Upper(text: string): (r: string)
    ensures |r| == |text| && forall i :: 0 <= i < |text| ==> r[i] == UpperChar(text[i])
  {
    seq(|text|, i requires 0 <= i < |text| => UpperChar(text[i]))
  }

  lemma {:induction false} DigitsOfUpper(h: string, acc: nat, afterDigit: bool)
    requires forall i :: 0 <= i < |h| ==> IsLowerHex(h[i])
    ensures Digits(Upper(h), acc, afterDigit) == Digits(h, acc, afterDigit)
  {
    if h != [] {
      assert IsLowerHex(h[0]);
      assert Upper(h)[1..] == Upper(h[1..]);
      DigitsOfUpper(h[1..], 16 * acc + HexValue(h[0]).value, true);
    }
  }

  lemma UpperIsHex(h: string)
    requires forall i :: 0 <= i < |h| ==> IsLowerHex(h[i])
    ensures forall i :: 0 <= i < |h| ==> IsHex(Upper(h)[i])
  {
  }

  lemma UpperReadsBack(n: Id)
    ensures IntBase16(Upper(Hex(n, 32))) == Some(n)
  {
    var h := Hex(n, 32);
    hide *;
    UpperIsHex(h);
    DigitsReadBack(Upper(h));
    DigitsOfUpper(h, 0, false);
    HexRoundTrip(n, 32);
  }

  lemma UpperChars(h: string)
    requires forall i :: 0 <= i < |h| ==> IsLowerHex(h[i])
    ensures forall c :: c == 'u' || c == '-' || c == '{' || c == '}' ==> c !in Upper(h)
    ensures forall i :: 0 <= i < |h| ==> Upper(h)[i] !in {'{', '}'}
  {
  }

  lemma GroupedChars(h: string)
    requires |h| == 32
    ensures |Grouped(h)| == 36 && Grouped(h)[0] == h[0] && Grouped(h)[35] == h[31]
    ensures 'u' !in h ==> 'u' !in Grouped(h)
  {
  }

  lemma UpperGroups(h: string)
    requires |h| == 32
    ensures Upper(Grouped(h)) == Grouped(Upper(h))
  {
  }

  lemma GroupsStripped(h: string)
    requires |h| == 32 && 'u' !in h && '-' !in h && h[0] !in {'{', '}'} && h[31] !in {'{', '}'}
    ensures Stripped(Grouped(h)) == h
  {
    hide Remove;
    hide Grouped;
    hide Strip;
    GroupedChars(h);
    var text := Grouped(h);
    RemoveNothing(text, "urn:");
    RemoveNothing(text, "uuid:");
    StripNothing(text, {'{', '}'});
    GroupsJoined(h);
  }

  lemma ParsedFrom(text: string, hex: string, n: Id)
    requires Stripped(text) == hex && |hex| == 32 && IntBase16(hex) == Some(n)
    ensures Parse(text) == Some(n)
  {
    hide Stripped;
    hide IntBase16;
  }

  /** The id's digits in upper case, in their groups, name the id. */
  lemma UpperCaseText(n: Id)
    ensures Parse(Upper(Print(n))) == Some(n)
  {
    var h := Hex(n, 32);
    hide *;
    PrintIs(n);
    UpperGroups(h);
    UpperChars(h);
    GroupsStripped(Upper(h));
    UpperReadsBack(n);
    ParsedFrom(Upper(Print(n)), Upper(h), n);
  }

  lemma BareStripped(h: string)
    requires h != [] && 'u' !in h && '-' !in h && h[0] !in {'{', '}'} && h[|h| - 1] !in {'{', '}'}
    ensures Stripped(h) == h
  {
    hide Remove;
    hide Strip;
    RemoveNothing(h, "urn:");
    RemoveNothing(h, "uuid:");
    StripNothing(h, {'{', '}'});
    RemoveNothing(h, "-");
  }

  lemma LowerChars(h: string)
    requires |h| == 32 && forall i :: 0 <= i < |h| ==> IsLowerHex(h[i])
    ensures 'u' !in h && '-' !in h && h[0] !in {'{', '}'} && h[31] !in {'{', '}'}
  {
  }

  /** The bare digits name the id. */
  lemma BareText(n: Id)
    ensures Parse(Hex(n, 32)) == Some(n)
  {
    var h := Hex(n, 32);
    hide *;
    LowerChars(h);
    BareStripped(h);
    HexReadsBack(n);
    ParsedFrom(h, h, n);
  }

  lemma UrnStripped(text: string)
    requires 'u' !in text
    ensures Stripped("urn:uuid:" + text) == Stripped(text)
  {
    hide Strip;
    var urn := "urn:" + ("uuid:" + text);
    assert urn == "urn:uuid:" + text;
    assert urn[4..] == "uuid:" + text && ("uuid:" + text)[5..] == text;
    NoUrnInside(text);
    RemoveNothing(text, "urn:");
    RemoveNothing(text, "uuid:");
  }

  /** So does the URN of section 4 of RFC 9562. */
  lemma UrnText(n: Id)
    ensures Parse("urn:uuid:" + Print(n)) == Some(n)
  {
    var h := Hex(n, 32);
    hide *;
    LowerChars(h);
    PrintIs(n);
    GroupedChars(h);
    UrnStripped(Print(n));
    GroupsStripped(h);
    HexReadsBack(n);
    ParsedFrom("urn:uuid:" + Print(n), h, n);
  }

  lemma FirstStays(c: char, s: string, pat: string)
    requires |pat| > 1 && !(pat[0] == c && s != [] && pat[1] == s[0])
    ensures Remove([c] + s, pat) == [c] + Remove(s, pat)
  {
    var t := [c] + s;
    assert t[1..] == s;
  }

  lemma NoUrnInside(text: string)
    requires 'u' !in text
    ensures Remove("uuid:" + text, "urn:") == "uuid:" + text
  {
    RemoveNothing(text, "urn:");
    hide Remove;
    FirstStays(':', text, "urn:");
    FirstStays('d', ":" + text, "urn:");
    FirstStays('i', "d" + (":" + text), "urn:");
    FirstStays('u', "i" + ("d" + (":" + text)), "urn:");
    FirstStays('u', "u" + ("i" + ("d" + (":" + text))), "urn:");
    assert "u" + ("u" + ("i" + ("d" + (":" + text)))) == "uuid:" + text;
  }

  /** Which texts are read as digits: hex digits of either case, with single underscores only between them. */
  lemma {:induction false} DigitsExactly(s: string, acc: nat, afterDigit: bool)
    ensures Digits(s, acc, afterDigit).Some?
            <==> && (s == [] ==> afterDigit)
                 && (s != [] ==> (afterDigit || IsHex(s[0])) && IsHex(s[|s| - 1]))
                 && (forall i :: 0 <= i < |s| ==> IsHex(s[i]) || s[i] == '_')
                 && (forall i :: 1 <= i < |s| ==> IsHex(s[i - 1]) || IsHex(s[i]))
  {
    if s != [] {
      var rest := s[1..];
      assert forall i :: 1 <= i < |s| ==> s[i] == rest[i - 1];
      if s[0] == '_' {
        DigitsExactly(rest, acc, false);
      } else if HexValue(s[0]).Some? {
        DigitsExactly(rest, 16 * acc + HexValue(s[0]).value, true);
      }
    }
  }

  /** Underscores do not count. */
  lemma {:induction false} UnderscoresIgnored(s: string, acc: nat, afterDigit: bool)
    requires Digits(s, acc, afterDigit).Some?
    ensures Digits(Remove(s, "_"), acc, true) == Digits(s, acc, afterDigit)
  {
    if s != [] {
      if s[0] == '_' {
        UnderscoresIgnored(s[1..], acc, false);
      } else {
        UnderscoresIgnored(s[1..], 16 * acc + HexValue(s[0]).value, true);
        assert !("_" <= s);
        assert ([s[0]] + Remove(s[1..], "_"))[1..] == Remove(s[1..], "_");
      }
    }
  }

  lemma BaseIgnored(base: string, digits: string)
    requires base == "" || base == "0x" || base == "0X" || base == "0x_" || base == "0X_"
    requires |digits| >= 2 && IsHex(digits[0]) && IsHex(digits[1])
    ensures WithoutBase(base + digits) == digits
  {
    assert (base + digits)[|base|..] == digits;
  }

  /** A plus sign in front does not count, nor does a prefix of the base before two digits (BaseIgnored). */
  lemma PlusIgnored(text: string)
    requires text != [] && text[0] != '+'
    ensures WithoutPrefix("+" + text) == WithoutPrefix(text) == WithoutBase(text)
  {
    hide WithoutBase;
    assert ("+" + text)[1..] == text;
  }

  lemma {:induction false} StripLeftAround(left: string, s: string, chars: set<char>)
    requires AllIn(left, chars) && s != [] && s[0] !in chars
    ensures StripLeft(left + s, chars) == s
  {
    if left == [] {
      assert left + s == s;
    } else {
      assert (left + s)[1..] == left[1..] + s;
      StripLeftAround(left[1..], s, chars);
    }
  }

  lemma {:induction false} StripRightAround(s: string, right: string, chars: set<char>)
    requires AllIn(right, chars) && s != [] && s[|s| - 1] !in chars
    ensures StripRight(s + right, chars) == s
  {
    if right == [] {
      assert s + right == s;
    } else {
      var n := |right| - 1;
      assert (s + right)[..|s| + n] == s + right[..n];
      StripRightAround(s, right[..n], chars);
    }
  }

  /** ASCII white space around the digits does not count, either. */
  lemma SpacesIgnored(left: string, digits: string, right: string)
    requires forall i :: 0 <= i < |left| ==> left[i] == ' ' || '\t' <= left[i] <= '\r'
    requires forall i :: 0 <= i < |right| ==> right[i] == ' ' || '\t' <= right[i] <= '\r'
    requires |digits| >= 1 && IsHex(digits[0]) && IsHex(digits[|digits| - 1])
    ensures IntBase16(left + digits + right) == IntBase16(digits)
  {
    hide Digits;
    hide WithoutPrefix;
    assert left + digits + right == left + (digits + right);
    StripLeftAround(left, digits + right, ASCII_SPACES);
    StripRightAround(digits, right, ASCII_SPACES);
    StripNothing(digits, ASCII_SPACES);
  }
}
