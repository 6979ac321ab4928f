/** The Python string operations the exporter relies on, over `seq<char>`:
    `lower`/`upper` (ASCII letters only), `split`, `rsplit('/', 1)[-1]`,
    `startswith`, `replace`, `in`, and decimal / hexadecimal rendering. */
module Strings {

  function LowerChar(c: char): char {
    if 'A' <= c <= 'Z' then (c as int + 32) as char else c
  }

  /** Lower-casing twice is lower-casing once. */
  lemma LowerIdempotent(s: string)
    ensures Lower(Lower(s)) == Lower(s)
  {
    assert forall i :: 0 <= i < |s| ==> LowerChar(LowerChar(s[i])) == LowerChar(s[i]);
  }

  function UpperChar(c: char): char {
    if 'a' <= c <= 'z' then (c as int - 32) as char else c
  }

  /** `s.lower()` restricted to ASCII letters. */
  function Lower(s: string): (r: string)
    ensures |r| == |s|
    ensures forall i :: 0 <= i < |s| ==> r[i] == LowerChar(s[i])
  {
    seq(|s|, i requires 0 <= i < |s| => LowerChar(s[i]))
  }

  /** `s.upper()` restricted to ASCII letters. */
  function Upper(s: string): (r: string)
    ensures |r| == |s|
    ensures forall i :: 0 <= i < |s| ==> r[i] == UpperChar(s[i])
  {
    seq(|s|, i requires 0 <= i < |s| => UpperChar(s[i]))
  }

  predicate StartsWith(s: string, prefix: string) {
    |prefix| <= |s| && s[..|prefix|] == prefix
  }

  /** `sep` occurs in `s` starting at index `i`. */
  predicate OccursAt(s: string, sep: string, i: int) {
    0 <= i && i + |sep| <= |s| && s[i..i + |sep|] == sep
  }

  /** `sub in s` */
  predicate Contains(s: string, sub: string) {
    exists i :: 0 <= i <= |s| && OccursAt(s, sub, i)
  }

  /** The first occurrence of `sep` in `s` at or after `from`. */
  function IndexFrom(s: string, sep: string, from: nat): (r: int)
    requires from <= |s|
    ensures r == -1 || (from <= r && OccursAt(s, sep, r))
    ensures forall j :: from <= j && (r == -1 || j < r) ==> !OccursAt(s, sep, j)
    decreases |s| - from
  {
    if OccursAt(s, sep, from) then from
    else if from == |s| then -1
    else IndexFrom(s, sep, from + 1)
  }

  /** `s.find(sep)` */
  function IndexOf(s: string, sep: string): (r: int)
    ensures r == -1 || OccursAt(s, sep, r)
    ensures forall j :: 0 <= j && (r == -1 || j < r) ==> !OccursAt(s, sep, j)
  {
    IndexFrom(s, sep, 0)
  }

  lemma IndexOfNone(s: string, sep: string)
    requires IndexOf(s, sep) == -1
    ensures !Contains(s, sep)
  {
  }

  /** `s.split(sep)` for a non-empty separator. */
  function Split(s: string, sep: string): (parts: seq<string>)
    requires sep != []
    ensures |parts| >= 1
    decreases |s|
  {
    var i := IndexOf(s, sep);
    if i == -1 then [s]
    else [s[..i]] + Split(s[i + |sep|..], sep)
  }

  /** What precedes the first occurrence holds no occurrence. */
  lemma BeforeFirstFree(s: string, sep: string)
    requires sep != [] && IndexOf(s, sep) != -1
    ensures !Contains(s[..IndexOf(s, sep)], sep)
  {
    var i := IndexOf(s, sep);
    forall j | 0 <= j <= i
      ensures !OccursAt(s[..i], sep, j)
    {
      if j + |sep| <= i {
        assert j < i && !OccursAt(s, sep, j);
        assert s[..i][j..j + |sep|] == s[j..j + |sep|];
      }
    }
  }

  /** `s.split(sep, 1)`: at most two parts, split at the first occurrence. */
  function SplitOnce(s: string, sep: string): (parts: seq<string>)
    requires sep != []
    ensures 1 <= |parts| <= 2
    ensures |parts| == 1 <==> !Contains(s, sep)
    ensures |parts| == 1 ==> parts[0] == s
    ensures |parts| == 2 ==> parts[0] + sep + parts[1] == s && !Contains(parts[0], sep)
  {
    var i := IndexOf(s, sep);
    if i == -1 then [s]
    else
      assert s == s[..i] + sep + s[i + |sep|..];
      BeforeFirstFree(s, sep);
      [s[..i], s[i + |sep|..]]
  }

  /** `sep.join(parts)` */
  function Join(parts: seq<string>, sep: string): string
    decreases |parts|
  {
    if parts == [] then ""
    else if |parts| == 1 then parts[0]
    else parts[0] + sep + Join(parts[1..], sep)
  }

  lemma JoinCons(a: string, rest: seq<string>, sep: string)
    requires |rest| >= 1
    ensures Join([a] + rest, sep) == a + sep + Join(rest, sep)
  {
    assert ([a] + rest)[1..] == rest;
  }

  /** Splitting loses nothing: joining the parts back gives the string. */
  lemma {:induction false} JoinSplit(s: string, sep: string)
    requires sep != []
    ensures Join(Split(s, sep), sep) == s
    decreases |s|
  {
    var i := IndexOf(s, sep);
    if i == -1 {
      assert Split(s, sep) == [s];
    } else {
      var rest := s[i + |sep|..];
      calc {
        Join(Split(s, sep), sep);
        Join([s[..i]] + Split(rest, sep), sep);
        { JoinCons(s[..i], Split(rest, sep), sep); }
        s[..i] + sep + Join(Split(rest, sep), sep);
        { JoinSplit(rest, sep); }
        s[..i] + sep + rest;
        { SplitAround(s, sep, i); }
        s;
      }
    }
  }

  /** A string is what precedes an occurrence, the occurrence, and what
      follows it. */
  lemma SplitAround(s: string, sep: string, i: int)
    requires OccursAt(s, sep, i)
    ensures s[..i] + sep + s[i + |sep|..] == s
  {
    assert s == s[..i] + s[i..i + |sep|] + s[i + |sep|..];
  }

  /** No part of a split contains the separator. */
  lemma {:induction false} SplitPartsFree(s: string, sep: string)
    requires sep != []
    ensures forall k :: 0 <= k < |Split(s, sep)| ==> !Contains(Split(s, sep)[k], sep)
    decreases |s|
  {
    var i := IndexOf(s, sep);
    if i != -1 {
      var rest := s[i + |sep|..];
      SplitPartsFree(rest, sep);
      BeforeFirstFree(s, sep);
    }
  }

  /** A string without the character `c` does not contain `[c]`. */
  lemma CharFree(s: string, c: char)
    requires c !in s
    ensures !Contains(s, [c])
  {
    forall i | 0 <= i <= |s|
      ensures !OccursAt(s, [c], i)
    {
      if i + 1 <= |s| {
        assert s[i..i + 1][0] == s[i];
      }
    }
  }

  /** Splitting a string free of the separator yields just that string. */
  lemma SplitFree(s: string, sep: string)
    requires sep != [] && !Contains(s, sep)
    ensures Split(s, sep) == [s]
  {
  }

  /** For a one-character `sep` that does not occur in `a`, splitting
      `a + sep + b` at `sep` gives `a` and then the parts of `b`. */
  lemma SplitAfterFirst(a: string, sep: string, b: string)
    requires |sep| == 1 && !Contains(a, sep)
    ensures Split(a + sep + b, sep) == [a] + Split(b, sep)
  {
    var s := a + sep + b;
    assert OccursAt(s, sep, |a|) by {
      assert s[|a|..|a| + |sep|] == sep;
    }
    var i := IndexOf(s, sep);
    assert i == |a| by {
      if i < |a| {
        assert s[i..i + 1] == a[i..i + 1];
        assert OccursAt(a, sep, i);
      }
    }
    assert s[..i] == a;
    assert s[i + |sep|..] == b;
  }

  /** Splitting a string that starts with the separator. */
  lemma SplitAfterPrefix(sep: string, b: string)
    requires sep != []
    ensures Split(sep + b, sep) == [""] + Split(b, sep)
  {
    var s := sep + b;
    assert OccursAt(s, sep, 0);
    assert s[|sep|..] == b;
  }

  /** Splitting at a known first occurrence. */
  lemma SplitAtFirst(s: string, sep: string, i: nat)
    requires sep != [] && OccursAt(s, sep, i)
    requires forall j :: 0 <= j < i ==> !OccursAt(s, sep, j)
    ensures Split(s, sep) == [s[..i]] + Split(s[i + |sep|..], sep)
    ensures SplitOnce(s, sep) == [s[..i], s[i + |sep|..]]
  {
    IndexFromAt(s, sep, 0, i);
  }

  /** The search from `from` stops at the first occurrence at or after it. */
  lemma {:induction false} IndexFromAt(s: string, sep: string, from: nat, i: nat)
    requires from <= i && OccursAt(s, sep, i)
    requires forall j :: from <= j < i ==> !OccursAt(s, sep, j)
    ensures IndexFrom(s, sep, from) == i
    decreases i - from
  {
    if from < i {
      IndexFromAt(s, sep, from + 1, i);
    }
  }

  /** `split` and `split(sep, 1)` agree on the first part. */
  lemma SplitFirstPart(s: string, sep: string)
    requires sep != []
    ensures Split(s, sep)[0] == SplitOnce(s, sep)[0]
  {
  }

  /** No occurrence of `sep` starts inside a prefix lacking its first char. */
  lemma NoOccurrenceInPrefix(s: string, pre: string, sep: string)
    requires sep != [] && |pre| <= |s| && s[..|pre|] == pre && sep[0] !in pre
    ensures forall j :: 0 <= j < |pre| ==> !OccursAt(s, sep, j)
  {
    forall j | 0 <= j < |pre|
      ensures !OccursAt(s, sep, j)
    {
      assert s[j] == pre[j];
    }
  }

  /** Prefixing a string with text lacking the first char of `sep` adds no
      occurrence of `sep`. */
  lemma NoOccurrenceAfterPrefix(pre: string, b: string, sep: string)
    requires sep != [] && sep[0] !in pre && !Contains(b, sep)
    ensures !Contains(pre + b, sep)
  {
    var s := pre + b;
    NoOccurrenceInPrefix(s, pre, sep);
    forall i | |pre| <= i <= |s|
      ensures !OccursAt(s, sep, i)
    {
      if OccursAt(s, sep, i) {
        assert s[i..i + |sep|] == b[i - |pre|..i - |pre| + |sep|];
        assert OccursAt(b, sep, i - |pre|);
      }
    }
  }

  /** No two consecutive '/' characters. */
  predicate NoDoubleSlash(s: string) {
    forall i :: 0 <= i < |s| - 1 ==> s[i] != '/' || s[i + 1] != '/'
  }

  lemma NoDoubleSlashContains(s: string)
    requires NoDoubleSlash(s)
    ensures !Contains(s, "//")
  {
    forall i | 0 <= i <= |s|
      ensures !OccursAt(s, "//", i)
    {
      if i + 2 <= |s| {
        assert s[i..i + 2][0] == s[i] && s[i..i + 2][1] == s[i + 1];
      }
    }
  }

  /** A URL `scheme//bucket/key` whose scheme and bucket hold no '/' and
      whose key neither starts with '/' nor holds "//" splits at its one
      "//". */
  lemma UrlSplit(scheme: string, bucket: string, key: string)
    requires '/' !in scheme && '/' !in bucket && !Contains("/" + key, "//")
    ensures Split(scheme + "//" + bucket + "/" + key, "//") == [scheme, bucket + "/" + key]
    ensures Split(bucket + "/" + key, "/")[0] == bucket
    ensures SplitOnce(bucket + "/" + key, "/") == [bucket, key]
  {
    var url := scheme + "//" + bucket + "/" + key;
    var rest := bucket + "/" + key;
    assert url[..|scheme|] == scheme;
    NoOccurrenceInPrefix(url, scheme, "//");
    assert url[|scheme|..|scheme| + 2] == "//";
    SplitAtFirst(url, "//", |scheme|);
    assert url[|scheme| + 2..] == rest;
    assert rest == bucket + ("/" + key);
    NoOccurrenceAfterPrefix(bucket, "/" + key, "//");
    SplitFree(rest, "//");
    assert rest[..|bucket|] == bucket;
    NoOccurrenceInPrefix(rest, bucket, "/");
    assert rest[|bucket|..|bucket| + 1] == "/";
    SplitAtFirst(rest, "/", |bucket|);
    assert rest[|bucket| + 1..] == key;
  }

  /** `s.rsplit('/', 1)[-1]`: what follows the last '/', or all of `s`. */
  function LastSegment(s: string): (r: string)
    ensures '/' !in r
    ensures |r| <= |s| && r == s[|s| - |r|..]
    ensures |r| < |s| ==> s[|s| - |r| - 1] == '/'
    decreases |s|
  {
    if s == [] then ""
    else if s[|s| - 1] == '/' then ""
    else
      var r0 := LastSegment(s[..|s| - 1]);
      LastSegmentStep(s, r0);
      r0 + [s[|s| - 1]]
  }

  /** Extending the string by a character that is not '/' extends its last
      segment by that character. */
  lemma LastSegmentStep(s: string, r0: string)
    requires |s| >= 1 && |r0| <= |s| - 1
    requires r0 == s[..|s| - 1][|s| - 1 - |r0|..]
    requires |r0| < |s| - 1 ==> s[..|s| - 1][|s| - 2 - |r0|] == '/'
    ensures r0 + [s[|s| - 1]] == s[|s| - |r0| - 1..]
    ensures |r0| + 1 < |s| ==> s[|s| - |r0| - 2] == '/'
  {
    var n := |s|;
    var r := r0 + [s[n - 1]];
    assert |r| == |s[n - |r0| - 1..]|;
    forall k | 0 <= k < |r|
      ensures r[k] == s[n - |r0| - 1..][k]
    {
      if k < |r0| {
        assert r0[k] == s[..n - 1][n - 1 - |r0| + k];
      }
    }
  }

  /** `s.replace(target, replacement)` for a non-empty `target`: every non-overlapping
      occurrence, left to right, is replaced. */
  function ReplaceAll(s: string, target: string, replacement: string): string
    requires target != []
  {
    Join(Split(s, target), replacement)
  }

  // ---------------------------------------------------------------- digits

  predicate IsDigit(c: char) {
    '0' <= c <= '9'
  }

  predicate AllDigits(s: string) {
    forall i :: 0 <= i < |s| ==> IsDigit(s[i])
  }

  function DigitChar(d: nat): char
    requires d < 10
  {
    ('0' as int + d) as char
  }

  function DigitValue(c: char): nat
    requires IsDigit(c)
  {
    c as int - '0' as int
  }

  function Pow10(n: nat): (p: nat)
    ensures p >= 1
  {
    if n == 0 then 1 else 10 * Pow10(n - 1)
  }

  /** The value of a decimal digit string (`int(s)` for digits only). */
  function DigitsValue(s: string): (v: nat)
    requires AllDigits(s)
    ensures v < Pow10(|s|)
    decreases |s|
  {
    if s == [] then 0
    else DigitsValue(s[..|s| - 1]) * 10 + DigitValue(s[|s| - 1])
  }

  /** `n` as exactly `width` decimal digits, zero-padded on the left. */
  function Pad(n: nat, width: nat): (r: string)
    requires n < Pow10(width)
    ensures |r| == width && AllDigits(r)
    decreases width
  {
    if width == 0 then ""
    else Pad(n / 10, width - 1) + [DigitChar(n % 10)]
  }

  /** Rendering then reading back gives the number. */
  lemma {:induction false} PadValue(n: nat, width: nat)
    requires n < Pow10(width)
    ensures DigitsValue(Pad(n, width)) == n
    decreases width
  {
    if width > 0 {
      PadValue(n / 10, width - 1);
      var r := Pad(n, width);
      assert r[..|r| - 1] == Pad(n / 10, width - 1);
    }
  }

  lemma DivMod10(q: nat, d: nat)
    requires d < 10
    ensures (q * 10 + d) / 10 == q && (q * 10 + d) % 10 == d
  {
  }

  /** Reading then rendering gives the digit string back. */
  lemma {:induction false} ValuePad(s: string)
    requires AllDigits(s)
    ensures Pad(DigitsValue(s), |s|) == s
    decreases |s|
  {
    if s != [] {
      var init := s[..|s| - 1];
      var last := s[|s| - 1];
      ValuePad(init);
      DivMod10(DigitsValue(init), DigitValue(last));
      assert DigitChar(DigitValue(last)) == last;
      assert Pad(DigitsValue(s), |s|) == Pad(DigitsValue(init), |init|) + [last];
      assert s == init + [last];
    }
  }

  /** `n` in decimal without leading zeros (`str(n)` for n >= 0). */
  function NatToString(n: nat): (r: string)
    ensures |r| >= 1 && AllDigits(r)
    ensures DigitsValue(r) == n
    decreases n
  {
    if n < 10 then [DigitChar(n)]
    else
      var r := NatToString(n / 10) + [DigitChar(n % 10)];
      assert r[..|r| - 1] == NatToString(n / 10);
      r
  }

  /** `str(i)` */
  function IntToString(i: int): string {
    if i < 0 then "-" + NatToString(-i) else NatToString(i)
  }

  function HexChar(d: nat): char
    requires d < 16
  {
    if d < 10 then DigitChar(d) else ('a' as int + d - 10) as char
  }

  predicate IsLowerHex(c: char) {
    IsDigit(c) || 'a' <= c <= 'f'
  }

  function HexValue(c: char): nat
    requires IsLowerHex(c)
  {
    if IsDigit(c) then DigitValue(c) else c as int - 'a' as int + 10
  }

  function Pow16(n: nat): (p: nat)
    ensures p >= 1
  {
    if n == 0 then 1 else 16 * Pow16(n - 1)
  }

  /** `'{:0{width}x}'.format(n)` for `n < 16^width`. */
  function PadHex(n: nat, width: nat): (r: string)
    requires n < Pow16(width)
    ensures |r| == width
    ensures forall i :: 0 <= i < |r| ==> IsLowerHex(r[i])
    decreases width
  {
    if width == 0 then ""
    else PadHex(n / 16, width - 1) + [HexChar(n % 16)]
  }

  function HexDigitsValue(s: string): nat
    requires forall i :: 0 <= i < |s| ==> IsLowerHex(s[i])
    decreases |s|
  {
    if s == [] then 0
    else HexDigitsValue(s[..|s| - 1]) * 16 + HexValue(s[|s| - 1])
  }

  /** The hexadecimal rendering reads back as the number. */
  lemma {:induction false} PadHexValue(n: nat, width: nat)
    requires n < Pow16(width)
    ensures HexDigitsValue(PadHex(n, width)) == n
    decreases width
  {
    if width > 0 {
      PadHexValue(n / 16, width - 1);
      var r := PadHex(n, width);
      assert r[..|r| - 1] == PadHex(n / 16, width - 1);
    }
  }
}
