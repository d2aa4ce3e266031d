/** Stand-ins for the .NET string operations the TeamCity code relies on:
    `TrimEnd`, `Trim`, ordinal case-insensitive comparison, `Split` on a string
    separator, `Split` on a character with `RemoveEmptyEntries`, `string.Join`,
    `Uri.EscapeDataString`, integer formatting and `AH.ParseInt`, `PathEx.GetFileName`,
    `Util.ConcatNE` and `Util.CoalesceStr`. */
module Text {
  import opened Common

  // ---------------------------------------------------------------- null and empty

  predicate IsNullOrEmpty(s: Option<string>) {
    s.None? || s.value == []
  }

  /** How string interpolation and `string.Format` render a null string. */
  function OrEmpty(s: Option<string>): string {
    s.GetOr("")
  }

  predicate EndsWith(s: string, suffix: string) {
    |suffix| <= |s| && s[|s| - |suffix|..] == suffix
  }

  /** Whatever is put in front of a string, it keeps its endings. */
  lemma EndsWithAppend(a: string, b: string, suffix: string)
    requires EndsWith(b, suffix)
    ensures EndsWith(a + b, suffix)
  {
    assert (a + b)[|a + b| - |suffix|..] == b[|b| - |suffix|..];
  }

  // ---------------------------------------------------------------- TrimEnd(c)

  /** `s.TrimEnd(c)`: the longest prefix of `s` that does not end in `c`. */
  function TrimEnd(s: string, c: char): (r: string)
    ensures |r| <= |s| && r == s[..|r|]
    ensures r == [] || r[|r| - 1] != c
    ensures forall i :: |r| <= i < |s| ==> s[i] == c
    decreases |s|
  {
    if |s| > 0 && s[|s| - 1] == c then TrimEnd(s[..|s| - 1], c) else s
  }

  function Repeat(c: char, n: nat): (r: string)
    ensures |r| == n && forall i :: 0 <= i < n ==> r[i] == c
  {
    if n == 0 then [] else Repeat(c, n - 1) + [c]
  }

  /** Appending any number of `c` characters does not change `TrimEnd(_, c)`. */
  lemma {:induction false} TrimEndIgnoresAppended(s: string, c: char, n: nat)
    ensures TrimEnd(s + Repeat(c, n), c) == TrimEnd(s, c)
  {
    if n == 0 {
      assert s + Repeat(c, 0) == s;
    } else {
      var t := s + Repeat(c, n);
      assert t[..|t| - 1] == s + Repeat(c, n - 1);
      TrimEndIgnoresAppended(s, c, n - 1);
    }
  }

  // ---------------------------------------------------------------- case folding

  /** Ordinal case folding, restricted to ASCII letters. */
  function LowerChar(c: char): char {
    if 'A' <= c <= 'Z' then (c as int + 32) as char else c
  }

  /** `string.Equals(a, b, StringComparison.OrdinalIgnoreCase)` on non-null strings: the
      same length, and the same characters once folded. */
  predicate SameIgnoringCase(a: string, b: string) {
    |a| == |b| && (a == [] || (LowerChar(a[0]) == LowerChar(b[0]) && SameIgnoringCase(a[1..], b[1..])))
  }

  lemma {:induction false} SameIgnoringCaseReflexive(a: string)
    ensures SameIgnoringCase(a, a)
  {
    if a != [] {
      SameIgnoringCaseReflexive(a[1..]);
    }
  }

  /** Strings of one length whose characters agree after folding are the same ignoring case. */
  lemma {:induction false} SameIgnoringCaseByChars(a: string, b: string)
    requires |a| == |b| && forall i :: 0 <= i < |a| ==> LowerChar(a[i]) == LowerChar(b[i])
    ensures SameIgnoringCase(a, b)
  {
    if a != [] {
      assert forall i :: 0 <= i < |a| - 1 ==> a[1..][i] == a[i + 1] && b[1..][i] == b[i + 1];
      SameIgnoringCaseByChars(a[1..], b[1..]);
    }
  }

  lemma {:induction false} SameIgnoringCaseSymmetric(a: string, b: string)
    ensures SameIgnoringCase(a, b) == SameIgnoringCase(b, a)
  {
    if a != [] && |a| == |b| {
      SameIgnoringCaseSymmetric(a[1..], b[1..]);
    }
  }

  lemma {:induction false} SameIgnoringCaseTransitive(a: string, b: string, c: string)
    requires SameIgnoringCase(a, b)
    ensures SameIgnoringCase(b, c) == SameIgnoringCase(a, c)
  {
    if a != [] && |a| == |c| {
      SameIgnoringCaseTransitive(a[1..], b[1..], c[1..]);
    }
  }

  /** `string.Equals(a, b, StringComparison.OrdinalIgnoreCase)`: two nulls are equal,
      a null never equals a non-null string. */
  predicate EqualsIgnoreCase(a: Option<string>, b: Option<string>) {
    (a.None? && b.None?) || (a.Some? && b.Some? && SameIgnoringCase(a.value, b.value))
  }

  /** `s.EndsWith(suffix, StringComparison.OrdinalIgnoreCase)`. */
  predicate EndsWithIgnoringCase(s: string, suffix: string) {
    |suffix| <= |s| && SameIgnoringCase(s[|s| - |suffix|..], suffix)
  }

  // ---------------------------------------------------------------- Split on a separator and Join

  predicate OccursAt(s: string, sep: string, j: int) {
    0 <= j && j + |sep| <= |s| && s[j..j + |sep|] == sep
  }

  /** `s.IndexOf(sep, from, StringComparison.Ordinal)`. */
  function IndexOf(s: string, sep: string, from: nat): (r: Option<nat>)
    requires from <= |s|
    ensures r.Some? ==> from <= r.value && OccursAt(s, sep, r.value)
    ensures r.Some? ==> forall j :: from <= j < r.value ==> !OccursAt(s, sep, j)
    ensures r.None? ==> forall j :: from <= j ==> !OccursAt(s, sep, j)
    decreases |s| - from
  {
    if from + |sep| > |s| then None
    else if s[from..from + |sep|] == sep then Some(from)
    else IndexOf(s, sep, from + 1)
  }

  /** `s.Split(new[] { sep }, StringSplitOptions.None)`: cut at every leftmost,
      non-overlapping occurrence of `sep`. */
  function Split(s: string, sep: string): (parts: seq<string>)
    requires |sep| > 0
    ensures |parts| >= 1
    decreases |s|
  {
    match IndexOf(s, sep, 0)
    case None => [s]
    case Some(i) => [s[..i]] + Split(s[i + |sep|..], sep)
  }

  /** `string.Join(sep, parts)`. */
  function Join(parts: seq<string>, sep: string): string
  {
    if |parts| == 0 then ""
    else if |parts| == 1 then parts[0]
    else parts[0] + sep + Join(parts[1..], sep)
  }

  /** Joining the parts of a split reproduces the split string. */
  lemma {:induction false} JoinSplit(s: string, sep: string)
    requires |sep| > 0
    ensures Join(Split(s, sep), sep) == s
    decreases |s|
  {
    var found := IndexOf(s, sep, 0);
    if found.Some? {
      var i := found.value;
      var rest := s[i + |sep|..];
      var tail := Split(rest, sep);
      var parts := [s[..i]] + tail;
      assert Split(s, sep) == parts;
      JoinSplit(rest, sep);
      assert |parts| >= 2 && parts[0] == s[..i] && parts[1..] == tail;
      assert Join(parts, sep) == s[..i] + sep + rest;
      assert s[i..i + |sep|] == sep;
      assert s == s[..i] + s[i..i + |sep|] + rest;
    }
  }

  /** The text before the first occurrence of the separator does not contain it. */
  lemma PrefixLacksSeparator(s: string, sep: string, i: nat, j: int)
    requires |sep| > 0 && i <= |s| && forall j :: 0 <= j < i ==> !OccursAt(s, sep, j)
    ensures !OccursAt(s[..i], sep, j)
  {
    if OccursAt(s[..i], sep, j) {
      assert s[..i][j..j + |sep|] == s[j..j + |sep|];
      assert OccursAt(s, sep, j);
    }
  }

  /** No part of a split contains the separator. */
  lemma {:induction false} SplitPartsLackSeparator(s: string, sep: string)
    requires |sep| > 0
    ensures forall k, j :: 0 <= k < |Split(s, sep)| ==> !OccursAt(Split(s, sep)[k], sep, j)
    decreases |s|
  {
    match IndexOf(s, sep, 0)
    case None =>
      assert Split(s, sep) == [s];
    case Some(i) =>
      var rest := s[i + |sep|..];
      var tail := Split(rest, sep);
      SplitPartsLackSeparator(rest, sep);
      var parts := Split(s, sep);
      assert parts == [s[..i]] + tail;
      forall k, j | 0 <= k < |parts| ensures !OccursAt(parts[k], sep, j) {
        if k == 0 {
          PrefixLacksSeparator(s, sep, i, j);
        } else {
          assert parts[k] == tail[k - 1];
        }
      }
  }

  lemma {:induction false} JoinSnoc(xs: seq<string>, y: string, sep: string)
    ensures Join(xs + [y], sep) == if xs == [] then y else Join(xs, sep) + sep + y
  {
    if |xs| == 0 {
      assert xs + [y] == [y];
    } else if |xs| == 1 {
      assert xs + [y] == [xs[0], y];
      assert [xs[0], y][1..] == [y];
    } else {
      assert (xs + [y])[1..] == xs[1..] + [y];
      JoinSnoc(xs[1..], y, sep);
    }
  }

  // ---------------------------------------------------------------- Split on a character, RemoveEmptyEntries

  /** The longest prefix of `s` without `c`. */
  function Run(s: string, c: char): (r: string)
    ensures |r| <= |s| && r == s[..|r|] && c !in r
    ensures |r| < |s| ==> s[|r|] == c
  {
    if |s| == 0 || s[0] == c then [] else [s[0]] + Run(s[1..], c)
  }

  /** `s.Split(new[] { c }, StringSplitOptions.RemoveEmptyEntries)`. */
  function Tokens(s: string, c: char): (r: seq<string>)
    ensures forall k :: 0 <= k < |r| ==> r[k] != [] && c !in r[k]
    decreases |s|
  {
    if |s| == 0 then []
    else if s[0] == c then Tokens(s[1..], c)
    else
      var t := Run(s, c);
      [t] + Tokens(s[|t|..], c)
  }

  lemma {:induction false} RunOfWord(w: string, rest: string, c: char)
    requires c !in w
    requires rest == [] || rest[0] == c
    ensures Run(w + rest, c) == w
  {
    if w != [] {
      assert (w + rest)[1..] == w[1..] + rest;
      RunOfWord(w[1..], rest, c);
    } else {
      assert w + rest == rest;
    }
  }

  /** A path made of non-empty words without `c`, joined by `c`, tokenizes back to its words. */
  lemma {:induction false} TokensOfJoin(ws: seq<string>, c: char)
    requires |ws| >= 1
    requires forall k :: 0 <= k < |ws| ==> ws[k] != [] && c !in ws[k]
    ensures Tokens(Join(ws, [c]), c) == ws
  {
    var w := ws[0];
    if |ws| == 1 {
      RunOfWord(w, [], c);
      assert w + [] == w;
      assert w[|w|..] == [];
    } else {
      var tail := Join(ws[1..], [c]);
      var s := w + [c] + tail;
      assert Join(ws, [c]) == s;
      RunOfWord(w, [c] + tail, c);
      AppendAssoc(w, [c], tail);
      assert s[|w|..] == [c] + tail;
      assert ([c] + tail)[1..] == tail;
      TokensOfJoin(ws[1..], c);
      assert ws == [w] + ws[1..];
    }
  }

  lemma TokensSkipLeading(s: string, c: char)
    ensures Tokens([c] + s, c) == Tokens(s, c)
  {
    assert ([c] + s)[1..] == s;
  }

  // ---------------------------------------------------------------- Trim, GetFileName

  /** `char.IsWhiteSpace`: the Unicode white-space characters .NET recognises. */
  predicate IsWhiteSpace(c: char) {
    ('\t' <= c <= '\r') || c == ' ' || c == '\U{0085}' || c == '\U{00A0}' || c == '\U{1680}'
    || ('\U{2000}' <= c <= '\U{200A}') || c == '\U{2028}' || c == '\U{2029}' || c == '\U{202F}'
    || c == '\U{205F}' || c == '\U{3000}'
  }

  function TrimStart(s: string): string {
    if |s| > 0 && IsWhiteSpace(s[0]) then TrimStart(s[1..]) else s
  }

  /** `TrimStart` removes exactly the leading white space. */
  lemma {:induction false} TrimStartShape(s: string)
    ensures var r := TrimStart(s);
      && |r| <= |s| && r == s[|s| - |r|..]
      && (r == [] || !IsWhiteSpace(r[0]))
      && forall i :: 0 <= i < |s| - |r| ==> IsWhiteSpace(s[i])
  {
    if |s| > 0 && IsWhiteSpace(s[0]) {
      TrimStartShape(s[1..]);
    }
  }

  function TrimTrailing(s: string): string {
    if |s| > 0 && IsWhiteSpace(s[|s| - 1]) then TrimTrailing(s[..|s| - 1]) else s
  }

  /** `TrimTrailing` removes exactly the trailing white space. */
  lemma {:induction false} TrimTrailingShape(s: string)
    ensures var r := TrimTrailing(s);
      && |r| <= |s| && r == s[..|r|]
      && (r == [] || !IsWhiteSpace(r[|r| - 1]))
      && forall i :: |r| <= i < |s| ==> IsWhiteSpace(s[i])
  {
    if |s| > 0 && IsWhiteSpace(s[|s| - 1]) {
      TrimTrailingShape(s[..|s| - 1]);
    }
  }

  /** `s.Trim()`. */
  function Trim(s: string): string {
    TrimTrailing(TrimStart(s))
  }

  lemma TrimUntouched(s: string)
    requires s == [] || (!IsWhiteSpace(s[0]) && !IsWhiteSpace(s[|s| - 1]))
    ensures Trim(s) == s
  {
  }

  predicate IsDirectorySeparator(c: char) { c == '/' || c == '\\' }

  /** `PathEx.GetFileName`: the part after the last `/` or `\`. */
  function GetFileName(path: string): string {
    if |path| == 0 || IsDirectorySeparator(path[|path| - 1]) then []
    else GetFileName(path[..|path| - 1]) + [path[|path| - 1]]
  }

  /** The file name is a suffix of the path without a separator, preceded by one unless it
      is the whole path. */
  lemma {:induction false} GetFileNameShape(path: string)
    ensures var r := GetFileName(path);
      && |r| <= |path| && r == path[|path| - |r|..]
      && (forall i :: 0 <= i < |r| ==> !IsDirectorySeparator(r[i]))
      && (|r| < |path| ==> IsDirectorySeparator(path[|path| - |r| - 1]))
  {
    if |path| > 0 && !IsDirectorySeparator(path[|path| - 1]) {
      var p := path[..|path| - 1];
      GetFileNameShape(p);
      var q := GetFileName(p);
      assert path[|path| - |q| - 1..] == p[|p| - |q|..] + [path[|path| - 1]];
    }
  }

  // ---------------------------------------------------------------- Uri.EscapeDataString

  /** The RFC 3986 unreserved characters, which `Uri.EscapeDataString` leaves as they are. */
  predicate IsUnreserved(c: char) {
    ('A' <= c <= 'Z') || ('a' <= c <= 'z') || ('0' <= c <= '9') || c == '-' || c == '.' || c == '_' || c == '~'
  }

  function HexDigit(n: nat): (c: char)
    requires n < 16
    ensures IsUnreserved(c)
  {
    if n < 10 then ('0' as int + n) as char else ('A' as int + n - 10) as char
  }

  /** The UTF-8 encoding of one Unicode scalar value. */
  function Utf8(c: char): (bytes: seq<nat>)
    ensures 1 <= |bytes| <= 4
    ensures forall k :: 0 <= k < |bytes| ==> bytes[k] < 256
  {
    var v := c as int;
    if v < 0x80 then [v]
    else if v < 0x800 then [0xC0 + v / 64, 0x80 + v % 64]
    else if v < 0x10000 then [0xE0 + v / 4096, 0x80 + (v / 64) % 64, 0x80 + v % 64]
    else [0xF0 + v / 262144, 0x80 + (v / 4096) % 64, 0x80 + (v / 64) % 64, 0x80 + v % 64]
  }

  function PercentEncode(bytes: seq<nat>): (r: string)
    requires forall k :: 0 <= k < |bytes| ==> bytes[k] < 256
    ensures |r| == 3 * |bytes|
    ensures forall i :: 0 <= i < |r| ==> IsUnreserved(r[i]) || r[i] == '%'
  {
    if bytes == [] then []
    else ['%', HexDigit(bytes[0] / 16), HexDigit(bytes[0] % 16)] + PercentEncode(bytes[1..])
  }

  function EscapeChar(c: char): (r: string)
    ensures forall i :: 0 <= i < |r| ==> IsUnreserved(r[i]) || r[i] == '%'
  {
    if IsUnreserved(c) then [c] else PercentEncode(Utf8(c))
  }

  /** `Uri.EscapeDataString`: every character outside the unreserved set becomes the
      percent-encoded bytes of its UTF-8 encoding, with upper-case hexadecimal digits. */
  function EscapeDataString(s: string): (r: string)
    ensures forall i :: 0 <= i < |r| ==> IsUnreserved(r[i]) || r[i] == '%'
  {
    if s == [] then [] else EscapeChar(s[0]) + EscapeDataString(s[1..])
  }

  lemma {:induction false} EscapeUnreservedIsIdentity(s: string)
    requires forall i :: 0 <= i < |s| ==> IsUnreserved(s[i])
    ensures EscapeDataString(s) == s
  {
    if s != [] {
      EscapeUnreservedIsIdentity(s[1..]);
      assert s == [s[0]] + s[1..];
    }
  }

  lemma {:induction false} EscapeAppend(a: string, b: string)
    ensures EscapeDataString(a + b) == EscapeDataString(a) + EscapeDataString(b)
  {
    if a == [] {
      assert a + b == b;
    } else {
      assert (a + b)[1..] == a[1..] + b;
      EscapeAppend(a[1..], b);
    }
  }

  // ---------------------------------------------------------------- integers

  function DigitChar(d: nat): (c: char)
    requires d < 10
    ensures '0' <= c <= '9'
  {
    ('0' as int + d) as char
  }

  /** Decimal rendering of a natural number, as `int.ToString()` prints it. */
  function NatToString(n: nat): string {
    if n < 10 then [DigitChar(n)] else NatToString(n / 10) + [DigitChar(n % 10)]
  }

  function IntToString(i: int): string {
    if i < 0 then "-" + NatToString(-i) else NatToString(i)
  }

  predicate AllDigits(s: string) {
    forall i :: 0 <= i < |s| ==> '0' <= s[i] <= '9'
  }

  function DigitsValue(s: string): nat
    requires AllDigits(s)
  {
    if s == [] then 0 else DigitsValue(s[..|s| - 1]) * 10 + (s[|s| - 1] as int - '0' as int)
  }

  /** The rendering is a non-empty run of digits whose value is the number. */
  lemma {:induction false} DigitsValueOfNatToString(n: nat)
    ensures |NatToString(n)| >= 1 && AllDigits(NatToString(n)) && DigitsValue(NatToString(n)) == n
  {
    if n >= 10 {
      var s := NatToString(n);
      DigitsValueOfNatToString(n / 10);
      assert s == NatToString(n / 10) + [DigitChar(n % 10)];
      assert s[..|s| - 1] == NatToString(n / 10);
    }
  }

  /** The white space `int.TryParse` skips around a number. */
  predicate IsNumberWhite(c: char) { ('\t' <= c <= '\r') || c == ' ' }

  function SkipNumberWhite(s: string): (r: string)
    ensures |r| <= |s| && r == s[|s| - |r|..]
    ensures r == [] || !IsNumberWhite(r[0])
  {
    if |s| > 0 && IsNumberWhite(s[0]) then SkipNumberWhite(s[1..]) else s
  }

  function DropNumberWhite(s: string): (r: string)
    ensures |r| <= |s| && r == s[..|r|]
    ensures r == [] || !IsNumberWhite(r[|r| - 1])
  {
    if |s| > 0 && IsNumberWhite(s[|s| - 1]) then DropNumberWhite(s[..|s| - 1]) else s
  }

  const Int32Min: int := -0x8000_0000
  const Int32Max: int := 0x7FFF_FFFF

  /** An optionally signed run of decimal digits, within the 32-bit range. */
  function ParseSigned(t: string): (r: Option<int>)
    ensures r.Some? ==> Int32Min <= r.value <= Int32Max
  {
    var negative := |t| > 0 && t[0] == '-';
    var digits := if |t| > 0 && (t[0] == '-' || t[0] == '+') then t[1..] else t;
    if digits == [] || !AllDigits(digits) then None
    else
      var magnitude := DigitsValue(digits) as int;
      var v := if negative then -magnitude else magnitude;
      if Int32Min <= v <= Int32Max then Some(v) else None
  }

  /** `AH.ParseInt`: `int.TryParse` with the integer number style, null when it fails. */
  function ParseInt(s: Option<string>): (r: Option<int>)
    ensures r.Some? ==> Int32Min <= r.value <= Int32Max
  {
    if s.None? then None else ParseSigned(DropNumberWhite(SkipNumberWhite(s.value)))
  }

  /** The digits of an optionally signed number, without its sign. */
  function UnsignedPart(t: string): string {
    if |t| > 0 && (t[0] == '-' || t[0] == '+') then t[1..] else t
  }

  /** An optionally signed, non-empty run of decimal digits, of any magnitude. */
  predicate IsSignedDigits(t: string) {
    UnsignedPart(t) != [] && AllDigits(UnsignedPart(t))
  }

  /** The value such a run of digits denotes, in unbounded arithmetic. */
  function SignedValue(t: string): int
    requires IsSignedDigits(t)
  {
    var v := DigitsValue(UnsignedPart(t)) as int;
    if |t| > 0 && t[0] == '-' then -v else v
  }

  /** `int.Parse` and `XmlConvert.ToInt32`: the 32-bit value around white space; a
      well-formed number outside the range throws `OverflowException`, anything else
      `FormatException`. */
  function ParseInt32(s: string): (r: Result<int>)
    ensures r.Ok? <==> ParseInt(Some(s)).Some?
    ensures r.Ok? ==> ParseInt(Some(s)) == Some(r.value)
    ensures r.Err? ==> r.fault == Format || r.fault == Overflow
  {
    var t := DropNumberWhite(SkipNumberWhite(s));
    match ParseSigned(t)
    case Some(n) => Ok(n)
    case None => if IsSignedDigits(t) then Err(Overflow) else Err(Format)
  }

  /** `int.Parse` fails exactly when `int.TryParse` does; it throws `OverflowException`
      exactly for a well-formed number whose value lies outside the 32-bit range, and
      within the range it yields that value. */
  lemma ParseInt32Cases(s: string)
    ensures var t := DropNumberWhite(SkipNumberWhite(s));
      && (ParseInt32(s) == Err(Format) <==> !IsSignedDigits(t))
      && (ParseInt32(s) == Err(Overflow) <==> IsSignedDigits(t) && !(Int32Min <= SignedValue(t) <= Int32Max))
      && (IsSignedDigits(t) && Int32Min <= SignedValue(t) <= Int32Max ==> ParseInt32(s) == Ok(SignedValue(t)))
  {
  }

  /** A run of `n` nines. */
  function Nines(n: nat): (r: string)
    ensures |r| == n
    ensures forall i :: 0 <= i < n ==> r[i] == '9'
  {
    if n == 0 then [] else Nines(n - 1) + ['9']
  }

  function Pow10(n: nat): nat {
    if n == 0 then 1 else 10 * Pow10(n - 1)
  }

  lemma {:induction false} NinesValue(n: nat)
    ensures AllDigits(Nines(n)) && DigitsValue(Nines(n)) + 1 == Pow10(n)
  {
    if n > 0 {
      NinesValue(n - 1);
      assert Nines(n)[..n - 1] == Nines(n - 1);
    }
  }

  lemma {:induction false} Pow10Grows(m: nat, n: nat)
    requires m <= n
    ensures Pow10(m) <= Pow10(n)
  {
    if m < n {
      Pow10Grows(m, n - 1);
    }
  }

  /** Ten or more nines are a well-formed number beyond 32 bits. */
  lemma NinesOverflow(n: nat)
    requires n >= 10
    ensures ParseInt32(Nines(n)) == Err(Overflow)
  {
    var t := Nines(n);
    NoNumberWhiteKept(t);
    assert UnsignedPart(t) == t;
    NinesValue(n);
    Pow10Grows(10, n);
    assert Pow10(10) == 10000000000;
    assert ParseSigned(t).None?;
  }

  lemma SignedOfDigits(digits: string, negative: bool)
    requires |digits| >= 1 && AllDigits(digits)
    requires var v := DigitsValue(digits) as int; Int32Min <= (if negative then -v else v) <= Int32Max
    ensures var v := DigitsValue(digits) as int;
      ParseSigned(if negative then "-" + digits else digits) == Some(if negative then -v else v)
  {
    if negative {
      var t := "-" + digits;
      assert t[0] == '-' && t[1..] == digits;
    } else {
      assert digits[0] != '-' && digits[0] != '+';
    }
  }

  /** A string that neither starts nor ends with white space is left as it is by trimming. */
  lemma NoNumberWhiteKept(s: string)
    requires |s| >= 1 && !IsNumberWhite(s[0]) && !IsNumberWhite(s[|s| - 1])
    ensures DropNumberWhite(SkipNumberWhite(s)) == s
  {
  }

  /** Every 32-bit integer, written in decimal, parses back to itself. */
  lemma ParseIntOfIntToString(i: int)
    requires Int32Min <= i <= Int32Max
    ensures ParseInt(Some(IntToString(i))) == Some(i)
  {
    var n: nat := if i < 0 then -i else i;
    var digits := NatToString(n);
    var s := if i < 0 then "-" + digits else digits;
    assert IntToString(i) == s;
    DigitsValueOfNatToString(n);
    SignedOfDigits(digits, i < 0);
    assert s[|s| - 1] == digits[|digits| - 1];
    NoNumberWhiteKept(s);
  }

  // ---------------------------------------------------------------- host string helpers

  /** `Util.ConcatNE(a, b, c)`: the concatenation when none of the parts is null or empty, else "". */
  function ConcatNE(a: Option<string>, b: Option<string>, c: Option<string>): (r: string)
    ensures r == "" <==> IsNullOrEmpty(a) || IsNullOrEmpty(b) || IsNullOrEmpty(c)
    ensures r != "" ==> r == a.value + b.value + c.value
  {
    if IsNullOrEmpty(a) || IsNullOrEmpty(b) || IsNullOrEmpty(c) then "" else a.value + b.value + c.value
  }

  /** `Util.CoalesceStr(a, b)`: the first of the two that is neither null nor empty. */
  function CoalesceStr(a: Option<string>, b: string): string {
    if IsNullOrEmpty(a) then b else a.value
  }
}
