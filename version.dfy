/**
  The product-version string of the runtime and its 64-bit packed form
  (obse64_loader/IdentifyEXE.cpp, VersionStrToInt).

  The string is scanned as `sscanf_s(s, "%d.%d.%d.%d", ...)` would scan it when
  every component is a plain run of decimal digits; the four components are then
  packed 16 bits each, most significant first.
*/
module Version {
  import opened Common

  predicate IsDigit(c: char)
  {
    '0' <= c <= '9'
  }

  function DigitValue(c: char): (d: nat)
    requires IsDigit(c)
    ensures d < 10
  {
    (c as int) - ('0' as int)
  }

  function DigitChar(d: nat): (c: char)
    requires d < 10
    ensures IsDigit(c) && DigitValue(c) == d
  {
    (('0' as int) + d) as char
  }

  /** Length of the run of decimal digits that starts `s`. */
  function LeadingDigits(s: string): (n: nat)
    ensures n <= |s|
    ensures forall i | 0 <= i < n :: IsDigit(s[i])
    ensures n < |s| ==> !IsDigit(s[n])
  {
    if |s| == 0 || !IsDigit(s[0]) then 0 else 1 + LeadingDigits(s[1..])
  }

  predicate AllDigits(s: string)
  {
    forall i | 0 <= i < |s| :: IsDigit(s[i])
  }

  /** Value of a digit string accumulated left to right (`v := v * 10 + d`), as `%d` reads it. */
  function DigitsValue(ds: string): nat
    requires AllDigits(ds)
  {
    if |ds| == 0 then 0 else DigitsValue(ds[..|ds| - 1]) * 10 + DigitValue(ds[|ds| - 1])
  }

  /** `n` in decimal without leading zeros, as `%d` prints it. */
  function Decimal(n: nat): (s: string)
    ensures |s| > 0 && AllDigits(s)
  {
    if n < 10 then [DigitChar(n)] else Decimal(n / 10) + [DigitChar(n % 10)]
  }

  /**
    The values `sscanf` converts for the format "%d<sep>%d<sep>%d<sep>%d" when
    `count` conversions are already done: a conversion needs at least one digit,
    and the next one is attempted only if the separator follows.  Whatever follows
    the fourth number is not looked at.
  */
  function ScanFields(s: string, sep: char, count: nat): (r: seq<nat>)
    requires count < 4
    ensures |r| <= 4 - count
    decreases 4 - count
  {
    var n := LeadingDigits(s);
    if n == 0 then []
    else
      var v := DigitsValue(s[..n]);
      if count == 3 || n == |s| || s[n] != sep then [v]
      else [v] + ScanFields(s[n + 1..], sep, count + 1)
  }

  const FIELD_MODULUS: int := 0x1_0000

  /** `x == q * 2^16 + r` with `r < 2^16` determines quotient and remainder. */
  lemma Split16(x: int, q: int, r: int)
    requires 0 <= r < FIELD_MODULUS && x == q * FIELD_MODULUS + r
    ensures x / FIELD_MODULUS == q && x % FIELD_MODULUS == r
  {
  }

  /** Field `k` (0 = least significant) of a packed version: `(v >> 16 * k) & 0xFFFF`. */
  function Field(v: u64, k: nat): u16
    requires k < 4
  {
    if k == 0 then v % FIELD_MODULUS else Field(v / FIELD_MODULUS, k - 1)
  }

  /** `a << 48 | b << 32 | c << 16 | d`: the packed version with `a` most significant. */
  function PackFields(a: u16, b: u16, c: u16, d: u16): u64
  {
    ((a * FIELD_MODULUS + b) * FIELD_MODULUS + c) * FIELD_MODULUS + d
  }

  /** Each 16-bit field of a packed version reads back exactly. */
  lemma FieldsOfPack(a: u16, b: u16, c: u16, d: u16)
    ensures var v := PackFields(a, b, c, d);
      Field(v, 3) == a && Field(v, 2) == b && Field(v, 1) == c && Field(v, 0) == d
  {
    var v := PackFields(a, b, c, d);
    var q1, q2 := (a * FIELD_MODULUS + b) * FIELD_MODULUS + c, a * FIELD_MODULUS + b;
    Split16(v, q1, d);
    Split16(q1, q2, c);
    Split16(q2, a, b);
    Split16(a, 0, a);
    assert Field(v, 3) == Field(q1, 2) == Field(q2, 1) == Field(a, 0);
    assert Field(v, 2) == Field(q1, 1) == Field(q2, 0);
  }

  /** Packing the four fields of any 64-bit value gives that value back. */
  lemma FieldsPack(v: u64)
    ensures PackFields(Field(v, 3), Field(v, 2), Field(v, 1), Field(v, 0)) == v
  {
    var q1 := v / FIELD_MODULUS;
    var q2 := q1 / FIELD_MODULUS;
    var q3 := q2 / FIELD_MODULUS;
    assert q3 < FIELD_MODULUS;
    assert Field(v, 3) == q3 % FIELD_MODULUS == q3;
  }

  /** The specification of VersionStrToInt: four scanned components, each at most 0xFFFF. */
  function ParseVersion(s: string): Option<u64>
  {
    var p := ScanFields(s, '.', 0);
    if |p| == 4 && p[0] <= 0xFFFF && p[1] <= 0xFFFF && p[2] <= 0xFFFF && p[3] <= 0xFFFF
    then Some(PackFields(p[0], p[1], p[2], p[3]))
    else None
  }

  /**
    The accumulator after the first `i` rounds of `result <<= 16; result |= part`.
    The shift leaves the low 16 bits zero and each part is below 2^16, so the `|` adds.
  */
  ghost function ShiftedIn(parts: seq<nat>, i: nat): int
    requires i <= |parts|
  {
    if i == 0 then 0 else ShiftedIn(parts, i - 1) * FIELD_MODULUS + parts[i - 1]
  }

  ghost function Radix(i: nat): nat
  {
    if i == 0 then 1 else Radix(i - 1) * FIELD_MODULUS
  }

  /**
    VersionStrToInt: on success `newOut` is the packed version; on failure (fewer
    than four numbers scanned, or a component above 0xFFFF) the caller's `out` is
    returned untouched, since the source writes `*out` only after the loop.
  */
  method VersionStrToInt(verStr: string, out: u64) returns (ok: bool, newOut: u64)
    ensures ok <==> ParseVersion(verStr).Some?
    ensures ok ==> newOut == ParseVersion(verStr).value
    ensures !ok ==> newOut == out
  {
    var parts := ScanFields(verStr, '.', 0);
    if |parts| != 4 {
      return false, out;
    }
    var result: int := 0;
    for i := 0 to 4
      invariant forall j | 0 <= j < i :: parts[j] <= 0xFFFF
      invariant result == ShiftedIn(parts, i)
      invariant 0 <= result < Radix(i)
    {
      if parts[i] > 0xFFFF {
        return false, out;
      }
      result := result * FIELD_MODULUS + parts[i];
    }
    assert Radix(4) == 0x1_0000_0000_0000_0000;
    assert ShiftedIn(parts, 4) == PackFields(parts[0], parts[1], parts[2], parts[3]) by {
      assert ShiftedIn(parts, 1) == parts[0];
      assert ShiftedIn(parts, 2) == parts[0] * FIELD_MODULUS + parts[1];
      assert ShiftedIn(parts, 3) == (parts[0] * FIELD_MODULUS + parts[1]) * FIELD_MODULUS + parts[2];
    }
    return true, result;
  }

  /** The numbers of `ps` in decimal, separated by `sep`: `"%d<sep>%d..."`. */
  function Joined(ps: seq<nat>, sep: char): string
    requires |ps| > 0
  {
    if |ps| == 1 then Decimal(ps[0]) else Decimal(ps[0]) + [sep] + Joined(ps[1..], sep)
  }

  /** The `"%d.%d.%d.%d"` rendering of four components. */
  function FormatVersion(a: nat, b: nat, c: nat, d: nat): string
  {
    Joined([a, b, c, d], '.')
  }

  lemma {:induction false} DecimalValue(n: nat)
    ensures DigitsValue(Decimal(n)) == n
  {
    if n >= 10 {
      var s := Decimal(n);
      assert s[..|s| - 1] == Decimal(n / 10);
      DecimalValue(n / 10);
    }
  }

  lemma {:induction false} LeadingDigitsOfDigits(ds: string, rest: string)
    requires AllDigits(ds)
    requires rest == [] || !IsDigit(rest[0])
    ensures LeadingDigits(ds + rest) == |ds|
  {
    if |ds| > 0 {
      assert (ds + rest)[1..] == ds[1..] + rest;
      LeadingDigitsOfDigits(ds[1..], rest);
    }
  }

  /** Scanning a rendered number followed by a non-digit converts exactly that number. */
  lemma ScanDecimal(n: nat, rest: string, sep: char, count: nat)
    requires count < 4
    requires rest == [] || !IsDigit(rest[0])
    ensures ScanFields(Decimal(n) + rest, sep, count) ==
      if count == 3 || rest == [] || rest[0] != sep then [n]
      else [n] + ScanFields(rest[1..], sep, count + 1)
  {
    var s := Decimal(n) + rest;
    var k := |Decimal(n)|;
    LeadingDigitsOfDigits(Decimal(n), rest);
    assert s[..k] == Decimal(n);
    DecimalValue(n);
    if k < |s| {
      assert s[k] == rest[0];
      assert s[k + 1..] == rest[1..];
    }
  }

  /**
    Scanning a joined rendering converts exactly its numbers: all four of them, with
    anything not starting with a digit after them, or fewer than four with nothing after.
  */
  lemma {:induction false} ScanJoined(ps: seq<nat>, sep: char, count: nat, rest: string)
    requires count < 4 && 1 <= |ps| <= 4 - count && !IsDigit(sep)
    requires (|ps| == 4 - count && (rest == [] || !IsDigit(rest[0]))) || rest == []
    ensures ScanFields(Joined(ps, sep) + rest, sep, count) == ps
  {
    if |ps| == 1 {
      ScanDecimal(ps[0], rest, sep, count);
    } else {
      var tail := Joined(ps[1..], sep) + rest;
      JoinedHead(ps, sep, rest);
      ScanDecimal(ps[0], [sep] + tail, sep, count);
      assert ScanFields(Joined(ps, sep) + rest, sep, count) == [ps[0]] + ScanFields(tail, sep, count + 1);
      ScanJoined(ps[1..], sep, count + 1, rest);
      assert [ps[0]] + ps[1..] == ps;
    }
  }

  /** A joined rendering of two or more numbers is the first number, the separator and the rest. */
  lemma JoinedHead(ps: seq<nat>, sep: char, rest: string)
    requires |ps| > 1
    ensures Joined(ps, sep) + rest == Decimal(ps[0]) + ([sep] + (Joined(ps[1..], sep) + rest))
    ensures ([sep] + (Joined(ps[1..], sep) + rest))[1..] == Joined(ps[1..], sep) + rest
  {
    Regrouped(Decimal(ps[0]), sep, Joined(ps[1..], sep), rest);
  }

  lemma Regrouped(a: string, sep: char, b: string, rest: string)
    ensures (a + [sep] + b) + rest == a + ([sep] + (b + rest))
    ensures ([sep] + (b + rest))[1..] == b + rest
  {
  }

  /** Scanning a rendering converts its four components, whatever their size. */
  lemma ScanFormat(a: nat, b: nat, c: nat, d: nat)
    ensures ScanFields(FormatVersion(a, b, c, d), '.', 0) == [a, b, c, d]
  {
    ScanJoined([a, b, c, d], '.', 0, []);
    assert FormatVersion(a, b, c, d) + [] == FormatVersion(a, b, c, d);
  }

  /**
    Round trip with `"%d.%d.%d.%d"` formatting: four components in [0, 65535]
    parse to their packed value, and any component above 65535 makes the parse fail.
  */
  lemma ParseFormat(a: nat, b: nat, c: nat, d: nat)
    ensures a <= 0xFFFF && b <= 0xFFFF && c <= 0xFFFF && d <= 0xFFFF ==>
      ParseVersion(FormatVersion(a, b, c, d)) == Some(PackFields(a, b, c, d))
    ensures a <= 0xFFFF && b <= 0xFFFF && c <= 0xFFFF && d <= 0xFFFF ==>
      var v := ParseVersion(FormatVersion(a, b, c, d)).value;
      Field(v, 3) == a && Field(v, 2) == b && Field(v, 1) == c && Field(v, 0) == d
    ensures a > 0xFFFF || b > 0xFFFF || c > 0xFFFF || d > 0xFFFF ==>
      ParseVersion(FormatVersion(a, b, c, d)) == None
  {
    ScanFormat(a, b, c, d);
    if a <= 0xFFFF && b <= 0xFFFF && c <= 0xFFFF && d <= 0xFFFF {
      FieldsOfPack(a, b, c, d);
    }
  }

  /** Only three numbers: the scan converts three values and the parse fails. */
  lemma ParseThreeFails(a: nat, b: nat, c: nat)
    ensures ParseVersion(Joined([a, b, c], '.')) == None
  {
    ScanJoined([a, b, c], '.', 0, []);
    assert Joined([a, b, c], '.') + [] == Joined([a, b, c], '.');
  }

  /** "1.2.3.4" parses to a value whose fields read back as 1, 2, 3, 4. */
  lemma ParseExample()
    ensures ParseVersion("1.2.3.4").Some?
    ensures var v := ParseVersion("1.2.3.4").value;
      Field(v, 3) == 1 && Field(v, 2) == 2 && Field(v, 1) == 3 && Field(v, 0) == 4
  {
    assert FormatVersion(1, 2, 3, 4) == "1.2.3.4" by {
      assert [1, 2, 3, 4][1..] == [2, 3, 4] && [2, 3, 4][1..] == [3, 4] && [3, 4][1..] == [4];
      assert Joined([4], '.') == "4";
      assert Joined([3, 4], '.') == "3.4";
      assert Joined([2, 3, 4], '.') == "2.3.4";
    }
    ParseFormat(1, 2, 3, 4);
  }

  /** "70000.1.1.1" fails to parse: its first component does not fit in 16 bits. */
  lemma ParseOverflowExample()
    ensures ParseVersion("70000.1.1.1") == None
  {
    assert Decimal(70000) == "70000" by {
      assert Decimal(7) == "7";
      assert Decimal(70) == Decimal(7) + "0";
      assert Decimal(700) == Decimal(70) + "0";
      assert Decimal(7000) == Decimal(700) + "0";
    }
    assert FormatVersion(70000, 1, 1, 1) == "70000.1.1.1";
    ParseFormat(70000, 1, 1, 1);
  }
}
