/** Shared value types and string helpers used by every part of the loader model. */
module Common {

  datatype Option<+T> = None | Some(value: T)

  /** Unsigned machine integers of the Win32 structures, as bounded mathematical integers. */
  type byte = x: int | 0 <= x < 0x100
  type u16 = x: int | 0 <= x < 0x1_0000
  type u32 = x: int | 0 <= x < 0x1_0000_0000
  type u64 = x: int | 0 <= x < 0x1_0000_0000_0000_0000

  const U32_MODULUS: int := 0x1_0000_0000

  /** `a + b` computed in 32-bit unsigned arithmetic (DWORD addition wraps). */
  function AddU32(a: u32, b: u32): (r: u32)
    ensures a + b < U32_MODULUS ==> r == a + b
    ensures a + b >= U32_MODULUS ==> r == a + b - U32_MODULUS
  {
    (a + b) % U32_MODULUS
  }

  /** `strstr(s, sub) != nullptr`: `sub` occurs somewhere in `s`. */
  predicate Contains(s: string, sub: string): (r: bool)
    ensures r ==> |sub| <= |s|
    ensures sub == [] ==> r
    ensures |sub| <= |s| && s[..|sub|] == sub ==> r
  {
    assert |sub| <= |s| && s[..|sub|] == sub ==> OccursAt(s, sub, 0);
    exists i | 0 <= i <= |s| - |sub| :: OccursAt(s, sub, i)
  }

  predicate OccursAt(s: string, sub: string, i: int)
  {
    0 <= i && i + |sub| <= |s| && s[i..i + |sub|] == sub
  }

  /** The character codes of a string, so that it can be compared with raw bytes. */
  function Codes(s: string): (r: seq<int>)
    ensures |r| == |s|
    ensures forall i | 0 <= i < |s| :: r[i] == s[i] as int
  {
    seq(|s|, i requires 0 <= i < |s| => s[i] as int)
  }

  /** `tolower` on the ASCII range, as `_stricmp` applies it to both operands. */
  function LowerCode(c: int): int
  {
    if 'A' as int <= c <= 'Z' as int then c + 32 else c
  }

  /** `_stricmp(a, b) == 0` on two NUL-free character sequences. */
  predicate EqualsIgnoreCase(a: seq<int>, b: seq<int>): (r: bool)
    ensures r ==> |a| == |b|
    ensures a == b ==> r
  {
    |a| == |b| && forall i | 0 <= i < |a| :: LowerCode(a[i]) == LowerCode(b[i])
  }

  /** `_stricmp(a, b) == 0` is an equivalence: symmetric and transitive. */
  lemma EqualsIgnoreCaseEquivalence(a: seq<int>, b: seq<int>, c: seq<int>)
    ensures EqualsIgnoreCase(a, b) <==> EqualsIgnoreCase(b, a)
    ensures EqualsIgnoreCase(a, b) && EqualsIgnoreCase(b, c) ==> EqualsIgnoreCase(a, c)
  {
  }

  /** Upper- and lower-case ASCII letters compare equal, other characters only to themselves. */
  lemma EqualsIgnoreCaseLetters(x: char, y: char)
    ensures EqualsIgnoreCase([x as int], [y as int]) <==>
      x == y || ('A' <= x <= 'Z' && y as int == x as int + 32) || ('A' <= y <= 'Z' && x as int == y as int + 32)
  {
    var a, b := [x as int], [y as int];
    assert a[0] == x as int && b[0] == y as int;
    assert EqualsIgnoreCase(a, b) <==> LowerCode(a[0]) == LowerCode(b[0]);
  }
}
