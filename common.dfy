/** Shared value types for the C model: optional pointers, fixed-width
    unsigned integers and NUL-free C strings. */
module CTypes {

  /** A pointer that may be NULL. */
  datatype Option<+T> = None | Some(value: T)

  const TWO_32: int := 0x1_0000_0000
  const TWO_64: int := 0x1_0000_0000_0000_0000

  type uint32 = x: int | 0 <= x < TWO_32
  type uint64 = x: int | 0 <= x < TWO_64

  /** The characters of a C string before its terminating NUL; `strlen` is `|s|`. */
  type CString = s: string | '\0' !in s

  function Pow2(k: nat): (r: nat)
    ensures r >= 1
  {
    if k == 0 then 1 else 2 * Pow2(k - 1)
  }

  function Min(a: int, b: int): int { if a <= b then a else b }

  function Max(a: int, b: int): int { if a >= b then a else b }

  /** The C string stored in a byte buffer: everything before the first NUL. */
  function CStr(s: string): (r: string)
    ensures '\0' !in r
    ensures r <= s
    ensures |r| < |s| ==> s[|r|] == '\0'
  {
    if s == [] || s[0] == '\0' then [] else [s[0]] + CStr(s[1..])
  }

  /** A string without NUL is its own C string. */
  lemma {:induction false} CStrOfCString(s: CString)
    ensures CStr(s) == s
  {
    if s != [] {
      CStrOfCString(s[1..]);
    }
  }

  /** A NUL at position i ends the C string there. */
  lemma {:induction false} CStrAtNul(s: string, i: nat)
    requires i < |s| && s[i] == '\0'
    ensures CStr(s) == CStr(s[..i])
  {
    if i > 0 && s[0] != '\0' {
      CStrAtNul(s[1..], i - 1);
      assert s[..i][1..] == s[1..][..i - 1];
    }
  }

  /** Decimal rendering of a natural number, as printf's %u / %zu produce it. */
  function NatToDecimal(n: nat): (r: string)
    ensures r != [] && '\0' !in r
    decreases n
  {
    var d := ['0' + (n % 10) as char];
    if n < 10 then d else NatToDecimal(n / 10) + d
  }

  /** Decimal rendering of a signed integer, as printf's %d produces it. */
  function IntToDecimal(n: int): (r: string)
    ensures r != [] && '\0' !in r
  {
    if n < 0 then "-" + NatToDecimal(-n) else NatToDecimal(n)
  }

  /** `snprintf(buf, size, "%s", text)`: at most size - 1 characters are kept. */
  function Truncate(text: string, size: nat): (r: string)
    requires size > 0
    ensures |r| <= size - 1 && r <= text
    ensures |text| < size ==> r == text
  {
    if |text| < size then text else text[..size - 1]
  }
}
