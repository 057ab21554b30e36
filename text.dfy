/** The handful of Python string operations the core relies on: `str.isspace` and
    `str.strip`, truthiness, `str(int)`, `str(bool)`, `sep.join(parts)` and substring
    containment. */
module Text {

  import opened Wrappers

  /** Python's `str.isspace` for a single character. */
  predicate IsSpace(c: char) {
    var k := c as int;
    || (0x09 <= k <= 0x0D) || (0x1C <= k <= 0x20) || k == 0x85 || k == 0xA0 || k == 0x1680
    || (0x2000 <= k <= 0x200A) || k == 0x2028 || k == 0x2029 || k == 0x202F || k == 0x205F
    || k == 0x3000
  }

  /** `not s or s.strip() == ""`: the string is empty or made only of whitespace. */
  predicate IsBlank(s: string) {
    forall i | 0 <= i < |s| :: IsSpace(s[i])
  }

  /** Truthiness of an `Optional[str]`: present and non-empty. */
  predicate IsTruthy(s: Option<string>) {
    s.Some? && s.value != ""
  }

  /** `part` occurs in `whole` starting at index `i`. */
  predicate OccursAt(part: string, whole: string, i: int) {
    0 <= i <= |whole| - |part| && whole[i..i + |part|] == part
  }

  /** `whole.startswith(part)`. */
  predicate IsPrefix(part: string, whole: string) {
    |part| <= |whole| && whole[..|part|] == part
  }

  /** `part in whole` for strings. */
  predicate IsInfix(part: string, whole: string) {
    exists i | 0 <= i <= |whole| - |part| :: OccursAt(part, whole, i)
  }

  lemma InfixOfConcat(a: string, b: string, c: string)
    ensures IsInfix(b, a + b + c)
  {
    var w := a + b + c;
    assert w[|a|..|a| + |b|] == b;
    assert OccursAt(b, w, |a|);
  }

  /** Each of the three slots of a seven-piece concatenation occurs in it. */
  lemma InfixesOfConcat(a: string, x: string, b: string, y: string, c: string, z: string, d: string)
    ensures IsInfix(x, a + x + b + y + c + z + d)
    ensures IsInfix(y, a + x + b + y + c + z + d)
    ensures IsInfix(z, a + x + b + y + c + z + d)
  {
    var w := a + x + b + y + c + z + d;
    assert w == a + x + (b + y + c + z + d);
    InfixOfConcat(a, x, b + y + c + z + d);
    assert w == (a + x + b) + y + (c + z + d);
    InfixOfConcat(a + x + b, y, c + z + d);
    assert w == (a + x + b + y + c) + z + d;
    InfixOfConcat(a + x + b + y + c, z, d);
  }

  function DigitChar(d: nat): (c: char)
    requires d < 10
    ensures '0' <= c <= '9'
  {
    "0123456789"[d]
  }

  /** `str(n)` for a non-negative integer: decimal digits, most significant first. */
  function NatToString(n: nat): (s: string)
    ensures |s| >= 1
    ensures forall i | 0 <= i < |s| :: '0' <= s[i] <= '9'
    decreases n
  {
    if n < 10 then [DigitChar(n)] else NatToString(n / 10) + [DigitChar(n % 10)]
  }

  /** `str(n)` for any integer, with a leading minus sign when negative. */
  function IntToString(n: int): (s: string)
    ensures |s| >= 1
    ensures (s[0] == '-') <==> n < 0
  {
    if n < 0 then "-" + NatToString(-n) else NatToString(n)
  }

  /** `str(b)` for a Python bool. */
  function BoolToString(b: bool): (s: string)
    ensures b ==> s == "True"
    ensures !b ==> s == "False"
  {
    if b then "True" else "False"
  }

  /** `sep.join(parts)`. */
  function Join(parts: seq<string>, sep: string): (r: string)
    ensures parts == [] ==> r == ""
    ensures |parts| == 1 ==> r == parts[0]
    decreases |parts|
  {
    if |parts| == 0 then ""
    else if |parts| == 1 then parts[0]
    else parts[0] + sep + Join(parts[1..], sep)
  }

  /** Number of occurrences of the character `c` in `s`. */
  function Occurrences(c: char, s: string): (n: nat)
    ensures n <= |s|
  {
    if s == [] then 0 else (if s[0] == c then 1 else 0) + Occurrences(c, s[1..])
  }

  lemma {:induction false} OccurrencesAppend(c: char, a: string, b: string)
    ensures Occurrences(c, a + b) == Occurrences(c, a) + Occurrences(c, b)
  {
    if a != [] {
      assert (a + b)[1..] == a[1..] + b;
      OccurrencesAppend(c, a[1..], b);
    } else {
      assert a + b == b;
    }
  }

  /** When no part contains the separator character, joining n >= 1 parts puts exactly
      n - 1 copies of it into the result. */
  lemma {:induction false} JoinSeparatorCount(parts: seq<string>, c: char)
    requires |parts| >= 1
    requires forall i | 0 <= i < |parts| :: Occurrences(c, parts[i]) == 0
    ensures Occurrences(c, Join(parts, [c])) == |parts| - 1
  {
    if |parts| > 1 {
      JoinSeparatorCount(parts[1..], c);
      var rest := Join(parts[1..], [c]);
      OccurrencesAppend(c, parts[0] + [c], rest);
      OccurrencesAppend(c, parts[0], [c]);
      assert Occurrences(c, [c]) == 1 by {
        assert [c][1..] == [];
      }
    }
  }
}
