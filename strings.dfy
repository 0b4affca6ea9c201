/** String helpers the report builders share: JavaScript's `Array.prototype.join`,
    `String.prototype.repeat` for indentation, ASCII lower-casing and the decimal
    rendering of whole numbers. */
module Strings {

  /** `s` begins with `p`. */
  predicate HasPrefix(s: string, p: string) {
    |p| <= |s| && s[..|p|] == p
  }

  /** A string begins with itself followed by anything. */
  lemma PrefixOfConcat(p: string, s: string)
    ensures HasPrefix(p + s, p)
  {
    assert (p + s)[..|p|] == p;
  }

  /** Concatenation is associative. */
  lemma ConcatAssoc<T>(a: seq<T>, b: seq<T>, c: seq<T>)
    ensures a + (b + c) == a + b + c
  {
  }

  /** `parts.join(sep)`: the parts in order with `sep` between neighbours. It is
      defined from the last part so that a push followed by a join unfolds once. */
  function Join(parts: seq<string>, sep: string): (r: string)
    ensures parts == [] ==> r == ""
    ensures |parts| == 1 ==> r == parts[0]
    ensures |parts| > 0 ==> HasPrefix(r, parts[0])
  {
    if |parts| == 0 then ""
    else if |parts| == 1 then parts[0]
    else
      var r := Join(parts[..|parts| - 1], sep) + sep + parts[|parts| - 1];
      assert parts[..|parts| - 1][0] == parts[0];
      r
  }

  /** Joining two non-empty lists puts one separator between their joins. */
  lemma {:induction false} JoinConcat(a: seq<string>, b: seq<string>, sep: string)
    requires a != [] && b != []
    ensures Join(a + b, sep) == Join(a, sep) + sep + Join(b, sep)
    decreases |b|
  {
    if |b| == 1 {
      assert (a + b)[..|a + b| - 1] == a;
    } else {
      var b' := b[..|b| - 1];
      JoinConcat(a, b', sep);
      assert (a + b)[..|a + b| - 1] == a + b';
    }
  }

  /** A join is empty only when there is nothing to join or every part is empty;
      in particular a non-empty first part makes it non-empty. */
  lemma JoinNonEmpty(parts: seq<string>, sep: string)
    requires |parts| > 0 && parts[0] != ""
    ensures Join(parts, sep) != ""
  {
    assert HasPrefix(Join(parts, sep), parts[0]);
  }

  /** `s.repeat(n)`. */
  function Repeat(s: string, n: nat): string {
    if n == 0 then "" else s + Repeat(s, n - 1)
  }

  /** Repeating `m` times and then `n` times is repeating `m + n` times. */
  lemma {:induction false} RepeatAdd(s: string, m: nat, n: nat)
    ensures Repeat(s, m + n) == Repeat(s, m) + Repeat(s, n)
  {
    if m == 0 {
      assert "" + Repeat(s, n) == Repeat(s, n);
    } else {
      RepeatAdd(s, m - 1, n);
      assert s + (Repeat(s, m - 1) + Repeat(s, n)) == (s + Repeat(s, m - 1)) + Repeat(s, n);
    }
  }

  /** A string of `n` blanks. */
  ghost predicate AllBlank(s: string) {
    forall i :: 0 <= i < |s| ==> s[i] == ' '
  }

  /** `'  '.repeat(depth)` is `2*depth` blanks. */
  lemma {:induction false} RepeatTwoBlanks(n: nat)
    ensures |Repeat("  ", n)| == 2 * n && AllBlank(Repeat("  ", n))
  {
    if n > 0 {
      RepeatTwoBlanks(n - 1);
      var r := Repeat("  ", n);
      assert r == "  " + Repeat("  ", n - 1);
      forall i | 0 <= i < |r| ensures r[i] == ' ' {
        if i >= 2 { assert r[i] == Repeat("  ", n - 1)[i - 2]; }
      }
    }
  }

  /** `toLowerCase` on one character: the ASCII capitals become small letters,
      everything else is left alone. */
  function LowerChar(c: char): (r: char)
    ensures 'A' <= c <= 'Z' ==> 'a' <= r <= 'z' && r as int - c as int == 32
    ensures !('A' <= c <= 'Z') ==> r == c
  {
    if 'A' <= c <= 'Z' then (c as int + 32) as char else c
  }

  /** `toLowerCase` on a string, character by character. */
  function Lower(s: string): (r: string)
    ensures |r| == |s|
    ensures forall i :: 0 <= i < |s| ==> r[i] == LowerChar(s[i])
  {
    seq(|s|, i requires 0 <= i < |s| => LowerChar(s[i]))
  }

  /** The digit character for `d`. */
  function DigitChar(d: nat): (c: char)
    requires d < 10
    ensures '0' <= c <= '9' && c as int - '0' as int == d
  {
    ('0' as int + d) as char
  }

  predicate IsDigit(c: char) {
    '0' <= c <= '9'
  }

  /** Decimal rendering of a natural number, the way JavaScript prints a whole
      number: no sign, no leading zeros. */
  function ShowNat(n: nat): (r: string)
    ensures |r| > 0
    ensures forall i :: 0 <= i < |r| ==> IsDigit(r[i])
    ensures n >= 10 ==> r[0] != '0'
  {
    if n < 10 then [DigitChar(n)] else ShowNat(n / 10) + [DigitChar(n % 10)]
  }

  /** The value of a string of decimal digits, read left to right. */
  function ParseDigits(s: string): int {
    if s == [] then 0
    else 10 * ParseDigits(s[..|s| - 1]) + (s[|s| - 1] as int - '0' as int)
  }

  /** Reading a rendered number back gives the number: ShowNat loses nothing. */
  lemma {:induction false} ParseShowNat(n: nat)
    ensures ParseDigits(ShowNat(n)) == n
  {
    if n >= 10 {
      ParseShowNat(n / 10);
      var s := ShowNat(n);
      assert s[..|s| - 1] == ShowNat(n / 10);
    }
  }

  /** Different numbers render differently. */
  lemma ShowNatInjective(m: nat, n: nat)
    requires ShowNat(m) == ShowNat(n)
    ensures m == n
  {
    ParseShowNat(m);
    ParseShowNat(n);
  }

  /** Decimal rendering of an integer: a minus sign for negatives. */
  function ShowInt(i: int): (r: string)
    ensures |r| > 0
    ensures i >= 0 ==> r == ShowNat(i)
    ensures i < 0 ==> r == "-" + ShowNat(-i)
  {
    if i < 0 then "-" + ShowNat(-i) else ShowNat(i)
  }
}
