/** Integer output of src/log/LogStream.cc into the fixed buffers of src/file/Buffer.h.

    `Text` is the canonical numeral of a value. `CanonicalIff` says what that means without mentioning
    how it is computed, and `Convert` is the source's loop: C division on negative values, digits
    written backwards, the text reversed in place. */
module LogStream {
  import opened Common

  const DIGITS: string := "9876543210123456789"
  const DIGITS_HEX: string := "0123456789ABCDEF"
  const MAX_NUMERIC_SIZE: nat := 48

  predicate Base(b: nat) {
    b == 10 || b == 16
  }

  function Times(m: int, b: nat): int
    requires Base(b)
  {
    if b == 10 then 10 * m else 16 * m
  }

  function Div(n: nat, b: nat): nat
    requires Base(b)
  {
    if b == 10 then n / 10 else n / 16
  }

  function Mod(n: nat, b: nat): nat
    requires Base(b)
  {
    if b == 10 then n % 10 else n % 16
  }

  /** Division and remainder of C: the quotient is truncated toward zero. */
  function Quot(i: int, b: nat): int
    requires Base(b)
  {
    if 0 <= i then Div(i, b) else 0 - Div(-i, b)
  }

  function Rem(i: int, b: nat): int
    requires Base(b)
  {
    i - Times(Quot(i, b), b)
  }

  function Abs(i: int): nat {
    if i < 0 then -i else i
  }

  function Digit(d: nat): char
    requires d < 16
  {
    if d < 10 then ('0' as int + d) as char else ('A' as int + d - 10) as char
  }

  /** The two tables of the source agree with `Digit`; the decimal one is indexed from its middle, so
      that a negative remainder finds its digit too. */
  lemma Tables(r: int)
    ensures 0 <= r < 16 ==> DIGITS_HEX[r] == Digit(r)
    ensures -10 < r < 10 ==> DIGITS[9 + r] == Digit(Abs(r))
  {
    assert forall k :: 0 <= k < 16 ==> DIGITS_HEX[k] == Digit(k);
    assert forall k :: 0 <= k < 19 ==> DIGITS[k] == Digit(Abs(k - 9));
    if -10 < r < 10 {
      assert DIGITS[9 + r] == Digit(Abs(9 + r - 9));
    }
  }

  /** The numeral of a magnitude, and of a signed value. */
  function Numeral(n: nat, b: nat): string
    requires Base(b)
    decreases n
  {
    if n < b then [Digit(n)] else Numeral(Div(n, b), b) + [Digit(Mod(n, b))]
  }

  function Text(v: int): string {
    if v < 0 then "-" + Numeral(-v, 10) else Numeral(v, 10)
  }

  // ----- what a numeral means -----

  predicate IsDigit(c: char, b: nat)
    requires Base(b)
  {
    '0' <= c <= '9' || (b == 16 && 'A' <= c <= 'F')
  }

  function DigitValue(c: char): int {
    if '0' <= c <= '9' then c as int - '0' as int else c as int - 'A' as int + 10
  }

  function Parse(s: string, b: nat): int
    requires Base(b)
  {
    if s == [] then 0 else Times(Parse(s[..|s| - 1], b), b) + DigitValue(s[|s| - 1])
  }

  /** Digits only, at least one, and a leading zero only in "0" itself. */
  predicate Canonical(s: string, b: nat)
    requires Base(b)
  {
    && s != []
    && (forall i :: 0 <= i < |s| ==> IsDigit(s[i], b))
    && (s[0] == '0' ==> |s| == 1)
  }

  predicate CanonicalSigned(s: string) {
    if s != [] && s[0] == '-' then Canonical(s[1..], 10) && s[1..] != "0" else Canonical(s, 10)
  }

  function ParseSigned(s: string): int {
    if s != [] && s[0] == '-' then -Parse(s[1..], 10) else Parse(s, 10)
  }

  lemma {:induction false} NumeralMeans(n: nat, b: nat)
    requires Base(b)
    ensures Canonical(Numeral(n, b), b)
    ensures Parse(Numeral(n, b), b) == n
    ensures Numeral(n, b)[0] == '0' ==> n == 0
    decreases n
  {
    if b <= n {
      var high := Numeral(Div(n, b), b);
      NumeralMeans(Div(n, b), b);
      assert Numeral(n, b)[..|Numeral(n, b)| - 1] == high;
    } else {
      assert Numeral(n, b)[..0] == "";
    }
  }

  lemma {:induction false} ParsePositive(s: string, b: nat)
    requires Base(b) && Canonical(s, b)
    ensures 0 <= Parse(s, b)
    ensures Parse(s, b) == 0 ==> s == "0"
  {
    var t := s[..|s| - 1];
    if t == [] {
      assert Parse(s, b) == DigitValue(s[0]);
    } else {
      ParsePositive(t, b);
    }
  }

  lemma {:induction false} NumeralUnique(s: string, b: nat)
    requires Base(b) && Canonical(s, b)
    ensures 0 <= Parse(s, b) && Numeral(Parse(s, b), b) == s
  {
    ParsePositive(s, b);
    var t, d := s[..|s| - 1], DigitValue(s[|s| - 1]);
    if t == [] {
      assert Parse(s, b) == d;
    } else {
      ParsePositive(t, b);
      NumeralUnique(t, b);
      var m := Parse(t, b);
      assert Div(Parse(s, b), b) == m && Mod(Parse(s, b), b) == d;
    }
  }

  lemma TextReads(v: int)
    ensures CanonicalSigned(Text(v)) && ParseSigned(Text(v)) == v
  {
    NumeralMeans(Abs(v), 10);
    if v < 0 {
      assert Text(v)[1..] == Numeral(-v, 10);
    }
  }

  lemma ReadsOnlyText(s: string)
    requires CanonicalSigned(s)
    ensures s == Text(ParseSigned(s))
  {
    var body := if s[0] == '-' then s[1..] else s;
    NumeralUnique(body, 10);
    ParsePositive(body, 10);
    assert s[0] == '-' ==> s == "-" + body;
  }

  /** The text of a value is the one canonical string that reads back as the value. */
  lemma CanonicalIff(s: string, v: int)
    ensures s == Text(v) <==> CanonicalSigned(s) && ParseSigned(s) == v
  {
    TextReads(v);
    if CanonicalSigned(s) {
      ReadsOnlyText(s);
    }
  }

  lemma HexIff(s: string, n: nat)
    ensures s == Numeral(n, 16) <==> Canonical(s, 16) && Parse(s, 16) == n
  {
    NumeralMeans(n, 16);
    if Canonical(s, 16) {
      NumeralUnique(s, 16);
    }
  }

  // ----- length -----

  function Pow(b: nat, k: nat): nat
    requires Base(b)
  {
    if k == 0 then 1 else Times(Pow(b, k - 1), b)
  }

  lemma {:induction false} NumeralLength(n: nat, b: nat, k: nat)
    requires Base(b) && 1 <= k && n < Pow(b, k)
    ensures 1 <= |Numeral(n, b)| <= k
    decreases k
  {
    if b <= n {
      assert Pow(b, k) == Times(Pow(b, k - 1), b);
      NumeralLength(Div(n, b), b, k - 1);
    }
  }

  const TWO_63: int := 0x8000_0000_0000_0000
  const TWO_64: int := 0x1_0000_0000_0000_0000

  /** No 32- or 64-bit integer, signed or not, needs more than 20 characters, nor a pointer more
      than 16. */
  lemma FitsInTwenty(v: int)
    requires -TWO_63 <= v < TWO_64
    ensures 1 <= |Text(v)| <= 20
  {
    assert Pow(10, 19) == 10_000_000_000_000_000_000 by {
      assert Pow(10, 5) == 100_000;
      assert Pow(10, 10) == 10_000_000_000;
      assert Pow(10, 15) == 1_000_000_000_000_000;
    }
    NumeralLength(Abs(v), 10, if v < 0 then 19 else 20);
  }

  lemma HexFitsInSixteen(n: nat)
    requires n < TWO_64
    ensures 1 <= |Numeral(n, 16)| <= 16
  {
    assert Pow(16, 16) == TWO_64 by {
      assert Pow(16, 5) == 0x10_0000;
      assert Pow(16, 10) == 0x100_0000_0000;
    }
    NumeralLength(n, 16, 16);
  }

  // ----- the loops -----

  /** std::reverse. */
  method ReverseInPlace(a: array<char>, lo: nat, hi: nat)
    requires lo <= hi <= a.Length
    modifies a
    ensures a[lo..hi] == Reversed(old(a[lo..hi]))
    ensures forall k :: 0 <= k < lo || hi <= k < a.Length ==> a[k] == old(a[k])
  {
    var i, j := lo, hi;
    while i + 1 < j
      invariant lo <= i <= j <= hi && i - lo == hi - j
      invariant forall k :: lo <= k < i || j <= k < hi ==> a[k] == old(a[lo + hi - 1 - k])
      invariant forall k :: 0 <= k < lo || i <= k < j || hi <= k < a.Length ==> a[k] == old(a[k])
    {
      j := j - 1;
      a[i], a[j] := a[j], a[i];
      i := i + 1;
    }
  }

  lemma Round(i: int, b: nat)
    requires Base(b)
    ensures Abs(Quot(i, b)) == Div(Abs(i), b) && Abs(Rem(i, b)) == Mod(Abs(i), b)
    ensures 0 <= i ==> 0 <= Rem(i, b)
  {
  }

  /** One round of the conversion loop: the digits written so far are the end of the numeral, reversed. */
  lemma TailStep(written: string, i: int, whole: string, b: nat)
    requires Base(b) && (written == "" || i != 0)
    requires Numeral(Abs(i), b) + Reversed(written) == whole
    ensures var next := written + [Digit(Mod(Abs(i), b))];
      if Quot(i, b) == 0 then Reversed(next) == whole
      else Numeral(Abs(Quot(i, b)), b) + Reversed(next) == whole
  {
    Round(i, b);
    var c := Digit(Mod(Abs(i), b));
    assert Reversed(written + [c]) == [c] + Reversed(written);
    var rest := if Abs(i) < b then "" else Numeral(Div(Abs(i), b), b);
    assert Numeral(Abs(i), b) == rest + [c];
    assert Abs(i) < b <==> Div(Abs(i), b) == 0;
    assert (rest + [c]) + Reversed(written) == rest + ([c] + Reversed(written));
  }

  method WriteDigit(a: array<char>, p: nat, i: int, b: nat)
    requires Base(b) && (b == 16 ==> 0 <= i) && p < a.Length
    modifies a
    ensures a[p] == Digit(Mod(Abs(i), b))
    ensures forall k :: 0 <= k < a.Length && k != p ==> a[k] == old(a[k])
  {
    Round(i, b);
    Tables(Rem(i, b));
    var lsd := Rem(i, b);
    a[p] := if b == 10 then DIGITS[9 + lsd] else DIGITS_HEX[lsd];
  }

  lemma RoomForDigit(written: string, i: int, whole: string, b: nat)
    requires Base(b) && Numeral(Abs(i), b) + Reversed(written) == whole
    ensures |written| < |whole|
  {
    assert |Numeral(Abs(i), b)| >= 1;
  }

  /** The digits of `value`, least significant first, from index `at` on. */
  method WriteDigits(a: array<char>, at: nat, value: int, b: nat) returns (p: nat)
    requires Base(b) && (b == 16 ==> 0 <= value)
    requires at + |Numeral(Abs(value), b)| <= a.Length
    modifies a
    ensures p == at + |Numeral(Abs(value), b)|
    ensures a[at..p] == Reversed(Numeral(Abs(value), b))
    ensures forall k :: 0 <= k < at || p <= k < a.Length ==> a[k] == old(a[k])
  {
    ghost var whole := Numeral(Abs(value), b);
    var i := value;
    p := at;
    ghost var written := "";
    assert whole + Reversed(written) == whole;
    var more := true;
    while more
      invariant at <= p <= a.Length && a[at..p] == written
      invariant more ==> (written == "" || i != 0) && Numeral(Abs(i), b) + Reversed(written) == whole
      invariant !more ==> Reversed(written) == whole
      invariant b == 16 ==> 0 <= i
      invariant forall k :: 0 <= k < at || p <= k < a.Length ==> a[k] == old(a[k])
      decreases Abs(i), more
    {
      TailStep(written, i, whole, b);
      RoomForDigit(written, i, whole, b);
      Round(i, b);
      WriteDigit(a, p, i, b);
      written := written + [a[p]];
      p, i := p + 1, Quot(i, b);
      assert a[at..p] == written;
      more := i != 0;
    }
    assert written == Reversed(Reversed(written));
  }

  lemma ReversedText(value: int, backwards: string)
    requires backwards == Reversed(Numeral(Abs(value), 10)) + (if value < 0 then "-" else "")
    ensures Reversed(backwards) == Text(value)
  {
  }

  method Convert(a: array<char>, at: nat, value: int) returns (len: nat)
    requires -TWO_63 <= value < TWO_64
    requires at + 21 <= a.Length
    modifies a
    ensures len == |Text(value)| <= 20
    ensures a[at..at + len] == Text(value) && a[at + len] == '\0'
    ensures forall k :: 0 <= k < at || at + len < k < a.Length ==> a[k] == old(a[k])
  {
    FitsInTwenty(value);
    var p := WriteDigits(a, at, value, 10);
    if value < 0 {
      a[p] := '-';
      p := p + 1;
    }
    a[p] := '\0';
    ReversedText(value, a[at..p]);
    ReverseInPlace(a, at, p);
    len := p - at;
  }

  method ConvertHex(a: array<char>, at: nat, value: nat) returns (len: nat)
    requires value < TWO_64
    requires at + 17 <= a.Length
    modifies a
    ensures len == |Numeral(value, 16)| <= 16
    ensures a[at..at + len] == Numeral(value, 16) && a[at + len] == '\0'
    ensures forall k :: 0 <= k < at || at + len < k < a.Length ==> a[k] == old(a[k])
  {
    HexFitsInSixteen(value);
    var p := WriteDigits(a, at, value, 16);
    a[p] := '\0';
    ghost var backwards := a[at..p];
    assert Reversed(backwards) == Numeral(value, 16);
    ReverseInPlace(a, at, p);
    len := p - at;
  }

  class SizedBuffer {
    const size: nat
    const data: array<char>
    var cur: nat

    ghost predicate Valid()
      reads this
    {
      cur <= data.Length == size
    }

    ghost function Contents(): string
      reads this, data
      requires Valid()
    {
      data[..cur]
    }

    constructor (size: nat)
      ensures Valid() && fresh(data) && this.size == size && Contents() == ""
    {
      this.size := size;
      data := new char[size](_ => '\0');
      cur := 0;
    }

    function Avail(): nat
      requires Valid()
      reads this
    {
      size - cur
    }

    /** Whole or not at all: a text that does not leave at least one byte free is dropped. */
    method Append(s: string)
      requires Valid()
      modifies this`cur, data
      ensures Valid()
      ensures Contents() == if |s| < old(Avail()) then old(Contents()) + s else old(Contents())
    {
      if |s| < Avail() {
        forall i | 0 <= i < |s| {
          data[cur + i] := s[i];
        }
        cur := cur + |s|;
        assert data[..cur] == old(data[..cur]) + s;
      }
    }

    method Reset()
      requires Valid()
      modifies this`cur
      ensures Valid() && Contents() == ""
    {
      cur := 0;
    }

    /** Output of an integer: the whole text when 48 bytes are free, otherwise nothing; either way no
        byte before the cursor changes and none beyond the array is written. */
    method FormatInteger(v: int)
      requires Valid() && -TWO_63 <= v < TWO_64
      modifies this`cur, data
      ensures Valid()
      ensures Contents() == if MAX_NUMERIC_SIZE <= old(Avail()) then old(Contents()) + Text(v) else old(Contents())
    {
      if MAX_NUMERIC_SIZE <= Avail() {
        var len := Convert(data, cur, v);
        assert data[..cur] == old(data[..cur]);
        assert data[..cur + len] == data[..cur] + data[cur..cur + len];
        cur := cur + len;
      }
    }

    method FormatPointer(v: nat)
      requires Valid() && v < TWO_64
      modifies this`cur, data
      ensures Valid()
      ensures Contents() == if MAX_NUMERIC_SIZE <= old(Avail()) then old(Contents()) + "0x" + Numeral(v, 16)
                            else old(Contents())
    {
      if MAX_NUMERIC_SIZE <= Avail() {
        data[cur] := '0';
        data[cur + 1] := 'x';
        var len := ConvertHex(data, cur + 2, v);
        assert data[..cur] == old(data[..cur]) && data[cur..cur + 2] == "0x";
        assert data[..cur + 2 + len] == data[..cur] + data[cur..cur + 2] + data[cur + 2..cur + 2 + len];
        cur := cur + len + 2;
      }
    }
  }
}
