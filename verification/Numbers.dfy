/** Numbers as text: what `to_string`, `{:02}`, `{:04}` print and what
    `usize::from_str_radix` and `parse::<usize>` read. */
module Numbers {
  import opened Bytes

  type Radix = r: nat | r == 10 || r == 16 witness 10

  function DigitByte(d: nat): (c: byte)
    requires d < 16
    ensures IsNumeral(c) && (d < 10 ==> IsDigit(c))
  {
    if d < 10 then ('0' as int + d) as char else ('a' as int + d - 10) as char
  }

  /** The bytes that printed numbers consist of. */
  predicate IsNumeral(c: byte) { IsDigit(c) || 'a' <= c <= 'f' }

  function DigitValue(c: byte, radix: Radix): (r: Option<nat>)
    ensures r.Some? ==> r.value < radix
  {
    var d :=
      if '0' <= c <= '9' then c as int - '0' as int
      else if 'a' <= c <= 'z' then c as int - 'a' as int + 10
      else if 'A' <= c <= 'Z' then c as int - 'A' as int + 10
      else radix;
    if d < radix then Some(d) else None
  }

  lemma DigitRoundTrip(d: nat, radix: Radix)
    requires d < radix
    ensures DigitValue(DigitByte(d), radix) == Some(d)
  {}

  function Print(n: nat, radix: Radix): (s: bytes)
    ensures s != []
    ensures forall i :: 0 <= i < |s| ==> IsNumeral(s[i])
    ensures radix == 10 ==> forall i :: 0 <= i < |s| ==> IsDigit(s[i])
    decreases n
  {
    if n < radix then [DigitByte(n)] else Print(n / radix, radix) + [DigitByte(n % radix)]
  }

  function Dec(n: nat): (s: bytes) { Print(n, 10) }

  function Hex(n: nat): (s: bytes) { Print(n, 16) }

  /** The number a digit string denotes, most significant digit first. */
  function Value(s: bytes, radix: Radix): Option<nat>
    decreases |s|
  {
    if s == [] then Some(0) else
      var high := Value(s[..|s| - 1], radix);
      var low := DigitValue(s[|s| - 1], radix);
      if high.Some? && low.Some? then Some(high.value * radix + low.value) else None
  }

  /** `usize::from_str_radix`: an optional '+', at least one digit, no overflow. */
  function FromStrRadix(s: bytes, radix: Radix): (r: Option<nat>)
    ensures r.Some? ==> r.value <= USIZE_MAX
  {
    var digits := if s != [] && s[0] == '+' then s[1..] else s;
    if digits == [] then None else
      match Value(digits, radix)
      case Some(v) => if v <= USIZE_MAX then Some(v) else None
      case None => None
  }

  lemma {:induction false} ValueOfPrint(n: nat, radix: Radix)
    ensures Value(Print(n, radix), radix) == Some(n)
    decreases n
  {
    var s := Print(n, radix);
    DigitRoundTrip(n % radix, radix);
    if n < radix {
      assert Value(s[..0], radix) == Some(0);
    } else {
      ValueOfPrint(n / radix, radix);
      assert s[..|s| - 1] == Print(n / radix, radix);
      assert s[|s| - 1] == DigitByte(n % radix);
    }
  }

  /** What is printed is read back, as long as it fits a machine word. */
  lemma ReadOfPrint(n: nat, radix: Radix)
    ensures FromStrRadix(Print(n, radix), radix) == if n <= USIZE_MAX then Some(n) else None
  {
    ValueOfPrint(n, radix);
    assert IsNumeral(Print(n, radix)[0]);
  }

  /** `{:0width}`. */
  function Pad(n: nat, width: nat): bytes {
    var s := Dec(n);
    Zeros(width - |s|) + s
  }

  function Zeros(k: int): (s: bytes)
    ensures |s| == if k > 0 then k else 0
  {
    if k <= 0 then [] else seq(k, _ => '0')
  }

  lemma {:induction false} ValueOfZeros(k: int, s: bytes)
    ensures Value(Zeros(k) + s, 10) == Value(s, 10)
    decreases |s|, k
  {
    var t := Zeros(k) + s;
    if s != [] {
      ValueOfZeros(k, s[..|s| - 1]);
      assert t[..|t| - 1] == Zeros(k) + s[..|s| - 1];
    } else if k > 0 {
      ValueOfZeros(k - 1, s);
      assert t[..|t| - 1] == Zeros(k - 1) + s;
    }
  }

  lemma ValueOfPad(n: nat, width: nat)
    ensures Value(Pad(n, width), 10) == Some(n)
  {
    ValueOfPrint(n, 10);
    ValueOfZeros(width - |Dec(n)|, Dec(n));
  }

  lemma {:induction false} DecLength(n: nat, width: nat)
    requires 1 <= width && n < Pow10(width)
    ensures |Dec(n)| <= width
    decreases width
  {
    if n >= 10 {
      assert width > 1;
      DecLength(n / 10, width - 1);
    }
  }

  function Pow10(k: nat): nat {
    if k == 0 then 1 else 10 * Pow10(k - 1)
  }

  lemma PadLength(n: nat, width: nat)
    requires 1 <= width && n < Pow10(width)
    ensures |Pad(n, width)| == width
  {
    DecLength(n, width);
  }
}
