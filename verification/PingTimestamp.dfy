/** The time stamp in an echo request: the nanoseconds since 1970 in eight bytes, the highest first. */
module PingTimestamp {
  import opened Int64

  type Byte = b: nat | b < 0x100

  const SECOND := 1_000_000_000

  /** A moment: whole seconds since 1970, negative before, and the nanoseconds after them. */
  datatype Time = Time(sec: int, nsec: int) {
    predicate Valid() {
      0 <= nsec < 1_000_000_000
    }

    function Nanoseconds(): int {
      sec * 1_000_000_000 + nsec
    }
  }

  function UnixNano(t: Time): int {
    Wrap(t.Nanoseconds())
  }

  /** The moment with these seconds and nanoseconds, which may be outside of one second. */
  function Unix(sec: int, nsec: int): Time {
    if nsec < 0 || nsec >= 1_000_000_000 then
      var n := Quotient(nsec, 1_000_000_000);
      var rest := nsec - n * 1_000_000_000;
      if rest < 0 then Time(sec + n - 1, rest + 1_000_000_000) else Time(sec + n, rest)
    else Time(sec, nsec)
  }

  /** Any numbers of seconds and nanoseconds make the moment that is their sum, within a second. */
  lemma UnixNormalises(sec: int, nsec: int)
    ensures Unix(sec, nsec).Nanoseconds() == sec * 1_000_000_000 + nsec
    ensures 0 <= Unix(sec, nsec).nsec < 1_000_000_000
  {
  }

  function Range(k: nat): nat {
    if k == 0 then 1 else 0x100 * Range(k - 1)
  }

  /** The lowest `k` bytes of a number in two's complement. */
  function BigEndian(n: int, k: nat): (b: seq<Byte>)
    ensures |b| == k
    decreases k
  {
    if k == 0 then [] else BigEndian(n / 0x100, k - 1) + [n % 0x100]
  }

  function Value(b: seq<Byte>): nat {
    if b == [] then 0 else 0x100 * Value(b[..|b| - 1]) + b[|b| - 1] as nat
  }

  function ToBytes(t: Time): seq<Byte> {
    BigEndian(UnixNano(t), 8)
  }

  function FromNanoseconds(n: int): Time {
    Unix(Quotient(n, 1_000_000_000), Remainder(n, 1_000_000_000))
  }

  function FromBytes(b: seq<Byte>): Time {
    FromNanoseconds(Wrap(Value(b)))
  }

  // ------------------------------------------------------------------
  // Writing and reading the bytes
  // ------------------------------------------------------------------

  /** An arithmetic shift to the right by `k` bytes. */
  function ShiftRight(n: int, k: nat): int
    decreases k
  {
    if k == 0 then n else ShiftRight(n / 0x100, k - 1)
  }

  lemma {:induction false} ByteAt(n: int, k: nat, i: nat)
    requires i < k
    ensures BigEndian(n, k)[i] == ShiftRight(n, k - 1 - i) % 0x100
    decreases k
  {
    if i < k - 1 {
      ByteAt(n / 0x100, k - 1, i);
    }
  }

  method TimeToBytes(t: Time) returns (b: array<Byte>)
    ensures b[..] == ToBytes(t)
  {
    var nsec := UnixNano(t);
    b := new Byte[8];
    for i := 0 to 8
      invariant forall j :: 0 <= j < i ==> b[j] == BigEndian(nsec, 8)[j]
    {
      b[i] := ShiftRight(nsec, 7 - i) % 0x100;
      ByteAt(nsec, 8, i);
    }
  }

  lemma ShiftedIn(high: nat, low: nat, k: nat)
    ensures (0x100 * high + low) * Range(k) == high * Range(k + 1) + low * Range(k)
  {
  }

  /** Adding the next byte to what was read, in 64 bits. */
  lemma ReadByte(nsec: int, high: nat, low: nat, k: nat)
    requires nsec == Wrap(high * Range(k + 1))
    ensures Wrap(nsec + Wrap(low * Range(k))) == Wrap((0x100 * high + low) * Range(k))
  {
    ShiftedIn(high, low, k);
    WrapSum(high * Range(k + 1), low * Range(k));
  }

  method BytesToTime(b: seq<Byte>) returns (t: Time)
    requires |b| == 8
    ensures t == FromBytes(b)
  {
    var nsec := 0;
    for i := 0 to 8
      invariant nsec == Wrap(Value(b[..i]) * Range(8 - i))
    {
      assert b[..i + 1][..i] == b[..i];
      ReadByte(nsec, Value(b[..i]), b[i], 7 - i);
      nsec := Wrap(nsec + Wrap(b[i] * Range(7 - i)));
    }
    assert b[..8] == b;
    assert Value(b) * Range(0) == Value(b);
    t := Unix(Quotient(nsec, 1_000_000_000), Remainder(nsec, 1_000_000_000));
  }

  // ------------------------------------------------------------------
  // Round trips
  // ------------------------------------------------------------------

  /** Bytes above the `k` lowest do not matter. */
  lemma {:induction false} HigherBytesAreCut(n: int, q: int, k: nat)
    ensures BigEndian(n + q * Range(k), k) == BigEndian(n, k)
    decreases k
  {
    if k > 0 {
      var t := q * Range(k - 1);
      assert q * Range(k) == 0x100 * t;
      assert (n + 0x100 * t) % 0x100 == n % 0x100 && (n + 0x100 * t) / 0x100 == n / 0x100 + t;
      HigherBytesAreCut(n / 0x100, q, k - 1);
    }
  }

  lemma {:induction false} ValueOfBytes(n: nat, k: nat)
    requires n < Range(k)
    ensures Value(BigEndian(n, k)) == n
    decreases k
  {
    if k > 0 {
      ValueOfBytes(n / 0x100, k - 1);
      assert BigEndian(n, k)[..k - 1] == BigEndian(n / 0x100, k - 1);
    }
  }

  lemma {:induction false} BytesOfValue(b: seq<Byte>)
    ensures Value(b) < Range(|b|) && BigEndian(Value(b), |b|) == b
  {
    if b != [] {
      var init, last := b[..|b| - 1], b[|b| - 1];
      BytesOfValue(init);
      assert Value(b) / 0x100 == Value(init) && Value(b) % 0x100 == last;
      assert init + [last] == b;
    }
  }

  lemma RangeOfEight()
    ensures Range(8) == 0x1_0000_0000_0000_0000
  {
  }

  /** The value of the bytes of a 64-bit number, read without sign. */
  function Unsigned(n: int): int {
    if n < 0 then n + 0x1_0000_0000_0000_0000 else n
  }

  lemma ValueIsUnsigned(n: int)
    requires Fits(n)
    ensures Value(BigEndian(n, 8)) == Unsigned(n)
  {
    RangeOfEight();
    ValueOfBytes(Unsigned(n), 8);
    SignIsCut(n);
  }

  lemma SignIsCut(n: int)
    ensures BigEndian(n, 8) == BigEndian(Unsigned(n), 8)
  {
    RangeOfEight();
    if n < 0 {
      HigherBytesAreCut(n, 1, 8);
    }
  }

  lemma WrapUnsigned(n: int)
    requires Fits(n)
    ensures Wrap(Unsigned(n)) == n
  {
  }

  lemma UnsignedWrap(v: nat)
    requires v < 0x1_0000_0000_0000_0000
    ensures Unsigned(Wrap(v)) == v
  {
  }

  /** Eight bytes hold every 64-bit number, negative ones included. */
  lemma NumberRoundTrip(n: int)
    requires Fits(n)
    ensures Wrap(Value(BigEndian(n, 8))) == n
  {
    ValueIsUnsigned(n);
    WrapUnsigned(n);
  }

  /** The truncating division and the normalisation of the seconds together round down. */
  lemma UnixRoundsDown(n: int)
    ensures FromNanoseconds(n) == Time(n / 1_000_000_000, n % 1_000_000_000)
    ensures FromNanoseconds(n).Valid() && FromNanoseconds(n).Nanoseconds() == n
  {
  }

  /** Every 64-bit count of nanoseconds is given back. */
  lemma NanosecondsRoundTrip(n: int)
    requires Fits(n)
    ensures UnixNano(FromBytes(BigEndian(n, 8))) == n
  {
    NumberRoundTrip(n);
    UnixRoundsDown(n);
    WrapFits(n);
  }

  /** A moment is given back exactly if its nanoseconds fit into 64 bits. */
  lemma TimeRoundTrip(t: Time)
    requires t.Valid()
    ensures FromBytes(ToBytes(t)) == t <==> Fits(t.Nanoseconds())
  {
    var n := UnixNano(t);
    NumberRoundTrip(n);
    UnixRoundsDown(n);
    WrapFits(t.Nanoseconds());
    UnixRoundsDown(t.Nanoseconds());
  }

  /** Every eight bytes are the stamp of exactly one moment. */
  lemma BytesRoundTrip(b: seq<Byte>)
    requires |b| == 8
    ensures ToBytes(FromBytes(b)) == b && Fits(FromBytes(b).Nanoseconds())
  {
    var n := Wrap(Value(b));
    UnixRoundsDown(n);
    WrapFits(n);
    BytesOfWrapped(b, Value(b));
  }

  lemma BytesOfWrapped(b: seq<Byte>, v: nat)
    requires |b| == 8 && v == Value(b)
    ensures BigEndian(Wrap(v), 8) == b
  {
    BytesOfValue(b);
    RangeOfEight();
    UnsignedWrap(v);
    SignIsCut(Wrap(v));
  }
}
