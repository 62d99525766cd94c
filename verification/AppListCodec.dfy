/**
  The buffer that gives the Windows driver its list of applications: total size, count, the length of each
  path, then the paths as UTF-16 units.  All numbers are little-endian and 32 bits wide.
*/
module AppListCodec {
  import opened Wrappers

  type Byte = b: nat | b < 0x100
  type Unit = u: nat | u < 0x1_0000
  type Path = seq<Unit>

  const WORD := 0x1_0000_0000

  datatype Error = UnexpectedEof | WrongTotalSize | Panic

  function Word(n: nat): (r: nat)
    ensures r < WORD
  {
    n % 0x1_0000_0000
  }

  /** The lowest `k` bytes of a number, the lowest first. */
  function ToBytes(n: nat, k: nat): (r: seq<Byte>)
    ensures |r| == k
  {
    if k == 0 then [] else [n % 0x100] + ToBytes(n / 0x100, k - 1)
  }

  function FromBytes(b: seq<Byte>): nat {
    if b == [] then 0 else b[0] as nat + 0x100 * FromBytes(b[1..])
  }

  function Range(k: nat): nat {
    if k == 0 then 1 else 0x100 * Range(k - 1)
  }

  lemma {:induction false} NumberRoundTrip(n: nat, k: nat)
    requires n < Range(k)
    ensures FromBytes(ToBytes(n, k)) == n
  {
    if k > 0 {
      NumberRoundTrip(n / 0x100, k - 1);
      assert ToBytes(n, k)[1..] == ToBytes(n / 0x100, k - 1);
    }
  }

  lemma ShiftedProduct(q: nat, range: nat)
    ensures q * (0x100 * range) == 0x100 * (q * range)
  {
  }

  lemma LowestByteIsCut(n: nat, t: nat)
    ensures (n + 0x100 * t) % 0x100 == n % 0x100 && (n + 0x100 * t) / 0x100 == n / 0x100 + t
  {
  }

  lemma OneMoreByte(n: nat, t: nat, k: nat)
    requires k > 0 && ToBytes(n / 0x100 + t, k - 1) == ToBytes(n / 0x100, k - 1)
    ensures ToBytes(n + 0x100 * t, k) == ToBytes(n, k)
  {
    LowestByteIsCut(n, t);
  }

  lemma {:induction false} HigherBytesAreCut(n: nat, q: nat, k: nat, range: nat)
    requires range == Range(k)
    ensures ToBytes(n + q * range, k) == ToBytes(n, k)
  {
    if k > 0 {
      var rest := Range(k - 1);
      ShiftedProduct(q, rest);
      HigherBytesAreCut(n / 0x100, q, k - 1, rest);
      OneMoreByte(n, q * rest, k);
    }
  }

  lemma RangeOfWord()
    ensures Range(4) == WORD && Range(2) == 0x1_0000
  {
  }

  /** Four bytes hold a number modulo 2^32, as the conversion to 32 bits does. */
  lemma WordRoundTrip(n: nat)
    ensures FromBytes(ToBytes(n, 4)) == Word(n)
  {
    RangeOfWord();
    HigherBytesAreCut(Word(n), n / 0x1_0000_0000, 4, WORD);
    NumberRoundTrip(Word(n), 4);
  }

  function UnitBytes(p: Path): (r: seq<Byte>)
    ensures |r| == 2 * |p|
  {
    if p == [] then [] else ToBytes(p[0], 2) + UnitBytes(p[1..])
  }

  function UnitsOf(b: seq<Byte>): seq<nat> {
    if |b| < 2 then [] else [FromBytes(b[..2])] + UnitsOf(b[2..])
  }

  lemma {:induction false} UnitsRoundTrip(p: Path)
    ensures UnitsOf(UnitBytes(p)) == p
  {
    if p != [] {
      assert UnitBytes(p)[..2] == ToBytes(p[0], 2) && UnitBytes(p)[2..] == UnitBytes(p[1..]);
      RangeOfWord();
      NumberRoundTrip(p[0], 2);
      UnitsRoundTrip(p[1..]);
    }
  }

  // ------------------------------------------------------------------
  // Writing
  // ------------------------------------------------------------------

  function Sizes(paths: seq<Path>): (r: seq<Byte>)
    ensures |r| == 4 * |paths|
  {
    if paths == [] then [] else ToBytes(|paths[0]|, 4) + Sizes(paths[1..])
  }

  function Strings(paths: seq<Path>): seq<Byte> {
    if paths == [] then [] else UnitBytes(paths[0]) + Strings(paths[1..])
  }

  function Assemble(count: nat, sizes: seq<Byte>, strings: seq<Byte>): seq<Byte> {
    ToBytes(8 + |sizes| + |strings|, 4) + ToBytes(count, 4) + sizes + strings
  }

  function Buffer(paths: seq<Path>): seq<Byte> {
    Assemble(|paths|, Sizes(paths), Strings(paths))
  }

  lemma {:induction false} SizesAppend(paths: seq<Path>, p: Path)
    ensures Sizes(paths + [p]) == Sizes(paths) + ToBytes(|p|, 4)
  {
    if paths == [] {
      assert Sizes([p][1..]) == [];
    } else {
      assert (paths + [p])[1..] == paths[1..] + [p];
      SizesAppend(paths[1..], p);
    }
  }

  lemma {:induction false} StringsAppend(paths: seq<Path>, p: Path)
    ensures Strings(paths + [p]) == Strings(paths) + UnitBytes(p)
  {
    if paths == [] {
      assert Strings([p][1..]) == [];
    } else {
      assert (paths + [p])[1..] == paths[1..] + [p];
      StringsAppend(paths[1..], p);
    }
  }

  predicate NulFree(paths: seq<Path>) {
    forall p :: p in paths ==> 0 !in p
  }

  /** A path with a NUL cannot be converted to UTF-16; the error is ignored, and cutting off the terminator panics. */
  method MakeRawBuffAppsConfig(paths: seq<Path>) returns (r: Result<seq<Byte>, Error>)
    ensures r == if NulFree(paths) then Success(Buffer(paths)) else Failure(Panic)
  {
    var sizesBuff: seq<Byte>, stringsBuff: seq<Byte> := [], [];
    for i := 0 to |paths|
      invariant NulFree(paths[..i])
      invariant sizesBuff == Sizes(paths[..i]) && stringsBuff == Strings(paths[..i])
    {
      if 0 in paths[i] {
        return Failure(Panic);
      }
      assert paths[..i + 1] == paths[..i] + [paths[i]];
      SizesAppend(paths[..i], paths[i]);
      StringsAppend(paths[..i], paths[i]);
      sizesBuff := sizesBuff + ToBytes(|paths[i]|, 4);
      stringsBuff := stringsBuff + UnitBytes(paths[i]);
    }
    assert paths[..|paths|] == paths;
    var totalSize := 4 + 4 + |sizesBuff| + |stringsBuff|;
    var stringsCnt := |paths|;
    return Success(ToBytes(totalSize, 4) + ToBytes(stringsCnt, 4) + sizesBuff + stringsBuff);
  }

  // ------------------------------------------------------------------
  // Reading
  // ------------------------------------------------------------------

  /** A string ends before its first NUL. */
  function UpToNul(p: seq<nat>): seq<nat> {
    if p == [] || p[0] == 0 then [] else [p[0]] + UpToNul(p[1..])
  }

  lemma {:induction false} NulFreeIsWhole(p: seq<nat>)
    requires 0 !in p
    ensures UpToNul(p) == p
  {
    if p != [] {
      NulFreeIsWhole(p[1..]);
    }
  }

  function ReadStrings(sizes: seq<Byte>, strings: seq<Byte>, count: nat): Result<seq<seq<nat>>, Error>
    decreases count
  {
    if count == 0 then Success([])
    else if |sizes| < 4 then Failure(UnexpectedEof)
    else
      var size := 2 * FromBytes(sizes[..4]);
      if |strings| < size then Failure(UnexpectedEof) else
        Join([UpToNul(UnitsOf(strings[..size]))], ReadStrings(sizes[4..], strings[size..], count - 1))
  }

  function Join(files: seq<seq<nat>>, rest: Result<seq<seq<nat>>, Error>): Result<seq<seq<nat>>, Error> {
    if rest.Success? then Success(files + rest.value) else rest
  }

  /** Where the strings begin, computed in 32 bits. */
  function StringsStart(count: nat): nat {
    Word(8 + Word(count * 4))
  }

  function Parse(b: seq<Byte>): Result<seq<seq<nat>>, Error> {
    if |b| < 8 then Failure(UnexpectedEof)
    else if FromBytes(b[..4]) != |b| then Failure(WrongTotalSize)
    else
      var count := FromBytes(b[4..8]);
      var start := StringsStart(count);
      if start < 8 || start > |b| then Failure(Panic)
      else ReadStrings(b[8..start], b[start..], count)
  }

  method ParseRawBuffAppsConfig(b: seq<Byte>) returns (r: Result<seq<seq<nat>>, Error>)
    ensures r == Parse(b)
  {
    if |b| < 4 || |b[4..]| < 4 {
      return Failure(UnexpectedEof);
    }
    var totalSize := FromBytes(b[..4]);
    var stringsCnt := FromBytes(b[4..8]);
    if totalSize != |b| {
      return Failure(WrongTotalSize);
    }
    var start := Word(8 + Word(stringsCnt * 4));
    if start < 8 || start > |b| {
      return Failure(Panic);
    }
    var buffSizes, buffStrings := b[8..start], b[start..];
    var files: seq<seq<nat>> := [];
    JoinNothing(Parse(b));
    for i := 0 to stringsCnt
      invariant Parse(b) == Join(files, ReadStrings(buffSizes, buffStrings, stringsCnt - i))
    {
      if |buffSizes| < 4 {
        return Failure(UnexpectedEof);
      }
      var size := 2 * FromBytes(buffSizes[..4]);
      if |buffStrings| < size {
        return Failure(UnexpectedEof);
      }
      var file := UpToNul(UnitsOf(buffStrings[..size]));
      JoinOneMore(files, file, ReadStrings(buffSizes[4..], buffStrings[size..], stringsCnt - i - 1));
      files := files + [file];
      buffSizes, buffStrings := buffSizes[4..], buffStrings[size..];
    }
    assert files + [] == files;
    return Success(files);
  }

  lemma JoinNothing(r: Result<seq<seq<nat>>, Error>)
    ensures Join([], r) == r
  {
    if r.Success? {
      assert [] + r.value == r.value;
    }
  }

  lemma JoinOneMore(files: seq<seq<nat>>, file: seq<nat>, rest: Result<seq<seq<nat>>, Error>)
    ensures Join(files, Join([file], rest)) == Join(files + [file], rest)
  {
    if rest.Success? {
      assert files + ([file] + rest.value) == files + [file] + rest.value;
    }
  }

  // ------------------------------------------------------------------
  // Which error comes
  // ------------------------------------------------------------------

  /** The number of UTF-16 units that the first sizes announce. */
  function AnnouncedUnits(sizes: seq<Byte>, count: nat): nat
    requires 4 * count <= |sizes|
  {
    if count == 0 then 0 else FromBytes(sizes[..4]) + AnnouncedUnits(sizes[4..], count - 1)
  }

  /** The strings cannot be read iff a size or a unit is missing. */
  lemma {:induction false} ReadFailsIffShort(sizes: seq<Byte>, strings: seq<Byte>, count: nat)
    ensures ReadStrings(sizes, strings, count).Failure?
            <==> |sizes| < 4 * count || |strings| < 2 * AnnouncedUnits(sizes, count)
    ensures ReadStrings(sizes, strings, count).Failure? ==> ReadStrings(sizes, strings, count).error == UnexpectedEof
    decreases count
  {
    if count > 0 && |sizes| >= 4 && |strings| >= 2 * FromBytes(sizes[..4]) {
      ReadFailsIffShort(sizes[4..], strings[2 * FromBytes(sizes[..4])..], count - 1);
    }
  }

  /** The position of the strings wraps to 32 bits; a position outside of the buffer panics. */
  lemma ParseErrors(b: seq<Byte>)
    ensures |b| < 8 ==> Parse(b) == Failure(UnexpectedEof)
    ensures |b| >= 8 && FromBytes(b[..4]) != |b| ==> Parse(b) == Failure(WrongTotalSize)
    ensures |b| >= 8 && FromBytes(b[..4]) == |b| ==>
              var count := FromBytes(b[4..8]);
              var start := (8 + count * 4 % 0x1_0000_0000) % 0x1_0000_0000;
              && (Parse(b) == Failure(Panic) <==> start < 8 || start > |b|)
              && (8 <= start <= |b| ==>
                    (Parse(b) == Failure(UnexpectedEof)
                     <==> start - 8 < 4 * count || |b| - start < 2 * AnnouncedUnits(b[8..start], count))
                    && (Parse(b).Failure? ==> Parse(b).error == UnexpectedEof))
  {
    if |b| >= 8 && FromBytes(b[..4]) == |b| {
      var count := FromBytes(b[4..8]);
      var start := StringsStart(count);
      if 8 <= start <= |b| {
        ReadFailsIffShort(b[8..start], b[start..], count);
      }
    }
  }

  // ------------------------------------------------------------------
  // Round trip
  // ------------------------------------------------------------------

  lemma {:induction false} StringsHoldEach(paths: seq<Path>)
    ensures forall p :: p in paths ==> 2 * |p| <= |Strings(paths)|
  {
    if paths != [] {
      StringsHoldEach(paths[1..]);
      assert paths == [paths[0]] + paths[1..];
    }
  }

  lemma Split(a: seq<Byte>, b: seq<Byte>)
    ensures (a + b)[..|a|] == a && (a + b)[|a|..] == b
  {
  }

  lemma FirstSize(paths: seq<Path>)
    requires paths != [] && |paths[0]| < WORD
    ensures FromBytes(Sizes(paths)[..4]) == |paths[0]| && Sizes(paths)[4..] == Sizes(paths[1..])
  {
    Split(ToBytes(|paths[0]|, 4), Sizes(paths[1..]));
    WordRoundTrip(|paths[0]|);
  }

  lemma FirstString(paths: seq<Path>)
    requires paths != []
    ensures |Strings(paths)| >= 2 * |paths[0]| && Strings(paths)[..2 * |paths[0]|] == UnitBytes(paths[0])
    ensures Strings(paths)[2 * |paths[0]|..] == Strings(paths[1..])
  {
  }

  lemma {:induction false} ReadsWhatWasWritten(paths: seq<Path>)
    requires NulFree(paths) && forall p :: p in paths ==> |p| < WORD
    ensures ReadStrings(Sizes(paths), Strings(paths), |paths|) == Success(paths)
  {
    if paths != [] {
      FirstSize(paths);
      FirstString(paths);
      UnitsRoundTrip(paths[0]);
      NulFreeIsWhole(paths[0]);
      ReadsWhatWasWritten(paths[1..]);
      assert [paths[0]] + paths[1..] == paths;
    }
  }

  lemma StartIsExact(count: nat)
    requires 8 + 4 * count < WORD
    ensures StringsStart(count) == 8 + 4 * count && Word(count) == count
  {
  }

  lemma FourParts(whole: seq<Byte>, a: seq<Byte>, b: seq<Byte>, c: seq<Byte>, d: seq<Byte>)
    requires |a| == 4 && |b| == 4 && whole == a + b + c + d
    ensures |whole| == 8 + |c| + |d|
    ensures whole[..4] == a && whole[4..8] == b && whole[8..8 + |c|] == c && whole[8 + |c|..] == d
  {
  }

  /** The header holds these two numbers, and the sizes and the strings follow. */
  ghost predicate Layout(b: seq<Byte>, total: nat, count: nat, sizes: seq<Byte>, strings: seq<Byte>) {
    && |b| == 8 + |sizes| + |strings|
    && FromBytes(b[..4]) == total && FromBytes(b[4..8]) == count
    && b[8..8 + |sizes|] == sizes && b[8 + |sizes|..] == strings
  }

  lemma HeaderLayout(b: seq<Byte>, count: nat, sizes: seq<Byte>, strings: seq<Byte>)
    requires b == Assemble(count, sizes, strings)
    ensures Layout(b, Word(|b|), Word(count), sizes, strings)
  {
    var total := 8 + |sizes| + |strings|;
    FourParts(b, ToBytes(total, 4), ToBytes(count, 4), sizes, strings);
    WordRoundTrip(total);
    WordRoundTrip(count);
  }

  /** A buffer that fits is cut where the numbers in its header say. */
  lemma ParseFitting(b: seq<Byte>, count: nat, sizes: seq<Byte>, strings: seq<Byte>)
    requires |b| < WORD && |sizes| == 4 * count && Layout(b, |b|, count, sizes, strings)
    ensures Parse(b) == ReadStrings(sizes, strings, count)
  {
    StartIsExact(count);
  }

  lemma FittingBufferIsRead(paths: seq<Path>, b: seq<Byte>)
    requires NulFree(paths) && |b| < WORD && Layout(b, |b|, |paths|, Sizes(paths), Strings(paths))
    ensures Parse(b) == Success(paths)
  {
    StringsHoldEach(paths);
    ParseFitting(b, |paths|, Sizes(paths), Strings(paths));
    ReadsWhatWasWritten(paths);
  }

  lemma WrongSizeIsRefused(b: seq<Byte>)
    requires |b| >= 8 && FromBytes(b[..4]) != |b|
    ensures Parse(b) == Failure(WrongTotalSize)
  {
  }

  /** A number of at most 32 bits is not changed by the conversion, any other one is. */
  lemma WordIsExact(n: nat)
    ensures Word(n) == n <==> n < WORD
  {
  }

  lemma FittingLayoutIsRead(paths: seq<Path>, b: seq<Byte>)
    requires NulFree(paths) && Layout(b, Word(|b|), Word(|paths|), Sizes(paths), Strings(paths)) && |b| < WORD
    ensures Parse(b) == Success(paths)
  {
    WordIsExact(|b|);
    WordIsExact(|paths|);
    FittingBufferIsRead(paths, b);
  }

  /** Reading a written list gives it back if and only if the buffer fits a 32-bit size. */
  lemma RoundTrip(paths: seq<Path>, b: seq<Byte>)
    requires NulFree(paths) && b == Buffer(paths)
    ensures Parse(b) == Success(paths) <==> |b| < WORD
    ensures |b| >= 8 && (FromBytes(b[..4]) == |b| <==> |b| < WORD)
  {
    HeaderLayout(b, |paths|, Sizes(paths), Strings(paths));
    WordIsExact(|b|);
    if |b| < WORD {
      FittingLayoutIsRead(paths, b);
    } else {
      WrongSizeIsRefused(b);
    }
  }

  /** Different lists have different buffers. */
  lemma Injective(a: seq<Path>, b: seq<Path>)
    requires NulFree(a) && NulFree(b) && |Buffer(a)| < WORD && Buffer(a) == Buffer(b)
    ensures a == b
  {
    RoundTrip(a, Buffer(a));
    RoundTrip(b, Buffer(b));
  }
}
