/**
 * The binary side of txopenbci/protocol.py: the command bytes and the decoders that turn
 * big-endian 24-bit two's-complement groups (the ADS1299 channel format) into integers.
 * Two decoders exist in the source: a pure-Python one built on `struct`, and a numpy one.
 */
module Protocol {
  import opened Wrappers

  /** One byte off the wire. */
  type Byte = b: int | 0 <= b < 256

  const BAUD_RATE: int := 115200

  const CMD_RESET: string := "v"
  const CMD_STREAM_START: string := "b"
  const CMD_STREAM_STOP: string := "s"

  /**
   * A decoded sample as the sinks receive it: the frame counter, the EEG channel values and
   * the accelerometer axes (eight and three of them in every sample the device sends).
   */
  datatype RawSample = RawSample(counter: int, eeg: seq<int>, accelerometer: seq<int>)

  const INT24_MIN: int := -0x80_0000
  const INT24_MAX: int := 0x7F_FFFF

  /** Number of layouts in `_i3Struct`: one per group count 1..8. */
  const LAYOUTS: int := 8

  // ---------------------------------------------------------------------------
  // One group
  // ---------------------------------------------------------------------------

  /** The `struct` code 'b': a byte read as a signed 8-bit integer. */
  function Signed8(b: Byte): (v: int)
    ensures -128 <= v < 128
    ensures (v - b) % 256 == 0
  {
    if b < 128 then b else b - 256
  }

  /** The `struct` code '>H': two bytes read as a big-endian unsigned 16-bit integer. */
  function UnsignedBE16(hi: Byte, lo: Byte): (v: int)
    ensures 0 <= v < 0x1_0000
    ensures v / 256 == hi && v % 256 == lo
  {
    hi * 256 + lo
  }

  /** Reference meaning of a group: three bytes, most significant first, read as 24-bit two's complement. */
  function TwosComplement24(b0: Byte, b1: Byte, b2: Byte): int
  {
    var u := b0 * 0x1_0000 + b1 * 0x100 + b2;
    if u < 0x80_0000 then u else u - 0x100_0000
  }

  /** Python's `x << 16` on an unbounded int. */
  function ShiftLeft16(x: int): int
  {
    x * 0x1_0000
  }

  /** Python's `|` on non-negative ints, bit by bit from the least significant. */
  function BitOr(a: nat, b: nat): nat
    decreases a + b
  {
    if a == 0 then b
    else if b == 0 then a
    else (if a % 2 == 1 || b % 2 == 1 then 1 else 0) + 2 * BitOr(a / 2, b / 2)
  }

  /**
   * Python's `x | low` for a `low` that fits in 16 bits: the bits of `x` from bit 16 up are
   * kept and its low 16 bits (two's complement, so `x % 2^16`) are or-ed with `low`.
   */
  function OrLow16(x: int, low: int): int
    requires 0 <= low < 0x1_0000
  {
    (x - x % 0x1_0000) + BitOr(x % 0x1_0000, low)
  }

  /**
   * One group as both decoders reassemble it: the signed high byte shifted up by 16 bits,
   * or-ed with the unsigned low 16 bits. It is the 24-bit two's-complement value.
   */
  function Reassemble(b0: Byte, b1: Byte, b2: Byte): (v: int)
    ensures v == TwosComplement24(b0, b1, b2)
    ensures INT24_MIN <= v <= INT24_MAX
  {
    var hi, lo := Signed8(b0), UnsignedBE16(b1, b2);
    ShiftClearsLow16(hi);
    OrLow16(ShiftLeft16(hi), lo)
  }

  /** A shifted value has no low bits, so or-ing in the low part adds it. */
  lemma ShiftClearsLow16(x: int)
    ensures ShiftLeft16(x) % 0x1_0000 == 0
    ensures forall low :: 0 <= low < 0x1_0000 ==> OrLow16(ShiftLeft16(x), low) == ShiftLeft16(x) + low
  {
    SplitAt16(x, 0);
  }

  /** The shift-and-or steps, as a fact about their results. */
  lemma ReassembleSteps(b0: Byte, b1: Byte, b2: Byte)
    ensures OrLow16(ShiftLeft16(Signed8(b0)), UnsignedBE16(b1, b2)) == TwosComplement24(b0, b1, b2)
  {
    var _ := Reassemble(b0, b1, b2);
  }

  /** A value of the 24-bit range as the three bytes the device sends for it. */
  function EncodeInt24(v: int): (bs: (Byte, Byte, Byte))
    requires INT24_MIN <= v <= INT24_MAX
  {
    var u := if v < 0 then v + 0x100_0000 else v;
    (u / 0x1_0000, (u / 0x100) % 0x100, u % 0x100)
  }

  /** Decoding the encoding of any 24-bit value gives the value back. */
  lemma Int24RoundTrip(v: int)
    requires INT24_MIN <= v <= INT24_MAX
    ensures var (b0, b1, b2) := EncodeInt24(v); Reassemble(b0, b1, b2) == v
  {
    var u := if v < 0 then v + 0x100_0000 else v;
    assert u == (u / 0x1_0000) * 0x1_0000 + ((u / 0x100) % 0x100) * 0x100 + u % 0x100;
  }

  /** Encoding the decoding of any three bytes gives the bytes back: no two groups decode alike. */
  lemma Int24BytesRoundTrip(b0: Byte, b1: Byte, b2: Byte)
    ensures EncodeInt24(Reassemble(b0, b1, b2)) == (b0, b1, b2)
  {
    var v := Reassemble(b0, b1, b2);
    var mid := b0 * 0x100 + b1;
    var u := mid * 0x100 + b2;
    assert (if v < 0 then v + 0x100_0000 else v) == u;
    assert u / 0x1_0000 == b0 by {
      SplitAt16(b0, b1 * 0x100 + b2);
    }
    assert u / 0x100 == mid && u % 0x100 == b2 by {
      SplitAt8(mid, b2);
    }
    assert mid % 0x100 == b1 by {
      SplitAt8(b0, b1);
    }
  }

  /** Division and remainder by 0x10000 recover a high part and an in-range low part. */
  lemma SplitAt16(hi: int, lo: int)
    requires 0 <= lo < 0x1_0000
    ensures (hi * 0x1_0000 + lo) / 0x1_0000 == hi && (hi * 0x1_0000 + lo) % 0x1_0000 == lo
  {
  }

  /** Division and remainder by 0x100 recover a high part and an in-range low byte. */
  lemma SplitAt8(hi: int, lo: int)
    requires 0 <= lo < 0x100
    ensures (hi * 0x100 + lo) / 0x100 == hi && (hi * 0x100 + lo) % 0x100 == lo
  {
  }

  /** The reference values: 7FFFFF, 000001, 800000, FFFFFF and 020408. */
  lemma Int24Examples()
    ensures TwosComplement24(0x7F, 0xFF, 0xFF) == 8388607
    ensures TwosComplement24(0x00, 0x00, 0x01) == 1
    ensures TwosComplement24(0x80, 0x00, 0x00) == -8388608
    ensures TwosComplement24(0xFF, 0xFF, 0xFF) == -1
    ensures TwosComplement24(0x02, 0x04, 0x08) == 0x20408
  {
  }

  // ---------------------------------------------------------------------------
  // Group counts: which bytes each decoder reads, and when it raises
  // ---------------------------------------------------------------------------

  datatype DecodeError =
    | IndexError   // no `_i3Struct` entry for the count
    | StructError  // `unpack_from`: buffer too short for the layout
    | ValueError   // `numpy.frombuffer`: bad offset, or buffer size not a whole number of items

  /** The reference value of group `k` of a buffer read from `offset`. */
  function GroupValue(buf: seq<Byte>, offset: nat, k: nat): int
    requires offset + 3 * k + 3 <= |buf|
  {
    TwosComplement24(buf[offset + 3 * k], buf[offset + 3 * k + 1], buf[offset + 3 * k + 2])
  }

  /** The high byte of group `k`, as the signed 8-bit part the decoders start from. */
  function HighPart(buf: seq<Byte>, offset: nat, k: nat): int
    requires offset + 3 * k + 3 <= |buf|
  {
    Signed8(buf[offset + 3 * k])
  }

  /** The low 16 bits of group `k`. */
  function LowPart(buf: seq<Byte>, offset: nat, k: nat): int
    requires offset + 3 * k + 3 <= |buf|
  {
    UnsignedBE16(buf[offset + 3 * k + 1], buf[offset + 3 * k + 2])
  }

  /** Reassembling the parts of a group gives its reference value. */
  lemma GroupParts(buf: seq<Byte>, offset: nat, k: nat)
    requires offset + 3 * k + 3 <= |buf|
    ensures OrLow16(ShiftLeft16(HighPart(buf, offset, k)), LowPart(buf, offset, k)) == GroupValue(buf, offset, k)
  {
    ReassembleSteps(buf[offset + 3 * k], buf[offset + 3 * k + 1], buf[offset + 3 * k + 2]);
  }

  /** `out` holds the reference values of `n` consecutive groups starting at `offset`. */
  ghost predicate DecodesGroups(buf: seq<Byte>, offset: nat, n: nat, out: seq<int>)
  {
    offset + 3 * n <= |buf| && |out| == n &&
    forall i :: 0 <= i < n ==> out[i] == GroupValue(buf, offset, i)
  }

  /**
   * The group count the pure-Python decoder reads, as written: `count` defaults (-1) to
   * `len(buf) / 3`, and `_i3Struct[count - 1]` is an eight-entry list indexed the Python way,
   * so an index from -8 to -1 counts from the end of the list.
   */
  function PythonLayout(count: int, bufLen: nat, offset: nat): (r: Result<nat, DecodeError>)
    ensures r.Success? ==> 1 <= r.value <= LAYOUTS && offset + 3 * r.value <= bufLen
    ensures 1 <= count <= LAYOUTS ==> (r.Success? <==> offset + 3 * count <= bufLen)
    ensures 1 <= count <= LAYOUTS && r.Success? ==> r.value == count
    ensures count > LAYOUTS ==> r == Failure(IndexError)
    ensures count == -1 && 1 <= bufLen / 3 <= LAYOUTS ==>
              (r.Success? <==> offset + 3 * (bufLen / 3) <= bufLen) && (r.Success? ==> r.value == bufLen / 3)
    ensures count == -1 && bufLen / 3 > LAYOUTS ==> r == Failure(IndexError)
    ensures count == -1 && bufLen < 3 ==> r == Failure(StructError)
  {
    var n := if count == -1 then bufLen / 3 else count;
    var index := n - 1;
    if !(-LAYOUTS <= index < LAYOUTS) then Failure(IndexError)
    else
      var groups := if index < 0 then index + LAYOUTS + 1 else index + 1;
      if offset + 3 * groups > bufLen then Failure(StructError) else Success(groups)
  }

  /**
   * The group count of `numpy.frombuffer(buf, dtype, count, offset)` for 3-byte items: the
   * offset must lie within the buffer; a negative count takes every item after the offset
   * and demands a whole number of them; otherwise `count` items must fit.
   */
  function NumpyLayout(count: int, bufLen: nat, offset: nat): (r: Result<nat, DecodeError>)
    ensures r.Success? ==> offset + 3 * r.value <= bufLen
    ensures r.Failure? ==> r.error == ValueError
    ensures count >= 0 ==> (r.Success? <==> offset + 3 * count <= bufLen)
    ensures count >= 0 && r.Success? ==> r.value == count
    ensures count < 0 ==> (r.Success? <==> offset <= bufLen && (bufLen - offset) % 3 == 0)
    ensures count < 0 && r.Success? ==> offset + 3 * r.value == bufLen
  {
    if offset > bufLen then Failure(ValueError)
    else
      var size := bufLen - offset;
      if count < 0 then
        if size % 3 != 0 then Failure(ValueError) else Success(size / 3)
      else if size < 3 * count then Failure(ValueError)
      else Success(count)
  }

  /**
   * Whenever both decoders succeed on a count the source documents (-1, the default, or an
   * explicit 1..8), they read the same number of groups; for an explicit count one succeeds
   * exactly when the other does.
   */
  lemma LayoutsAgree(count: int, bufLen: nat, offset: nat)
    requires count == -1 || 1 <= count <= LAYOUTS
    ensures 1 <= count ==> (PythonLayout(count, bufLen, offset).Success? <==> NumpyLayout(count, bufLen, offset).Success?)
    ensures PythonLayout(count, bufLen, offset).Success? && NumpyLayout(count, bufLen, offset).Success? ==>
              PythonLayout(count, bufLen, offset).value == NumpyLayout(count, bufLen, offset).value
  {
    var p, q := PythonLayout(count, bufLen, offset), NumpyLayout(count, bufLen, offset);
    if count == -1 && p.Success? && q.Success? {
      // Python reads len/3 groups from `offset`, which only fits when offset <= len % 3;
      // numpy needs len - offset to be a multiple of 3, so offset == len % 3.
      assert p.value == bufLen / 3;
      assert offset <= bufLen % 3;
      assert (bufLen - offset) % 3 == 0;
      assert offset == bufLen % 3;
    }
  }

  /**
   * As written, an explicit count of 0 selects `_i3Struct[-1]`, the eight-group layout, so the
   * pure-Python decoder returns eight values where numpy returns none. A count from -7 to -2
   * selects 1 to 6 groups, where numpy reads every item; -8 and below raise IndexError.
   */
  lemma CountZeroDisagrees()
    ensures PythonLayout(0, 24, 0) == Success(8)
    ensures NumpyLayout(0, 24, 0) == Success(0)
    ensures PythonLayout(-2, 24, 0) == Success(6)
    ensures NumpyLayout(-2, 24, 0) == Success(8)
    ensures PythonLayout(-8, 24, 0) == Failure(IndexError)
  {
  }

  /**
   * As written, the default count takes `len(buf) / 3` groups whatever the offset: trailing
   * bytes that do not fill a group are ignored, where numpy refuses them, and a non-zero
   * offset runs past the end of the buffer, where numpy reads the groups after it.
   */
  lemma DefaultCountDisagrees()
    ensures PythonLayout(-1, 25, 0) == Success(8)
    ensures NumpyLayout(-1, 25, 0) == Failure(ValueError)
    ensures PythonLayout(-1, 24, 3) == Failure(StructError)
    ensures NumpyLayout(-1, 24, 3) == Success(7)
  {
  }

  /**
   * The group count the pure-Python decoder evidently intends. An explicit count must be 1..8.
   * The default reads every byte after the offset as whole groups, as numpy does: a partial
   * trailing group is refused (ValueError), and so is a group count outside 1..8 (IndexError).
   */
  function IntendedLayout(count: int, bufLen: nat, offset: nat): (r: Result<nat, DecodeError>)
    ensures r.Success? ==> 1 <= r.value <= LAYOUTS && offset + 3 * r.value <= bufLen
    ensures !(count == -1 || 1 <= count <= LAYOUTS) ==> r == Failure(IndexError)
    ensures 1 <= count <= LAYOUTS ==> r == PythonLayout(count, bufLen, offset)
    ensures count == -1 ==>
              (r.Success? <==> offset + 3 <= bufLen <= offset + 3 * LAYOUTS && (bufLen - offset) % 3 == 0)
    ensures count == -1 && r.Success? ==> offset + 3 * r.value == bufLen
    ensures count == -1 && offset == 0 && 3 <= bufLen && bufLen % 3 == 0 ==> r == PythonLayout(count, bufLen, offset)
  {
    if count == -1 then
      if offset > bufLen || (bufLen - offset) % 3 != 0 then Failure(ValueError)
      else
        var n := (bufLen - offset) / 3;
        if !(1 <= n <= LAYOUTS) then Failure(IndexError) else Success(n)
    else if !(1 <= count <= LAYOUTS) then Failure(IndexError)
    else if offset + 3 * count > bufLen then Failure(StructError)
    else Success(count)
  }

  /**
   * With the intended count check, whenever both decoders succeed they agree, for every count;
   * for an explicit count 1..8, and for the default on a buffer holding 1..8 groups after the
   * offset, one succeeds exactly when the other does.
   */
  lemma IntendedLayoutAgrees(count: int, bufLen: nat, offset: nat)
    ensures IntendedLayout(count, bufLen, offset).Success? && NumpyLayout(count, bufLen, offset).Success? ==>
              IntendedLayout(count, bufLen, offset).value == NumpyLayout(count, bufLen, offset).value
    ensures 1 <= count <= LAYOUTS ==>
              (IntendedLayout(count, bufLen, offset).Success? <==> NumpyLayout(count, bufLen, offset).Success?)
    ensures count == -1 && offset + 3 <= bufLen <= offset + 3 * LAYOUTS ==>
              (IntendedLayout(count, bufLen, offset).Success? <==> NumpyLayout(count, bufLen, offset).Success?)
  {
    if 1 <= count <= LAYOUTS {
      LayoutsAgree(count, bufLen, offset);
    }
  }

  // ---------------------------------------------------------------------------
  // The decoders
  // ---------------------------------------------------------------------------

  /**
   * The loop of `python_int32From3Bytes` after unpacking: an array of the signed high bytes,
   * each then shifted up by 16 bits and or-ed with its unsigned low 16 bits, in place.
   */
  method ReassembleGroups(buf: seq<Byte>, offset: nat, n: nat) returns (out: seq<int>)
    requires offset + 3 * n <= |buf|
    ensures DecodesGroups(buf, offset, n, out)
  {
    var output := new int[n];
    // output = array('l', high)
    for i := 0 to n
      invariant forall k :: 0 <= k < i ==> output[k] == HighPart(buf, offset, k)
    {
      output[i] := HighPart(buf, offset, i);
    }
    for i := 0 to n
      invariant forall k :: 0 <= k < i ==> output[k] == GroupValue(buf, offset, k)
      invariant forall k :: i <= k < n ==> output[k] == HighPart(buf, offset, k)
    {
      GroupParts(buf, offset, i);
      output[i] := ShiftLeft16(output[i]);
      output[i] := OrLow16(output[i], LowPart(buf, offset, i));
    }
    out := output[..];
  }

  /** `python_int32From3Bytes(buf, count, offset)`, as written. */
  method PythonInt32From3Bytes(buf: seq<Byte>, count: int, offset: nat) returns (r: Result<seq<int>, DecodeError>)
    ensures r.Failure? <==> PythonLayout(count, |buf|, offset).Failure?
    ensures r.Failure? ==> r.error == PythonLayout(count, |buf|, offset).error
    ensures r.Success? ==> DecodesGroups(buf, offset, PythonLayout(count, |buf|, offset).value, r.value)
  {
    var n := count;
    if n == -1 {
      n := |buf| / 3;
    }
    // sizedStruct = _i3Struct[n - 1]
    var index := n - 1;
    if index < -LAYOUTS || LAYOUTS <= index {
      return Failure(IndexError);
    }
    if index < 0 {
      index := index + LAYOUTS;
    }
    var groups := index + 1;
    // unpack_from(buf, offset=offset)
    if offset + 3 * groups > |buf| {
      return Failure(StructError);
    }
    var values := ReassembleGroups(buf, offset, groups);
    r := Success(values);
  }

  /**
   * The pure-Python decoder with the intended count check: explicit counts other than 1..8
   * are refused, and the default reads the whole groups after the offset.
   */
  method Int32From3Bytes(buf: seq<Byte>, count: int, offset: nat) returns (r: Result<seq<int>, DecodeError>)
    ensures r.Failure? <==> IntendedLayout(count, |buf|, offset).Failure?
    ensures r.Failure? ==> r.error == IntendedLayout(count, |buf|, offset).error
    ensures r.Success? ==> DecodesGroups(buf, offset, IntendedLayout(count, |buf|, offset).value, r.value)
    ensures r.Success? ==> forall i :: 0 <= i < |r.value| ==> INT24_MIN <= r.value[i] <= INT24_MAX
  {
    var n := count;
    if count == -1 {
      if offset > |buf| || (|buf| - offset) % 3 != 0 {
        return Failure(ValueError);
      }
      n := (|buf| - offset) / 3;
    }
    if n < 1 || LAYOUTS < n {
      return Failure(IndexError);
    }
    if offset + 3 * n > |buf| {
      return Failure(StructError);
    }
    var values := ReassembleGroups(buf, offset, n);
    forall i | 0 <= i < |values|
      ensures INT24_MIN <= values[i] <= INT24_MAX
    {
      assert values[i] == GroupValue(buf, offset, i);
      var _ := Reassemble(buf[offset + 3 * i], buf[offset + 3 * i + 1], buf[offset + 3 * i + 2]);
    }
    r := Success(values);
  }

  /**
   * `numpy_int32From3Bytes(buf, count, offset)`: `frombuffer` with a (signed 8-bit, big-endian
   * unsigned 16-bit) item type, the high parts cast to int32, then `<<= 16` and `|= low` over
   * the whole array. No intermediate value leaves the int32 range.
   */
  method NumpyInt32From3Bytes(buf: seq<Byte>, count: int, offset: nat) returns (r: Result<seq<int>, DecodeError>)
    ensures r.Failure? <==> NumpyLayout(count, |buf|, offset).Failure?
    ensures r.Failure? ==> r.error == ValueError
    ensures r.Success? ==> DecodesGroups(buf, offset, NumpyLayout(count, |buf|, offset).value, r.value)
  {
    if offset > |buf| {
      return Failure(ValueError);
    }
    var size := |buf| - offset;
    var n := count;
    if n < 0 {
      if size % 3 != 0 {
        return Failure(ValueError);
      }
      n := size / 3;
    } else if size < 3 * n {
      return Failure(ValueError);
    }
    // output = in_array['high'].astype('i4')
    var output := new int[n];
    for i := 0 to n
      invariant forall k :: 0 <= k < i ==> output[k] == HighPart(buf, offset, k)
    {
      output[i] := HighPart(buf, offset, i);
    }
    // output <<= 16
    for i := 0 to n
      invariant forall k :: 0 <= k < i ==> output[k] == ShiftLeft16(HighPart(buf, offset, k))
      invariant forall k :: i <= k < n ==> output[k] == HighPart(buf, offset, k)
    {
      output[i] := ShiftLeft16(output[i]);
    }
    // output |= in_array['low']
    for i := 0 to n
      invariant forall k :: 0 <= k < i ==> output[k] == GroupValue(buf, offset, k)
      invariant forall k :: i <= k < n ==> output[k] == ShiftLeft16(HighPart(buf, offset, k))
    {
      GroupParts(buf, offset, i);
      output[i] := OrLow16(output[i], LowPart(buf, offset, i));
    }
    r := Success(output[..]);
  }

  /**
   * The two decoding strategies give identical values whenever both succeed on a documented
   * count (-1 or 1..8), and for an explicit count they succeed and fail together.
   */
  method CompareStrategies(buf: seq<Byte>, count: int, offset: nat) returns (py: Result<seq<int>, DecodeError>, np: Result<seq<int>, DecodeError>)
    requires count == -1 || 1 <= count <= LAYOUTS
    ensures 1 <= count ==> (py.Success? <==> np.Success?)
    ensures py.Success? && np.Success? ==> py.value == np.value
  {
    py := PythonInt32From3Bytes(buf, count, offset);
    np := NumpyInt32From3Bytes(buf, count, offset);
    LayoutsAgree(count, |buf|, offset);
  }
}
