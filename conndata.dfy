/** The sample data of a connection (TCHRLibConnData): the layout of the
    signals inside one sample, the raw sample buffer the library fills, and
    the typed reads out of it.

    A sample holds every signal once, back to back in descriptor order, each
    as many bytes as its data type needs. Global signals occur once per sample;
    peak signals repeat once per channel, so the peak part of a sample is
    `peak size * channel count` bytes and channel c of a peak signal lies
    `c * peak size` bytes after channel 0. The C# arithmetic on offsets is
    unchecked Int32 arithmetic and is modelled with wrap-around. */
module Connection {
  import opened Ints
  import opened Wrappers
  import opened FunctionWrapper
  import opened Float32

  // ---------------------------------------------------------------------------
  // Data types and signal kinds.
  // ---------------------------------------------------------------------------

  /** GetSizefromDataType: bytes per value of a sample data type; an unknown
      type is read as a double. */
  function SizeFromDataType(t: int16): (n: int32)
    ensures n == 1 <==> t == DataTypeUnsignedChar || t == DataTypeSignedChar
    ensures n == 2 <==> t == DataTypeUnsignedShort || t == DataTypeSignedShort
    ensures n == 4 <==> t == DataTypeUnsignedInt32 || t == DataTypeSignedInt32 || t == DataTypeFloat
    ensures n == 8 <==> !(0 <= t <= 6)
  {
    if t == DataTypeUnsignedChar || t == DataTypeSignedChar then 1
    else if t == DataTypeUnsignedShort || t == DataTypeSignedShort then 2
    else if t == DataTypeUnsignedInt32 || t == DataTypeSignedInt32 || t == DataTypeFloat then 4
    else 8
  }

  /** IsGlobalSignal: identifiers below 64, and those whose bit 8 (0x100) is clear. */
  predicate IsGlobalSignal(id: uint16) {
    id < 64 || (id / 0x100) % 2 == 0
  }

  /** Peak signals are exactly the identifiers with bit 8 set; in particular
      every identifier below 256 is global. */
  lemma PeakSignalIds(id: uint16)
    ensures !IsGlobalSignal(id) <==> (id / 0x100) % 2 == 1
    ensures id < 0x100 ==> IsGlobalSignal(id)
  {
  }

  // ---------------------------------------------------------------------------
  // The layout of one sample, as a function of the signal descriptors.
  // ---------------------------------------------------------------------------

  function SizeOf(info: SignalInfo): int32 {
    SizeFromDataType(info.dataType)
  }

  /** Bytes of all the signals, once each. */
  function TotalSize(infos: seq<SignalInfo>): nat {
    if |infos| == 0 then 0 else TotalSize(infos[..|infos| - 1]) + SizeOf(infos[|infos| - 1])
  }

  /** With a single channel every signal is kept with the global ones. */
  predicate CountsAsGlobal(info: SignalInfo, channelCount: int32) {
    channelCount == 1 || IsGlobalSignal(info.signalId)
  }

  function GlobalSize(infos: seq<SignalInfo>, channelCount: int32): nat {
    if |infos| == 0 then 0
    else
      var last := infos[|infos| - 1];
      GlobalSize(infos[..|infos| - 1], channelCount) + (if CountsAsGlobal(last, channelCount) then SizeOf(last) else 0)
  }

  function PeakSize(infos: seq<SignalInfo>, channelCount: int32): nat {
    if |infos| == 0 then 0
    else
      var last := infos[|infos| - 1];
      PeakSize(infos[..|infos| - 1], channelCount) + (if CountsAsGlobal(last, channelCount) then 0 else SizeOf(last))
  }

  function GlobalCount(infos: seq<SignalInfo>, channelCount: int32): nat {
    if |infos| == 0 then 0
    else
      var last := infos[|infos| - 1];
      GlobalCount(infos[..|infos| - 1], channelCount) + (if CountsAsGlobal(last, channelCount) then 1 else 0)
  }

  /** The running Int32 offset at which each signal starts. */
  function Offsets(infos: seq<SignalInfo>): (offs: seq<int32>)
    ensures |offs| == |infos|
  {
    if |infos| == 0 then [] else Offsets(infos[..|infos| - 1]) + [ToInt32(TotalSize(infos[..|infos| - 1]))]
  }

  /** The layout fields of TCHRLibConnData: the descriptors, the signal
      offsets, the global and peak sizes and the number of global signals. */
  datatype Layout = Layout(infos: seq<SignalInfo>, offsets: seq<int32>,
                           globalSize: int32, peakSize: int32, globalNumber: int32)

  /** The layout the rebuild loop computes from `infos`, the accumulators
      wrapping around as Int32 does. */
  function LayoutOf(infos: seq<SignalInfo>, channelCount: int32): Layout {
    Layout(infos, Offsets(infos), ToInt32(GlobalSize(infos, channelCount)),
           ToInt32(PeakSize(infos, channelCount)), ToInt32(GlobalCount(infos, channelCount)))
  }

  /** How many descriptors the rebuild loop takes before it stops or throws:
      it runs `count` times and the array has `n` entries. */
  function Processed(count: int, n: nat): (k: nat)
    ensures k <= n
    ensures count >= 0 && count <= n ==> k == count
  {
    if count <= 0 then 0 else if count <= n then count else n
  }

  /** Each signal sits with the global or with the peak signals, never both. */
  lemma {:induction false} SizesPartition(infos: seq<SignalInfo>, channelCount: int32)
    ensures GlobalSize(infos, channelCount) + PeakSize(infos, channelCount) == TotalSize(infos)
    ensures GlobalCount(infos, channelCount) <= |infos|
  {
    if |infos| > 0 {
      SizesPartition(infos[..|infos| - 1], channelCount);
    }
  }

  /** With one channel there are no peak signals. */
  lemma {:induction false} SingleChannelAllGlobal(infos: seq<SignalInfo>)
    ensures GlobalCount(infos, 1) == |infos|
    ensures PeakSize(infos, 1) == 0
    ensures GlobalSize(infos, 1) == TotalSize(infos)
  {
    if |infos| > 0 {
      SingleChannelAllGlobal(infos[..|infos| - 1]);
    }
  }

  /** Every signal takes between 1 and 8 bytes. */
  lemma {:induction false} TotalSizeBounds(infos: seq<SignalInfo>)
    ensures |infos| <= TotalSize(infos) <= 8 * |infos|
  {
    if |infos| > 0 {
      TotalSizeBounds(infos[..|infos| - 1]);
    }
  }

  /** Signal i starts where the signals before it end (modulo 2^32). */
  lemma {:induction false} OffsetAt(infos: seq<SignalInfo>, i: nat)
    requires i < |infos|
    ensures Offsets(infos)[i] == ToInt32(TotalSize(infos[..i]))
  {
    var n := |infos| - 1;
    if i < n {
      OffsetAt(infos[..n], i);
      assert infos[..n][..i] == infos[..i];
    }
  }

  /** With fewer than 2^28 signals nothing wraps: the signals are packed back
      to back from offset 0. */
  lemma PackedOffsets(infos: seq<SignalInfo>, i: nat)
    requires 8 * |infos| < 0x8000_0000
    requires i < |infos|
    ensures Offsets(infos)[i] == TotalSize(infos[..i])
    ensures i + 1 < |infos| ==> Offsets(infos)[i + 1] == Offsets(infos)[i] + SizeOf(infos[i])
  {
    OffsetAt(infos, i);
    TotalSizeBounds(infos[..i]);
    assert TotalSize(infos[..i]) < 0x8000_0000;
    if i + 1 < |infos| {
      OffsetAt(infos, i + 1);
      TotalSizeBounds(infos[..i + 1]);
      LayoutStep(infos, i, 1);
      assert TotalSize(infos[..i + 1]) < 0x8000_0000;
    }
  }

  /** One step of the rebuild loop extends every accumulator by the next descriptor. */
  lemma LayoutStep(infos: seq<SignalInfo>, i: nat, channelCount: int32)
    requires i < |infos|
    ensures var p, q, info := infos[..i], infos[..i + 1], infos[i];
      && q == p + [info]
      && TotalSize(q) == TotalSize(p) + SizeOf(info)
      && Offsets(q) == Offsets(p) + [ToInt32(TotalSize(p))]
      && GlobalSize(q, channelCount) == GlobalSize(p, channelCount) + (if CountsAsGlobal(info, channelCount) then SizeOf(info) else 0)
      && PeakSize(q, channelCount) == PeakSize(p, channelCount) + (if CountsAsGlobal(info, channelCount) then 0 else SizeOf(info))
      && GlobalCount(q, channelCount) == GlobalCount(p, channelCount) + (if CountsAsGlobal(info, channelCount) then 1 else 0)
  {
    assert infos[..i + 1][..i] == infos[..i];
  }

  // ---------------------------------------------------------------------------
  // Values in the sample buffer.
  // ---------------------------------------------------------------------------

  /** The number GetData returns, before its conversion to double (which is
      exact for all of them): an integer, a single, or the bit pattern of a
      double. */
  datatype Reading = Exact(value: int) | Single(f: Float32) | Double(bits: seq<uint8>)

  predicate IsIntegerType(t: int16) {
    0 <= t <= 5
  }

  /** The range of integer data type t. */
  predicate InRange(x: int, t: int16)
    requires IsIntegerType(t)
  {
    if t == DataTypeUnsignedChar then 0 <= x < 0x100
    else if t == DataTypeSignedChar then -0x80 <= x < 0x80
    else if t == DataTypeUnsignedShort then 0 <= x < 0x1_0000
    else if t == DataTypeSignedShort then -0x8000 <= x < 0x8000
    else if t == DataTypeUnsignedInt32 then 0 <= x < 0x1_0000_0000
    else InInt32(x)
  }

  /** The value of type t stored little-endian in bs, as ReadDataFromRawData
      dereferences it. */
  function Decode(bs: seq<uint8>, t: int16): (v: Reading)
    requires |bs| == SizeFromDataType(t)
    ensures v.Exact? <==> IsIntegerType(t)
    ensures v.Exact? ==> InRange(v.value, t)
    ensures v.Double? ==> v.bits == bs
  {
    if t == DataTypeUnsignedChar then Exact(bs[0])
    else if t == DataTypeSignedChar then Exact(ToInt8(bs[0]))
    else if t == DataTypeUnsignedShort then Exact(FromBytesLE16(bs))
    else if t == DataTypeSignedShort then Exact(ToInt16(FromBytesLE16(bs)))
    else if t == DataTypeUnsignedInt32 then Exact(FromBytesLE(bs))
    else if t == DataTypeSignedInt32 then Exact(ToInt32(FromBytesLE(bs)))
    else if t == DataTypeFloat then Single(FromBits(FromBytesLE(bs)))
    else Double(bs)
  }

  /** The bytes the library stores for integer x of type t. */
  function Encode(x: int, t: int16): (bs: seq<uint8>)
    requires IsIntegerType(t) && InRange(x, t)
    ensures |bs| == SizeFromDataType(t)
  {
    if t == DataTypeUnsignedChar then [x]
    else if t == DataTypeSignedChar then [x % 0x100]
    else if t == DataTypeUnsignedShort then BytesLE16(x)
    else if t == DataTypeSignedShort then BytesLE16(x % 0x1_0000)
    else if t == DataTypeUnsignedInt32 then BytesLE(x)
    else BytesLE(ToUnsigned32(x))
  }

  /** Reading back a stored integer gives the integer. */
  lemma DecodeEncode(x: int, t: int16)
    requires IsIntegerType(t) && InRange(x, t)
    ensures Decode(Encode(x, t), t) == Exact(x)
  {
    if t <= DataTypeSignedChar {
      DecodeEncodeByte(x, t);
    } else if t <= DataTypeSignedShort {
      DecodeEncodeShort(x, t);
    } else {
      DecodeEncodeInt(x, t);
    }
  }

  lemma DecodeEncodeByte(x: int, t: int16)
    requires (t == DataTypeUnsignedChar || t == DataTypeSignedChar) && InRange(x, t)
    ensures Decode(Encode(x, t), t) == Exact(x)
  {
    var bs := Encode(x, t);
    if t == DataTypeSignedChar {
      assert bs == [x % 0x100];
      assert ToInt8(x % 0x100) == x;
    }
  }

  lemma DecodeEncodeShort(x: int, t: int16)
    requires (t == DataTypeUnsignedShort || t == DataTypeSignedShort) && InRange(x, t)
    ensures Decode(Encode(x, t), t) == Exact(x)
  {
    var bs := Encode(x, t);
    if t == DataTypeSignedShort {
      assert FromBytesLE16(bs) == x % 0x1_0000;
      assert ToInt16(x % 0x1_0000) == x;
    }
  }

  lemma DecodeEncodeInt(x: int, t: int16)
    requires (t == DataTypeUnsignedInt32 || t == DataTypeSignedInt32) && InRange(x, t)
    ensures Decode(Encode(x, t), t) == Exact(x)
  {
    var bs := Encode(x, t);
    if t == DataTypeSignedInt32 {
      assert FromBytesLE(bs) == ToUnsigned32(x);
      assert ToInt32(ToUnsigned32(x)) == x;
    }
  }

  /** Every byte pattern of an integer type is the encoding of what it reads as. */
  lemma EncodeDecode(bs: seq<uint8>, t: int16)
    requires IsIntegerType(t) && |bs| == SizeFromDataType(t)
    ensures Encode(Decode(bs, t).value, t) == bs
  {
    if t == DataTypeUnsignedShort {
      BytesFromBytesLE16(bs);
    } else if t == DataTypeSignedShort {
      var u := FromBytesLE16(bs);
      assert ToInt16(u) % 0x1_0000 == u;
      BytesFromBytesLE16(bs);
    } else if t == DataTypeUnsignedInt32 {
      BytesFromBytesLE(bs);
    } else if t == DataTypeSignedInt32 {
      var u := FromBytesLE(bs);
      assert ToUnsigned32(ToInt32(u)) == u;
      BytesFromBytesLE(bs);
    }
  }

  /** A float is read back from its stored bit pattern. */
  lemma DecodeFloat(f: Float32)
    ensures Decode(BytesLE(ToBits(f)), DataTypeFloat) == Single(f)
  {
    BitsRoundTrip(f);
  }

  // ---------------------------------------------------------------------------
  // Addressing.
  // ---------------------------------------------------------------------------

  /** `(int)(sample * SizePerSample)`: the first byte of a sample, cut to 32 bits. */
  function SampleBase(sample: int64, sizePerSample: int64): int32 {
    ToInt32(sample * sizePerSample)
  }

  /** The offset GetData(sample, channel, signal) reads at, in Int32 arithmetic. */
  function SingleOffsetOf(base: int32, l: Layout, s: nat, c: int32): (o: int32)
    requires s < |l.offsets|
    ensures s < l.globalNumber && InInt32(base + l.offsets[s]) ==> o == base + l.offsets[s]
    ensures s >= l.globalNumber && InInt32(c * l.peakSize) && InInt32(l.offsets[s] + c * l.peakSize)
            && InInt32(base + l.offsets[s] + c * l.peakSize)
            ==> o == base + l.offsets[s] + c * l.peakSize
  {
    if s < l.globalNumber then AddInt32(base, l.offsets[s])
    else AddInt32(base, AddInt32(l.offsets[s], MulInt32(c, l.peakSize)))
  }

  /** C#'s `/` on Int32: the quotient truncated toward zero. */
  function TruncDiv(a: int, b: int): (q: int)
    requires b > 0
    ensures a >= 0 ==> q == a / b
    ensures a < 0 ==> q == -((-a) / b)
  {
    if a >= 0 then a / b else -((-a) / b)
  }

  /** The per-channel step of GetData(sample, signal), in bytes: an element
      pointer advanced by `(ushort)(peak size / element size)` elements. */
  function ChannelStride(peakSize: int32, t: int16): (n: nat)
    ensures (peakSize >= 0 && peakSize % SizeFromDataType(t) == 0
             && peakSize / SizeFromDataType(t) < 0x1_0000) ==> n == peakSize
  {
    var es := SizeFromDataType(t);
    ToUInt16(TruncDiv(peakSize, es)) * es
  }

  /** The byte address GetData(sample, signal) reads channel c at: pointer
      arithmetic, which does not wrap. */
  function ChannelAddressOf(base: int32, l: Layout, t: int16, s: nat, c: nat): int
    requires s < |l.offsets|
  {
    base + l.offsets[s] + c * ChannelStride(l.peakSize, t)
  }

  /** Where the peak size is a whole number of elements below 2^16 and nothing
      overflows, the two GetData overloads read a channel at the same place. */
  lemma PathsAgree(base: int32, l: Layout, t: int16, s: nat, c: int32)
    requires s < |l.offsets| && s >= l.globalNumber && c >= 0
    requires l.peakSize >= 0 && l.peakSize % SizeFromDataType(t) == 0
    requires l.peakSize / SizeFromDataType(t) < 0x1_0000
    requires base >= 0 && l.offsets[s] >= 0 && base + l.offsets[s] + c * l.peakSize < 0x8000_0000
    ensures SingleOffsetOf(base, l, s, c) == ChannelAddressOf(base, l, t, s, c)
  {
    MulMonotone(0, c, l.peakSize);
  }

  /** An Int32 peak signal next to a byte peak signal on two channels: the peak
      size is 5 bytes, and channel 1 of the Int32 signal is at byte 5 for
      GetData(sample, channel, signal) but at byte 4 for GetData(sample,
      signal), whose element step 5 / 4 is rounded down to one Int32. */
  lemma PathsDivergeOnMixedPeakSizes()
    ensures var l := LayoutOf([SignalInfo(0x100, DataTypeSignedInt32), SignalInfo(0x101, DataTypeUnsignedChar)], 2);
      && l.offsets == [0, 4] && l.globalNumber == 0 && l.peakSize == 5
      && SingleOffsetOf(0, l, 0, 1) == 5
      && ChannelAddressOf(0, l, DataTypeSignedInt32, 0, 1) == 4
  {
    var infos := [SignalInfo(0x100, DataTypeSignedInt32), SignalInfo(0x101, DataTypeUnsignedChar)];
    assert infos[..1] == [infos[0]];
    assert [infos[0]][..0] == [];
    assert !CountsAsGlobal(infos[0], 2) && !CountsAsGlobal(infos[1], 2);
    assert TotalSize(infos[..1]) == 4;
    assert Offsets(infos[..1]) == [0];
    assert PeakSize(infos[..1], 2) == 4 && GlobalSize(infos[..1], 2) == 0 && GlobalCount(infos[..1], 2) == 0;
  }

  /** A byte peak size of 2^16 or more is cut to 16 bits: with 64 KiB of byte
      peak signals every channel reads at channel 0's address. */
  lemma StrideWrapsAt64K()
    ensures ChannelStride(0x1_0000, DataTypeUnsignedChar) == 0
    ensures ChannelStride(0x1_0001, DataTypeUnsignedChar) == 1
  {
  }

  /** The buffer after CopySampleData has grown it: a fresh zeroed array of
      exactly `need` bytes when the old one is too small, else the old one. */
  function Grown(before: seq<uint8>, need: int): (after: seq<uint8>)
    ensures |after| == if need > |before| then need else |before|
  {
    if need > |before| then seq(need, _ => 0) else before
  }

  /** `(Int32)(SizePerSample * (Int32)n)`: the byte count CopySampleData copies. */
  function CopyLength(sizePerSample: int64, n: int64): int32 {
    ToInt32(MulInt64(sizePerSample, ToInt32(n)))
  }

  // ---------------------------------------------------------------------------
  // The sample-data object.
  // ---------------------------------------------------------------------------

  class ConnData {
    var sizePerSample: int64
    var signalOffset: seq<int32>
    var globalSignalSize: int32
    var peakSignalSize: int32
    var globalSignalNumber: int32
    var init: bool
    var sampleCount: int64
    var orgSampleData: array<uint8>
    var signalChanged: bool
    var signalGenInfo: GeneralInfo
    var signalInfos: seq<SignalInfo>

    /** The descriptor list and the offset list grow together. */
    predicate Valid()
      reads this
    {
      |signalOffset| == |signalInfos|
    }

    function CurrentLayout(): (l: Layout)
      reads this
      ensures Valid() ==> |l.offsets| == |l.infos|
    {
      Layout(signalInfos, signalOffset, globalSignalSize, peakSignalSize, globalSignalNumber)
    }

    constructor()
      ensures Valid()
      ensures CurrentLayout() == Layout([], [], 0, 0, 0)
      ensures sizePerSample == 0 && sampleCount == 0 && !init && !signalChanged
      ensures signalGenInfo == GeneralInfo(0, 0, 0, 0)
      ensures fresh(orgSampleData) && orgSampleData[..] == seq(1024 * 32, _ => 0)
    {
      sizePerSample := 0;
      signalOffset := [];
      globalSignalSize := 0;
      peakSignalSize := 0;
      globalSignalNumber := 0;
      init := false;
      sampleCount := 0;
      orgSampleData := new uint8[1024 * 32](_ => 0);
      signalChanged := false;
      signalGenInfo := GeneralInfo(0, 0, 0, 0);
      signalInfos := [];
    }

    /** The rebuild loop of ProcessNewData and InitAutoBufferData: `count`
        iterations over `infos`, throwing once the array is exhausted.
        `complete` is false when it threw; the layout then holds what the
        loop had added so far. */
    static method BuildLayout(infos: seq<SignalInfo>, count: int32, channelCount: int32)
      returns (l: Layout, complete: bool)
      ensures complete <==> count <= |infos|
      ensures l == LayoutOf(infos[..Processed(count, |infos|)], channelCount)
    {
      var list: seq<SignalInfo> := [];
      var offsets: seq<int32> := [];
      var gSize: int32 := 0;
      var pSize: int32 := 0;
      var gNumber: int32 := 0;
      var nOffset: int32 := 0;
      var i := 0;
      while i < count
        invariant 0 <= i <= |infos| && (count >= 0 ==> i <= count)
        invariant count < 0 ==> i == 0
        invariant list == infos[..i] && offsets == Offsets(list)
        invariant nOffset == ToInt32(TotalSize(list))
        invariant gSize == ToInt32(GlobalSize(list, channelCount))
        invariant pSize == ToInt32(PeakSize(list, channelCount))
        invariant gNumber == ToInt32(GlobalCount(list, channelCount))
      {
        if i >= |infos| {
          complete := false;
          l := Layout(list, offsets, gSize, pSize, gNumber);
          return;
        }
        var info := infos[i];
        LayoutStep(infos, i, channelCount);
        list := list + [info];
        offsets := offsets + [nOffset];
        var nSize := SizeOf(info);
        ToInt32Add(TotalSize(infos[..i]), nSize);
        nOffset := AddInt32(nOffset, nSize);
        if CountsAsGlobal(info, channelCount) {
          ToInt32Add(GlobalSize(infos[..i], channelCount), nSize);
          ToInt32Add(GlobalCount(infos[..i], channelCount), 1);
          gSize := AddInt32(gSize, nSize);
          gNumber := AddInt32(gNumber, 1);
        } else {
          ToInt32Add(PeakSize(infos[..i], channelCount), nSize);
          pSize := AddInt32(pSize, nSize);
        }
        i := i + 1;
      }
      complete := true;
      l := Layout(list, offsets, gSize, pSize, gNumber);
    }

    method SetLayout(l: Layout)
      requires |l.offsets| == |l.infos|
      modifies this
      ensures Valid() && CurrentLayout() == l
      ensures sizePerSample == old(sizePerSample) && sampleCount == old(sampleCount)
      ensures init == old(init) && signalChanged == old(signalChanged)
      ensures signalGenInfo == old(signalGenInfo) && orgSampleData == old(orgSampleData)
    {
      signalInfos := l.infos;
      signalOffset := l.offsets;
      globalSignalSize := l.globalSize;
      peakSignalSize := l.peakSize;
      globalSignalNumber := l.globalNumber;
    }

    /** CopySampleData: grow the buffer to exactly the bytes of `n` samples
        when it is too small, then copy `(Int32)(SizePerSample * (Int32)n)`
        bytes from the library's buffer `data`; Marshal.Copy refuses a
        negative count or one beyond the array. */
    method CopySampleData(data: seq<uint8>, n: int64) returns (r: Result<(), Fault>)
      requires n > 0 ==> |data| >= CopyLength(sizePerSample, n)
      modifies this, orgSampleData
      ensures Valid() == old(Valid()) && CurrentLayout() == old(CurrentLayout())
      ensures sizePerSample == old(sizePerSample) && sampleCount == old(sampleCount)
      ensures init == old(init) && signalChanged == old(signalChanged) && signalGenInfo == old(signalGenInfo)
      ensures n <= 0 ==> r.Ok? && orgSampleData == old(orgSampleData) && orgSampleData[..] == old(orgSampleData[..])
      ensures n > 0 ==>
        var need := MulInt64(sizePerSample, n);
        var grown := Grown(old(orgSampleData[..]), need);
        var len := CopyLength(sizePerSample, n);
        && (need > old(orgSampleData.Length) ==> fresh(orgSampleData))
        && (need <= old(orgSampleData.Length) ==> orgSampleData == old(orgSampleData))
        && (r.Ok? <==> 0 <= len <= |grown|)
        && (r.Ok? ==> orgSampleData[..] == data[..len] + grown[len..])
        && (r.Err? ==> r.error == ArgumentOutOfRange && orgSampleData[..] == grown)
    {
      if n <= 0 {
        return Ok(());
      }
      var need := MulInt64(sizePerSample, n);
      if need > orgSampleData.Length {
        orgSampleData := new uint8[need](_ => 0);
      }
      var len := CopyLength(sizePerSample, n);
      if len < 0 || len > orgSampleData.Length {
        return Err(ArgumentOutOfRange);
      }
      forall i | 0 <= i < len {
        orgSampleData[i] := data[i];
      }
      r := Ok(());
    }

    /** ProcessNewData: record a block of `n` samples of `sizePerSample` bytes
        each from the library; rebuild the layout from the descriptors when
        the layout generation changed or nothing was set up yet. `infos` is
        None for a null descriptor pointer. */
    method ProcessNewData(data: seq<uint8>, n: int64, stride: int64, gen: GeneralInfo,
                          infos: Option<seq<SignalInfo>>)
      returns (r: Result<(), Fault>)
      requires Valid()
      requires infos.Some? ==> AddInt32(gen.peakSignalCount, gen.globalSignalCount) <= |infos.value|
      requires n > 0 && infos.Some? ==> |data| >= CopyLength(stride, n)
      modifies this, orgSampleData
      ensures Valid() && sampleCount == n
      ensures n == 0 || infos.None? ==>
        && r.Ok? && CurrentLayout() == old(CurrentLayout()) && sizePerSample == old(sizePerSample)
        && init == old(init) && signalChanged == old(signalChanged) && signalGenInfo == old(signalGenInfo)
        && orgSampleData == old(orgSampleData) && orgSampleData[..] == old(orgSampleData[..])
      ensures n != 0 && infos.Some? ==> sizePerSample == stride
      ensures n != 0 && infos.Some? && (gen.infoIndex != old(signalGenInfo.infoIndex) || !old(init)) ==>
        var count := AddInt32(gen.peakSignalCount, gen.globalSignalCount);
        && CurrentLayout() == LayoutOf(infos.value[..Processed(count, |infos.value|)], gen.channelCount)
        && signalGenInfo == gen && init && signalChanged
      ensures n != 0 && infos.Some? && !(gen.infoIndex != old(signalGenInfo.infoIndex) || !old(init)) ==>
        && CurrentLayout() == old(CurrentLayout()) && signalGenInfo == old(signalGenInfo)
        && init == old(init) && signalChanged == old(signalChanged)
      ensures n < 0 && infos.Some? ==> r.Ok? && orgSampleData == old(orgSampleData) && orgSampleData[..] == old(orgSampleData[..])
      ensures n > 0 && infos.Some? ==>
        var need := MulInt64(stride, n);
        var grown := Grown(old(orgSampleData[..]), need);
        var len := CopyLength(stride, n);
        && (need > old(orgSampleData.Length) ==> fresh(orgSampleData))
        && (need <= old(orgSampleData.Length) ==> orgSampleData == old(orgSampleData))
        && (r.Ok? <==> 0 <= len <= |grown|)
        && (r.Ok? ==> orgSampleData[..] == data[..len] + grown[len..])
        && (r.Err? ==> r.error == ArgumentOutOfRange && orgSampleData[..] == grown)
    {
      sampleCount := n;
      if n == 0 || infos.None? {
        return Ok(());
      }
      if gen.infoIndex != signalGenInfo.infoIndex || !init {
        signalGenInfo := gen;
        var l, _ := BuildLayout(infos.value, AddInt32(gen.peakSignalCount, gen.globalSignalCount), gen.channelCount);
        SetLayout(l);
        signalChanged := true;
        init := true;
      }
      sizePerSample := stride;
      r := CopySampleData(data, n);
    }

    /** InitAutoBufferData: take the descriptors from a managed array and
        derive the sample size from the layout and `channelCount`. The loop
        reads `PeakSignalCount + GlobalSignalCount` entries and throws
        IndexOutOfRangeException past the array's end, leaving the layout
        partly rebuilt. The signals are classified by the general info's
        channel count, the sample size uses the argument. */
    method InitAutoBufferData(n: int64, channelCount: int32, gen: GeneralInfo, infos: seq<SignalInfo>)
      returns (r: Result<(), Fault>)
      modifies this
      ensures Valid() && sampleCount == n && signalGenInfo == gen
      ensures orgSampleData == old(orgSampleData)
      ensures var count := AddInt32(gen.peakSignalCount, gen.globalSignalCount);
        && (r.Ok? <==> count <= |infos|)
        && CurrentLayout() == LayoutOf(infos[..Processed(count, |infos|)], gen.channelCount)
      ensures r.Ok? ==>
        init && signalChanged
        && sizePerSample == AddInt32(globalSignalSize, MulInt32(peakSignalSize, channelCount))
      ensures r.Err? ==>
        r.error == IndexOutOfRange && init == old(init) && signalChanged == old(signalChanged)
        && sizePerSample == old(sizePerSample)
    {
      sampleCount := n;
      signalGenInfo := gen;
      var l, complete := BuildLayout(infos, AddInt32(gen.peakSignalCount, gen.globalSignalCount), gen.channelCount);
      SetLayout(l);
      if !complete {
        return Err(IndexOutOfRange);
      }
      signalChanged := true;
      init := true;
      sizePerSample := AddInt32(globalSignalSize, MulInt32(peakSignalSize, channelCount));
      r := Ok(());
    }

    /** InitAutoBufferDataWithInternalBuffer: refuse an empty setup, then
        grow the own buffer to the bytes of `n` samples when it is too small. */
    method InitAutoBufferDataWithInternalBuffer(n: int64, channelCount: int32, gen: GeneralInfo,
                                                infos: seq<SignalInfo>)
      returns (r: Result<(), Fault>)
      requires Valid()
      modifies this
      ensures Valid()
      ensures n == 0 || |infos| == 0 ==>
        && r == Err(EmptyAutoBuffer) && CurrentLayout() == old(CurrentLayout())
        && sizePerSample == old(sizePerSample) && sampleCount == old(sampleCount)
        && init == old(init) && signalChanged == old(signalChanged) && signalGenInfo == old(signalGenInfo)
        && orgSampleData == old(orgSampleData)
      ensures n != 0 && |infos| != 0 ==>
        var count := AddInt32(gen.peakSignalCount, gen.globalSignalCount);
        && sampleCount == n && signalGenInfo == gen
        && CurrentLayout() == LayoutOf(infos[..Processed(count, |infos|)], gen.channelCount)
        && (r.Ok? <==> count <= |infos|)
        && (r.Err? ==> r.error == IndexOutOfRange && orgSampleData == old(orgSampleData))
        && (r.Ok? ==>
              init && signalChanged
              && sizePerSample == AddInt32(globalSignalSize, MulInt32(peakSignalSize, channelCount)))
      ensures r.Ok? && MulInt64(sizePerSample, n) > old(orgSampleData.Length) ==>
        fresh(orgSampleData) && orgSampleData[..] == seq(MulInt64(sizePerSample, n), _ => 0)
      ensures r.Ok? && MulInt64(sizePerSample, n) <= old(orgSampleData.Length) ==> orgSampleData == old(orgSampleData)
    {
      if n == 0 || |infos| == 0 {
        return Err(EmptyAutoBuffer);
      }
      r := InitAutoBufferData(n, channelCount, gen, infos);
      if r.Err? {
        return;
      }
      var need := MulInt64(sizePerSample, n);
      if need > orgSampleData.Length {
        orgSampleData := new uint8[need](_ => 0);
      }
    }

    /** InitAutoBufferDataWithExternalBuffer: refuse an empty setup, then
        read the samples from the caller's array `buffer` itself (an alias,
        not a copy). */
    method InitAutoBufferDataWithExternalBuffer(buffer: array<uint8>, n: int64, channelCount: int32,
                                                gen: GeneralInfo, infos: seq<SignalInfo>)
      returns (r: Result<(), Fault>)
      requires Valid()
      modifies this
      ensures Valid()
      ensures n == 0 || |infos| == 0 ==>
        && r == Err(EmptyAutoBuffer) && CurrentLayout() == old(CurrentLayout())
        && sizePerSample == old(sizePerSample) && sampleCount == old(sampleCount)
        && init == old(init) && signalChanged == old(signalChanged) && signalGenInfo == old(signalGenInfo)
        && orgSampleData == old(orgSampleData)
      ensures n != 0 && |infos| != 0 ==>
        var count := AddInt32(gen.peakSignalCount, gen.globalSignalCount);
        && sampleCount == n && signalGenInfo == gen
        && CurrentLayout() == LayoutOf(infos[..Processed(count, |infos|)], gen.channelCount)
        && (r.Ok? <==> count <= |infos|)
        && (r.Err? ==> r.error == IndexOutOfRange && orgSampleData == old(orgSampleData))
        && (r.Ok? ==>
              init && signalChanged && orgSampleData == buffer
              && sizePerSample == AddInt32(globalSignalSize, MulInt32(peakSignalSize, channelCount)))
    {
      if n == 0 || |infos| == 0 {
        return Err(EmptyAutoBuffer);
      }
      r := InitAutoBufferData(n, channelCount, gen, infos);
      if r.Err? {
        return;
      }
      orgSampleData := buffer;
    }

    /** Reset: the next ProcessNewData rebuilds the layout. */
    method Reset()
      modifies this
      ensures !init
      ensures CurrentLayout() == old(CurrentLayout()) && Valid() == old(Valid())
      ensures sizePerSample == old(sizePerSample) && sampleCount == old(sampleCount)
      ensures signalChanged == old(signalChanged) && signalGenInfo == old(signalGenInfo)
      ensures orgSampleData == old(orgSampleData)
    {
      init := false;
    }

    /** A value of type t through an unchecked pointer at byte `address`. */
    function ReadPointer(address: int, t: int16): (r: Result<Reading, Fault>)
      reads this, orgSampleData
      ensures r.Ok? <==> 0 <= address && address + SizeFromDataType(t) <= orgSampleData.Length
      ensures r.Ok? ==> r.value == Decode(orgSampleData[address..address + SizeFromDataType(t)], t)
      ensures r.Err? ==> r.error == OutsideBuffer
    {
      var w := SizeFromDataType(t);
      if address < 0 || address + w > orgSampleData.Length then Err(OutsideBuffer)
      else Ok(Decode(orgSampleData[address..address + w], t))
    }

    /** ReadDataFromRawData: the byte types through the array indexer, which
        throws outside the array; the wider types through a pointer. */
    function ReadDataFromRawData(offset: int32, t: int16): (r: Result<Reading, Fault>)
      reads this, orgSampleData
      ensures r.Ok? <==> 0 <= offset && offset + SizeFromDataType(t) <= orgSampleData.Length
      ensures r.Ok? ==> r.value == Decode(orgSampleData[offset..offset + SizeFromDataType(t)], t)
      ensures r.Err? ==> r.error == if SizeFromDataType(t) == 1 then IndexOutOfRange else OutsideBuffer
    {
      if t == DataTypeUnsignedChar || t == DataTypeSignedChar then
        if 0 <= offset < orgSampleData.Length then Ok(Decode([orgSampleData[offset]], t))
        else Err(IndexOutOfRange)
      else ReadPointer(offset, t)
    }

    /** The checks GetData(sample, channel, signal) passes, in its order. */
    function GetDataFault(sample: int64, c: int32, s: int32): (f: Option<Fault>)
      reads this
      ensures |signalInfos| == 0 ==> f == Some(NoSignalInfo)
      ensures |signalInfos| > 0 && !(0 <= s < |signalInfos|) ==> f == Some(UnknownSignal)
      ensures |signalInfos| > 0 && 0 <= s < |signalInfos| && !(0 <= sample < sampleCount) ==> f == Some(InvalidSampleIndex)
      ensures (|signalInfos| > 0 && 0 <= s < |signalInfos| && 0 <= sample < sampleCount
               && !(0 <= c < signalGenInfo.channelCount)) ==> f == Some(InvalidChannelIndex)
      ensures f.None? <==> 0 <= s < |signalInfos| && 0 <= sample < sampleCount && 0 <= c < signalGenInfo.channelCount
    {
      if |signalInfos| == 0 then Some(NoSignalInfo)
      else if s >= |signalInfos| || s < 0 then Some(UnknownSignal)
      else if sample < 0 || sample >= sampleCount then Some(InvalidSampleIndex)
      else if c < 0 || c >= signalGenInfo.channelCount then Some(InvalidChannelIndex)
      else None
    }

    /** GetData(sample, channel, signal): one channel of one signal of one
        sample; the checks throw TCHRLibConnectionException. */
    function GetData(sample: int64, c: int32, s: int32): (r: Result<Reading, Fault>)
      reads this, orgSampleData
      requires Valid()
      ensures GetDataFault(sample, c, s).Some? ==> r == Err(GetDataFault(sample, c, s).value)
      ensures GetDataFault(sample, c, s).None? ==>
        r == ReadDataFromRawData(SingleOffsetOf(SampleBase(sample, sizePerSample), CurrentLayout(), s, c),
                                 signalInfos[s].dataType)
    {
      var f := GetDataFault(sample, c, s);
      if f.Some? then Err(f.value)
      else ReadDataFromRawData(SingleOffsetOf(SampleBase(sample, sizePerSample), CurrentLayout(), s, c),
                               signalInfos[s].dataType)
    }

    /** GetData reads back the integer stored at the place it addresses. */
    lemma GetDataReadsStoredValue(sample: int64, c: int32, s: int32, x: int)
      requires Valid() && GetDataFault(sample, c, s).None?
      requires IsIntegerType(signalInfos[s].dataType) && InRange(x, signalInfos[s].dataType)
      requires var o, t := SingleOffsetOf(SampleBase(sample, sizePerSample), CurrentLayout(), s, c), signalInfos[s].dataType;
        0 <= o && o + SizeFromDataType(t) <= orgSampleData.Length
        && orgSampleData[o..o + SizeFromDataType(t)] == Encode(x, t)
      ensures GetData(sample, c, s) == Ok(Exact(x))
    {
      DecodeEncode(x, signalInfos[s].dataType);
    }

    /** The checks GetData(sample, signal) passes, in its order. */
    function ChannelsFault(sample: int64, s: int32): (f: Option<Fault>)
      reads this
      ensures |signalInfos| == 0 ==> f == Some(NoSignalInfo)
      ensures |signalInfos| > 0 && !(0 <= s < |signalInfos|) ==> f == Some(UnknownSignal)
      ensures |signalInfos| > 0 && 0 <= s < |signalInfos| && !(0 <= sample < sampleCount) ==> f == Some(InvalidSampleIndex)
      ensures (|signalInfos| > 0 && 0 <= s < |signalInfos| && 0 <= sample < sampleCount
               && signalGenInfo.channelCount <= 0) ==> f == Some(InvalidChannelCount)
      ensures f.None? <==> 0 <= s < |signalInfos| && 0 <= sample < sampleCount && signalGenInfo.channelCount > 0
    {
      if |signalInfos| == 0 then Some(NoSignalInfo)
      else if s >= |signalInfos| || s < 0 then Some(UnknownSignal)
      else if sample < 0 || sample >= sampleCount then Some(InvalidSampleIndex)
      else if signalGenInfo.channelCount <= 0 then Some(InvalidChannelCount)
      else None
    }

    /** GetData(sample, signal): all channels of one signal of one sample, or
        one value for a global signal. An Err stands for the null the source
        returns after catching an exception, except OutsideBuffer, which the
        source does not detect. */
    method GetChannels(sample: int64, s: int32) returns (r: Result<seq<Reading>, Fault>)
      requires Valid()
      ensures ChannelsFault(sample, s).Some? ==> r == Err(ChannelsFault(sample, s).value)
      ensures ChannelsFault(sample, s).None? && s < globalSignalNumber ==>
        var rd := ReadDataFromRawData(AddInt32(SampleBase(sample, sizePerSample), signalOffset[s]), signalInfos[s].dataType);
        && (r.Ok? <==> rd.Ok?)
        && (r.Ok? ==> r.value == [rd.value])
        && (r.Err? ==> r.error == rd.error)
      ensures ChannelsFault(sample, s).None? && s >= globalSignalNumber ==>
        var base, t := SampleBase(sample, sizePerSample), signalInfos[s].dataType;
        && (r.Ok? <==> forall c :: 0 <= c < signalGenInfo.channelCount ==>
                         ReadPointer(ChannelAddressOf(base, CurrentLayout(), t, s, c), t).Ok?)
        && (r.Ok? ==>
              |r.value| == signalGenInfo.channelCount
              && forall c :: 0 <= c < signalGenInfo.channelCount ==>
                   r.value[c] == ReadPointer(ChannelAddressOf(base, CurrentLayout(), t, s, c), t).value)
        && (r.Err? ==> r.error == OutsideBuffer)
    {
      var f := ChannelsFault(sample, s);
      if f.Some? {
        return Err(f.value);
      }
      var base := SampleBase(sample, sizePerSample);
      var t := signalInfos[s].dataType;
      if s < globalSignalNumber {
        var rd := ReadDataFromRawData(AddInt32(base, signalOffset[s]), t);
        if rd.Err? {
          return Err(rd.error);
        }
        return Ok([rd.value]);
      }
      var l := CurrentLayout();
      var es := SizeFromDataType(t);
      var count := signalGenInfo.channelCount;
      var address: int := base as int + signalOffset[s] as int;
      var step: uint16 := 0;
      var values: seq<Reading> := [];
      var idx := 0;
      while idx < count
        invariant 0 <= idx <= count
        invariant address + step * es == ChannelAddressOf(base, l, t, s, idx)
        invariant idx > 0 ==> step == ToUInt16(TruncDiv(peakSignalSize, es))
        invariant |values| == idx
        invariant forall c :: 0 <= c < idx ==>
          ReadPointer(ChannelAddressOf(base, l, t, s, c), t).Ok?
          && values[c] == ReadPointer(ChannelAddressOf(base, l, t, s, c), t).value
      {
        address := address + step * es;
        var rd := ReadPointer(address, t);
        if rd.Err? {
          return Err(OutsideBuffer);
        }
        values := values + [rd.value];
        step := ToUInt16(TruncDiv(peakSignalSize, es));
        assert ChannelAddressOf(base, l, t, s, idx + 1) == ChannelAddressOf(base, l, t, s, idx) + step * es;
        idx := idx + 1;
      }
      r := Ok(values);
    }
  }
}
