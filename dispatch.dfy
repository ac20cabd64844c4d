/** The specific response classes (TBaseRsp and its subclasses), the choice
    of class for a response (GetSpecificResponse) and synchronous command
    execution (ExecCommand, GetResponse). */
module Dispatch {
  import opened Ints
  import opened Wrappers
  import opened FunctionWrapper
  import opened Float32
  import opened Response
  import opened Command

  /** One constructor per specific response class. */
  datatype RspKind =
    | OutputSignalsRsp | FirmwareVersionRsp | MeasuringMethodRsp | FullScaleRsp
    | ScanRateRsp | DataAverageRsp | SpectrumAverageRsp | RefractiveIndicesRsp
    | AbbeNumbersRsp | RefractiveIndexTablesRsp | LampIntensityRsp | OpticalProbeRsp
    | ConfocalDetectionThresholdRsp | InterQualityThresholdRsp | DutyCycleRsp
    | DetectionWindowActiveRsp | DetectionWindowRsp | NumberOfPeaksRsp | PeakOrderingRsp
    | DarkReferenceRsp | StartDataStreamRsp | StopDataStreamRsp | LightSourceAutoAdaptRsp
    | CCDRangeRsp | MedianRsp | AnalogOutputRsp | EncoderCounterRsp | EncoderCounterSourceRsp
    | EncoderPreloadFunctionRsp | EncoderTriggerEnabledRsp | EncoderTriggerPropertyRsp
    | DeviceTriggerModeRsp | DownloadSpectrumRsp | DownloadSpectrumImageRsp | DownloadTableRsp

  /** The target id each class passes to the TBaseRsp constructor. */
  function TargetId(k: RspKind): uint32 {
    match k
    case OutputSignalsRsp => CmdIdOutputSignals
    case FirmwareVersionRsp => CmdIdFirmwareVersion
    case MeasuringMethodRsp => CmdIdMeasuringMethod
    case FullScaleRsp => CmdIdFullScale
    case ScanRateRsp => CmdIdScanRate
    case DataAverageRsp => CmdIdDataAverage
    case SpectrumAverageRsp => CmdIdSpectrumAverage
    case RefractiveIndicesRsp => CmdIdRefractiveIndices
    case AbbeNumbersRsp => CmdIdAbbeNumbers
    case RefractiveIndexTablesRsp => CmdIdRefractiveIndexTables
    case LampIntensityRsp => CmdIdLampIntensity
    case OpticalProbeRsp => CmdIdOpticalProbe
    case ConfocalDetectionThresholdRsp => CmdIdConfocalDetectionThreshold
    case InterQualityThresholdRsp => CmdIdInterferometricQualityThreshold
    case DutyCycleRsp => CmdIdDutyCycle
    case DetectionWindowActiveRsp => CmdIdDetectionWindowActive
    case DetectionWindowRsp => CmdIdDetectionWindow
    case NumberOfPeaksRsp => CmdIdNumberOfPeaks
    case PeakOrderingRsp => CmdIdPeakOrdering
    case DarkReferenceRsp => CmdIdDarkReference
    case StartDataStreamRsp => CmdIdStartDataStream
    case StopDataStreamRsp => CmdIdStopDataStream
    case LightSourceAutoAdaptRsp => CmdIdLightSourceAutoAdapt
    case CCDRangeRsp => CmdIdCCDRange
    case MedianRsp => CmdIdMedian
    case AnalogOutputRsp => CmdIdAnalogOutput
    case EncoderCounterRsp => CmdIdEncoderCounter
    case EncoderCounterSourceRsp => CmdIdEncoderCounterSource
    case EncoderPreloadFunctionRsp => CmdIdEncoderPreloadFunction
    case EncoderTriggerEnabledRsp => CmdIdEncoderTriggerEnabled
    case EncoderTriggerPropertyRsp => CmdIdEncoderTriggerProperty
    case DeviceTriggerModeRsp => CmdIdDeviceTriggerMode
    case DownloadSpectrumRsp => CmdIdDownloadSpectrum
    case DownloadSpectrumImageRsp => CmdIdDownloadSpectrum
    case DownloadTableRsp => CmdIdDownloadUploadTable
  }

  /** A specific response: its class and the reader it wraps. */
  datatype BaseRsp = BaseRsp(kind: RspKind, reader: TResponse)

  /** What GetSpecificResponse returns: a specific response, or the reader
      itself for an id without a class. */
  datatype SpecificRsp = Specific(rsp: BaseRsp) | Generic(reader: TResponse)

  /** The reader object a response is built on. */
  function ReaderOf(s: SpecificRsp): TResponse {
    if s.Specific? then s.rsp.reader else s.reader
  }

  /** Throws unless the reader's response id is the class's target id. */
  function CheckRspValid(b: BaseRsp): (r: Result<(), Fault>)
    reads b.reader
    ensures r.Ok? <==> b.reader.ResponseID() == TargetId(b.kind)
    ensures r.Err? ==> r.error == WrongResponseType
  {
    if b.reader.ResponseID() != TargetId(b.kind) then Err(WrongResponseType) else Ok(())
  }

  // ---------------------------------------------------------------------------
  // The properties of the specific classes.
  // ---------------------------------------------------------------------------

  /** How a property reads the reader: a typed getter at an index, a boolean
      as an integer compared with 0, an array at index 0 that is empty when
      the response has no values, or spectrum data as 16-bit samples. */
  datatype Getter =
    | IntProp(index: int32)
    | FloatProp(index: int32)
    | BoolProp(index: int32)
    | StringProp(index: int32)
    | BlobProp(index: int32)
    | IntArrayProp
    | FloatArrayProp
    | SamplesProp(index: int32)

  datatype Value =
    | IntValue(i: int32)
    | FloatValue(f: Float32)
    | BoolValue(b: bool)
    | StringValue(s: string)
    | BytesValue(bytes: seq<uint8>)
    | IntsValue(ints: seq<int32>)
    | FloatsValue(floats: seq<Float32>)
    | SamplesValue(samples: seq<int16>)

  /** The properties of each class, in declaration order. */
  function Getters(k: RspKind): seq<Getter> {
    match k
    case OutputSignalsRsp => [IntArrayProp]  // Signals
    case FirmwareVersionRsp => [StringProp(0)]  // FirmwareVersion
    case MeasuringMethodRsp => [IntProp(0)]  // MeasuringMethod
    case FullScaleRsp => [IntProp(0)]  // FullScale
    case ScanRateRsp => [FloatProp(0)]  // ScanRate
    case DataAverageRsp => [IntProp(0)]  // DataAverage
    case SpectrumAverageRsp => [IntProp(0)]  // SpectrumAverage
    case RefractiveIndicesRsp => [FloatArrayProp]  // RefractiveIndices
    case AbbeNumbersRsp => [FloatArrayProp]  // AbbeNumbers
    case RefractiveIndexTablesRsp => [IntArrayProp]  // TableIndices
    case LampIntensityRsp => [FloatProp(0)]  // LampIntensity
    case OpticalProbeRsp => [IntProp(0)]  // OpticalProbe
    case ConfocalDetectionThresholdRsp => [FloatProp(0)]  // Threshold
    case InterQualityThresholdRsp => [FloatProp(0)]  // Threshold
    case DutyCycleRsp => [FloatProp(0)]  // DutyCycle
    case DetectionWindowActiveRsp => [BoolProp(0)]  // Active
    case DetectionWindowRsp => [FloatArrayProp]  // Windows
    case NumberOfPeaksRsp => [IntProp(0)]  // NumberOfPeaks
    case PeakOrderingRsp => [IntProp(0)]  // PeakOrdering
    case DarkReferenceRsp => [FloatProp(0)]  // MinFrequency
    case StartDataStreamRsp => []
    case StopDataStreamRsp => []
    case LightSourceAutoAdaptRsp => [IntProp(0), FloatProp(1)]  // AutoAdapt, Level
    case CCDRangeRsp => [IntProp(0), IntProp(1)]  // StartPixel, StopPixel
    case MedianRsp => [IntProp(0), FloatProp(1)]  // MedianWidth, Percentile
    case AnalogOutputRsp =>
      [IntProp(0), IntProp(1), FloatProp(2), FloatProp(3), FloatProp(4), FloatProp(5), FloatProp(6)]
    case EncoderCounterRsp => [IntProp(0), IntProp(1)]  // Axis, Position
    case EncoderCounterSourceRsp => [IntProp(0), IntProp(1)]  // Axis, Source
    case EncoderPreloadFunctionRsp => [IntProp(0), IntProp(1), IntProp(2)]  // Axis, PreloadValue, EncoderPreloadConfig
    case EncoderTriggerEnabledRsp => [BoolProp(0)]  // Enabled
    case EncoderTriggerPropertyRsp => [IntProp(0), IntProp(1), IntProp(2), FloatProp(3), BoolProp(4)]  // EncoderAxis, StartPos, StopPos, Interval, TriggerOnReturnMove
    case DeviceTriggerModeRsp => [IntProp(0)]  // TriggerMode
    case DownloadSpectrumRsp => [IntProp(0), IntProp(1), IntProp(2), SamplesProp(3)]  // SpecType, StartChannel, ChannelCount, SpecData
    case DownloadSpectrumImageRsp => [IntProp(0), BlobProp(1)]  // SpecType, SpecImageData
    case DownloadTableRsp => [IntProp(0), IntProp(1), IntProp(2), IntProp(3), BlobProp(4)]  // TableType, TableIndex, ByteOffset, TableLength, TableData
  }

  /** Buffer.BlockCopy of a byte array into a short array of half its length:
      consecutive byte pairs, low byte first, read as two's complement. */
  function SamplesFromBytes(bs: seq<uint8>): (xs: seq<int16>)
    requires |bs| % 2 == 0
    ensures |xs| == |bs| / 2
    decreases |bs|
  {
    if |bs| == 0 then [] else [ToInt16(FromBytesLE16(bs[..2]))] + SamplesFromBytes(bs[2..])
  }

  /** Sample k is made of bytes 2k and 2k + 1. */
  lemma {:induction false} SampleAt(bs: seq<uint8>, k: nat)
    requires |bs| % 2 == 0 && k < |bs| / 2
    ensures SamplesFromBytes(bs)[k] == ToInt16(FromBytesLE16(bs[2 * k..2 * k + 2]))
    decreases k
  {
    if k > 0 {
      SampleAt(bs[2..], k - 1);
      assert bs[2..][2 * (k - 1)..2 * (k - 1) + 2] == bs[2 * k..2 * k + 2];
    }
  }

  /** The bytes of 16-bit samples as the device sends them. */
  function SamplesToBytes(xs: seq<int16>): (bs: seq<uint8>)
    ensures |bs| == 2 * |xs|
  {
    if |xs| == 0 then [] else BytesLE16(ToUInt16(xs[0])) + SamplesToBytes(xs[1..])
  }

  /** SpecData: the blob as samples; a blob of odd length makes the copy throw. */
  function Samples(blob: seq<uint8>): (r: Result<seq<int16>, Fault>)
    ensures r.Ok? <==> |blob| % 2 == 0
    ensures r.Err? ==> r.error == Argument
    ensures r.Ok? ==> |r.value| == |blob| / 2
  {
    if |blob| % 2 == 0 then Ok(SamplesFromBytes(blob)) else Err(Argument)
  }

  /** Decoding the bytes of samples restores them. */
  lemma {:induction false} SamplesRoundTrip(xs: seq<int16>)
    ensures Samples(SamplesToBytes(xs)) == Ok(xs)
  {
    if |xs| > 0 {
      SamplesRoundTrip(xs[1..]);
      var bs := SamplesToBytes(xs);
      var head := BytesLE16(ToUInt16(xs[0]));
      assert bs[..2] == head;
      assert bs[2..] == SamplesToBytes(xs[1..]);
      Int16RoundTrip(xs[0]);
      assert [xs[0]] + xs[1..] == xs;
    }
  }

  /** When a property of a response with the right id can be read: its
      getter succeeds, an array property of a response without values reads
      as empty, and spectrum data needs a blob of even length. */
  predicate Readable(rd: TResponse, g: Getter)
    requires rd.Valid()
    reads rd
  {
    match g
    case IntProp(i) => rd.GetIntParameter(i).Ok?
    case FloatProp(i) => rd.GetFloatParameter(i).Ok?
    case BoolProp(i) => rd.GetIntParameter(i).Ok?
    case StringProp(i) => rd.GetStringParameter(i).Ok?
    case BlobProp(i) => rd.GetBlobParameter(i).Ok?
    case IntArrayProp => rd.ParamCount() == 0 || rd.GetIntArrayParameter(0).Ok?
    case FloatArrayProp => rd.ParamCount() == 0 || rd.GetFloatArrayParameter(0).Ok?
    case SamplesProp(i) => rd.GetBlobParameter(i).Ok? && |rd.GetBlobParameter(i).value| % 2 == 0
  }

  /** A property's value: CheckRspValid first, then the getter. */
  function ReadProperty(b: BaseRsp, g: Getter): (r: Result<Value, Fault>)
    requires b.reader.Valid()
    reads b.reader
    ensures CheckRspValid(b).Err? ==> r == Err(WrongResponseType)
    ensures r.Ok? && g.IntProp? ==>
      b.reader.GetIntParameter(g.index).Ok? && r.value == IntValue(b.reader.GetIntParameter(g.index).value)
    ensures r.Ok? && g.BoolProp? ==>
      b.reader.GetIntParameter(g.index).Ok? && r.value == BoolValue(b.reader.GetIntParameter(g.index).value != 0)
    ensures r.Ok? && g.FloatProp? ==>
      b.reader.GetFloatParameter(g.index).Ok? && r.value == FloatValue(b.reader.GetFloatParameter(g.index).value)
    ensures r.Ok? && g.StringProp? ==>
      b.reader.GetStringParameter(g.index).Ok? && r.value == StringValue(b.reader.GetStringParameter(g.index).value)
    ensures r.Ok? && g.BlobProp? ==>
      b.reader.GetBlobParameter(g.index).Ok? && r.value == BytesValue(b.reader.GetBlobParameter(g.index).value)
    ensures r.Ok? && g.IntArrayProp? && b.reader.ParamCount() > 0 ==>
      b.reader.GetIntArrayParameter(0).Ok? && r.value == IntsValue(b.reader.GetIntArrayParameter(0).value)
    ensures r.Ok? && g.FloatArrayProp? && b.reader.ParamCount() > 0 ==>
      b.reader.GetFloatArrayParameter(0).Ok? && r.value == FloatsValue(b.reader.GetFloatArrayParameter(0).value)
    ensures r.Ok? && g.SamplesProp? ==>
      var blob := b.reader.GetBlobParameter(g.index);
      blob.Ok? && |blob.value| % 2 == 0 && r.value == SamplesValue(SamplesFromBytes(blob.value))
    ensures (g.IntArrayProp? || g.FloatArrayProp?) && CheckRspValid(b).Ok? && b.reader.ParamCount() == 0 ==>
      r == Ok(if g.IntArrayProp? then IntsValue([]) else FloatsValue([]))
    ensures CheckRspValid(b).Ok? ==> (r.Ok? <==> Readable(b.reader, g))
    ensures r.Err? && CheckRspValid(b).Ok? && g.SamplesProp? && b.reader.GetBlobParameter(g.index).Ok? ==>
      r.error == Argument
  {
    var rd := b.reader;
    if CheckRspValid(b).Err? then Err(WrongResponseType)
    else match g
      case IntProp(i) => (match rd.GetIntParameter(i) case Ok(x) => Ok(IntValue(x)) case Err(e) => Err(e))
      case FloatProp(i) => (match rd.GetFloatParameter(i) case Ok(x) => Ok(FloatValue(x)) case Err(e) => Err(e))
      case BoolProp(i) => (match rd.GetIntParameter(i) case Ok(x) => Ok(BoolValue(x != 0)) case Err(e) => Err(e))
      case StringProp(i) => (match rd.GetStringParameter(i) case Ok(x) => Ok(StringValue(x)) case Err(e) => Err(e))
      case BlobProp(i) => (match rd.GetBlobParameter(i) case Ok(x) => Ok(BytesValue(x)) case Err(e) => Err(e))
      case IntArrayProp =>
        if rd.ParamCount() > 0 then
          (match rd.GetIntArrayParameter(0) case Ok(x) => Ok(IntsValue(x)) case Err(e) => Err(e))
        else Ok(IntsValue([]))
      case FloatArrayProp =>
        if rd.ParamCount() > 0 then
          (match rd.GetFloatArrayParameter(0) case Ok(x) => Ok(FloatsValue(x)) case Err(e) => Err(e))
        else Ok(FloatsValue([]))
      case SamplesProp(i) =>
        (match rd.GetBlobParameter(i)
         case Err(e) => Err(e)
         case Ok(blob) => (match Samples(blob) case Ok(xs) => Ok(SamplesValue(xs)) case Err(e) => Err(e)))
  }

  // ---------------------------------------------------------------------------
  // Choosing the class.
  // ---------------------------------------------------------------------------

  /** The class GetSpecificResponse picks for a response id; for the
      download-spectrum id it depends on the first parameter read as an
      integer (an exception there leaves the reader unwrapped). */
  function KindFor(id: uint32, specType: Result<int32, Fault>): (r: Option<RspKind>)
    ensures r.Some? ==> TargetId(r.value) == id
  {
    if id == CmdIdDownloadSpectrum then SpectrumKindFor(specType) else PlainKindFor(id)
  }

  /** The download-spectrum case of the switch. */
  function SpectrumKindFor(specType: Result<int32, Fault>): (r: Option<RspKind>)
    ensures r.Some? ==> TargetId(r.value) == CmdIdDownloadSpectrum
  {
    if specType.Err? then None
    else if SpectrumRaw <= specType.value <= SpectrumFT then Some(DownloadSpectrumRsp)
    else if specType.value == Spectrum2DImage then Some(DownloadSpectrumImageRsp)
    else None
  }

  /** The other cases of the switch, each selected by its id alone; the
      ids are distinct, so the cases are tried in five consecutive groups. */
  function PlainKindFor(id: uint32): (r: Option<RspKind>)
    ensures r.Some? ==> TargetId(r.value) == id
  {
    var setup := SetupKindFor(id);
    var detection := DetectionKindFor(id);
    var acquisition := AcquisitionKindFor(id);
    if setup.Some? then setup
    else if detection.Some? then detection
    else if acquisition.Some? then acquisition
    else if EncoderKindFor(id).Some? then EncoderKindFor(id)
    else TriggerAndTableKindFor(id)
  }

  /** The cases for measuring setup: output signals to Abbe numbers. */
  function SetupKindFor(id: uint32): (r: Option<RspKind>)
    ensures r.Some? ==> TargetId(r.value) == id
  {
    if id == CmdIdOutputSignals then Some(OutputSignalsRsp)
    else if id == CmdIdFirmwareVersion then Some(FirmwareVersionRsp)
    else if id == CmdIdMeasuringMethod then Some(MeasuringMethodRsp)
    else if id == CmdIdFullScale then Some(FullScaleRsp)
    else if id == CmdIdScanRate then Some(ScanRateRsp)
    else if id == CmdIdDataAverage then Some(DataAverageRsp)
    else if id == CmdIdSpectrumAverage then Some(SpectrumAverageRsp)
    else if id == CmdIdRefractiveIndices then Some(RefractiveIndicesRsp)
    else if id == CmdIdAbbeNumbers then Some(AbbeNumbersRsp)
    else None
  }

  /** The cases for detection: refractive index tables to peak ordering. */
  function DetectionKindFor(id: uint32): (r: Option<RspKind>)
    ensures r.Some? ==> TargetId(r.value) == id
  {
    if id == CmdIdRefractiveIndexTables then Some(RefractiveIndexTablesRsp)
    else if id == CmdIdLampIntensity then Some(LampIntensityRsp)
    else if id == CmdIdOpticalProbe then Some(OpticalProbeRsp)
    else if id == CmdIdConfocalDetectionThreshold then Some(ConfocalDetectionThresholdRsp)
    else if id == CmdIdInterferometricQualityThreshold then Some(InterQualityThresholdRsp)
    else if id == CmdIdDutyCycle then Some(DutyCycleRsp)
    else if id == CmdIdDetectionWindowActive then Some(DetectionWindowActiveRsp)
    else if id == CmdIdDetectionWindow then Some(DetectionWindowRsp)
    else if id == CmdIdNumberOfPeaks then Some(NumberOfPeaksRsp)
    else if id == CmdIdPeakOrdering then Some(PeakOrderingRsp)
    else None
  }

  /** The cases for acquisition and output: dark reference to analog output. */
  function AcquisitionKindFor(id: uint32): (r: Option<RspKind>)
    ensures r.Some? ==> TargetId(r.value) == id
  {
    if id == CmdIdDarkReference then Some(DarkReferenceRsp)
    else if id == CmdIdStartDataStream then Some(StartDataStreamRsp)
    else if id == CmdIdStopDataStream then Some(StopDataStreamRsp)
    else if id == CmdIdLightSourceAutoAdapt then Some(LightSourceAutoAdaptRsp)
    else if id == CmdIdCCDRange then Some(CCDRangeRsp)
    else if id == CmdIdMedian then Some(MedianRsp)
    else if id == CmdIdAnalogOutput then Some(AnalogOutputRsp)
    else None
  }

  /** The cases for the encoders. */
  function EncoderKindFor(id: uint32): (r: Option<RspKind>)
    ensures r.Some? ==> TargetId(r.value) == id
  {
    if id == CmdIdEncoderCounter then Some(EncoderCounterRsp)
    else if id == CmdIdEncoderCounterSource then Some(EncoderCounterSourceRsp)
    else if id == CmdIdEncoderPreloadFunction then Some(EncoderPreloadFunctionRsp)
    else if id == CmdIdEncoderTriggerEnabled then Some(EncoderTriggerEnabledRsp)
    else if id == CmdIdEncoderTriggerProperty then Some(EncoderTriggerPropertyRsp)
    else None
  }

  /** The cases for the trigger mode and the table download. */
  function TriggerAndTableKindFor(id: uint32): (r: Option<RspKind>)
    ensures r.Some? ==> TargetId(r.value) == id
  {
    if id == CmdIdDeviceTriggerMode then Some(DeviceTriggerModeRsp)
    else if id == CmdIdDownloadUploadTable then Some(DownloadTableRsp)
    else None
  }

  function GetSpecificResponse(r: TResponse): (s: SpecificRsp)
    requires r.Valid()
    reads r
    ensures s.Specific? ==> s.rsp.reader == r && CheckRspValid(s.rsp).Ok?
    ensures s.Generic? ==> s.reader == r
  {
    match KindFor(r.ResponseID(), r.GetIntParameter(0))
    case Some(k) => Specific(BaseRsp(k, r))
    case None => Generic(r)
  }

  /** The spectrum kind with which a download response selects each class. */
  function SelectingSpecType(k: RspKind): int32 {
    if k == DownloadSpectrumImageRsp then Spectrum2DImage else SpectrumRaw
  }

  /** The classes for the measuring setup. */
  predicate IsSetupKind(k: RspKind) {
    k.OutputSignalsRsp? ||
    k.FirmwareVersionRsp? ||
    k.MeasuringMethodRsp? ||
    k.FullScaleRsp? ||
    k.ScanRateRsp? ||
    k.DataAverageRsp? ||
    k.SpectrumAverageRsp? ||
    k.RefractiveIndicesRsp? ||
    k.AbbeNumbersRsp?
  }

  /** The classes for detection. */
  predicate IsDetectionKind(k: RspKind) {
    k.RefractiveIndexTablesRsp? ||
    k.LampIntensityRsp? ||
    k.OpticalProbeRsp? ||
    k.ConfocalDetectionThresholdRsp? ||
    k.InterQualityThresholdRsp? ||
    k.DutyCycleRsp? ||
    k.DetectionWindowActiveRsp? ||
    k.DetectionWindowRsp? ||
    k.NumberOfPeaksRsp? ||
    k.PeakOrderingRsp?
  }

  /** The classes for acquisition and output. */
  predicate IsAcquisitionKind(k: RspKind) {
    k.DarkReferenceRsp? ||
    k.StartDataStreamRsp? ||
    k.StopDataStreamRsp? ||
    k.LightSourceAutoAdaptRsp? ||
    k.CCDRangeRsp? ||
    k.MedianRsp? ||
    k.AnalogOutputRsp?
  }

  /** The classes for the encoders. */
  predicate IsEncoderKind(k: RspKind) {
    k.EncoderCounterRsp? ||
    k.EncoderCounterSourceRsp? ||
    k.EncoderPreloadFunctionRsp? ||
    k.EncoderTriggerEnabledRsp? ||
    k.EncoderTriggerPropertyRsp?
  }

  /** The classes for the trigger mode and the downloads. */
  predicate IsTriggerAndTableKind(k: RspKind) {
    k.DeviceTriggerModeRsp? ||
    k.DownloadSpectrumRsp? ||
    k.DownloadSpectrumImageRsp? ||
    k.DownloadTableRsp?
  }

  /** Every class is reachable: its own target id (with a suitable spectrum
      kind) selects it. */
  lemma EveryClassReachable(k: RspKind)
    ensures KindFor(TargetId(k), Ok(SelectingSpecType(k))) == Some(k)
  {
    if IsSetupKind(k) {
      SetupClassesReachable(k);
    } else if IsDetectionKind(k) {
      DetectionClassesReachable(k);
    } else if IsAcquisitionKind(k) {
      AcquisitionClassesReachable(k);
    } else if IsEncoderKind(k) {
      EncoderClassesReachable(k);
    } else {
      TriggerAndTableClassesReachable(k);
    }
  }

  lemma SetupClassesReachable(k: RspKind)
    requires IsSetupKind(k)
    ensures KindFor(TargetId(k), Ok(SelectingSpecType(k))) == Some(k)
  {
  }

  lemma DetectionClassesReachable(k: RspKind)
    requires IsDetectionKind(k)
    ensures KindFor(TargetId(k), Ok(SelectingSpecType(k))) == Some(k)
  {
  }

  lemma AcquisitionClassesReachable(k: RspKind)
    requires IsAcquisitionKind(k)
    ensures KindFor(TargetId(k), Ok(SelectingSpecType(k))) == Some(k)
  {
  }

  lemma EncoderClassesReachable(k: RspKind)
    requires IsEncoderKind(k)
    ensures KindFor(TargetId(k), Ok(SelectingSpecType(k))) == Some(k)
  {
  }

  lemma TriggerAndTableClassesReachable(k: RspKind)
    requires !IsSetupKind(k) && !IsDetectionKind(k) && !IsAcquisitionKind(k) && !IsEncoderKind(k)
    ensures KindFor(TargetId(k), Ok(SelectingSpecType(k))) == Some(k)
  {
  }

  /** Only the two download-spectrum classes share a target id. */
  lemma TargetIdsDistinct(k1: RspKind, k2: RspKind)
    requires TargetId(k1) == TargetId(k2)
    ensures k1 == k2 || {k1, k2} == {DownloadSpectrumRsp, DownloadSpectrumImageRsp}
  {
    EveryClassReachable(k1);
    EveryClassReachable(k2);
  }

  /** The download-spectrum id picks its class by spectrum kind: raw,
      confocal and FT spectra, or the 2-D image; any other kind, or a first
      parameter that cannot be read as an integer, leaves the reader as it is. */
  lemma DownloadSpectrumDispatch(r: TResponse)
    requires r.Valid() && r.ResponseID() == CmdIdDownloadSpectrum
    ensures var s := GetSpecificResponse(r);
      var t := r.GetIntParameter(0);
      (s.Specific? && s.rsp.kind == DownloadSpectrumRsp <==> t.Ok? && 0 <= t.value <= 2) &&
      (s.Specific? && s.rsp.kind == DownloadSpectrumImageRsp <==> t == Ok(3)) &&
      (s.Generic? <==> t.Err? || t.value < 0 || t.value > 3)
  {
  }

  /** A response whose id is the target id of a class is wrapped in that
      class; for the download-spectrum id the first parameter must name a
      kind of that class. */
  lemma ResponseGetsItsClass(r: TResponse, k: RspKind)
    requires r.Valid() && r.ResponseID() == TargetId(k)
    requires k == DownloadSpectrumRsp ==>
      r.GetIntParameter(0).Ok? && SpectrumRaw <= r.GetIntParameter(0).value <= SpectrumFT
    requires k == DownloadSpectrumImageRsp ==> r.GetIntParameter(0) == Ok(Spectrum2DImage)
    ensures GetSpecificResponse(r) == Specific(BaseRsp(k, r))
  {
    if k == DownloadSpectrumRsp || k == DownloadSpectrumImageRsp {
      DownloadSpectrumDispatch(r);
    } else {
      EveryClassReachable(k);
      if TargetId(k) == CmdIdDownloadSpectrum {
        TargetIdsDistinct(k, DownloadSpectrumRsp);
        assert false;
      }
      assert KindFor(TargetId(k), r.GetIntParameter(0)) == KindFor(TargetId(k), Ok(SelectingSpecType(k)));
    }
  }

  /** A response whose id belongs to no class stays the general reader. */
  lemma UnknownIdStaysGeneric(r: TResponse)
    requires r.Valid() && forall k :: TargetId(k) != r.ResponseID()
    ensures GetSpecificResponse(r) == Generic(r)
  {
  }

  /** Conversely, outside the download-spectrum id a response stays the
      general reader only when its id belongs to no class. */
  lemma GenericOnlyForUnknownIds(r: TResponse)
    requires r.Valid() && r.ResponseID() != CmdIdDownloadSpectrum
    requires GetSpecificResponse(r).Generic?
    ensures forall k :: TargetId(k) != r.ResponseID()
  {
    forall k | TargetId(k) == r.ResponseID()
      ensures false
    {
      ResponseGetsItsClass(r, k);
    }
  }

  // ---------------------------------------------------------------------------
  // Command classes and response classes.
  // ---------------------------------------------------------------------------

  /** The response class belonging to each command class. */
  function RequestKind(r: CmdRequest): RspKind {
    match r
    case OutputSignalsCmd(_, _) => OutputSignalsRsp
    case FirmwareVersionCmd => FirmwareVersionRsp
    case MeasuringMethodCmd(_, _) => MeasuringMethodRsp
    case FullScaleCmd => FullScaleRsp
    case ScanRateCmd(_, _) => ScanRateRsp
    case DataAverageCmd(_, _) => DataAverageRsp
    case SpectrumAverageCmd(_, _) => SpectrumAverageRsp
    case RefractiveIndicesCmd(_, _) => RefractiveIndicesRsp
    case AbbeNumbersCmd(_, _) => AbbeNumbersRsp
    case RefractiveIndexTablesCmd(_, _) => RefractiveIndexTablesRsp
    case LampIntensityCmd(_, _) => LampIntensityRsp
    case OpticalProbeCmd(_, _) => OpticalProbeRsp
    case ConfocalDetectionThresholdCmd(_, _) => ConfocalDetectionThresholdRsp
    case InterQualityThresholdCmd(_, _) => InterQualityThresholdRsp
    case DutyCycleCmd(_, _) => DutyCycleRsp
    case DetectionWindowActiveCmd(_, _) => DetectionWindowActiveRsp
    case DetectionWindowCmd(_, _) => DetectionWindowRsp
    case NumberOfPeaksCmd(_, _) => NumberOfPeaksRsp
    case PeakOrderingCmd(_, _) => PeakOrderingRsp
    case DarkReferenceCmd => DarkReferenceRsp
    case StartDataStreamCmd => StartDataStreamRsp
    case StopDataStreamCmd => StopDataStreamRsp
    case LightSourceAutoAdaptCmd(_, _, _) => LightSourceAutoAdaptRsp
    case CCDRangeCmd(_, _, _) => CCDRangeRsp
    case MedianCmd(_, _, _) => MedianRsp
    case AnalogOutputCmd(_, _, _, _, _, _, _, _) => AnalogOutputRsp
    case EncoderCounterCmd(_, _, _) => EncoderCounterRsp
    case EncoderCounterSourceCmd(_, _, _) => EncoderCounterSourceRsp
    case EncoderPreloadFunctionCmd(_, _, _, _) => EncoderPreloadFunctionRsp
    case EncoderTriggerEnabledCmd(_, _) => EncoderTriggerEnabledRsp
    case EncoderTriggerPropertyCmd(_, _, _, _, _, _) => EncoderTriggerPropertyRsp
    case DeviceTriggerModeCmd(_) => DeviceTriggerModeRsp
    case DownloadSpectrumCmd(_, _, _) => DownloadSpectrumRsp
    case DownloadSpectrumImageCmd(_, _, _, _) => DownloadSpectrumImageRsp
    case DownloadTableCmd(_, _, _, _) => DownloadTableRsp
  }

  /** The command classes for the measuring setup. */
  predicate IsSetupRequest(r: CmdRequest) {
    r.OutputSignalsCmd? ||
    r.FirmwareVersionCmd? ||
    r.MeasuringMethodCmd? ||
    r.FullScaleCmd? ||
    r.ScanRateCmd? ||
    r.DataAverageCmd? ||
    r.SpectrumAverageCmd? ||
    r.RefractiveIndicesCmd? ||
    r.AbbeNumbersCmd?
  }

  /** The command classes for detection. */
  predicate IsDetectionRequest(r: CmdRequest) {
    r.RefractiveIndexTablesCmd? ||
    r.LampIntensityCmd? ||
    r.OpticalProbeCmd? ||
    r.ConfocalDetectionThresholdCmd? ||
    r.InterQualityThresholdCmd? ||
    r.DutyCycleCmd? ||
    r.DetectionWindowActiveCmd? ||
    r.DetectionWindowCmd? ||
    r.NumberOfPeaksCmd? ||
    r.PeakOrderingCmd?
  }

  /** The command classes for acquisition and output. */
  predicate IsAcquisitionRequest(r: CmdRequest) {
    r.DarkReferenceCmd? ||
    r.StartDataStreamCmd? ||
    r.StopDataStreamCmd? ||
    r.LightSourceAutoAdaptCmd? ||
    r.CCDRangeCmd? ||
    r.MedianCmd? ||
    r.AnalogOutputCmd?
  }

  /** The command classes for encoders, triggers and downloads. */
  predicate IsEncoderRequest(r: CmdRequest) {
    r.EncoderCounterCmd? ||
    r.EncoderCounterSourceCmd? ||
    r.EncoderPreloadFunctionCmd? ||
    r.EncoderTriggerEnabledCmd? ||
    r.EncoderTriggerPropertyCmd? ||
    r.DeviceTriggerModeCmd? ||
    r.DownloadSpectrumCmd? ||
    r.DownloadSpectrumImageCmd? ||
    r.DownloadTableCmd?
  }

  /** A command and its response class agree on the id. */
  lemma RequestAndResponseShareId(r: CmdRequest)
    ensures TargetId(RequestKind(r)) == RequestId(r)
  {
    if IsSetupRequest(r) {
      SetupRequestsShareId(r);
    } else if IsDetectionRequest(r) {
      DetectionRequestsShareId(r);
    } else if IsAcquisitionRequest(r) {
      AcquisitionRequestsShareId(r);
    } else {
      EncoderRequestsShareId(r);
    }
  }

  lemma SetupRequestsShareId(r: CmdRequest)
    requires IsSetupRequest(r)
    ensures TargetId(RequestKind(r)) == RequestId(r)
  {
  }

  lemma DetectionRequestsShareId(r: CmdRequest)
    requires IsDetectionRequest(r)
    ensures TargetId(RequestKind(r)) == RequestId(r)
  {
  }

  lemma AcquisitionRequestsShareId(r: CmdRequest)
    requires IsAcquisitionRequest(r)
    ensures TargetId(RequestKind(r)) == RequestId(r)
  {
  }

  lemma EncoderRequestsShareId(r: CmdRequest)
    requires !IsSetupRequest(r) && !IsDetectionRequest(r) && !IsAcquisitionRequest(r)
    ensures TargetId(RequestKind(r)) == RequestId(r)
  {
  }

  /** Property j reads back command argument j: same position, same type. */
  predicate Fits(g: Getter, j: nat, o: Obj) {
    match g
    case IntProp(i) => i == j && o.Int32Obj?
    case FloatProp(i) => i == j && o.FloatObj?
    case BoolProp(i) => i == j && o.Int32Obj?
    case IntArrayProp => j == 0 && o.Int32ArrayObj?
    case FloatArrayProp => j == 0 && o.FloatArrayObj?
    case _ => false
  }

  /** The value a fitting property reads from a response that repeats the
      argument. */
  function Echo(g: Getter, j: nat, o: Obj): Value
    requires Fits(g, j, o)
  {
    match g
    case IntProp(_) => IntValue(o.i)
    case FloatProp(_) => FloatValue(o.f)
    case BoolProp(_) => BoolValue(o.i != 0)
    case IntArrayProp => IntsValue(o.ints)
    case FloatArrayProp => FloatsValue(o.floats)
  }

  /** Every set command whose response class has one property per argument
      lists its arguments in the order and with the types of the properties. */
  lemma SettingsMatchProperties(r: CmdRequest)
    requires !RequestQuery(r) && |RequestArgs(r)| == |Getters(RequestKind(r))|
    ensures forall j :: 0 <= j < |RequestArgs(r)| ==> Fits(Getters(RequestKind(r))[j], j, RequestArgs(r)[j])
  {
    if IsSetupRequest(r) {
      SetupSettingsMatch(r);
    } else if IsDetectionRequest(r) {
      DetectionSettingsMatch(r);
    } else if IsAcquisitionRequest(r) {
      AcquisitionSettingsMatch(r);
    } else {
      EncoderSettingsMatch(r);
    }
  }

  lemma SetupSettingsMatch(r: CmdRequest)
    requires IsSetupRequest(r)
    requires !RequestQuery(r) && |RequestArgs(r)| == |Getters(RequestKind(r))|
    ensures forall j :: 0 <= j < |RequestArgs(r)| ==> Fits(Getters(RequestKind(r))[j], j, RequestArgs(r)[j])
  {
  }

  lemma DetectionSettingsMatch(r: CmdRequest)
    requires IsDetectionRequest(r)
    requires !RequestQuery(r) && |RequestArgs(r)| == |Getters(RequestKind(r))|
    ensures forall j :: 0 <= j < |RequestArgs(r)| ==> Fits(Getters(RequestKind(r))[j], j, RequestArgs(r)[j])
  {
  }

  lemma AcquisitionSettingsMatch(r: CmdRequest)
    requires IsAcquisitionRequest(r)
    requires !RequestQuery(r) && |RequestArgs(r)| == |Getters(RequestKind(r))|
    ensures forall j :: 0 <= j < |RequestArgs(r)| ==> Fits(Getters(RequestKind(r))[j], j, RequestArgs(r)[j])
  {
  }

  lemma EncoderSettingsMatch(r: CmdRequest)
    requires !IsSetupRequest(r) && !IsDetectionRequest(r) && !IsAcquisitionRequest(r)
    requires !RequestQuery(r) && |RequestArgs(r)| == |Getters(RequestKind(r))|
    ensures forall j :: 0 <= j < |RequestArgs(r)| ==> Fits(Getters(RequestKind(r))[j], j, RequestArgs(r)[j])
  {
  }

  /** A reader holding exactly the given arguments, each with its own tag. */
  predicate Repeats(rd: TResponse, objs: seq<Obj>)
    reads rd
  {
    rd.params == ParamsOf(objs) && |rd.paramTypeInfo| == |objs| &&
    forall j :: 0 <= j < |objs| ==> rd.paramTypeInfo[j] == TagOf(rd.params[j])
  }

  /** A property reads back the argument it fits from a reader that repeats
      the arguments. */
  lemma EchoedArgument(rd: TResponse, b: BaseRsp, objs: seq<Obj>, j: nat)
    requires b.reader == rd && Repeats(rd, objs) && CheckRspValid(b).Ok?
    requires j < |objs| && j < |Getters(b.kind)| && Fits(Getters(b.kind)[j], j, objs[j])
    ensures rd.Valid()
    ensures ReadProperty(b, Getters(b.kind)[j]) == Ok(Echo(Getters(b.kind)[j], j, objs[j]))
  {
    var g := Getters(b.kind)[j];
    assert rd.params[j] == ParamOf(objs[j]);
    if g.IntArrayProp? || g.FloatArrayProp? {
      assert rd.ParamCount() > 0;
    }
  }

  /** The response to a set command, when the device repeats the settings,
      reads back every setting through the response class's properties. */
  lemma SettingsReadBack(b: BaseRsp, r: CmdRequest, j: nat)
    requires !RequestQuery(r) && b.kind == RequestKind(r)
    requires |RequestArgs(r)| == |Getters(b.kind)| && j < |RequestArgs(r)|
    requires b.reader.ResponseID() == RequestId(r) && Repeats(b.reader, RequestArgs(r))
    ensures b.reader.Valid() && Fits(Getters(b.kind)[j], j, RequestArgs(r)[j])
    ensures ReadProperty(b, Getters(b.kind)[j]) == Ok(Echo(Getters(b.kind)[j], j, RequestArgs(r)[j]))
  {
    RequestAndResponseShareId(r);
    SettingsMatchProperties(r);
    EchoedArgument(b.reader, b, RequestArgs(r), j);
  }

  // ---------------------------------------------------------------------------
  // Execution.
  // ---------------------------------------------------------------------------

  /** Builds the reader for a response handle and picks its class. */
  method GetResponse(cbInfo: CallbackInfo, h: RspHandle, floatText: Float32 -> string)
    returns (s: SpecificRsp, rd: TResponse)
    requires h.WellFormed()
    ensures fresh(rd) && rd.Valid()
    ensures rd.Holds(cbInfo, h, floatText)
    ensures s == GetSpecificResponse(rd)
  {
    rd := new TResponse.FromCallbackInfo(cbInfo, h, floatText);
    s := GetSpecificResponse(rd);
  }

  /** What the library's ExecCommand reports for a command. */
  datatype LibraryReply = LibraryReply(res: ResT, rsp: RspHandle)

  /** Runs a command synchronously: no response on failure, otherwise the
      response with ticket 0, no state pointer and the connection as source. */
  method ExecCommand(conn: ConnH, cmd: TCommand, reply: LibraryReply, floatText: Float32 -> string)
    returns (nRes: ResT, rsp: Option<SpecificRsp>)
    requires ResultSuccess(reply.res) ==> reply.rsp.WellFormed()
    ensures nRes == reply.res
    ensures rsp.None? <==> !ResultSuccess(nRes)
    ensures rsp.Some? ==>
      var rd := ReaderOf(rsp.value);
      fresh(rd) && rd.Valid() && rd.Holds(CallbackInfo(null, 0, conn), reply.rsp, floatText) &&
      rsp.value == GetSpecificResponse(rd)
  {
    nRes := reply.res;
    if !ResultSuccess(nRes) {
      rsp := None;
    } else {
      var s, rd := GetResponse(CallbackInfo(null, 0, conn), reply.rsp, floatText);
      rsp := Some(s);
    }
  }
}
