/** The command writer (TCommand) and the specific command classes, which
    create a command for one id and append its arguments in a fixed order. */
module Command {
  import opened Ints
  import opened Wrappers
  import opened FunctionWrapper
  import opened Float32
  import opened Names
  import opened Response

  /** The .NET objects AddParameter is called with. */
  datatype Obj =
    | Int32Obj(i: int32)
    | BoolObj(b: bool)
    | FloatObj(f: Float32)
    | Int32ArrayObj(ints: seq<int32>)
    | FloatArrayObj(floats: seq<Float32>)
    | ByteArrayObj(bytes: seq<uint8>)
    | StringObj(s: string)

  /** The argument the library receives for an object: dispatched on its
      runtime type, with anything that is not a float, array or string
      converted by Convert.ToInt32 (true is 1, false is 0). */
  function ParamOf(o: Obj): (p: Param)
    ensures o.Int32Obj? ==> p == IntParam(o.i)
    ensures o.BoolObj? ==> p == IntParam(if o.b then 1 else 0)
    ensures o.FloatObj? ==> p == FloatParam(o.f)
    ensures o.Int32ArrayObj? ==> p == IntArrayParam(o.ints)
    ensures o.FloatArrayObj? ==> p == FloatArrayParam(o.floats)
    ensures o.ByteArrayObj? ==> p == BlobParam(o.bytes)
    ensures o.StringObj? ==> p == StringParam(o.s)
  {
    var tag :=
      if o.FloatObj? then RspParamTypeFloat
      else if o.Int32ArrayObj? then RspParamTypeIntegerArray
      else if o.FloatArrayObj? then RspParamTypeFloatArray
      else if o.ByteArrayObj? then RspParamTypeByteArray
      else if o.StringObj? then RspParamTypeString
      else RspParamTypeInteger;
    if tag == RspParamTypeInteger then IntParam(ConvertToInt32(o))
    else match o
      case FloatObj(f) => FloatParam(f)
      case Int32ArrayObj(xs) => IntArrayParam(xs)
      case FloatArrayObj(xs) => FloatArrayParam(xs)
      case ByteArrayObj(bs) => BlobParam(bs)
      case StringObj(s) => StringParam(s)
      case _ => IntParam(ConvertToInt32(o))
  }

  /** Convert.ToInt32 on the objects that reach the integer case. */
  function ConvertToInt32(o: Obj): int32 {
    match o
    case Int32Obj(i) => i
    case BoolObj(b) => if b then 1 else 0
    case _ => 0
  }

  function ParamsOf(objs: seq<Obj>): (ps: seq<Param>)
    ensures |ps| == |objs|
    ensures forall k :: 0 <= k < |objs| ==> ps[k] == ParamOf(objs[k])
  {
    if |objs| == 0 then [] else ParamsOf(objs[..|objs| - 1]) + [ParamOf(objs[|objs| - 1])]
  }

  /** A command being assembled. `query` and `args` stand for the library's
      command object behind the handle: its query flag and the arguments
      appended so far. */
  class TCommand {
    var cmdId: uint32
    var query: bool
    var args: seq<Param>

    /** The constructor taking a command id. */
    constructor (id: uint32, isQuery: bool)
      ensures cmdId == id && query == isQuery && args == []
    {
      cmdId, query, args := id, isQuery, [];
    }

    /** The constructor taking a command name; it throws where PackName fails. */
    static method FromName(name: string, isQuery: bool) returns (r: Result<TCommand, Fault>)
      ensures r.Err? <==> PackName(name).Err?
      ensures r.Err? ==> r.error == PackName(name).error
      ensures r.Ok? ==> fresh(r.value) && r.value.cmdId == PackName(name).value &&
                        r.value.query == isQuery && r.value.args == []
    {
      var packed := PackName(name);
      if packed.Err? {
        return Err(packed.error);
      }
      var c := new TCommand(packed.value, isQuery);
      return Ok(c);
    }

    /** All four bytes of the id as characters. */
    function CmdName(): (name: string)
      reads this
      ensures |name| == 4
    {
      Names.CmdName(cmdId)
    }

    method AddParameter(o: Obj)
      modifies this
      ensures args == old(args) + [ParamOf(o)]
      ensures cmdId == old(cmdId) && query == old(query)
    {
      args := args + [ParamOf(o)];
    }
  }

  /** A command whose name the round trip restores reports that name with a
      NUL appended when it has three characters. */
  lemma CmdNameOfPackedName(name: string)
    requires IsCommandName(name)
    ensures PackName(name).Ok?
    ensures Names.CmdName(PackName(name).value) ==
      (if |name| == 3 then name + ['\0'] else name)
  {
    PackNameRoundTrip(name);
  }

  // ---------------------------------------------------------------------------
  // The specific command classes, one constructor each, with their
  // constructor arguments. A null array argument is None.
  // ---------------------------------------------------------------------------

  datatype CmdRequest =
    | OutputSignalsCmd(query: bool, signals: Option<seq<int32>>)
    | FirmwareVersionCmd
    | MeasuringMethodCmd(query: bool, measuringMethod: int32)
    | FullScaleCmd
    | ScanRateCmd(query: bool, rate: Float32)
    | DataAverageCmd(query: bool, average: int32)
    | SpectrumAverageCmd(query: bool, average: int32)
    | RefractiveIndicesCmd(query: bool, indices: Option<seq<Float32>>)
    | AbbeNumbersCmd(query: bool, numbers: Option<seq<Float32>>)
    | RefractiveIndexTablesCmd(query: bool, tables: Option<seq<int32>>)
    | LampIntensityCmd(query: bool, intensity: Float32)
    | OpticalProbeCmd(query: bool, probe: int32)
    | ConfocalDetectionThresholdCmd(query: bool, threshold: Float32)
    | InterQualityThresholdCmd(query: bool, threshold: Float32)
    | DutyCycleCmd(query: bool, dutyCycle: Float32)
    | DetectionWindowActiveCmd(query: bool, active: bool)
    | DetectionWindowCmd(query: bool, windows: Option<seq<Float32>>)
    | NumberOfPeaksCmd(query: bool, number: int32)
    | PeakOrderingCmd(query: bool, ordering: int32)
    | DarkReferenceCmd
    | StartDataStreamCmd
    | StopDataStreamCmd
    | LightSourceAutoAdaptCmd(query: bool, autoAdapt: int32, level: Float32)
    | CCDRangeCmd(query: bool, startPixel: int32, stopPixel: int32)
    | MedianCmd(query: bool, width: int32, percentile: Float32)
    | AnalogOutputCmd(query: bool, index: int32, signalId: int32, min: Float32, max: Float32,
                      volMin: Float32, volMax: Float32, volInvalid: Float32)
    | EncoderCounterCmd(query: bool, axis: int32, position: int32)
    | EncoderCounterSourceCmd(query: bool, axis: int32, source: int32)
    | EncoderPreloadFunctionCmd(query: bool, axis: int32, preloadValue: int32, config: int32)
    | EncoderTriggerEnabledCmd(query: bool, enabled: bool)
    | EncoderTriggerPropertyCmd(query: bool, axis: int32, startPos: int32, stopPos: int32,
                                interval: Float32, onReturnMove: bool)
    | DeviceTriggerModeCmd(mode: int32)
    | DownloadSpectrumCmd(specType: int32, startChannel: int32, channelCount: int32)
    | DownloadSpectrumImageCmd(x: int32, y: int32, width: int32, height: int32)
    | DownloadTableCmd(tableType: int32, tableIndex: int32, byteOffset: int32, length: int32)

  /** The CMD_ID of each class. */
  function RequestId(r: CmdRequest): uint32 {
    match r
    case OutputSignalsCmd(_, _) => CmdIdOutputSignals
    case FirmwareVersionCmd => CmdIdFirmwareVersion
    case MeasuringMethodCmd(_, _) => CmdIdMeasuringMethod
    case FullScaleCmd => CmdIdFullScale
    case ScanRateCmd(_, _) => CmdIdScanRate
    case DataAverageCmd(_, _) => CmdIdDataAverage
    case SpectrumAverageCmd(_, _) => CmdIdSpectrumAverage
    case RefractiveIndicesCmd(_, _) => CmdIdRefractiveIndices
    case AbbeNumbersCmd(_, _) => CmdIdAbbeNumbers
    case RefractiveIndexTablesCmd(_, _) => CmdIdRefractiveIndexTables
    case LampIntensityCmd(_, _) => CmdIdLampIntensity
    case OpticalProbeCmd(_, _) => CmdIdOpticalProbe
    case ConfocalDetectionThresholdCmd(_, _) => CmdIdConfocalDetectionThreshold
    case InterQualityThresholdCmd(_, _) => CmdIdInterferometricQualityThreshold
    case DutyCycleCmd(_, _) => CmdIdDutyCycle
    case DetectionWindowActiveCmd(_, _) => CmdIdDetectionWindowActive
    case DetectionWindowCmd(_, _) => CmdIdDetectionWindow
    case NumberOfPeaksCmd(_, _) => CmdIdNumberOfPeaks
    case PeakOrderingCmd(_, _) => CmdIdPeakOrdering
    case DarkReferenceCmd => CmdIdDarkReference
    case StartDataStreamCmd => CmdIdStartDataStream
    case StopDataStreamCmd => CmdIdStopDataStream
    case LightSourceAutoAdaptCmd(_, _, _) => CmdIdLightSourceAutoAdapt
    case CCDRangeCmd(_, _, _) => CmdIdCCDRange
    case MedianCmd(_, _, _) => CmdIdMedian
    case AnalogOutputCmd(_, _, _, _, _, _, _, _) => CmdIdAnalogOutput
    case EncoderCounterCmd(_, _, _) => CmdIdEncoderCounter
    case EncoderCounterSourceCmd(_, _, _) => CmdIdEncoderCounterSource
    case EncoderPreloadFunctionCmd(_, _, _, _) => CmdIdEncoderPreloadFunction
    case EncoderTriggerEnabledCmd(_, _) => CmdIdEncoderTriggerEnabled
    case EncoderTriggerPropertyCmd(_, _, _, _, _, _) => CmdIdEncoderTriggerProperty
    case DeviceTriggerModeCmd(_) => CmdIdDeviceTriggerMode
    case DownloadSpectrumCmd(_, _, _) => CmdIdDownloadSpectrum
    case DownloadSpectrumImageCmd(_, _, _, _) => CmdIdDownloadSpectrum
    case DownloadTableCmd(_, _, _, _) => CmdIdDownloadUploadTable
  }

  /** The query flag each class passes to the base constructor. */
  function RequestQuery(r: CmdRequest): bool {
    match r
    case FirmwareVersionCmd => false
    case FullScaleCmd => false
    case DarkReferenceCmd => false
    case StartDataStreamCmd => false
    case StopDataStreamCmd => false
    case DeviceTriggerModeCmd(_) => false
    case DownloadSpectrumCmd(_, _, _) => false
    case DownloadSpectrumImageCmd(_, _, _, _) => false
    case DownloadTableCmd(_, _, _, _) => true
    case _ => r.query
  }

  function IntObj(b: bool): Obj {
    Int32Obj(if b then 1 else 0)
  }

  /** The objects each constructor passes to AddParameter, in call order. */
  function RequestArgs(r: CmdRequest): seq<Obj> {
    match r
    case OutputSignalsCmd(q, s) =>
      if !q && s.Some? && |s.value| > 0 then [Int32ArrayObj(s.value)] else []
    case FirmwareVersionCmd => []
    case MeasuringMethodCmd(q, m) => if !q then [Int32Obj(m)] else []
    case FullScaleCmd => []
    case ScanRateCmd(q, rate) => if !q then [FloatObj(rate)] else []
    case DataAverageCmd(q, n) => if !q then [Int32Obj(n)] else []
    case SpectrumAverageCmd(q, n) => if !q then [Int32Obj(n)] else []
    case RefractiveIndicesCmd(q, a) => if !q && a.Some? then [FloatArrayObj(a.value)] else []
    case AbbeNumbersCmd(q, a) => if !q && a.Some? then [FloatArrayObj(a.value)] else []
    case RefractiveIndexTablesCmd(q, a) => if !q && a.Some? then [Int32ArrayObj(a.value)] else []
    case LampIntensityCmd(q, x) => if !q then [FloatObj(x)] else []
    case OpticalProbeCmd(q, n) => if !q then [Int32Obj(n)] else []
    case ConfocalDetectionThresholdCmd(q, x) => if !q then [FloatObj(x)] else []
    case InterQualityThresholdCmd(q, x) => if !q then [FloatObj(x)] else []
    case DutyCycleCmd(q, x) => if !q then [FloatObj(x)] else []
    case DetectionWindowActiveCmd(q, b) => if !q then [IntObj(b)] else []
    case DetectionWindowCmd(q, a) => if !q && a.Some? then [FloatArrayObj(a.value)] else []
    case NumberOfPeaksCmd(q, n) => if !q then [Int32Obj(n)] else []
    case PeakOrderingCmd(q, n) => if !q then [Int32Obj(n)] else []
    case DarkReferenceCmd => []
    case StartDataStreamCmd => []
    case StopDataStreamCmd => []
    case LightSourceAutoAdaptCmd(q, a, level) => if !q then [Int32Obj(a), FloatObj(level)] else []
    case CCDRangeCmd(q, start, stop) => if !q then [Int32Obj(start), Int32Obj(stop)] else []
    case MedianCmd(q, w, p) => if !q then [Int32Obj(w), FloatObj(p)] else []
    case AnalogOutputCmd(q, i, sig, mn, mx, vmn, vmx, vinv) =>
      if !q then [Int32Obj(i), Int32Obj(sig), FloatObj(mn), FloatObj(mx),
                  FloatObj(vmn), FloatObj(vmx), FloatObj(vinv)] else []
    case EncoderCounterCmd(q, axis, pos) => if !q then [Int32Obj(axis), Int32Obj(pos)] else []
    case EncoderCounterSourceCmd(q, axis, src) => if !q then [Int32Obj(axis), Int32Obj(src)] else []
    case EncoderPreloadFunctionCmd(q, axis, v, c) =>
      if !q then [Int32Obj(axis), Int32Obj(v), Int32Obj(c)] else []
    case EncoderTriggerEnabledCmd(q, b) => if !q then [IntObj(b)] else []
    case EncoderTriggerPropertyCmd(q, axis, start, stop, interval, ret) =>
      if !q then [Int32Obj(axis), Int32Obj(start), Int32Obj(stop), FloatObj(interval), IntObj(ret)]
      else []
    case DeviceTriggerModeCmd(m) => [Int32Obj(m)]
    case DownloadSpectrumCmd(t, start, count) => [Int32Obj(t), Int32Obj(start), Int32Obj(count)]
    case DownloadSpectrumImageCmd(x, y, w, h) =>
      [Int32Obj(Spectrum2DImage), Int32Obj(x), Int32Obj(y), Int32Obj(w), Int32Obj(h)]
    case DownloadTableCmd(t, i, off, len) => [Int32Obj(t), Int32Obj(i), Int32Obj(off), Int32Obj(len)]
  }

  /** Runs a specific class's constructor: the base constructor with the
      class's id and query flag, then one AddParameter per argument. */
  method Build(r: CmdRequest) returns (c: TCommand)
    ensures fresh(c)
    ensures c.cmdId == RequestId(r) && c.query == RequestQuery(r)
    ensures c.args == ParamsOf(RequestArgs(r))
  {
    c := new TCommand(RequestId(r), RequestQuery(r));
    var objs := RequestArgs(r);
    var i := 0;
    while i < |objs|
      invariant 0 <= i <= |objs|
      invariant c.cmdId == RequestId(r) && c.query == RequestQuery(r)
      invariant c.args == ParamsOf(objs[..i])
    {
      c.AddParameter(objs[i]);
      assert objs[..i + 1][..i] == objs[..i];
      i := i + 1;
    }
    assert objs[..i] == objs;
  }

  // ---------------------------------------------------------------------------
  // Properties of the command classes.
  // ---------------------------------------------------------------------------

  /** A query command carries no arguments, except the table download, which
      is always a query and always carries four. */
  lemma QueryCommandsCarryNoArguments(r: CmdRequest)
    ensures RequestQuery(r) && !r.DownloadTableCmd? ==> RequestArgs(r) == []
    ensures r.DownloadTableCmd? ==> RequestQuery(r) && |RequestArgs(r)| == 4
  {
  }

  /** The classes without a query parameter always build a set command. */
  lemma FixedCommandsAreNotQueries(r: CmdRequest)
    requires r.FirmwareVersionCmd? || r.FullScaleCmd? || r.DarkReferenceCmd? ||
             r.StartDataStreamCmd? || r.StopDataStreamCmd? || r.DeviceTriggerModeCmd? ||
             r.DownloadSpectrumCmd? || r.DownloadSpectrumImageCmd?
    ensures !RequestQuery(r)
  {
  }

  /** Boolean settings are sent as the integers 1 and 0. */
  lemma BooleansSentAsOneOrZero(b: bool)
    ensures ParamsOf(RequestArgs(DetectionWindowActiveCmd(false, b))) == [IntParam(if b then 1 else 0)]
    ensures ParamsOf(RequestArgs(EncoderTriggerEnabledCmd(false, b))) == [IntParam(if b then 1 else 0)]
  {
    var sent := [Int32Obj(if b then 1 else 0)];
    assert RequestArgs(DetectionWindowActiveCmd(false, b)) == sent;
    assert RequestArgs(EncoderTriggerEnabledCmd(false, b)) == sent;
    assert ParamsOf(sent)[0] == ParamOf(sent[0]);
  }

  /** A set command sends its arguments in the order of the constructor's
      parameters: argument k of the command is constructor argument k. */
  lemma SetCommandArgumentOrder(q: bool, axis: int32, start: int32, stop: int32, interval: Float32, ret: bool)
    requires !q
    ensures ParamsOf(RequestArgs(EncoderTriggerPropertyCmd(q, axis, start, stop, interval, ret))) ==
      [IntParam(axis), IntParam(start), IntParam(stop), FloatParam(interval), IntParam(if ret then 1 else 0)]
  {
  }

  /** An empty signal list sends no argument at all, but an empty array of
      refractive indices is sent as an empty array argument. */
  lemma EmptyArraysDiffer()
    ensures RequestArgs(OutputSignalsCmd(false, Some([]))) == []
    ensures RequestArgs(RefractiveIndicesCmd(false, Some([]))) == [FloatArrayObj([])]
    ensures RequestArgs(RefractiveIndicesCmd(false, None)) == []
  {
  }

  /** The 2-D image download shares the download-spectrum id and leads with
      the image spectrum kind. */
  lemma ImageDownloadLeadsWithKind(x: int32, y: int32, w: int32, h: int32)
    ensures RequestId(DownloadSpectrumImageCmd(x, y, w, h)) == CmdIdDownloadSpectrum
    ensures ParamsOf(RequestArgs(DownloadSpectrumImageCmd(x, y, w, h)))[0] == IntParam(Spectrum2DImage)
    ensures |RequestArgs(DownloadSpectrumImageCmd(x, y, w, h))| == 5
  {
  }
}
