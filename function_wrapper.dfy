/** The typed surface of the device library: result codes and their
    classification, the handle wrapper types, and the protocol constants the
    command, response and sample-data layers depend on. */
module FunctionWrapper {
  import opened Ints

  // ---------------------------------------------------------------------------
  // Wrapper types. Each source struct holds one private integer and converts
  // implicitly to and from it; as distinct datatypes they cannot be mixed up.
  // ---------------------------------------------------------------------------

  /** Result code returned by every library call. */
  datatype ResT = ResT(nRes: int32)
  /** Connection handle. */
  datatype ConnH = ConnH(connHandle: uint32)
  /** Command handle. */
  datatype CmdH = CmdH(cmdHandle: uint32)
  /** Response handle. */
  datatype RspH = RspH(rspHandle: uint32)

  function ResFromInt32(i: int32): (r: ResT)
    ensures Int32FromRes(r) == i
  {
    ResT(i)
  }

  function Int32FromRes(r: ResT): (i: int32)
    ensures ResT(i) == r
  {
    r.nRes
  }

  function ConnFromUInt32(i: uint32): (h: ConnH)
    ensures UInt32FromConn(h) == i
  {
    ConnH(i)
  }

  function UInt32FromConn(h: ConnH): (i: uint32)
    ensures ConnH(i) == h
  {
    h.connHandle
  }

  function CmdFromUInt32(i: uint32): (h: CmdH)
    ensures UInt32FromCmd(h) == i
  {
    CmdH(i)
  }

  function UInt32FromCmd(h: CmdH): (i: uint32)
    ensures CmdH(i) == h
  {
    h.cmdHandle
  }

  function RspFromUInt32(i: uint32): (h: RspH)
    ensures UInt32FromRsp(h) == i
  {
    RspH(i)
  }

  function UInt32FromRsp(h: RspH): (i: uint32)
    ensures RspH(i) == h
  {
    h.rspHandle
  }

  /** TSampleSignalInfo: the identifier and sample data type of one signal. */
  datatype SignalInfo = SignalInfo(signalId: uint16, dataType: int16)

  /** TSampleSignalGeneralInfo: the layout generation, the signal counts and
      the number of channels of the sample data. */
  datatype GeneralInfo =
    GeneralInfo(infoIndex: uint32, peakSignalCount: int32, globalSignalCount: int32, channelCount: int32)

  // ---------------------------------------------------------------------------
  // Result classification.
  // ---------------------------------------------------------------------------

  /** C#'s `>>` on Int32: an arithmetic shift, which rounds towards minus
      infinity (Dafny's division by a positive divisor does the same). */
  function ShiftRight30(x: int32): (r: int)
    ensures 0x4000_0000 * r <= x < 0x4000_0000 * (r + 1)
  {
    x / 0x4000_0000
  }

  predicate ResultSuccess(res: ResT) {
    res.nRes >= 0
  }

  predicate ResultInformation(res: ResT) {
    ShiftRight30(res.nRes) == 1
  }

  /** As written; an arithmetic shift by 30 of an Int32 is one of -2, -1, 0, 1,
      so this never holds (see IntendedWarning). */
  predicate ResultWarning(res: ResT) {
    ShiftRight30(res.nRes) == 2
  }

  /** As written; never holds, for the same reason as ResultWarning. */
  predicate ResultError(res: ResT) {
    ShiftRight30(res.nRes) == 3
  }

  lemma ShiftBy30Range(res: ResT)
    ensures -2 <= ShiftRight30(res.nRes) <= 1
    ensures ShiftRight30(res.nRes) == 1 <==> res.nRes >= 0x4000_0000
    ensures ShiftRight30(res.nRes) >= 0 <==> res.nRes >= 0
  {
    var s := ShiftRight30(res.nRes);
    assert 0x4000_0000 * s <= res.nRes < 0x4000_0000 * (s + 1);
  }

  /** ResultInformation holds exactly for codes of at least 2^30. */
  lemma InformationIffHighCode(res: ResT)
    ensures ResultInformation(res) <==> res.nRes >= 0x4000_0000
  {
    ShiftBy30Range(res);
  }

  /** The latent defect: no 32-bit code is classified as a warning or an error. */
  lemma WarningAndErrorNeverHold(res: ResT)
    ensures !ResultWarning(res) && !ResultError(res)
  {
    ShiftBy30Range(res);
  }

  /** The classifiers as written are mutually exclusive, and information is a
      kind of success. */
  lemma ClassifiersConsistent(res: ResT)
    ensures ResultInformation(res) ==> ResultSuccess(res)
    ensures !(ResultInformation(res) && ResultWarning(res))
    ensures !(ResultInformation(res) && ResultError(res))
    ensures !(ResultWarning(res) && ResultError(res))
    ensures !(ResultSuccess(res) && (ResultWarning(res) || ResultError(res)))
  {
    ShiftBy30Range(res);
  }

  /** The top two bits of the code, read as an unsigned number (a logical
      shift of the UInt32 pattern): 0 plain success, 1 information, 2 warning,
      3 error. */
  function TopBits(res: ResT): (t: nat)
    ensures t < 4
    ensures t < 2 <==> res.nRes >= 0
    ensures t == 1 <==> res.nRes >= 0x4000_0000
    ensures t == 2 <==> res.nRes < -0x4000_0000
    ensures t == 3 <==> -0x4000_0000 <= res.nRes < 0
  {
    ToUnsigned32(res.nRes) / 0x4000_0000
  }

  /** The evidently intended warning test: top bits 10. */
  predicate IntendedWarning(res: ResT) {
    TopBits(res) == 2
  }

  /** The evidently intended error test: top bits 11. */
  predicate IntendedError(res: ResT) {
    TopBits(res) == 3
  }

  /** With the intended tests, every code is exactly one of plain success,
      information, warning and error; success and information agree with the
      classifiers as written. */
  lemma IntendedClassesPartition(res: ResT)
    ensures ResultSuccess(res) <==> !IntendedWarning(res) && !IntendedError(res)
    ensures ResultInformation(res) <==> TopBits(res) == 1
    ensures IntendedWarning(res) <==> -0x8000_0000 <= res.nRes < -0x4000_0000
    ensures IntendedError(res) <==> -0x4000_0000 <= res.nRes < 0
    ensures !(IntendedWarning(res) && IntendedError(res))
  {
    InformationIffHighCode(res);
  }

  // ---------------------------------------------------------------------------
  // Constants.
  // ---------------------------------------------------------------------------

  const InvalidHandle: uint32 := 0xFFFF_FFFF

  // Sample data types (TSampleSignalInfo.DataType).
  const DataTypeUnsignedChar: int16 := 0
  const DataTypeSignedChar: int16 := 1
  const DataTypeUnsignedShort: int16 := 2
  const DataTypeSignedShort: int16 := 3
  const DataTypeUnsignedInt32: int16 := 4
  const DataTypeSignedInt32: int16 := 5
  const DataTypeFloat: int16 := 6
  const DataTypeDouble: int16 := 255

  // Response flags (TResponseInfo.Flag).
  const RspFlagQuery: uint32 := 0x0001
  const RspFlagError: uint32 := 0x8000
  const RspFlagWarning: uint32 := 0x4000
  const RspFlagUpdate: uint32 := 0x2000

  // Parameter type tags.
  const RspParamTypeInteger: int32 := 0
  const RspParamTypeFloat: int32 := 1
  const RspParamTypeString: int32 := 2
  const RspParamTypeByteArray: int32 := 4
  const RspParamTypeIntegerArray: int32 := 254
  const RspParamTypeFloatArray: int32 := 255

  // Command identifiers: up to four ASCII characters, least significant byte first.
  const CmdIdOutputSignals: uint32 := 0x58444f53
  const CmdIdFirmwareVersion: uint32 := 0x00524556
  const CmdIdMeasuringMethod: uint32 := 0x00444d4d
  const CmdIdFullScale: uint32 := 0x00414353
  const CmdIdScanRate: uint32 := 0x005a4853
  const CmdIdDataAverage: uint32 := 0x00445641
  const CmdIdSpectrumAverage: uint32 := 0x00535641
  const CmdIdSerialDataAverage: uint32 := 0x53445641
  const CmdIdRefractiveIndices: uint32 := 0x00495253
  const CmdIdAbbeNumbers: uint32 := 0x00454241
  const CmdIdRefractiveIndexTables: uint32 := 0x00545253
  const CmdIdLampIntensity: uint32 := 0x0049414c
  const CmdIdOpticalProbe: uint32 := 0x004e4553
  const CmdIdConfocalDetectionThreshold: uint32 := 0x00524854
  const CmdIdPeakSeparationMin: uint32 := 0x004D4350
  const CmdIdInterferometricQualityThreshold: uint32 := 0x00485451
  const CmdIdDutyCycle: uint32 := 0x00594344
  const CmdIdDetectionWindowActive: uint32 := 0x00414d4c
  const CmdIdDetectionWindow: uint32 := 0x00445744
  const CmdIdNumberOfPeaks: uint32 := 0x00504f4e
  const CmdIdPeakOrdering: uint32 := 0x00444f50
  const CmdIdDarkReference: uint32 := 0x004b5244
  const CmdIdContinuousDarkReference: uint32 := 0x4b445243
  const CmdIdStartDataStream: uint32 := 0x00415453
  const CmdIdStopDataStream: uint32 := 0x004f5453
  const CmdIdLightSourceAutoAdapt: uint32 := 0x004c4141
  const CmdIdCCDRange: uint32 := 0x00415243
  const CmdIdMedian: uint32 := 0x5844454d
  const CmdIdAnalogOutput: uint32 := 0x58414e41
  const CmdIdEncoderCounter: uint32 := 0x53504525
  const CmdIdEncoderCounterSource: uint32 := 0x53434525
  const CmdIdEncoderPreloadFunction: uint32 := 0x46504525
  const CmdIdEncoderTriggerEnabled: uint32 := 0x45544525
  const CmdIdEncoderTriggerProperty: uint32 := 0x50544525
  const CmdIdDeviceTriggerMode: uint32 := 0x4d525425
  const CmdIdDownloadSpectrum: uint32 := 0x444c4e44
  const CmdIdSaveSettings: uint32 := 0x00555353
  const CmdIdDownloadUploadTable: uint32 := 0x4C424154

  // Spectrum kinds (first parameter of a download-spectrum command).
  const SpectrumRaw: int32 := 0
  const SpectrumConfocal: int32 := 1
  const SpectrumFT: int32 := 2
  const Spectrum2DImage: int32 := 3

  /** The four response flags are distinct single bits: 0, 13, 14 and 15. */
  lemma ResponseFlagsAreSingleBits()
    ensures RspFlagQuery == Pow2(0) && RspFlagUpdate == Pow2(13)
    ensures RspFlagWarning == Pow2(14) && RspFlagError == Pow2(15)
  {
  }

  /** The six parameter tags are pairwise distinct. */
  lemma ParamTagsDistinct()
    ensures |{RspParamTypeInteger, RspParamTypeFloat, RspParamTypeString,
              RspParamTypeByteArray, RspParamTypeIntegerArray, RspParamTypeFloatArray}| == 6
  {
  }

  /** Raw, confocal and FT spectra are the contiguous kinds 0..2; the 2-D image is 3. */
  lemma SpectrumKindsContiguous()
    ensures SpectrumRaw == 0 && SpectrumConfocal == SpectrumRaw + 1 && SpectrumFT == SpectrumConfocal + 1
    ensures Spectrum2DImage == SpectrumFT + 1
  {
  }
}
