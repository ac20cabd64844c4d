# CHRocodile .NET wrapper — a verified model

This project models the managed core of the C# wrapper around the CHRocodile
confocal sensor library. It covers:

- the typed surface of the library (`CHRLibFunctionWrapper.cs`): result codes and their
  classifiers, the handle wrapper types, and the protocol constants;
- the command and response layer (`CHRLibCmdWrapper.cs`):
  - the general response reader `TResponse`, which reads every argument of a
    response handle once, keeps type tags and values, renders the response as
    text and answers typed queries with coercions between integers and floats;
  - the command writer `TCommand`, which packs a command name into a 32-bit id
    and appends arguments by their runtime type;
  - the specific command classes, as constructors that fix an id, a query flag
    and the order of the arguments;
  - the specific response classes, with the id check `CheckRspValid` and their
    properties;
  - the choice of response class by id (`GetSpecificResponse`), and
    synchronous execution (`ExecCommand`, `GetResponse`);
- the sample data of a connection (`TCHRLibConnData` in `CHRLibConnectionWrapper.cs`):
  - the signal layout rebuilt from the signal descriptors (offsets, global and
    peak sizes, the number of global signals);
  - the raw sample buffer and how it grows and is copied into;
  - the typed reads of one channel or of all channels of a signal;
- the per-ticket callback map of a connection and the two response callbacks.

The library itself (the DLL behind the handles) is an input. A response handle
is a header plus a list of arguments. A library call is a result code, plus the
ticket or response it hands out. The memory the library hands over is a byte
sequence.

C# semantics kept explicit:

- Int32 arithmetic is unchecked and wraps around (`AddInt32`, `MulInt32`, `ToInt32`).
- Int64 products go through `MulInt64`.
- `/` on Int32 truncates toward zero (`TruncDiv`).
- `(ushort)` cuts a value to 16 bits (`ToUInt16`).
- `>>` on Int32 is an arithmetic shift.
- Integers in the sample buffer and in command ids are little-endian.
- Single-precision floats are kept as their three IEEE 754 fields. The model
  defines `(Int32)f` (truncation) and `(float)i` (round to nearest, ties to
  even) exactly.

Every exception the source throws on a modelled path is an `Err` of a `Fault`.
This covers the wrapper's own exceptions and the .NET runtime's (index out of
range, argument out of range, invalid cast). Two kinds of failure are not
exceptions in the source and are modelled differently, as "## Left out" says:
- undefined behaviour of an unsafe pointer read outside the sample buffer is the
  fault `OutsideBuffer`;
- a `null` argument the source would dereference later is excluded by the
  parameter types.

## Divergences from the documented behaviour, modelled as written

- **Array coercion.**
  - What the code does: `GetIntArrayParameter` on a float array, and
    `GetFloatArrayParameter` on an integer array, build the converted array and
    drop it. Control then falls through to the "cannot be output as ... array"
    exception.
  - Where: `CHRLibCmdWrapper.cs:253-259` and `282-288`.
  - In the model: the contracts of `Response.TResponse.GetIntArrayParameter`
    and `Response.TResponse.GetFloatArrayParameter` state that such a request
    fails.
- **Unrecognised argument tags.**
  - What the code does: an argument whose type tag the reader has no case for
    records its tag but no value. Later values then sit one position before
    their tags, and `ParamCount` is smaller than the header's count.
  - In the model: `Response.ParamCountMatchesHeader`,
    `Response.ArgValuePosition` and `Response.UnrecognisedTagShiftsValues`.
- **The two `GetData` overloads.**
  - What the code does: they address peak channels differently.
    `GetData(sample, channel, signal)` steps by the peak size in Int32
    arithmetic. `GetData(sample, signal)` steps by
    `(ushort)(peak size / element size)` elements.
  - When they disagree: as soon as the peak size is not a multiple of the
    element size, or is 2^16 elements or more.
  - In the model: `Connection.PathsAgree` gives the conditions under which
    they agree. `Connection.PathsDivergeOnMixedPeakSizes` and
    `Connection.StrideWrapsAt64K` exhibit inputs on which they differ. The model
    keeps both as written.
- **The name constructor of `TCommand`.**
  - What the code does: it computes the name without a leading `$` and never
    uses it, so the `$` is packed into the id (`CHRLibCmdWrapper.cs:385-393`).
  - In the model: `Names.DollarPrefixIsPacked`.
- **Command names shorter than three characters** keep their NUL padding when
  the response name is decoded (`Names.ShortNameKeepsPadding`).
- **`ResultWarning` and `ResultError`** never hold; see Findings.

## Model

| member | source | states |
|---|---|---|
| FunctionWrapper.ResFromInt32 | CHRLibFunctionWrapper.cs:19-22 | wrapping an Int32 as a result code and unwrapping it gives the Int32 back |
| FunctionWrapper.Int32FromRes | CHRLibFunctionWrapper.cs:23-26 | unwrapping a result code and wrapping it again gives the same code |
| FunctionWrapper.ConnFromUInt32 | CHRLibFunctionWrapper.cs:33-36 | the connection handle conversion is undone by its inverse |
| FunctionWrapper.UInt32FromConn | CHRLibFunctionWrapper.cs:37-40 | the inverse conversion restores the handle |
| FunctionWrapper.CmdFromUInt32 | CHRLibFunctionWrapper.cs:48-51 | the command handle conversion is undone by its inverse |
| FunctionWrapper.UInt32FromCmd | CHRLibFunctionWrapper.cs:52-55 | the inverse conversion restores the handle |
| FunctionWrapper.RspFromUInt32 | CHRLibFunctionWrapper.cs:62-65 | the response handle conversion is undone by its inverse |
| FunctionWrapper.UInt32FromRsp | CHRLibFunctionWrapper.cs:66-69 | the inverse conversion restores the handle |
| FunctionWrapper.ShiftRight30 | CHRLibFunctionWrapper.cs:273-284 | `x >> 30` is the floor of x / 2^30 |
| FunctionWrapper.ShiftBy30Range | CHRLibFunctionWrapper.cs:273-284 | an Int32 shifted right by 30 is one of -2..1; it is 1 exactly for codes of at least 2^30, and non-negative exactly for non-negative codes |
| FunctionWrapper.InformationIffHighCode | CHRLibFunctionWrapper.cs:273-276 | ResultInformation holds exactly for codes of at least 2^30 |
| FunctionWrapper.WarningAndErrorNeverHold | CHRLibFunctionWrapper.cs:277-284 | no Int32 code satisfies ResultWarning or ResultError as written |
| FunctionWrapper.ClassifiersConsistent | CHRLibFunctionWrapper.cs:269-284 | information implies success; the four classifiers as written are pairwise exclusive |
| FunctionWrapper.TopBits | CHRLibFunctionWrapper.cs:273-284 | the top two bits of the code as an unsigned number, with each of the four values characterised by a range of codes |
| FunctionWrapper.IntendedClassesPartition | CHRLibFunctionWrapper.cs:269-284 | with a test of the top two bits, every code is exactly one of success, warning or error; success and information agree with the classifiers as written |
| FunctionWrapper.ResponseFlagsAreSingleBits | CHRLibFunctionWrapper.cs:103-106 | the query, update, warning and error flags are the single bits 0, 13, 14 and 15 |
| FunctionWrapper.ParamTagsDistinct | CHRLibFunctionWrapper.cs:108-113 | the six parameter type tags are pairwise distinct |
| FunctionWrapper.SpectrumKindsContiguous | CHRLibFunctionWrapper.cs:192-195 | raw, confocal and FT spectra are kinds 0..2, the 2-D image is kind 3 |
| Float32.FromBits | CHRLibConnectionWrapper.cs:206-215 | the float read from a 32-bit pattern has that pattern |
| Float32.ToBits | CHRLibConnectionWrapper.cs:206-215 | the sign, exponent and fraction occupy bit 31, bits 23-30 and bits 0-22 |
| Float32.BitsRoundTrip | CHRLibConnectionWrapper.cs:206-215 | storing a float's pattern and reading it back gives the float |
| Float32.Truncate | CHRLibCmdWrapper.cs:229-230 | `(Int32)f` keeps the sign of f; NaN and infinities give Int32.MinValue |
| Float32.TruncateTowardZero | CHRLibCmdWrapper.cs:229-230 | in range, the magnitude of `(Int32)f` is the integer part of the magnitude of f |
| Float32.FromInt | CHRLibCmdWrapper.cs:239-240 | `(float)i` is finite and has the sign of i; its value is stated by TruncateFromIntExact and FromIntNearest |
| Float32.TruncateFromIntExact | CHRLibCmdWrapper.cs:227-240 | an Int32 below 2^24 in magnitude survives the conversion to float and back |
| Float32.RoundToEvenNearest | CHRLibCmdWrapper.cs:239-240 | rounding m to a multiple of 2^s lands within 2^(s-1) of m, and a tie ends on an even multiple |
| Float32.RoundedSingleNearest | CHRLibCmdWrapper.cs:239-240 | the single chosen for an integer of more than 24 bits is a whole multiple of its unit in the last place, within half a unit of the integer, even on a tie |
| Float32.FromIntNearest | CHRLibCmdWrapper.cs:239-240 | `(float)i` for a magnitude of at least 2^24 is round to nearest, ties to even: a whole number with the sign of i, within half a unit in the last place of the magnitude |
| Float32.TruncateSevenPointNine | CHRLibCmdWrapper.cs:229-230 | `(Int32)7.9f` is 7: truncation, not rounding |
| Decimal.IntToString | CHRLibCmdWrapper.cs:144 | `Int32.ToString()` under the invariant culture is non-empty and starts with '-' exactly for negative numbers |
| Decimal.IntToStringRoundTrip | CHRLibCmdWrapper.cs:144 | the text of an integer in the response text parses back to the integer |
| Decimal.IntToStringInjective | CHRLibCmdWrapper.cs:164-165 | different integers are written as different texts |
| Decimal.IntToStringCharacters | CHRLibCmdWrapper.cs:144 | the text of an integer is digits after an optional leading '-', so it never holds a blank |
| Names.AsciiByte | CHRLibCmdWrapper.cs:390 | ASCII encoding keeps characters below 0x80 and writes '?' for the others |
| Names.AsciiChar | CHRLibCmdWrapper.cs:120-124 | ASCII decoding keeps bytes below 0x80 and reads '?' for the others |
| Names.AsciiRoundTrip | CHRLibCmdWrapper.cs:120-124 | decoding the ASCII bytes of ASCII text gives the text |
| Names.ResponseName | CHRLibCmdWrapper.cs:120-124 | the response name is three characters when the top byte of the id is 0, else four, decoded from the little-endian bytes of the id |
| Names.CmdName | CHRLibCmdWrapper.cs:410-417 | CmdName always has four characters: the response name, plus a NUL for a three-character id |
| Names.PackName | CHRLibCmdWrapper.cs:383-394 | an empty name throws IndexOutOfRange, a name over four bytes throws Argument, otherwise the id's little-endian bytes are the ASCII bytes of the name padded with zeros |
| Names.PackNameRoundTrip | CHRLibCmdWrapper.cs:383-394 | packing a three- or four-character ASCII name without NUL and decoding the response id gives the name back |
| Names.ShortNameKeepsPadding | CHRLibCmdWrapper.cs:120-124 | "AB" packs to 0x4241, whose response name is "AB" followed by a NUL |
| Names.DollarPrefixIsPacked | CHRLibCmdWrapper.cs:385-393 | "$SHZ" is packed with its '$' and does not give the scan-rate id that "SHZ" gives |
| Response.TagOf | CHRLibCmdWrapper.cs:137-205 | every stored value kind has one of the six known tags |
| Response.ArgTags | CHRLibCmdWrapper.cs:133-136 | one tag per argument, each argument's own tag, whether recognised or not |
| Response.RecognisedCount | CHRLibCmdWrapper.cs:137-205 | at most as many recognised arguments as arguments |
| Response.ArgValuesCount | CHRLibCmdWrapper.cs:137-205 | the reader keeps exactly one value per recognised argument |
| Response.ParamCountMatchesHeader | CHRLibCmdWrapper.cs:329-335 | ParamCount equals the header's count exactly when every argument has a recognised tag |
| Response.ArgValuePosition | CHRLibCmdWrapper.cs:133-217 | the value of argument k is stored at the number of recognised arguments before k, not at k |
| Response.AlignedWhenAllRecognised | CHRLibCmdWrapper.cs:133-217 | when all arguments are recognised, value k is argument k's and carries the tag recorded at k |
| Response.ReadStep | CHRLibCmdWrapper.cs:133-205 | reading one more argument appends its tag, its value if recognised, and its text |
| Response.TResponse.constructor | CHRLibCmdWrapper.cs:98-107 | a synchronous response has no state pointer and the given ticket and connection; tags, values, name and text are those of the handle |
| Response.TResponse.FromCallbackInfo | CHRLibCmdWrapper.cs:109-114 | a callback response keeps the callback information; tags, values, name and text are those of the handle |
| Response.TResponse.ReadResponse | CHRLibCmdWrapper.cs:116-206 | the header, the name, one tag per argument, the values of the recognised arguments, and a text that starts with "Error in " for state -1 and carries '?' for a query |
| Response.TResponse.ReadArgs | CHRLibCmdWrapper.cs:133-205 | the loop over ParamCount arguments yields exactly the tags, values and text of all arguments |
| Response.TResponse.SetRspState | CHRLibCmdWrapper.cs:367-371 | the state is written through the state pointer when there is one |
| Response.TResponse.GetParameter | CHRLibCmdWrapper.cs:210-217 | an index at or beyond ParamCount throws "does not exist", a negative index throws ArgumentOutOfRange, otherwise the tag and value at the index |
| Response.TResponse.GetIntParameter | CHRLibCmdWrapper.cs:223-233 | an integer unchanged, a float truncated toward zero, any other tag "cannot be output as integer" |
| Response.TResponse.GetFloatParameter | CHRLibCmdWrapper.cs:235-245 | a float unchanged, an integer rounded to the nearest float, any other tag "cannot be output as float" |
| Response.TResponse.GetIntArrayParameter | CHRLibCmdWrapper.cs:247-274 | succeeds exactly for an integer array, an integer or a float, each with its own tag; then the array as is, or the scalar (a float truncated) as a one-element array; a float array throws "cannot be output as integer array" |
| Response.TResponse.GetFloatArrayParameter | CHRLibCmdWrapper.cs:276-303 | succeeds exactly for a float array, a float or an integer, each with its own tag; then the array as is, or the scalar (an integer rounded) as a one-element array; an integer array throws "cannot be output as float array" |
| Response.TResponse.GetStringParameter | CHRLibCmdWrapper.cs:305-313 | succeeds exactly for a string-tagged value and returns it |
| Response.TResponse.GetBlobParameter | CHRLibCmdWrapper.cs:315-323 | succeeds exactly for a blob-tagged value and returns it |
| Response.ErrorPrefixIffFailedState | CHRLibCmdWrapper.cs:125-128 | the text starts with "Error in " exactly when the state reads -1 |
| Response.QueryMarkIffQueryFlag | CHRLibCmdWrapper.cs:129-131 | right after the name the text has '?' exactly for a query response |
| Response.ArgsTextAppend | CHRLibCmdWrapper.cs:133-205 | the arguments contribute to the text in their order |
| Response.UnrecognisedArgsAreSilent | CHRLibCmdWrapper.cs:136-205 | an argument with an unknown tag adds nothing to the text |
| Response.BlankAt | CHRLibCmdWrapper.cs:164-165 | the position of the first blank of a text, or its length |
| Response.IntsTextParsesBack | CHRLibCmdWrapper.cs:161-166 | an integer array's text is its elements in order, each followed by a blank: splitting the text at the blanks and parsing the pieces gives the array back |
| Response.UnrecognisedTagShiftsValues | CHRLibCmdWrapper.cs:136-233 | after an unknown tag at index 0, the integer at index 1 sits at index 0 under the unknown tag: index 0 cannot be read as an integer and index 1 does not exist |
| Command.ParamOf | CHRLibCmdWrapper.cs:419-474 | each object becomes the argument of its runtime type; a bool is sent as the integer 1 or 0 |
| Command.ParamsOf | CHRLibCmdWrapper.cs:419-474 | one argument per object, in order |
| Command.TCommand.constructor | CHRLibCmdWrapper.cs:397-401 | a command with the given id and query flag and no arguments |
| Command.TCommand.FromName | CHRLibCmdWrapper.cs:383-396 | the command by name fails exactly where packing the name fails, otherwise carries the packed id |
| Command.TCommand.CmdName | CHRLibCmdWrapper.cs:410-417 | the name of a command always has four characters |
| Command.TCommand.AddParameter | CHRLibCmdWrapper.cs:419-474 | appends exactly the argument of the object and keeps id and query flag |
| Command.CmdNameOfPackedName | CHRLibCmdWrapper.cs:383-417 | the name of a command built from an ASCII name is that name, with a NUL appended for three characters |
| Command.Build | CHRLibCmdWrapper.cs:608-1874 | a specific command class's constructor yields its class id, its query flag and its argument list in call order |
| Command.QueryCommandsCarryNoArguments | CHRLibCmdWrapper.cs:608-1874 | a query command has no arguments, except the table download, which is always a query with four |
| Command.FixedCommandsAreNotQueries | CHRLibCmdWrapper.cs:644-1832 | the classes without a query parameter always build a set command |
| Command.BooleansSentAsOneOrZero | CHRLibCmdWrapper.cs:1083-1092 | boolean settings are sent as the integers 1 and 0 |
| Command.SetCommandArgumentOrder | CHRLibCmdWrapper.cs:1661-1677 | a set command sends its constructor arguments in parameter order |
| Command.EmptyArraysDiffer | CHRLibCmdWrapper.cs:608-835 | an empty signal list sends nothing, an empty refractive index array is sent as an empty array |
| Command.ImageDownloadLeadsWithKind | CHRLibCmdWrapper.cs:1819-1832 | the 2-D image download uses the download-spectrum id and sends five arguments, the first being the image kind |
| Dispatch.CheckRspValid | CHRLibCmdWrapper.cs:539-543 | succeeds exactly when the response id equals the class's target id, else throws "wrong response type" |
| Dispatch.SamplesFromBytes | CHRLibCmdWrapper.cs:1805-1813 | half as many 16-bit samples as bytes |
| Dispatch.SampleAt | CHRLibCmdWrapper.cs:1805-1813 | sample k is bytes 2k and 2k+1, low byte first, as two's complement |
| Dispatch.SamplesToBytes | CHRLibCmdWrapper.cs:1805-1813 | two bytes per sample |
| Dispatch.Samples | CHRLibCmdWrapper.cs:1805-1813 | SpecData succeeds exactly for a blob of even length and yields half as many samples |
| Dispatch.SamplesRoundTrip | CHRLibCmdWrapper.cs:1805-1813 | the bytes of samples read back as the samples |
| Dispatch.ReadProperty | CHRLibCmdWrapper.cs:618-1914 | a property checks the response id first; with the right id it succeeds exactly when its getter does (an array property of a response without values reads as empty, spectrum data needs a blob of even length); the value is the getter's, a boolean is the integer compared with 0, and spectrum data is the blob read as 16-bit samples |
| Dispatch.KindFor | CHRLibCmdWrapper.cs:2018-2097 | the class chosen for an id has that id as its target |
| Dispatch.SpectrumKindFor | CHRLibCmdWrapper.cs:2084-2092 | the class chosen for a download-spectrum response has the download-spectrum id |
| Dispatch.PlainKindFor | CHRLibCmdWrapper.cs:2020-2097 | the class chosen by id alone has that id |
| Dispatch.SetupKindFor | CHRLibCmdWrapper.cs:2020-2037 | the class chosen by a setup id has that id |
| Dispatch.DetectionKindFor | CHRLibCmdWrapper.cs:2038-2057 | the class chosen by a detection id has that id |
| Dispatch.AcquisitionKindFor | CHRLibCmdWrapper.cs:2058-2071 | the class chosen by an acquisition id has that id |
| Dispatch.EncoderKindFor | CHRLibCmdWrapper.cs:2072-2081 | the class chosen by an encoder id has that id |
| Dispatch.TriggerAndTableKindFor | CHRLibCmdWrapper.cs:2082-2094 | the class chosen for the trigger mode or table id has that id |
| Dispatch.GetSpecificResponse | CHRLibCmdWrapper.cs:2014-2103 | a specific response wraps the same reader and passes its id check; otherwise the reader itself is returned |
| Dispatch.ResponseGetsItsClass | CHRLibCmdWrapper.cs:2018-2097 | a response whose id is a class's target id is wrapped in that class, the download-spectrum id given a spectrum kind of that class |
| Dispatch.UnknownIdStaysGeneric | CHRLibCmdWrapper.cs:2095-2096 | a response whose id belongs to no class is returned as the general reader |
| Dispatch.GenericOnlyForUnknownIds | CHRLibCmdWrapper.cs:2018-2097 | outside the download-spectrum id, the general reader is returned only for an id that belongs to no class |
| Dispatch.EveryClassReachable | CHRLibCmdWrapper.cs:2018-2097 | every response class is selected by its own id, with spectrum kind 0 or 3 for the downloads |
| Dispatch.SetupClassesReachable | CHRLibCmdWrapper.cs:2020-2037 | every setup class is selected by its id |
| Dispatch.DetectionClassesReachable | CHRLibCmdWrapper.cs:2038-2057 | every detection class is selected by its id |
| Dispatch.AcquisitionClassesReachable | CHRLibCmdWrapper.cs:2058-2071 | every acquisition class is selected by its id |
| Dispatch.EncoderClassesReachable | CHRLibCmdWrapper.cs:2072-2081 | every encoder class is selected by its id |
| Dispatch.TriggerAndTableClassesReachable | CHRLibCmdWrapper.cs:2082-2094 | the trigger mode, download and table classes are selected by their ids |
| Dispatch.TargetIdsDistinct | CHRLibCmdWrapper.cs:2018-2097 | only the two download-spectrum classes share a target id |
| Dispatch.DownloadSpectrumDispatch | CHRLibCmdWrapper.cs:2084-2092 | kinds 0..2 select the spectrum class, kind 3 the image class, and any other kind or an unreadable first parameter leaves the reader unwrapped (both directions) |
| Dispatch.RequestAndResponseShareId | CHRLibCmdWrapper.cs:608-1874 | each command class and its response class use the same id |
| Dispatch.SetupRequestsShareId | CHRLibCmdWrapper.cs:608-890 | the setup commands and responses share ids |
| Dispatch.DetectionRequestsShareId | CHRLibCmdWrapper.cs:894-1206 | the detection commands and responses share ids |
| Dispatch.AcquisitionRequestsShareId | CHRLibCmdWrapper.cs:1210-1491 | the acquisition commands and responses share ids |
| Dispatch.EncoderRequestsShareId | CHRLibCmdWrapper.cs:1495-1925 | the encoder, trigger and download commands and responses share ids |
| Dispatch.SettingsMatchProperties | CHRLibCmdWrapper.cs:608-1925 | a set command with one argument per response property lists its arguments in the order and types of the properties |
| Dispatch.SetupSettingsMatch | CHRLibCmdWrapper.cs:608-890 | the same, for the setup classes |
| Dispatch.DetectionSettingsMatch | CHRLibCmdWrapper.cs:894-1206 | the same, for the detection classes |
| Dispatch.AcquisitionSettingsMatch | CHRLibCmdWrapper.cs:1210-1491 | the same, for the acquisition classes |
| Dispatch.EncoderSettingsMatch | CHRLibCmdWrapper.cs:1495-1925 | the same, for the encoder, trigger and download classes |
| Dispatch.EchoedArgument | CHRLibCmdWrapper.cs:618-1914 | a property reads back the argument it fits from a response that repeats the arguments |
| Dispatch.SettingsReadBack | CHRLibCmdWrapper.cs:608-1925 | when the device repeats a set command's settings, each property of the response class reads back the setting it belongs to |
| Dispatch.GetResponse | CHRLibCmdWrapper.cs:2106-2117 | a fresh reader holding the callback information and everything decoded from the handle (name, tags, values, text), wrapped by GetSpecificResponse |
| Dispatch.ExecCommand | CHRLibCmdWrapper.cs:1934-1949 | no response exactly when the result is not success; otherwise the response has ticket 0, no state pointer and the connection as source, holds everything decoded from the library's reply (name, tags, values, text) and has the class GetSpecificResponse picks for it |
| Connection.SizeFromDataType | CHRLibConnectionWrapper.cs:477-494 | 1 byte exactly for the char types, 2 for the shorts, 4 for the 32-bit integers and float, 8 for every other type |
| Connection.PeakSignalIds | CHRLibConnectionWrapper.cs:495-498 | a signal is a peak signal exactly when bit 8 of its id is set; every id below 256 is global |
| Connection.Offsets | CHRLibConnectionWrapper.cs:70-79 | one offset per signal descriptor |
| Connection.Processed | CHRLibConnectionWrapper.cs:71 | the rebuild loop takes `count` descriptors when the array has that many |
| Connection.SizesPartition | CHRLibConnectionWrapper.cs:80-86 | every signal counts towards the global size or the peak size, never both |
| Connection.SingleChannelAllGlobal | CHRLibConnectionWrapper.cs:80-84 | with one channel every signal is global and the peak size is 0 |
| Connection.TotalSizeBounds | CHRLibConnectionWrapper.cs:78-79 | each signal takes between 1 and 8 bytes |
| Connection.OffsetAt | CHRLibConnectionWrapper.cs:70-79 | signal i starts at the total size of the signals before it, modulo 2^32 |
| Connection.PackedOffsets | CHRLibConnectionWrapper.cs:70-79 | below 2^28 signals the offsets do not wrap and the signals are packed back to back from 0 |
| Connection.LayoutStep | CHRLibConnectionWrapper.cs:71-87 | one loop step extends every accumulator by the next descriptor |
| Connection.Decode | CHRLibConnectionWrapper.cs:155-228 | a value of an integer type is an integer in its type's range; a double keeps its bytes |
| Connection.Encode | CHRLibConnectionWrapper.cs:155-228 | the stored bytes of an integer have its type's size |
| Connection.DecodeEncode | CHRLibConnectionWrapper.cs:155-228 | reading back a stored integer of any integer type gives the integer |
| Connection.DecodeEncodeByte | CHRLibConnectionWrapper.cs:160-165 | the same, for the char types |
| Connection.DecodeEncodeShort | CHRLibConnectionWrapper.cs:166-185 | the same, for the short types |
| Connection.DecodeEncodeInt | CHRLibConnectionWrapper.cs:186-205 | the same, for the 32-bit integer types |
| Connection.EncodeDecode | CHRLibConnectionWrapper.cs:155-205 | every byte pattern of an integer type is the encoding of the value it reads as |
| Connection.DecodeFloat | CHRLibConnectionWrapper.cs:206-215 | a float is read back from its stored pattern |
| Connection.SingleOffsetOf | CHRLibConnectionWrapper.cs:245-249 | without overflow, a global signal is at base + offset and a peak signal channel c at base + offset + c * peak size |
| Connection.TruncDiv | CHRLibConnectionWrapper.cs:343 | C# division of Int32 truncates toward zero |
| Connection.ChannelStride | CHRLibConnectionWrapper.cs:291-458 | the byte step between channels equals the peak size when that is a whole number of elements below 2^16 |
| Connection.PathsAgree | CHRLibConnectionWrapper.cs:235-475 | under those conditions and without overflow, both GetData overloads read a channel at the same place |
| Connection.PathsDivergeOnMixedPeakSizes | CHRLibConnectionWrapper.cs:235-475 | an Int32 and a byte peak signal on two channels: channel 1 of the Int32 signal is at byte 5 for one overload and byte 4 for the other |
| Connection.StrideWrapsAt64K | CHRLibConnectionWrapper.cs:281-303 | a byte peak size of 2^16 gives a channel step of 0, and 2^16+1 a step of 1 |
| Connection.Grown | CHRLibConnectionWrapper.cs:49-50 | after growing, the buffer has the larger of its old size and the needed size |
| Connection.ConnData.CurrentLayout | CHRLibConnectionWrapper.cs:33-42 | in a valid state there is one offset per descriptor |
| Connection.ConnData.constructor | CHRLibConnectionWrapper.cs:29-42 | an empty layout, no samples, not initialised, and a zeroed 32 KiB buffer |
| Connection.ConnData.BuildLayout | CHRLibConnectionWrapper.cs:64-87 | the rebuild loop completes exactly when the descriptors suffice, and its layout is the layout of the descriptors it took |
| Connection.ConnData.SetLayout | CHRLibConnectionWrapper.cs:64-69 | the layout fields take the given layout and nothing else changes |
| Connection.ConnData.CopySampleData | CHRLibConnectionWrapper.cs:45-52 | nothing for a non-positive count; otherwise grows to the exact size when too small, then copies `(Int32)(SizePerSample * (Int32)n)` bytes, failing for a negative or too large length |
| Connection.ConnData.ProcessNewData | CHRLibConnectionWrapper.cs:55-93 | records the count; on a zero count or null descriptors nothing else; rebuilds the layout exactly when the generation changed or nothing was set up; then takes the sample size and copies |
| Connection.ConnData.InitAutoBufferData | CHRLibConnectionWrapper.cs:96-126 | rebuilds the layout from the array; past the array's end it throws IndexOutOfRange with the layout partly rebuilt; else the sample size is global size + peak size * channels in Int32 arithmetic |
| Connection.ConnData.InitAutoBufferDataWithInternalBuffer | CHRLibConnectionWrapper.cs:129-138 | refuses zero samples or no descriptors with nothing changed; otherwise initialises and grows the own buffer to a zeroed one of the needed size when too small |
| Connection.ConnData.InitAutoBufferDataWithExternalBuffer | CHRLibConnectionWrapper.cs:141-150 | refuses zero samples or no descriptors with nothing changed; otherwise initialises and reads from the caller's array itself |
| Connection.ConnData.Reset | CHRLibConnectionWrapper.cs:499-502 | clears the initialised flag only, so the next data rebuilds the layout |
| Connection.ConnData.ReadPointer | CHRLibConnectionWrapper.cs:166-225 | a pointer read succeeds exactly inside the buffer and decodes the bytes there |
| Connection.ConnData.ReadDataFromRawData | CHRLibConnectionWrapper.cs:155-228 | succeeds exactly inside the buffer and decodes the bytes at the offset; outside, the char types throw IndexOutOfRange |
| Connection.ConnData.GetDataFault | CHRLibConnectionWrapper.cs:237-244 | the checks in order: no descriptors, unknown signal, invalid sample, invalid channel; none exactly when all indices are in range |
| Connection.ConnData.GetData | CHRLibConnectionWrapper.cs:235-250 | a failed check is its exception; otherwise the value of the signal's type read at the Int32 offset of sample, signal and channel |
| Connection.ConnData.GetDataReadsStoredValue | CHRLibConnectionWrapper.cs:235-250 | GetData returns the integer stored at the place it addresses |
| Connection.ConnData.ChannelsFault | CHRLibConnectionWrapper.cs:260-267 | the checks in order: no descriptors, unknown signal, invalid sample, invalid channel count |
| Connection.ConnData.GetChannels | CHRLibConnectionWrapper.cs:255-475 | a global signal gives its one value; a peak signal gives one value per channel, channel c read at the pointer address of c, when every such read is inside the buffer |
| Registry.TargetIn | CHRLibConnectionWrapper.cs:665-682 | a ticket's callback is invoked exactly when the ticket is in the map with a non-null callback |
| Registry.RegisterOverwrites | CHRLibConnectionWrapper.cs:601-608 | registering a ticket again replaces its callback |
| Registry.RegisterKeepsOthers | CHRLibConnectionWrapper.cs:637-646 | registering a ticket leaves the callbacks of the other tickets as they were |
| Registry.UnknownTicketInvokesNothing | CHRLibConnectionWrapper.cs:665-682 | a ticket nobody registered invokes no callback |
| Registry.Callbacks.constructor | CHRLibConnectionWrapper.cs:518-524 | no general callback and an empty ticket map |
| Registry.Callbacks.RegisterTicket | CHRLibConnectionWrapper.cs:637-646 | on success the ticket maps to the callback and nothing else changes; on failure the call throws and the map is unchanged |
| Registry.Callbacks.RegisterGeneral | CHRLibConnectionWrapper.cs:684-690 | the general callback is stored even when the library call fails, which then throws |
| Registry.Callbacks.DispatchTicket | CHRLibConnectionWrapper.cs:665-682 | invokes the ticket's callback, if any, with the response built for the handle (its callback information, name, tags, values and text); the map is not changed |
| Registry.Callbacks.DispatchGeneral | CHRLibConnectionWrapper.cs:649-662 | invokes the general callback, if one is set, with the response built for the handle (its callback information, name, tags, values and text) |

## Left out

- The DLL calls themselves are not modelled: `DllImport` functions, opening and closing connections, device output
  processing, sample callbacks, auto-buffer activation and error lists. Their results are inputs of the model.
- Object lifetime is not modelled: `Dispose`, `GCHandle` pinning and `DestroyHandle`.
- Concurrency is not modelled: the callback map is a `ConcurrentDictionary` used from library threads. The model
  is sequential.
- `ExecStringCommand`, `ExecStringCommandAsync` and `ExecCommandAsync` of `TCHRLibCmdWrapper` only pass through to
  the library. Only the connection's bookkeeping around the async calls is modelled, in `Registry.Callbacks.RegisterTicket`.
- The `TBaseRsp` accessors (`ResponseName`, `ParamCount`, `Ticket` and the others) are not modelled separately.
  They only delegate to the wrapped `TResponse`, which the model exposes as `BaseRsp.reader`.
- `TCHRLibConnection.ExecCommand` and `ExecStringCommand` (`CHRLibConnectionWrapper.cs:610-634`) are not modelled separately. They add only an exception on a failing result to `Dispatch.ExecCommand` or to the library's string command.
- Connection.ConnData.GetChannels: the source catches every exception and returns `null`. The model returns the exception that was caught, as an `Err`.
- The `User` pointer of the callback information is left out. Nothing in the core reads it.
- The response text is parameterised by `floatText`. `Single.ToString()` formatting is culture-dependent floating
  point formatting and is not modelled.
- Decimal.IntToString: it is the text `Int32.ToString()` writes under the invariant culture, with '-' as the
  negative sign. Under the current culture (`CHRLibCmdWrapper.cs:144` and `164-165`) the sign is the culture's
  `NumberFormatInfo.NegativeSign`, which the model does not capture.
- Command.Build: the default values of the command constructors' optional parameters (for example
  `_nScanRate = 4000` at `CHRLibCmdWrapper.cs:736`, the `TAnalogOutputCmd` defaults at `1410-1411`, `_nLength = -1`
  at `1867`) are not modelled. Every request in `CmdRequest` carries all of its arguments.
- Response.TResponse.ReadResponse: it requires a well-formed handle, with one argument per header count and an
  unrecognised entry only for an unknown tag. The reads from unmanaged memory (`Marshal.Copy` and `PtrToStringAnsi`)
  are taken to succeed.
- Dispatch.GetResponse: the `catch` that turns an exception in building the reader into `null` is therefore not
  reachable in the model.
- `Convert.ToInt32` is modelled for Int32 and bool objects only. Other boxed numeric types are not modelled.
- Float32.Truncate: `(Int32)` of NaN, an infinity or an out-of-range float is unspecified in C#. The model yields
  Int32.MinValue, the x86 result.
- Doubles in the sample buffer are kept as their 8 bytes. Their value as a number is not modelled.
- The conversion of every reading to `double` in `GetData` is not modelled. It is exact for all integer and
  single types.
- Out-of-memory on a very large `new byte[]` and the array length limit of .NET are not modelled.
- Connection.ConnData.CopySampleData: it requires the library's buffer to hold the bytes it copies, which is the
  library's promise.
- Connection.ConnData.ProcessNewData: it requires the descriptor pointer to hold the signal count's worth of
  descriptors (reading beyond them is undefined behaviour). The pointer is otherwise modelled as present (`Some`)
  or null (`None`).
- Connection.ConnData.ReadPointer, Connection.ConnData.ReadDataFromRawData, Connection.ConnData.GetData and
  Connection.ConnData.GetChannels: an unsafe `*(T*)` read outside the sample buffer has undefined behaviour in the
  source (`CHRLibConnectionWrapper.cs:166-225` and `281-465`). The model reports it as the fault `OutsideBuffer`
  instead of reading arbitrary memory.
- A null descriptor array passed to the auto-buffer initialisers is not modelled. It throws a
  `NullReferenceException` in the source.
- Connection.ConnData.InitAutoBufferDataWithExternalBuffer: the caller's data array is a non-null `array<uint8>`.
  The source also accepts `null` (`CHRLibConnectionWrapper.cs:141-148`). Every later read of the sample data would
  then throw a `NullReferenceException`, and the model does not capture that.
- The `Console.WriteLine` of the caught exception message in `GetData(sample, signal)` is left out.
- The exceptions swallowed by the two response callbacks are not modelled separately: a user callback that
  throws and a reader that fails to build. The model returns the callback to invoke and the response to pass.
- Property names of the response classes appear as comments next to their getters, not as separate members.

## Findings

| source | as written | input that shows it | evidently intended | confidence | as-written member | corrected member |
|---|---|---|---|---|---|---|
| CHRLibFunctionWrapper.cs:277-284 | `ResultWarning` tests `(res >> 30) == 2` and `ResultError` tests `(res >> 30) == 3` on a signed Int32, whose arithmetic shift by 30 is only ever -2, -1, 0 or 1 | any code, e.g. -0x7FFF_FFFF (top bits 10) or -1 (top bits 11): both tests are false | classify by the top two bits of the unsigned pattern: 10 for a warning, 11 for an error | not executed | FunctionWrapper.WarningAndErrorNeverHold | FunctionWrapper.IntendedClassesPartition |
