/** The general response reader (TResponse): it walks the arguments of a
    response handle once, keeps their type tags and values, renders the
    response as text, and answers typed queries on the stored values. */
module Response {
  import opened Ints
  import opened Wrappers
  import opened FunctionWrapper
  import opened Float32
  import opened Decimal
  import opened Names

  // ---------------------------------------------------------------------------
  // The response handle, as input data.
  // ---------------------------------------------------------------------------

  /** A parameter value, as TResponse stores it. */
  datatype Param =
    | IntParam(i: int32)
    | FloatParam(f: Float32)
    | StringParam(s: string)
    | BlobParam(bytes: seq<uint8>)
    | IntArrayParam(ints: seq<int32>)
    | FloatArrayParam(floats: seq<Float32>)

  /** The type tag of each kind of value. */
  function TagOf(p: Param): (tag: int32)
    ensures IsKnownTag(tag)
  {
    match p
    case IntParam(_) => RspParamTypeInteger
    case FloatParam(_) => RspParamTypeFloat
    case StringParam(_) => RspParamTypeString
    case BlobParam(_) => RspParamTypeByteArray
    case IntArrayParam(_) => RspParamTypeIntegerArray
    case FloatArrayParam(_) => RspParamTypeFloatArray
  }

  predicate IsKnownTag(tag: int32) {
    tag in {RspParamTypeInteger, RspParamTypeFloat, RspParamTypeString,
            RspParamTypeByteArray, RspParamTypeIntegerArray, RspParamTypeFloatArray}
  }

  /** One argument of a response handle, as the library reports it: a value
      of a recognised type, or just a type tag the reader has no case for. */
  datatype Arg = Recognised(value: Param) | Unrecognised(tag: int32)

  function ArgTag(a: Arg): int32 {
    match a
    case Recognised(p) => TagOf(p)
    case Unrecognised(tag) => tag
  }

  /** The header the library reports for a response (TResponseInfo). */
  datatype ResponseInfo = ResponseInfo(cmdId: uint32, ticket: int32, flag: uint32, paramCount: uint32)

  /** A response handle: the header and its ParamCount arguments. */
  datatype RspHandle = RspHandle(info: ResponseInfo, args: seq<Arg>)
  {
    predicate WellFormed() {
      |args| == info.paramCount &&
      forall k :: 0 <= k < |args| && args[k].Unrecognised? ==> !IsKnownTag(args[k].tag)
    }
  }

  /** The integer the library's state pointer points to. The library owns it;
      the reader reads it and SetRspState writes it. */
  class StateCell {
    var value: int32

    constructor (v: int32)
      ensures value == v
    {
      value := v;
    }
  }

  /** TRspCallbackInfo: ticket, source connection and state pointer (null for
      a synchronous command) of a response. */
  datatype CallbackInfo = CallbackInfo(state: StateCell?, ticket: int32, sourceConnection: ConnH)

  function StateOf(cb: CallbackInfo): int32
    reads cb.state
  {
    if cb.state != null then cb.state.value else 0
  }

  // ---------------------------------------------------------------------------
  // What reading a handle yields, stated on the argument sequence.
  // ---------------------------------------------------------------------------

  /** One type tag per argument, recognised or not. */
  function ArgTags(args: seq<Arg>): (tags: seq<int32>)
    ensures |tags| == |args|
    ensures forall k :: 0 <= k < |args| ==> tags[k] == ArgTag(args[k])
  {
    if |args| == 0 then [] else ArgTags(args[..|args| - 1]) + [ArgTag(args[|args| - 1])]
  }

  /** The values of the recognised arguments, in order; an unrecognised
      argument contributes none. */
  function ArgValues(args: seq<Arg>): seq<Param> {
    if |args| == 0 then []
    else
      var last := args[|args| - 1];
      ArgValues(args[..|args| - 1]) + (if last.Recognised? then [last.value] else [])
  }

  /** How many of the arguments are recognised. */
  function RecognisedCount(args: seq<Arg>): (n: nat)
    ensures n <= |args|
  {
    if |args| == 0 then 0
    else RecognisedCount(args[..|args| - 1]) + (if args[|args| - 1].Recognised? then 1 else 0)
  }

  /** The header of the text form: the name, prefixed by "Error in " when the
      state reads -1, a '?' for a query response, then a blank. */
  function HeaderText(name: string, state: int32, query: bool): string {
    (if state == -1 then "Error in " + name else name) + (if query then "?" else "") + " "
  }

  /** The text of one argument: each number or string followed by a blank,
      each array element followed by a blank, a blob as "blob data ". */
  function ArgText(a: Arg, floatText: Float32 -> string): string {
    match a
    case Recognised(IntParam(i)) => IntToString(i) + " "
    case Recognised(FloatParam(f)) => floatText(f) + " "
    case Recognised(StringParam(s)) => s + " "
    case Recognised(BlobParam(_)) => "blob data "
    case Recognised(IntArrayParam(xs)) => IntsText(xs)
    case Recognised(FloatArrayParam(xs)) => FloatsText(xs, floatText)
    case Unrecognised(_) => ""
  }

  /** The elements of an integer array in order, each followed by a blank. */
  function IntsText(xs: seq<int32>): string {
    if |xs| == 0 then "" else IntToString(xs[0]) + " " + IntsText(xs[1..])
  }

  /** The elements of a float array in order, each followed by a blank. */
  function FloatsText(xs: seq<Float32>, floatText: Float32 -> string): string {
    if |xs| == 0 then "" else floatText(xs[0]) + " " + FloatsText(xs[1..], floatText)
  }

  function ArgsText(args: seq<Arg>, floatText: Float32 -> string): string {
    if |args| == 0 then ""
    else ArgsText(args[..|args| - 1], floatText) + ArgText(args[|args| - 1], floatText)
  }

  function IsQuery(flag: uint32): bool {
    flag % 2 == 1 // flag & Rsp_Flag_Query != 0
  }

  // ---------------------------------------------------------------------------
  // Properties of reading.
  // ---------------------------------------------------------------------------

  /** The reader keeps exactly the recognised values. */
  lemma {:induction false} ArgValuesCount(args: seq<Arg>)
    ensures |ArgValues(args)| == RecognisedCount(args)
  {
    if |args| > 0 {
      ArgValuesCount(args[..|args| - 1]);
    }
  }

  /** The reader's parameter count equals the count in the header exactly when
      every argument has a recognised type. */
  lemma {:induction false} ParamCountMatchesHeader(args: seq<Arg>)
    ensures |ArgValues(args)| == |args| <==> forall k :: 0 <= k < |args| ==> args[k].Recognised?
  {
    ArgValuesCount(args);
    if |args| > 0 {
      var init := args[..|args| - 1];
      ParamCountMatchesHeader(init);
      assert forall k :: 0 <= k < |init| ==> init[k] == args[k];
    }
  }

  /** The value of a recognised argument sits in the value list at the number
      of recognised arguments before it: after an unrecognised argument, an
      argument's value and its tag are at different positions. */
  lemma {:induction false} ArgValuePosition(args: seq<Arg>, k: nat)
    requires k < |args| && args[k].Recognised?
    ensures RecognisedCount(args[..k]) < |ArgValues(args)|
    ensures ArgValues(args)[RecognisedCount(args[..k])] == args[k].value
  {
    var n := |args|;
    ArgValuesCount(args);
    if k == n - 1 {
      ArgValuesCount(args[..k]);
      assert args[..n - 1] == args[..k];
    } else {
      var init := args[..n - 1];
      assert init[..k] == args[..k];
      ArgValuePosition(init, k);
    }
  }

  /** With only recognised arguments, value i has the tag recorded at i. */
  lemma AlignedWhenAllRecognised(args: seq<Arg>, k: nat)
    requires forall j :: 0 <= j < |args| ==> args[j].Recognised?
    requires k < |args|
    ensures |ArgValues(args)| == |args|
    ensures ArgValues(args)[k] == args[k].value
    ensures TagOf(ArgValues(args)[k]) == ArgTags(args)[k]
  {
    ParamCountMatchesHeader(args);
    AllRecognisedCount(args[..k]);
    ArgValuePosition(args, k);
  }

  lemma {:induction false} AllRecognisedCount(args: seq<Arg>)
    requires forall j :: 0 <= j < |args| ==> args[j].Recognised?
    ensures RecognisedCount(args) == |args|
  {
    if |args| > 0 {
      AllRecognisedCount(args[..|args| - 1]);
    }
  }

  lemma AppendAssociative(a: string, b: string, c: string)
    ensures (a + b) + c == a + (b + c)
  {
  }

  /** Reading one more argument extends each of the three results. */
  lemma ReadStep(args: seq<Arg>, i: nat, floatText: Float32 -> string)
    requires i < |args|
    ensures ArgTags(args[..i + 1]) == ArgTags(args[..i]) + [ArgTag(args[i])]
    ensures ArgValues(args[..i + 1]) ==
      ArgValues(args[..i]) + (if args[i].Recognised? then [args[i].value] else [])
    ensures ArgsText(args[..i + 1], floatText) == ArgsText(args[..i], floatText) + ArgText(args[i], floatText)
  {
    assert args[..i + 1][..i] == args[..i];
  }

  // ---------------------------------------------------------------------------
  // The reader.
  // ---------------------------------------------------------------------------

  class TResponse {
    var paramTypeInfo: seq<int32>
    var params: seq<Param>
    var cmdName: string
    var callbackInfo: CallbackInfo
    var rspInfo: ResponseInfo
    var cmdResponse: string

    /** Every stored value has a tag, at or after its own position. */
    predicate Valid()
      reads this
    {
      |params| <= |paramTypeInfo|
    }

    /** The reader holds everything ReadResponse decodes from h, under the
        callback information cbInfo. */
    predicate Holds(cbInfo: CallbackInfo, h: RspHandle, floatText: Float32 -> string)
      reads this, cbInfo.state
    {
      callbackInfo == cbInfo && rspInfo == h.info &&
      cmdName == Names.ResponseName(h.info.cmdId) &&
      paramTypeInfo == ArgTags(h.args) && params == ArgValues(h.args) &&
      cmdResponse == HeaderText(cmdName, StateOf(cbInfo), IsQuery(h.info.flag)) + ArgsText(h.args, floatText)
    }

    /** The response of a synchronous command: no state pointer. */
    constructor (conn: ConnH, ticket: int32, h: RspHandle, floatText: Float32 -> string)
      requires h.WellFormed()
      ensures Valid()
      ensures callbackInfo == CallbackInfo(null, ticket, conn) && rspInfo == h.info
      ensures cmdName == Names.ResponseName(h.info.cmdId)
      ensures paramTypeInfo == ArgTags(h.args) && params == ArgValues(h.args)
      ensures cmdResponse == HeaderText(cmdName, 0, IsQuery(h.info.flag)) + ArgsText(h.args, floatText)
    {
      callbackInfo := CallbackInfo(null, ticket, conn);
      new;
      ReadResponse(h, floatText);
    }

    /** The response handed to a callback, with its callback information. */
    constructor FromCallbackInfo(cbInfo: CallbackInfo, h: RspHandle, floatText: Float32 -> string)
      requires h.WellFormed()
      ensures Valid()
      ensures callbackInfo == cbInfo && rspInfo == h.info
      ensures cmdName == Names.ResponseName(h.info.cmdId)
      ensures paramTypeInfo == ArgTags(h.args) && params == ArgValues(h.args)
      ensures cmdResponse == HeaderText(cmdName, StateOf(cbInfo), IsQuery(h.info.flag)) + ArgsText(h.args, floatText)
    {
      callbackInfo := cbInfo;
      new;
      ReadResponse(h, floatText);
    }

    /** Reads the header, then visits the ParamCount arguments in order. */
    method ReadResponse(h: RspHandle, floatText: Float32 -> string)
      requires h.WellFormed()
      modifies this
      ensures Valid()
      ensures callbackInfo == old(callbackInfo) && rspInfo == h.info
      ensures cmdName == Names.ResponseName(h.info.cmdId)
      ensures paramTypeInfo == ArgTags(h.args) && params == ArgValues(h.args)
      ensures cmdResponse == HeaderText(cmdName, StateOf(callbackInfo), IsQuery(h.info.flag)) + ArgsText(h.args, floatText)
    {
      rspInfo := h.info;
      var name := Names.ResponseName(rspInfo.cmdId);
      var header: string;
      if RspState() == -1 {
        header := "Error in " + name;
      } else {
        header := name;
      }
      if IsQuery(rspInfo.flag) {
        header := header + "?";
      }
      header := header + " ";
      assert header == HeaderText(name, StateOf(callbackInfo), IsQuery(h.info.flag));
      var types, values, text := ReadArgs(h, floatText);
      ArgValuesCount(h.args);
      cmdName, paramTypeInfo, params, cmdResponse := name, types, values, header + text;
    }

    /** The loop of ReadResponse over the ParamCount arguments: each argument
      adds its tag, a recognised one also its value and its text. */
    static method ReadArgs(h: RspHandle, floatText: Float32 -> string)
      returns (types: seq<int32>, values: seq<Param>, text: string)
      requires h.WellFormed()
      ensures types == ArgTags(h.args) && values == ArgValues(h.args)
      ensures text == ArgsText(h.args, floatText)
    {
      types, values, text := [], [], "";
      var i: int := 0;
      while i < h.info.paramCount
        invariant 0 <= i <= |h.args|
        invariant types == ArgTags(h.args[..i])
        invariant values == ArgValues(h.args[..i])
        invariant text == ArgsText(h.args[..i], floatText)
      {
        var arg := h.args[i];
        ReadStep(h.args, i, floatText);
        types := types + [ArgTag(arg)];
        if arg.Recognised? {
          values := values + [arg.value];
          text := text + ArgText(arg, floatText);
        } else {
          assert ArgText(arg, floatText) == "";
        }
        i := i + 1;
      }
      assert h.args[..i] == h.args;
    }

    // -------------------------------------------------------------------------
    // Accessors.
    // -------------------------------------------------------------------------

    function ResponseName(): string
      reads this
    {
      cmdName
    }

    function ResponseID(): uint32
      reads this
    {
      rspInfo.cmdId
    }

    function Ticket(): int32
      reads this
    {
      rspInfo.ticket
    }

    function SourceConnection(): ConnH
      reads this
    {
      callbackInfo.sourceConnection
    }

    /** The number of stored values, which is not the header's count when an
      argument had an unrecognised type. */
    function ParamCount(): nat
      reads this
    {
      |params|
    }

    function QueryRsp(): bool
      reads this
    {
      IsQuery(rspInfo.flag)
    }

    /** The value behind the state pointer, 0 when there is none. */
    function RspState(): int32
      reads this, callbackInfo.state
    {
      StateOf(callbackInfo)
    }

    /** Writes the state through the state pointer; without one, nothing. */
    method SetRspState(v: int32)
      modifies callbackInfo.state
      ensures callbackInfo.state != null ==> callbackInfo.state.value == v
    {
      if callbackInfo.state != null {
        callbackInfo.state.value := v;
      }
    }

    function GetWholeResponseAsString(): string
      reads this
    {
      cmdResponse
    }

    // -------------------------------------------------------------------------
    // Typed getters. Each returns the value or the exception it throws.
    // -------------------------------------------------------------------------

    /** The tag recorded at the index and the value stored at the index. */
    function GetParameter(index: int32): (r: Result<(int32, Param), Fault>)
      requires Valid()
      reads this
      ensures index >= |params| <==> r == Err(NotExist(index))
      ensures index < 0 <==> r == Err(ArgumentOutOfRange)
      ensures r.Ok? <==> 0 <= index < |params|
      ensures r.Ok? ==> r.value == (paramTypeInfo[index], params[index])
    {
      if index >= |params| then Err(NotExist(index))
      else if index < 0 then Err(ArgumentOutOfRange)
      else Ok((paramTypeInfo[index], params[index]))
    }

    /** An integer value unchanged, a float truncated toward zero. */
    function GetIntParameter(index: int32): (r: Result<int32, Fault>)
      requires Valid()
      reads this
      ensures GetParameter(index).Err? ==> r == Err(GetParameter(index).error)
      ensures r.Ok? <==>
        0 <= index < |params| &&
        ((paramTypeInfo[index] == RspParamTypeInteger && params[index].IntParam?) ||
         (paramTypeInfo[index] == RspParamTypeFloat && params[index].FloatParam?))
      ensures r.Ok? && params[index].IntParam? ==> r.value == params[index].i
      ensures r.Ok? && params[index].FloatParam? ==> r.value == Truncate(params[index].f)
      ensures 0 <= index < |params| && !IsScalarTag(paramTypeInfo[index]) ==>
        r == Err(CannotOutputAs("integer"))
    {
      match GetParameter(index)
      case Err(e) => Err(e)
      case Ok((tag, p)) =>
        if tag == RspParamTypeInteger then
          (if p.IntParam? then Ok(p.i) else Err(InvalidCast))
        else if tag == RspParamTypeFloat then
          (if p.FloatParam? then Ok(Truncate(p.f)) else Err(InvalidCast))
        else Err(CannotOutputAs("integer"))
    }

    /** A float value unchanged, an integer converted to the nearest float. */
    function GetFloatParameter(index: int32): (r: Result<Float32, Fault>)
      requires Valid()
      reads this
      ensures GetParameter(index).Err? ==> r == Err(GetParameter(index).error)
      ensures r.Ok? <==>
        0 <= index < |params| &&
        ((paramTypeInfo[index] == RspParamTypeInteger && params[index].IntParam?) ||
         (paramTypeInfo[index] == RspParamTypeFloat && params[index].FloatParam?))
      ensures r.Ok? && params[index].IntParam? ==> r.value == FromInt(params[index].i)
      ensures r.Ok? && params[index].FloatParam? ==> r.value == params[index].f
      ensures 0 <= index < |params| && !IsScalarTag(paramTypeInfo[index]) ==>
        r == Err(CannotOutputAs("float"))
    {
      match GetParameter(index)
      case Err(e) => Err(e)
      case Ok((tag, p)) =>
        if tag == RspParamTypeInteger then
          (if p.IntParam? then Ok(FromInt(p.i)) else Err(InvalidCast))
        else if tag == RspParamTypeFloat then
          (if p.FloatParam? then Ok(p.f) else Err(InvalidCast))
        else Err(CannotOutputAs("float"))
    }

    /** An integer array as it is; a single number as a one-element array. A
      float array is converted, but the conversion is dropped and the request
      ends in the "cannot be output as integer array" exception. */
    function GetIntArrayParameter(index: int32): (r: Result<seq<int32>, Fault>)
      requires Valid()
      reads this
      ensures GetParameter(index).Err? ==> r == Err(GetParameter(index).error)
      ensures r.Ok? <==>
        0 <= index < |params| &&
        ((paramTypeInfo[index] == RspParamTypeIntegerArray && params[index].IntArrayParam?) ||
         (paramTypeInfo[index] == RspParamTypeInteger && params[index].IntParam?) ||
         (paramTypeInfo[index] == RspParamTypeFloat && params[index].FloatParam?))
      ensures r.Ok? && params[index].IntArrayParam? ==> r.value == params[index].ints
      ensures r.Ok? && params[index].IntParam? ==> r.value == [params[index].i]
      ensures r.Ok? && params[index].FloatParam? ==> r.value == [Truncate(params[index].f)]
      ensures r.Ok? ==> params[index].IntArrayParam? || IsScalarTag(paramTypeInfo[index])
      ensures (0 <= index < |params| && paramTypeInfo[index] == RspParamTypeFloatArray &&
               params[index].FloatArrayParam?) ==> r == Err(CannotOutputAs("integer array"))
    {
      match GetParameter(index)
      case Err(e) => Err(e)
      case Ok((tag, p)) =>
        if tag == RspParamTypeIntegerArray then
          (if p.IntArrayParam? then Ok(p.ints) else Err(InvalidCast))
        else if tag == RspParamTypeFloatArray && !p.FloatArrayParam? then Err(InvalidCast)
        else if tag == RspParamTypeInteger then
          (if p.IntParam? then Ok([p.i]) else Err(InvalidCast))
        else if tag == RspParamTypeFloat then
          (if p.FloatParam? then Ok([Truncate(p.f)]) else Err(InvalidCast))
        else Err(CannotOutputAs("integer array"))
    }

    /** A float array as it is; a single number as a one-element array. An
      integer array is converted, but the conversion is dropped and the request
      ends in the "cannot be output as float array" exception. */
    function GetFloatArrayParameter(index: int32): (r: Result<seq<Float32>, Fault>)
      requires Valid()
      reads this
      ensures GetParameter(index).Err? ==> r == Err(GetParameter(index).error)
      ensures r.Ok? <==>
        0 <= index < |params| &&
        ((paramTypeInfo[index] == RspParamTypeFloatArray && params[index].FloatArrayParam?) ||
         (paramTypeInfo[index] == RspParamTypeFloat && params[index].FloatParam?) ||
         (paramTypeInfo[index] == RspParamTypeInteger && params[index].IntParam?))
      ensures r.Ok? && params[index].FloatArrayParam? ==> r.value == params[index].floats
      ensures r.Ok? && params[index].FloatParam? ==> r.value == [params[index].f]
      ensures r.Ok? && params[index].IntParam? ==> r.value == [FromInt(params[index].i)]
      ensures r.Ok? ==> params[index].FloatArrayParam? || IsScalarTag(paramTypeInfo[index])
      ensures (0 <= index < |params| && paramTypeInfo[index] == RspParamTypeIntegerArray &&
               params[index].IntArrayParam?) ==> r == Err(CannotOutputAs("float array"))
    {
      match GetParameter(index)
      case Err(e) => Err(e)
      case Ok((tag, p)) =>
        if tag == RspParamTypeFloatArray then
          (if p.FloatArrayParam? then Ok(p.floats) else Err(InvalidCast))
        else if tag == RspParamTypeIntegerArray && !p.IntArrayParam? then Err(InvalidCast)
        else if tag == RspParamTypeFloat then
          (if p.FloatParam? then Ok([p.f]) else Err(InvalidCast))
        else if tag == RspParamTypeInteger then
          (if p.IntParam? then Ok([FromInt(p.i)]) else Err(InvalidCast))
        else Err(CannotOutputAs("float array"))
    }

    /** Only a string-tagged value. */
    function GetStringParameter(index: int32): (r: Result<string, Fault>)
      requires Valid()
      reads this
      ensures GetParameter(index).Err? ==> r == Err(GetParameter(index).error)
      ensures r.Ok? <==> (0 <= index < |params| && paramTypeInfo[index] == RspParamTypeString &&
                          params[index].StringParam?)
      ensures r.Ok? ==> r.value == params[index].s
      ensures 0 <= index < |params| && paramTypeInfo[index] != RspParamTypeString ==>
        r == Err(CannotOutputAs("string"))
    {
      match GetParameter(index)
      case Err(e) => Err(e)
      case Ok((tag, p)) =>
        if tag == RspParamTypeString then
          (if p.StringParam? then Ok(p.s) else Err(InvalidCast))
        else Err(CannotOutputAs("string"))
    }

    /** Only a blob-tagged value. */
    function GetBlobParameter(index: int32): (r: Result<seq<uint8>, Fault>)
      requires Valid()
      reads this
      ensures GetParameter(index).Err? ==> r == Err(GetParameter(index).error)
      ensures r.Ok? <==> (0 <= index < |params| && paramTypeInfo[index] == RspParamTypeByteArray &&
                          params[index].BlobParam?)
      ensures r.Ok? ==> r.value == params[index].bytes
      ensures 0 <= index < |params| && paramTypeInfo[index] != RspParamTypeByteArray ==>
        r == Err(CannotOutputAs("Blob"))
    {
      match GetParameter(index)
      case Err(e) => Err(e)
      case Ok((tag, p)) =>
        if tag == RspParamTypeByteArray then
          (if p.BlobParam? then Ok(p.bytes) else Err(InvalidCast))
        else Err(CannotOutputAs("Blob"))
    }
  }

  predicate IsScalarTag(tag: int32) {
    tag == RspParamTypeInteger || tag == RspParamTypeFloat
  }

  // ---------------------------------------------------------------------------
  // Properties of the text form.
  // ---------------------------------------------------------------------------

  /** The text begins with "Error in " exactly when the state reads -1. */
  lemma ErrorPrefixIffFailedState(id: uint32, state: int32, query: bool, rest: string)
    ensures var text := HeaderText(ResponseName(id), state, query) + rest;
      (|text| >= 9 && text[..9] == "Error in ") <==> state == -1
  {
    var name := ResponseName(id);
    var text := HeaderText(name, state, query) + rest;
    if state != -1 {
      assert text[|name|] == '?' || text[|name|] == ' ';
      if |text| >= 9 {
        assert text[..9][|name|] != "Error in "[|name|];
      }
    } else {
      assert text[..9] == "Error in ";
    }
  }

  /** After the (possibly prefixed) name, the text has a '?' exactly for a
      query response. */
  lemma QueryMarkIffQueryFlag(name: string, state: int32, query: bool, rest: string)
    ensures var text := HeaderText(name, state, query) + rest;
      var at := (if state == -1 then 9 else 0) + |name|;
      at < |text| && (text[at] == '?' <==> query)
  {
  }

  /** The values contribute to the text in their order: appending an argument
      appends its text. */
  lemma ArgsTextAppend(args: seq<Arg>, a: Arg, floatText: Float32 -> string)
    ensures ArgsText(args + [a], floatText) == ArgsText(args, floatText) + ArgText(a, floatText)
  {
    assert (args + [a])[..|args|] == args;
  }

  /** An unrecognised argument leaves no trace in the text. */
  lemma UnrecognisedArgsAreSilent(args: seq<Arg>, tag: int32, floatText: Float32 -> string)
    ensures ArgsText(args + [Unrecognised(tag)], floatText) == ArgsText(args, floatText)
  {
    ArgsTextAppend(args, Unrecognised(tag), floatText);
  }

  /** The position of the first blank of a text, or its length when it has none. */
  function BlankAt(t: string): (k: nat)
    ensures k <= |t|
    ensures k < |t| ==> t[k] == ' '
    ensures forall j :: 0 <= j < k ==> t[j] != ' '
  {
    if |t| == 0 || t[0] == ' ' then 0 else 1 + BlankAt(t[1..])
  }

  /** How a reader of the text form takes an integer array apart: the text is
      a run of blank-terminated pieces, each the decimal text of an integer. */
  function ParseInts(t: string): Option<seq<int>>
    decreases |t|
  {
    if |t| == 0 then Some([])
    else
      var k := BlankAt(t);
      if k == |t| then None
      else match (ParseInt(t[..k]), ParseInts(t[k + 1..]))
        case (Parsed(v), Some(vs)) => Some([v] + vs)
        case _ => None
  }

  /** Each element of an integer array is written followed by one blank, so
      splitting the text at its blanks and parsing the pieces gives the array
      back. */
  lemma {:induction false} IntsTextParsesBack(xs: seq<int32>)
    ensures ParseInts(IntsText(xs)) == Some(xs)
  {
    if |xs| > 0 {
      var head := IntToString(xs[0]);
      var t := IntsText(xs);
      assert t == head + " " + IntsText(xs[1..]);
      IntToStringCharacters(xs[0]);
      var k := BlankAt(t);
      assert t[|head|] == ' ';
      assert forall j :: 0 <= j < |head| ==> t[j] == head[j];
      assert k == |head|;
      assert t[..k] == head;
      assert t[k + 1..] == IntsText(xs[1..]);
      IntToStringRoundTrip(xs[0]);
      IntsTextParsesBack(xs[1..]);
      assert [xs[0] as int] + xs[1..] == xs;
    }
  }

  // ---------------------------------------------------------------------------
  // The shifted indices after an unrecognised argument.
  // ---------------------------------------------------------------------------

  /** A response whose first argument has an unknown tag and whose second is
      the integer 5: the tag at index 0 is paired with the value 5, so the
      integer getter reports that index 0 cannot be output as integer, and
      index 1 does not exist although the header declares two arguments. */
  lemma UnrecognisedTagShiftsValues(r: TResponse)
    requires r.paramTypeInfo == ArgTags([Unrecognised(3), Recognised(IntParam(5))])
    requires r.params == ArgValues([Unrecognised(3), Recognised(IntParam(5))])
    ensures r.Valid() && r.paramTypeInfo == [3, RspParamTypeInteger] && r.params == [IntParam(5)]
    ensures r.GetParameter(0) == Ok((3, IntParam(5)))
    ensures r.GetIntParameter(0) == Err(CannotOutputAs("integer"))
    ensures r.GetIntParameter(1) == Err(NotExist(1))
  {
    var args := [Unrecognised(3), Recognised(IntParam(5))];
    assert args[..1] == [Unrecognised(3)];
    assert args[..1][..0] == [];
  }
}
