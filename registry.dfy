/** The callbacks of a connection (TCHRLibConnectionWrapper): one general
    callback for every response and update, and one callback per ticket of
    an asynchronous command, kept in a map from ticket to callback. The
    library calls are inputs: their result code and the ticket they hand out. */
module Registry {
  import opened Ints
  import opened Wrappers
  import opened FunctionWrapper
  import opened Float32
  import opened Response
  import opened Dispatch

  /** A user callback, by identity. A null delegate is `None`. */
  datatype Callback = Callback(id: nat)

  type CallbackMap = map<int32, Option<Callback>>

  /** The callback CmdSingleCbFct invokes for a ticket: none for a ticket
      that was never registered (the dictionary lookup throws and the
      exception is swallowed) and none for a null delegate. */
  function TargetIn(m: CallbackMap, ticket: int32): (cb: Option<Callback>)
    ensures cb.Some? <==> ticket in m && m[ticket].Some?
    ensures cb.Some? ==> m[ticket] == cb
  {
    if ticket in m then m[ticket] else None
  }

  /** Registering a ticket again replaces its callback; the last one wins. */
  lemma RegisterOverwrites(m: CallbackMap, ticket: int32, first: Option<Callback>, second: Option<Callback>)
    ensures TargetIn(m[ticket := first][ticket := second], ticket) == second
  {
  }

  /** Registering one ticket leaves the callbacks of the other tickets alone. */
  lemma RegisterKeepsOthers(m: CallbackMap, ticket: int32, cb: Option<Callback>, other: int32)
    requires other != ticket
    ensures TargetIn(m[ticket := cb], other) == TargetIn(m, other)
  {
  }

  /** A ticket nobody registered invokes nothing. */
  lemma UnknownTicketInvokesNothing(m: CallbackMap, ticket: int32)
    requires ticket !in m
    ensures TargetIn(m, ticket).None?
  {
  }

  class Callbacks {
    var general: Option<Callback>
    var single: CallbackMap

    constructor()
      ensures general.None? && single == map[]
    {
      general := None;
      single := map[];
    }

    /** The bookkeeping of ExecCommandAsync and ExecStringCommandAsync once
        the library has answered with `res` and handed out `ticket`: on
        success the ticket's callback is stored, replacing any earlier one;
        on failure the call throws and the map is unchanged. */
    method RegisterTicket(res: ResT, ticket: int32, cb: Option<Callback>) returns (r: Result<(), Fault>)
      modifies this
      ensures r.Ok? <==> ResultSuccess(res)
      ensures r.Ok? ==> single == old(single)[ticket := cb]
      ensures r.Err? ==> r.error == AsyncCommandFailed && single == old(single)
      ensures general == old(general)
    {
      if !ResultSuccess(res) {
        return Err(AsyncCommandFailed);
      }
      single := single[ticket := cb];
      r := Ok(());
    }

    /** RegisterGeneralResponseAndUpdateCallback: the callback is stored
        before the library call, so it stays stored when the call fails. */
    method RegisterGeneral(cb: Option<Callback>, res: ResT) returns (r: Result<(), Fault>)
      modifies this
      ensures general == cb && single == old(single)
      ensures r.Ok? <==> ResultSuccess(res)
      ensures r.Err? ==> r.error == CallbackRegistrationFailed
    {
      general := cb;
      if !ResultSuccess(res) {
        return Err(CallbackRegistrationFailed);
      }
      r := Ok(());
    }

    /** CmdSingleCbFct: the response for a ticket goes to that ticket's
        callback, if there is one. Dispatch changes neither callback. */
    method DispatchTicket(info: CallbackInfo, h: RspHandle, floatText: Float32 -> string)
      returns (call: Option<Callback>, rsp: Option<SpecificRsp>)
      requires h.WellFormed()
      ensures call == TargetIn(single, info.ticket)
      ensures rsp.Some? <==> call.Some?
      ensures rsp.Some? ==>
        var rd := ReaderOf(rsp.value);
        rd.Valid() && rd.Holds(info, h, floatText) && rsp.value == GetSpecificResponse(rd)
    {
      call := TargetIn(single, info.ticket);
      if call.None? {
        return call, None;
      }
      var s, rd := GetResponse(info, h, floatText);
      rsp := Some(s);
    }

    /** CmdGenCbFct: every response goes to the general callback, if one is set. */
    method DispatchGeneral(info: CallbackInfo, h: RspHandle, floatText: Float32 -> string)
      returns (call: Option<Callback>, rsp: Option<SpecificRsp>)
      requires h.WellFormed()
      ensures call == general
      ensures rsp.Some? <==> call.Some?
      ensures rsp.Some? ==>
        var rd := ReaderOf(rsp.value);
        rd.Valid() && rd.Holds(info, h, floatText) && rsp.value == GetSpecificResponse(rd)
    {
      call := general;
      if call.None? {
        return call, None;
      }
      var s, rd := GetResponse(info, h, floatText);
      rsp := Some(s);
    }
  }
}
