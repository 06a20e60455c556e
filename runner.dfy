/** The local development runner: it validates an inbound request, runs the named function
    once per event, collects one execution result per event, and after a lifecycle hook
    reports the snap-in's new status. Values the runner inspects are JavaScript values. */
module Runner {
  import opened Platform

  /** A JavaScript value as the runner sees it. Numbers are integers here; only their
      truthiness and equality matter to the runner. */
  datatype Js =
    | Undefined
    | Null
    | Bool(b: bool)
    | Num(n: int)
    | Str(s: string)
    | Arr(elems: seq<Js>)
    | Obj(fields: map<string, Js>)

  /** `v instanceof Object`: arrays and objects, not primitives, `null` or `undefined`. */
  predicate IsObject(v: Js) {
    v.Arr? || v.Obj?
  }

  /** JavaScript truthiness (NaN is not modelled). */
  predicate JsTruthy(v: Js) {
    match v
    case Undefined => false
    case Null => false
    case Bool(b) => b
    case Num(n) => n != 0
    case Str(s) => s != ""
    case Arr(_) => true
    case Obj(_) => true
  }

  /** `v.key` on a value that is not nullish: an own field of an object, `undefined`
      otherwise (none of the keys the runner reads is inherited by arrays or primitives). */
  function Get(v: Js, key: string): Js {
    if v.Obj? && key in v.fields then v.fields[key] else Undefined
  }

  /** `v.key` where `v` may be nullish: reading a field of `undefined` or `null` throws. */
  function Read(v: Js, key: string): (r: Outcome<Js>)
    ensures r.Thrown? <==> v.Undefined? || v.Null?
    ensures r.Ok? ==> r.value == Get(v, key)
  {
    if v.Undefined? || v.Null? then Thrown else Ok(Get(v, key))
  }

  /** `v.outer.inner`. */
  function ReadPath(v: Js, outer: string, inner: string): Outcome<Js> {
    match Read(v, outer)
    case Thrown => Thrown
    case Ok(o) => Read(o, inner)
  }

  // ---------------------------------------------------------------------------------------
  // Hook results.

  /** A validated hook result: `status` and `inputs_values` are each present or absent. */
  datatype HookResult = HookResult(status: Option<string>, inputsValues: Option<Js>)

  /** The fields a validated hook result keeps: `status` only when it is `accepted` or
      "error", `inputs_values` only when it is an object; a non-object input keeps nothing. */
  function HookResultOf(input: Js, accepted: string): (r: HookResult)
    ensures r.status.Some? <==> IsObject(input) && Get(input, "status") in {Str(accepted), Str("error")}
    ensures r.status.Some? ==> Get(input, "status") == Str(r.status.value)
    ensures r.inputsValues.Some? <==> IsObject(input) && IsObject(Get(input, "inputs_values"))
    ensures r.inputsValues.Some? ==> r.inputsValues.value == Get(input, "inputs_values")
  {
    if !IsObject(input) then HookResult(None, None)
    else
      var status := Get(input, "status");
      var values := Get(input, "inputs_values");
      HookResult(if status == Str(accepted) || status == Str("error") then Some(status.s) else None,
                 if IsObject(values) then Some(values) else None)
  }

  /** `getActivateHookResult`: the accepted status is "active". */
  function ActivateHookResult(input: Js): HookResult {
    HookResultOf(input, "active")
  }

  /** `getDeactivateHookResult`: the accepted status is "inactive". */
  function DeactivateHookResult(input: Js): HookResult {
    HookResultOf(input, "inactive")
  }

  /** A hook result written back as an object with the fields it holds. */
  function HookResultJs(r: HookResult): Js {
    Obj((if r.status.Some? then map["status" := Str(r.status.value)] else map[]) +
        (if r.inputsValues.Some? then map["inputs_values" := r.inputsValues.value] else map[]))
  }

  /** A hook result the validator can have produced. */
  predicate WellFormedHookResult(r: HookResult, accepted: string) {
    (r.status.Some? ==> r.status.value in {accepted, "error"}) &&
    (r.inputsValues.Some? ==> IsObject(r.inputsValues.value))
  }

  /** Validation only drops fields: what it keeps is well formed. */
  lemma HookResultWellFormed(input: Js, accepted: string)
    ensures WellFormedHookResult(HookResultOf(input, accepted), accepted)
  {
  }

  /** A well-formed hook result survives being written back and validated again. */
  lemma HookResultRoundTrip(r: HookResult, accepted: string)
    requires WellFormedHookResult(r, accepted)
    ensures HookResultOf(HookResultJs(r), accepted) == r
  {
    var j := HookResultJs(r);
    if r.status.Some? {
      assert Get(j, "status") == Str(r.status.value);
    } else {
      assert "status" !in j.fields;
    }
    if r.inputsValues.Some? {
      assert Get(j, "inputs_values") == r.inputsValues.value;
    } else {
      assert "inputs_values" !in j.fields;
    }
  }

  /** Validating twice is validating once. */
  lemma HookResultIdempotent(input: Js, accepted: string)
    ensures var r := HookResultOf(input, accepted);
            HookResultOf(HookResultJs(r), accepted) == r
  {
    HookResultWellFormed(input, accepted);
    HookResultRoundTrip(HookResultOf(input, accepted), accepted);
  }

  // ---------------------------------------------------------------------------------------
  // Status decisions after a lifecycle hook.

  datatype SnapInStatus = Active | Inactive | Error

  /** The body of the system-update request sent after a lifecycle hook. */
  datatype UpdateRequest = UpdateRequest(id: Js, status: SnapInStatus, inputsValues: Option<Js>, isDeletion: bool)

  /** `handleActivateHookResult`: Error when the handler failed or the hook reported
      "error", Active otherwise; the validated `inputs_values` is passed on. */
  function ActivateUpdate(id: Js, failed: bool, result: Js): (r: UpdateRequest)
    ensures r.id == id && !r.isDeletion
    ensures r.inputsValues == ActivateHookResult(result).inputsValues
    ensures r.status == Error <==> failed || ActivateHookResult(result).status == Some("error")
    ensures r.status != Error ==> r.status == Active
  {
    var res := ActivateHookResult(result);
    UpdateRequest(id, if failed || res.status == Some("error") then Error else Active, res.inputsValues, false)
  }

  /** `handleDeactivateHookResult`: Error when the handler failed or the hook reported
      "error" and the deactivation is not forced; Inactive otherwise, marked for deletion
      exactly when the payload asks for it. */
  function DeactivateUpdate(id: Js, failed: bool, result: Js, force: Js, deleting: Js): (r: UpdateRequest)
    ensures r.id == id
    ensures r.inputsValues == DeactivateHookResult(result).inputsValues
    ensures r.status == Error <==> (failed || DeactivateHookResult(result).status == Some("error")) && !JsTruthy(force)
    ensures r.status != Error ==> r.status == Inactive
    ensures r.isDeletion <==> r.status == Inactive && JsTruthy(deleting)
  {
    var res := DeactivateHookResult(result);
    if (failed || res.status == Some("error")) && !JsTruthy(force) then
      UpdateRequest(id, Error, res.inputsValues, false)
    else
      UpdateRequest(id, Inactive, res.inputsValues, JsTruthy(deleting))
  }

  /** A forced deactivation is never reported as an error, whatever the hook did. */
  lemma ForcedDeactivationNeverErrs(id: Js, failed: bool, result: Js, force: Js, deleting: Js)
    requires JsTruthy(force)
    ensures DeactivateUpdate(id, failed, result, force, deleting).status == Inactive
    ensures DeactivateUpdate(id, failed, result, force, deleting).isDeletion == JsTruthy(deleting)
  {
  }

  /** An activation fails exactly when a deactivation under the same outcome, unforced,
      fails, when the hook reports neither accepted status. */
  lemma ActivateDeactivateAgree(id: Js, failed: bool, result: Js)
    requires Get(result, "status") !in {Str("active"), Str("inactive")}
    ensures (ActivateUpdate(id, failed, result).status == Error) ==
            (DeactivateUpdate(id, failed, result, Bool(false), Bool(false)).status == Error)
  {
  }

  // ---------------------------------------------------------------------------------------
  // Effects of one request.

  /** The errors the runner records. `test/types.ts` is not part of this model, so the
      error kinds are named here by what they mean. */
  datatype RunnerError =
    | InvalidRequest(msg: string)
    | NameNotProvided
    | NotFound(name: Js)
    | FunctionFailed(thrown: Js)

  /** What a function call did: returned a value (possibly `undefined`) or threw. */
  datatype Invocation = Returned(value: Js) | Threw(thrown: Js)

  /** One element of the results list: each field present or absent. */
  datatype ExecutionResult = ExecutionResult(functionResult: Option<Js>, error: Option<RunnerError>)

  datatype ResponseBody = NoBody | Message(text: string) | ResultBody(result: ExecutionResult)

  /** What the runner does, in order: answers the HTTP request, calls a function with its
      argument, or posts a system update. */
  datatype Effect =
    | Respond(code: int, body: ResponseBody)
    | Invoke(name: string, arg: Js)
    | SystemUpdate(request: UpdateRequest)

  const UndefinedBodyMsg: string := "Invalid request format: body is undefined"
  const NotArrayMsg: string := "Invalid request format: body is not an array"
  const MultipleEventsMsg: string := "Invalid request format: multiple events provided for synchronous request"

  /** The function name of an event; reading it throws when the event or its execution
      metadata is nullish. */
  function FunctionName(event: Js): Outcome<Js> {
    ReadPath(event, "execution_metadata", "function_name")
  }

  /** `postRun`: a system update after an activation or deactivation hook, nothing after
      any other event. Reading the snap-in id or the payload of a hook may throw. */
  function PostRun(event: Js, error: Option<RunnerError>, result: Js): Outcome<seq<Effect>> {
    match ReadPath(event, "execution_metadata", "event_type")
    case Thrown => Thrown
    case Ok(eventType) =>
      if eventType == Str("hook:snap_in_activate") then
        match ReadPath(event, "context", "snap_in_id")
        case Thrown => Thrown
        case Ok(id) => Ok([SystemUpdate(ActivateUpdate(id, error.Some?, result))])
      else if eventType == Str("hook:snap_in_deactivate") then
        match ReadPath(event, "context", "snap_in_id")
        case Thrown => Thrown
        case Ok(id) =>
          match Read(event, "payload")
          case Thrown => Thrown
          case Ok(payload) =>
            Ok([SystemUpdate(DeactivateUpdate(id, error.Some?, result,
                                              Get(payload, "force_deactivate"), Get(payload, "is_deletion")))])
      else Ok([])
  }

  /** Post-processing happens only after the two lifecycle hooks. */
  lemma PostRunOnlyAfterHooks(event: Js, error: Option<RunnerError>, result: Js)
    requires ReadPath(event, "execution_metadata", "event_type").Ok?
    requires ReadPath(event, "execution_metadata", "event_type").value !in
             {Str("hook:snap_in_activate"), Str("hook:snap_in_deactivate")}
    ensures PostRun(event, error, result) == Ok([])
  {
  }

  /** The result entry for a call that produced `result` under `error`: the result only
      when it is defined, the error only when there is one. */
  function Entry(result: Js, error: Option<RunnerError>): (r: ExecutionResult)
    ensures r.functionResult.Some? <==> !result.Undefined?
    ensures r.functionResult.Some? ==> r.functionResult.value == result
    ensures r.error == error
  {
    ExecutionResult(if result.Undefined? then None else Some(result), error)
  }

  /** The outcome of looking the function up and calling it. */
  datatype Attempt = Attempt(error: Option<RunnerError>, result: Js, ran: seq<Effect>)

  /** A name missing from the factory records NotFound; a call that throws records
      FunctionFailed; a call that returns leaves the error as it was. */
  function TryCall(error: Option<RunnerError>, event: Js, name: Js, i: nat, factory: set<string>,
                   invoke: (string, nat) -> Invocation): Attempt
  {
    if !(name.Str? && name.s in factory) then Attempt(Some(NotFound(name)), Undefined, [])
    else
      match invoke(name.s, i)
      case Returned(v) => Attempt(error, v, [Invoke(name.s, Arr([event]))])
      case Threw(x) => Attempt(Some(FunctionFailed(x)), Undefined, [Invoke(name.s, Arr([event]))])
  }

  /** One pass of the event loop: either an entry for the results list, the error the loop
      goes on with and the effects, or the effects made before the pass threw. */
  datatype Step = Stepped(error: Option<RunnerError>, entry: ExecutionResult, effects: seq<Effect>)
                | Crashed(effects: seq<Effect>)

  /** Handling event `i`, with `error` left over from the events before it. */
  function EventStep(error: Option<RunnerError>, event: Js, i: nat, factory: set<string>,
                     invoke: (string, nat) -> Invocation): (r: Step)
    ensures forall k :: 0 <= k < |r.effects| ==> !r.effects[k].Respond?
    ensures r.Stepped? ==> r.entry.error == r.error
    ensures r.Stepped? && error.Some? ==> r.error.Some?
  {
    match FunctionName(event)
    case Thrown => Crashed([])
    case Ok(name) =>
      if name.Undefined? then Stepped(Some(NameNotProvided), Entry(Undefined, Some(NameNotProvided)), [])
      else
        var a := TryCall(error, event, name, i, factory, invoke);
        match PostRun(event, a.error, a.result)
        case Thrown => Crashed(a.ran)
        case Ok(updates) => Stepped(a.error, Entry(a.result, a.error), a.ran + updates)
  }

  /** Reading the function name throws exactly when the event, or its execution metadata,
      is `undefined` or `null`; such a pass throws before any lookup, call or update. */
  lemma NullishNameCrashes(error: Option<RunnerError>, event: Js, i: nat, factory: set<string>,
                           invoke: (string, nat) -> Invocation)
    ensures var meta := Get(event, "execution_metadata");
            FunctionName(event).Thrown? <==> event.Undefined? || event.Null? || meta.Undefined? || meta.Null?
    ensures FunctionName(event).Thrown? ==> EventStep(error, event, i, factory, invoke) == Crashed([])
    ensures FunctionName(event).Ok? ==> FunctionName(event).value == Get(Get(event, "execution_metadata"), "function_name")
  {
  }

  /** The loop state: the shared error, the results list, the effects so far, and whether a
      pass threw. */
  datatype Loop = Loop(error: Option<RunnerError>, results: seq<ExecutionResult>, effects: seq<Effect>, crashed: bool)

  /** The event loop over `events`, defined from the back; it stops at the first pass that
      throws. */
  function Process(events: seq<Js>, factory: set<string>, invoke: (string, nat) -> Invocation): Loop {
    if |events| == 0 then Loop(None, [], [], false)
    else
      var s := Process(events[..|events| - 1], factory, invoke);
      if s.crashed then s
      else
        match EventStep(s.error, events[|events| - 1], |events| - 1, factory, invoke)
        case Crashed(eff) => Loop(s.error, s.results, s.effects + eff, true)
        case Stepped(err, entry, eff) => Loop(err, s.results + [entry], s.effects + eff, false)
  }

  /** The effects of `handleEvent`: a non-array body and a synchronous request with several
      events are answered 400 and nothing runs; an asynchronous request is answered 200
      before its events run; a synchronous one is answered with its first result afterwards,
      unless a pass threw. */
  function HandleEventTrace(events: Js, isAsync: bool, factory: set<string>,
                            invoke: (string, nat) -> Invocation): seq<Effect>
  {
    if !events.Arr? then [Respond(400, Message(NotArrayMsg))]
    else if !isAsync && |events.elems| > 1 then [Respond(400, Message(MultipleEventsMsg))]
    else
      var s := Process(events.elems, factory, invoke);
      (if isAsync then [Respond(200, NoBody)] else []) + s.effects +
      (if isAsync || s.crashed then []
       else [Respond(200, if |s.results| == 0 then NoBody else ResultBody(s.results[0]))])
  }

  /** A pass that threw ends the loop: later events change nothing. */
  lemma {:induction false} CrashIsFinal(events: seq<Js>, n: nat, factory: set<string>,
                                        invoke: (string, nat) -> Invocation)
    requires n <= |events|
    requires Process(events[..n], factory, invoke).crashed
    ensures Process(events, factory, invoke) == Process(events[..n], factory, invoke)
  {
    if n < |events| {
      var init := events[..|events| - 1];
      assert init[..n] == events[..n];
      CrashIsFinal(init, n, factory, invoke);
    } else {
      assert events[..n] == events;
    }
  }

  /** One more event extends the loop by one pass, unless a pass already threw. */
  lemma ProcessExtend(events: seq<Js>, i: nat, factory: set<string>, invoke: (string, nat) -> Invocation)
    requires i < |events|
    ensures var s := Process(events[..i], factory, invoke);
            Process(events[..i + 1], factory, invoke) ==
              if s.crashed then s
              else match EventStep(s.error, events[i], i, factory, invoke)
                   case Crashed(eff) => Loop(s.error, s.results, s.effects + eff, true)
                   case Stepped(err, entry, eff) => Loop(err, s.results + [entry], s.effects + eff, false)
  {
    assert events[..i + 1][..i] == events[..i];
  }

  /** The body of the event loop for event `i`: read the function name, look the function
      up and call it, then post-process; `error` is the one left by the events before. */
  method HandleOne(error: Option<RunnerError>, event: Js, i: nat, factory: set<string>,
                   invoke: (string, nat) -> Invocation)
    returns (step: Step)
    ensures step == EventStep(error, event, i, factory, invoke)
  {
    var err := error;
    var result: Js := Undefined;
    var name := FunctionName(event);
    if name.Thrown? {
      return Crashed([]);
    } else if name.value.Undefined? {
      err := Some(NameNotProvided);
      return Stepped(err, Entry(result, err), []);
    }
    var ran: seq<Effect> := [];
    if !(name.value.Str? && name.value.s in factory) {
      err := Some(NotFound(name.value));
    } else {
      ran := [Invoke(name.value.s, Arr([event]))];
      match invoke(name.value.s, i) {
        case Returned(v) => result := v;
        case Threw(x) => err := Some(FunctionFailed(x));
      }
    }
    assert TryCall(error, event, name.value, i, factory, invoke) == Attempt(err, result, ran);
    var post := PostRun(event, err, result);
    if post.Thrown? {
      return Crashed(ran);
    }
    return Stepped(err, Entry(result, err), ran + post.value);
  }

  /** `handleEvent`: the loop pushes one entry per event and keeps one `error` for the
      whole request, never reset between events. */
  method HandleEvent(events: Js, isAsync: bool, factory: set<string>, invoke: (string, nat) -> Invocation)
    returns (effects: seq<Effect>)
    ensures effects == HandleEventTrace(events, isAsync, factory, invoke)
  {
    if !events.Arr? {
      return [Respond(400, Message(NotArrayMsg))];
    }
    var head: seq<Effect> := [];
    if !isAsync {
      if |events.elems| > 1 {
        return [Respond(400, Message(MultipleEventsMsg))];
      }
    } else {
      head := [Respond(200, NoBody)];
    }
    var list := events.elems;
    var error: Option<RunnerError> := None;
    var results: seq<ExecutionResult> := [];
    var done: seq<Effect> := [];
    var crashed := false;
    var i := 0;
    while i < |list| && !crashed
      invariant 0 <= i <= |list|
      invariant var s := Process(list[..i], factory, invoke);
                s.results == results && s.effects == done && s.crashed == crashed && (!crashed ==> s.error == error)
    {
      ProcessExtend(list, i, factory, invoke);
      var step := HandleOne(error, list[i], i, factory, invoke);
      match step {
        case Crashed(eff) =>
          done := done + eff;
          crashed := true;
        case Stepped(err, entry, eff) =>
          error := err;
          results := results + [entry];
          done := done + eff;
      }
      i := i + 1;
    }
    if crashed {
      CrashIsFinal(list, i, factory, invoke);
    } else {
      assert list[..i] == list;
    }
    if !isAsync && !crashed {
      var body := if |results| == 0 then NoBody else ResultBody(results[0]);
      effects := head + done + [Respond(200, body)];
    } else {
      effects := head + done;
    }
  }

  /** The asynchronous route: an undefined body is answered 400, anything else is handled. */
  function AsyncRoute(body: Js, factory: set<string>, invoke: (string, nat) -> Invocation): seq<Effect> {
    if body.Undefined? then [Respond(400, Message(UndefinedBodyMsg))]
    else HandleEventTrace(body, true, factory, invoke)
  }

  /** The synchronous route: an undefined body is answered 400, anything else is handled as
      a list of that one event. */
  function SyncRoute(body: Js, factory: set<string>, invoke: (string, nat) -> Invocation): seq<Effect> {
    if body.Undefined? then [Respond(400, Message(UndefinedBodyMsg))]
    else HandleEventTrace(Arr([body]), false, factory, invoke)
  }

  // ---------------------------------------------------------------------------------------
  // Properties.

  /** The responses among `t`. */
  function Responses(t: seq<Effect>): (r: seq<Effect>)
    ensures forall k :: 0 <= k < |r| ==> r[k].Respond?
  {
    if |t| == 0 then []
    else Responses(t[..|t| - 1]) + (if t[|t| - 1].Respond? then [t[|t| - 1]] else [])
  }

  /** The function calls among `t`. */
  function Invoked(t: seq<Effect>): (r: seq<Effect>)
    ensures forall k :: 0 <= k < |r| ==> r[k].Invoke?
  {
    if |t| == 0 then []
    else Invoked(t[..|t| - 1]) + (if t[|t| - 1].Invoke? then [t[|t| - 1]] else [])
  }

  lemma {:induction false} ResponsesAppend(a: seq<Effect>, b: seq<Effect>)
    ensures Responses(a + b) == Responses(a) + Responses(b)
  {
    if |b| > 0 {
      assert (a + b)[..|a + b| - 1] == a + b[..|b| - 1];
      ResponsesAppend(a, b[..|b| - 1]);
    } else {
      assert a + b == a;
    }
  }

  /** No effect of the event loop is a response. */
  lemma {:induction false} ProcessNeverResponds(events: seq<Js>, factory: set<string>,
                                                invoke: (string, nat) -> Invocation)
    ensures Responses(Process(events, factory, invoke).effects) == []
  {
    if |events| > 0 {
      var init := events[..|events| - 1];
      var s := Process(init, factory, invoke);
      ProcessNeverResponds(init, factory, invoke);
      if !s.crashed {
        var r := EventStep(s.error, events[|events| - 1], |events| - 1, factory, invoke);
        ResponsesAppend(s.effects, r.effects);
        NoResponseAmong(r.effects);
      }
    }
  }

  lemma {:induction false} NoResponseAmong(t: seq<Effect>)
    requires forall k :: 0 <= k < |t| ==> !t[k].Respond?
    ensures Responses(t) == []
  {
    if |t| > 0 {
      NoResponseAmong(t[..|t| - 1]);
    }
  }

  /** A body that is not an array is answered 400 and no function runs. */
  lemma NonArrayRejected(events: Js, isAsync: bool, factory: set<string>, invoke: (string, nat) -> Invocation)
    requires !events.Arr?
    ensures var t := HandleEventTrace(events, isAsync, factory, invoke);
            t == [Respond(400, Message(NotArrayMsg))] && Invoked(t) == []
  {
    assert [Respond(400, Message(NotArrayMsg))][..0] == [];
  }

  /** A synchronous request with more than one event is answered 400 and no function runs. */
  lemma SyncManyRejected(events: Js, factory: set<string>, invoke: (string, nat) -> Invocation)
    requires events.Arr? && |events.elems| > 1
    ensures var t := HandleEventTrace(events, false, factory, invoke);
            t == [Respond(400, Message(MultipleEventsMsg))] && Invoked(t) == []
  {
    assert [Respond(400, Message(MultipleEventsMsg))][..0] == [];
  }

  /** An asynchronous request is answered 200 before anything runs, and answered once. */
  lemma AsyncAcknowledgedFirst(events: Js, factory: set<string>, invoke: (string, nat) -> Invocation)
    requires events.Arr?
    ensures var t := HandleEventTrace(events, true, factory, invoke);
            |t| > 0 && t[0] == Respond(200, NoBody) && Responses(t) == [Respond(200, NoBody)]
  {
    var s := Process(events.elems, factory, invoke);
    var ack := [Respond(200, NoBody)];
    assert HandleEventTrace(events, true, factory, invoke) == ack + s.effects;
    ResponsesAppend(ack, s.effects);
    ProcessNeverResponds(events.elems, factory, invoke);
    assert ack[..0] == [];
  }

  /** A synchronous request of at most one event is answered once, after its event ran,
      with its first result (nothing when there is none) — unless the pass threw, in which
      case it is not answered at all. */
  lemma SyncAnsweredAfterwards(events: Js, factory: set<string>, invoke: (string, nat) -> Invocation)
    requires events.Arr? && |events.elems| <= 1
    ensures var s := Process(events.elems, factory, invoke);
            var t := HandleEventTrace(events, false, factory, invoke);
            Responses(t) == (if s.crashed then []
                             else [Respond(200, if |s.results| == 0 then NoBody else ResultBody(s.results[0]))])
  {
    var s := Process(events.elems, factory, invoke);
    ProcessNeverResponds(events.elems, factory, invoke);
    var tail := if s.crashed then []
                else [Respond(200, if |s.results| == 0 then NoBody else ResultBody(s.results[0]))];
    assert HandleEventTrace(events, false, factory, invoke) == [] + s.effects + tail;
    ResponsesAppend([] + s.effects, tail);
    assert [] + s.effects == s.effects;
    if tail != [] {
      assert tail[..0] == [];
    }
  }

  /** The synchronous route always hands over exactly one event, so its several-events
      rejection can never be the answer. */
  lemma SyncRouteNeverRejectsMany(body: Js, factory: set<string>, invoke: (string, nat) -> Invocation)
    ensures Responses(SyncRoute(body, factory, invoke)) != [Respond(400, Message(MultipleEventsMsg))]
  {
    if body.Undefined? {
      var t := [Respond(400, Message(UndefinedBodyMsg))];
      assert SyncRoute(body, factory, invoke) == t;
      assert t[..0] == [];
      assert Responses(t) == t;
      assert |UndefinedBodyMsg| != |MultipleEventsMsg|;
    } else {
      SyncAnsweredAfterwards(Arr([body]), factory, invoke);
    }
  }

  /** The results list has one entry per event, unless a pass threw, and then one per event
      before it. */
  lemma {:induction false} OneResultPerEvent(events: seq<Js>, factory: set<string>,
                                             invoke: (string, nat) -> Invocation)
    ensures var s := Process(events, factory, invoke);
            |s.results| <= |events| && (!s.crashed <==> |s.results| == |events|)
  {
    if |events| > 0 {
      OneResultPerEvent(events[..|events| - 1], factory, invoke);
    }
  }

  /** The results of a prefix of the events begin the results of all of them. */
  lemma {:induction false} ResultsPrefix(events: seq<Js>, n: nat, factory: set<string>,
                                         invoke: (string, nat) -> Invocation)
    requires n <= |events|
    ensures Process(events[..n], factory, invoke).results <= Process(events, factory, invoke).results
  {
    if n < |events| {
      var init := events[..|events| - 1];
      assert init[..n] == events[..n];
      ResultsPrefix(init, n, factory, invoke);
    } else {
      assert events[..n] == events;
    }
  }

  /** Entry `k` of the results is what the pass over event `k` produced, with the error left
      over from the events before it. */
  lemma ResultsAreSteps(events: seq<Js>, factory: set<string>,
                        invoke: (string, nat) -> Invocation, k: nat)
    requires k < |Process(events, factory, invoke).results|
    ensures k < |events|
    ensures var s := Process(events[..k], factory, invoke);
            var r := EventStep(s.error, events[k], k, factory, invoke);
            !s.crashed && r.Stepped? && Process(events, factory, invoke).results[k] == r.entry &&
            Process(events[..k + 1], factory, invoke).error == r.error
  {
    var all := Process(events, factory, invoke);
    OneResultPerEvent(events, factory, invoke);
    var s := Process(events[..k], factory, invoke);
    OneResultPerEvent(events[..k], factory, invoke);
    if s.crashed {
      CrashIsFinal(events, k, factory, invoke);
      assert false;
    }
    var r := EventStep(s.error, events[k], k, factory, invoke);
    ProcessExtend(events, k, factory, invoke);
    var next := Process(events[..k + 1], factory, invoke);
    if r.Crashed? {
      CrashIsFinal(events, k + 1, factory, invoke);
      assert false;
    }
    assert next.results == s.results + [r.entry];
    ResultsPrefix(events, k + 1, factory, invoke);
    assert all.results[k] == next.results[k];
  }

  /** Once the loop has an error it keeps one: no later pass clears it. */
  lemma {:induction false} ErrorPersists(events: seq<Js>, m: nat, factory: set<string>,
                                         invoke: (string, nat) -> Invocation)
    requires m <= |events|
    requires Process(events[..m], factory, invoke).error.Some?
    ensures Process(events, factory, invoke).error.Some?
  {
    if m < |events| {
      var init := events[..|events| - 1];
      assert init[..m] == events[..m];
      ErrorPersists(init, m, factory, invoke);
    } else {
      assert events[..m] == events;
    }
  }

  /** The error is never reset: once an entry carries an error, every later entry carries
      one too, even for events whose function ran cleanly. */
  lemma ErrorCarriesOver(events: seq<Js>, factory: set<string>, invoke: (string, nat) -> Invocation, j: nat, k: nat)
    requires j < k < |Process(events, factory, invoke).results|
    requires Process(events, factory, invoke).results[j].error.Some?
    ensures Process(events, factory, invoke).results[k].error.Some?
  {
    ResultsAreSteps(events, factory, invoke, j);
    ResultsAreSteps(events, factory, invoke, k);
    var prefix := events[..k + 1];
    assert prefix[..j + 1] == events[..j + 1];
    ErrorPersists(prefix, j + 1, factory, invoke);
  }

  /** An entry's result is present exactly when the function was found, called and returned
      a defined value, and then it is that value. */
  lemma EntryResult(error: Option<RunnerError>, event: Js, i: nat, factory: set<string>,
                    invoke: (string, nat) -> Invocation)
    requires EventStep(error, event, i, factory, invoke).Stepped?
    ensures var r := EventStep(error, event, i, factory, invoke);
            var name := FunctionName(event).value;
            r.entry.functionResult.Some? <==>
              name.Str? && name.s in factory && invoke(name.s, i).Returned? && !invoke(name.s, i).value.Undefined?
    ensures var r := EventStep(error, event, i, factory, invoke);
            var name := FunctionName(event).value;
            r.entry.functionResult.Some? ==> r.entry.functionResult.value == invoke(name.s, i).value
  {
  }

  /** An entry's error is present exactly when one was left over or this pass records one. */
  lemma EntryError(error: Option<RunnerError>, event: Js, i: nat, factory: set<string>,
                   invoke: (string, nat) -> Invocation)
    requires EventStep(error, event, i, factory, invoke).Stepped?
    ensures var r := EventStep(error, event, i, factory, invoke);
            var name := FunctionName(event).value;
            r.entry.error.Some? <==>
              error.Some? || name.Undefined? || !(name.Str? && name.s in factory) || invoke(name.s, i).Threw?
  {
  }

  /** The leftover error in action: after an event naming an unknown function, a later
      activation hook whose function returns cleanly is still reported as an error. */
  lemma CarriedErrorFailsActivation(factory: set<string>, invoke: (string, nat) -> Invocation)
    requires "bulk_delete_all" in factory && "missing" !in factory
    requires invoke("bulk_delete_all", 1) == Returned(Obj(map[]))
    ensures var stray := Obj(map["execution_metadata" := Obj(map["function_name" := Str("missing")])]);
            var hook := Obj(map["execution_metadata" := Obj(map["function_name" := Str("bulk_delete_all"),
                                                                 "event_type" := Str("hook:snap_in_activate")]),
                                "context" := Obj(map["snap_in_id" := Str("s")])]);
            var s := Process([stray, hook], factory, invoke);
            && s.effects == [Invoke("bulk_delete_all", Arr([hook])),
                             SystemUpdate(UpdateRequest(Str("s"), Error, None, false))]
            && |s.results| == 2 && s.results[1] == ExecutionResult(Some(Obj(map[])), Some(NotFound(Str("missing"))))
  {
    var stray := Obj(map["execution_metadata" := Obj(map["function_name" := Str("missing")])]);
    var hook := Obj(map["execution_metadata" := Obj(map["function_name" := Str("bulk_delete_all"),
                                                         "event_type" := Str("hook:snap_in_activate")]),
                        "context" := Obj(map["snap_in_id" := Str("s")])]);
    var events := [stray, hook];
    assert events[..1] == [stray];
    assert [stray][..0] == [];
    assert FunctionName(stray) == Ok(Str("missing"));
    assert PostRun(stray, Some(NotFound(Str("missing"))), Undefined) == Ok([]);
    assert FunctionName(hook) == Ok(Str("bulk_delete_all"));
    assert ReadPath(hook, "execution_metadata", "event_type") == Ok(Str("hook:snap_in_activate"));
    assert ReadPath(hook, "context", "snap_in_id") == Ok(Str("s"));
    var first := Process([stray], factory, invoke);
    assert Process([stray][..0], factory, invoke) == Loop(None, [], [], false);
    assert EventStep(None, stray, 0, factory, invoke) ==
           Stepped(Some(NotFound(Str("missing"))), ExecutionResult(None, Some(NotFound(Str("missing")))), []);
    assert first == Loop(Some(NotFound(Str("missing"))), [ExecutionResult(None, Some(NotFound(Str("missing"))))], [], false);
  }
}
