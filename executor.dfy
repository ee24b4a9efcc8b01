/**
 * `execute_spotify_actions`: run the actions in order against one session,
 * threading the context from step to step, stop at a failed search, turn any
 * exception into `{"error": str(e)}`, and format the collected results.
 */
module Executor {
  import opened PyJson
  import opened Remote
  import opened ToolRetry
  import opened Config
  import opened ActionState
  import opened Dispatch
  import opened FinalResponse

  /** One `{tool_name, params}` action. */
  datatype Action = Action(toolName: Json, params: Dict)

  /** Where a run stands: the context, the number of the next call, and the calls and waits made so far. */
  datatype RunState = RunState(ctx: Ctx, next: nat, calls: seq<Call>, waits: seq<nat>)

  /** How a run ends: the response and the final state. */
  datatype RunEnd = RunEnd(response: Dict, state: RunState)

  /**
   * The executor's own context writes after a result that has no "error":
   * a search result's `result` goes to `search_result`, a get-info result's
   * `result` to `album_info`.
   */
  function Absorb(ctx: Ctx, res: Dict): (c: Ctx)
    ensures c.albumTracks == ctx.albumTracks
    ensures c.searchResult != ctx.searchResult ==> SucceedsAs(Returns(res), "search")
    ensures c.albumInfo != ctx.albumInfo ==> SucceedsAs(Returns(res), "get_info")
  {
    if "error" in res then ctx
    else if Get(res, "action") == JStr("search") then ctx.(searchResult := Get(res, "result"))
    else if Get(res, "action") == JStr("get_info") then ctx.(albumInfo := Some(Get(res, "result")))
    else ctx
  }

  /** The state after step `s`: its calls and waits appended, and the handler's `album_tracks` write applied. */
  function Advance(st: RunState, s: StepResult): RunState {
    RunState(if s.tracks.Some? then st.ctx.(albumTracks := s.tracks.value) else st.ctx,
             st.next + |s.calls|, st.calls + s.calls, st.waits + s.waits)
  }

  /** The outer `except Exception as e: return {"error": str(e)}`. */
  function Catch(o: Outcome<Dict>): Dict {
    if o.Raises? then ErrorDict(o.text) else o.value
  }

  /** The loop from the remaining `actions` on, with `results` collected so far. */
  function RunFrom(env: Env, st: RunState, actions: seq<Action>, results: seq<Dict>): RunEnd
    decreases 2 * |actions|
  {
    if actions == [] then RunEnd(Catch(FormatFinalResponse(results)), st)
    else NextRun(env, st, actions[0], actions[1..], results)
  }

  /** One pass of the loop body for action `a`, then the loop over `rest`. */
  function NextRun(env: Env, st: RunState, a: Action, rest: seq<Action>, results: seq<Dict>): RunEnd
    decreases 2 * |rest| + 1
  {
    var s := DispatchStep(env, st.next, a.toolName, a.params, st.ctx);
    var st' := Advance(st, s);
    match s.out
    case Raises(_, text) => RunEnd(ErrorDict(text), st')
    case Returns(res) =>
      if "error" in res && a.toolName == JStr("SpotifySearch") then RunEnd(res, st')
      else RunFrom(env, st'.(ctx := Absorb(st'.ctx, res)), rest, results + [res])
  }

  /** A whole run from a fresh context, issuing its calls from call number `start` on. */
  function Run(env: Env, start: nat, actions: seq<Action>): RunEnd {
    RunFrom(env, RunState(InitialCtx, start, [], []), actions, [])
  }

  /**
   * One pass of the loop body up to the early-stop test: dispatch the action
   * on a fresh copy of its params and apply the executor's context writes
   * (which leave the context alone after an error result). Its contract
   * relates the run from this action on to the run from the next one.
   */
  method RunAction(session: Session, action: Action, ctx: Context, decode: string -> Option<Json>,
                   ghost st: RunState, ghost rest: seq<Action>, ghost results: seq<Dict>,
                   ghost calls0: seq<Call>, ghost waits0: seq<nat>)
    returns (out: Outcome<Dict>, ghost st': RunState)
    requires ctx.Value() == st.ctx && st.next == |session.calls|
    requires session.calls == calls0 + st.calls && session.waits == waits0 + st.waits
    modifies session, ctx
    ensures var e := RunFrom(Env(session.script, decode), st, [action] + rest, results);
      && (out.Raises? ==> e == RunEnd(ErrorDict(out.text), st'))
      && (out.Returns? && "error" in out.value && action.toolName == JStr("SpotifySearch") ==> e == RunEnd(out.value, st'))
      && (out.Returns? && !("error" in out.value && action.toolName == JStr("SpotifySearch")) ==>
            e == RunFrom(Env(session.script, decode), st', rest, results + [out.value]))
    ensures ctx.Value() == st'.ctx && st'.next == |session.calls|
    ensures session.calls == calls0 + st'.calls && session.waits == waits0 + st'.waits
  {
    var params := new Params(action.params);
    out := ExecuteSingleAction(session, action.toolName, params, ctx, decode);
    ghost var s := DispatchStep(Env(session.script, decode), st.next, action.toolName, action.params, st.ctx);
    st' := Advance(st, s);
    AppendAssoc(calls0, st.calls, s.calls);
    AppendAssoc(waits0, st.waits, s.waits);
    assert ([action] + rest)[0] == action && ([action] + rest)[1..] == rest;
    if out.Returns? {
      var result := out.value;
      if "error" !in result {
        if Get(result, "action") == JStr("search") {
          ctx.searchResult := Get(result, "result");
        } else if Get(result, "action") == JStr("get_info") {
          ctx.albumInfo := Some(Get(result, "result"));
        }
      }
      st' := st'.(ctx := Absorb(st'.ctx, result));
    }
  }

  lemma AppendAssoc<T>(a: seq<T>, b: seq<T>, c: seq<T>)
    ensures (a + b) + c == a + (b + c)
  {
  }

  /** `execute_spotify_actions(session, actions)`. */
  method ExecuteSpotifyActions(session: Session, actions: seq<Action>, decode: string -> Option<Json>)
    returns (response: Dict)
    modifies session
    ensures var e := Run(Env(session.script, decode), |old(session.calls)|, actions);
      && response == e.response
      && session.calls == old(session.calls) + e.state.calls
      && session.waits == old(session.waits) + e.state.waits
  {
    ghost var env := Env(session.script, decode);
    ghost var calls0, waits0 := session.calls, session.waits;
    ghost var st := RunState(InitialCtx, |session.calls|, [], []);
    var results: seq<Dict> := [];
    var ctx := new Context();
    var i := 0;
    while i < |actions|
      invariant 0 <= i <= |actions|
      invariant ctx.Value() == st.ctx
      invariant st.next == |session.calls|
      invariant session.calls == calls0 + st.calls && session.waits == waits0 + st.waits
      invariant Run(env, |calls0|, actions) == RunFrom(env, st, actions[i..], results)
    {
      var action := actions[i];
      assert actions[i..] == [action] + actions[i + 1..];
      var out;
      out, st := RunAction(session, action, ctx, decode, st, actions[i + 1..], results, calls0, waits0);
      if out.Raises? {
        return ErrorDict(out.text);
      }
      var result := out.value;
      results := results + [result];
      if "error" in result && action.toolName == JStr("SpotifySearch") {
        return result;
      }
      i := i + 1;
    }
    var formatted := FormatFinalResponse(results);
    if formatted.Raises? {
      return ErrorDict(formatted.text);
    }
    response := formatted.value;
  }

  // ---------------------------------------------------------------------------
  // Properties of a run

  /** An empty action list reaches `results[-1]` in the formatter: the IndexError comes back as an error dict, with no call. */
  lemma EmptyRun(env: Env, start: nat)
    ensures Run(env, start, []) == RunEnd(ErrorDict("list index out of range"), RunState(InitialCtx, start, [], []))
  {
    FormatEmpty();
  }

  /**
   * A search that returns an error ends the run with that very result, and
   * the later actions are never dispatched: the run makes only the search's
   * calls.
   */
  lemma FailedSearchStops(env: Env, st: RunState, a: Action, rest: seq<Action>, results: seq<Dict>)
    requires a.toolName == JStr("SpotifySearch")
    requires var s := DispatchStep(env, st.next, a.toolName, a.params, st.ctx);
      s.out.Returns? && "error" in s.out.value
    ensures var s := DispatchStep(env, st.next, a.toolName, a.params, st.ctx);
      var e := RunFrom(env, st, [a] + rest, results);
      && e.response == s.out.value
      && e.state.calls == st.calls + s.calls && |s.calls| >= 1
      && forall i :: |st.calls| <= i < |e.state.calls| ==> e.state.calls[i].tool == "SpotifySearch"
  {
    assert ([a] + rest)[0] == a;
    SearchAction.SearchStepFacts(env, st.next, a.params);
  }

  /** An exception in any step ends the run with `{"error": <its text>}`. */
  lemma ExceptionBecomesError(env: Env, st: RunState, a: Action, rest: seq<Action>, results: seq<Dict>)
    requires DispatchStep(env, st.next, a.toolName, a.params, st.ctx).out.Raises?
    ensures var s := DispatchStep(env, st.next, a.toolName, a.params, st.ctx);
      RunFrom(env, st, [a] + rest, results) == RunEnd(ErrorDict(s.out.text), Advance(st, s))
  {
    assert ([a] + rest)[0] == a;
  }

  /**
   * An action whose tool is unknown adds `{"error": "Unsupported action: <name>"}`
   * to the results without a call, and the run goes on with the context unchanged.
   */
  lemma UnknownToolContinues(env: Env, st: RunState, a: Action, rest: seq<Action>, results: seq<Dict>)
    requires ToolOf(a.toolName).None?
    ensures RunFrom(env, st, [a] + rest, results) ==
              RunFrom(env, st, rest, results + [ErrorDict("Unsupported action: " + Show(a.toolName))])
  {
    assert ([a] + rest)[0] == a && ([a] + rest)[1..] == rest;
    var s := DispatchStep(env, st.next, a.toolName, a.params, st.ctx);
    assert Advance(st, s) == st;
  }

  /** Every response carries an "error" key, or a "message" and a "details" key. */
  lemma {:induction false} RunResponseShape(env: Env, st: RunState, actions: seq<Action>, results: seq<Dict>)
    ensures var r := RunFrom(env, st, actions, results).response;
      "error" in r || ("message" in r && "details" in r)
    decreases |actions|
  {
    if actions == [] {
      if FormatFinalResponse(results).Returns? {
        FormatShape(results);
      }
    } else {
      var a := actions[0];
      var s := DispatchStep(env, st.next, a.toolName, a.params, st.ctx);
      var st' := Advance(st, s);
      if s.out.Returns? && !("error" in s.out.value && a.toolName == JStr("SpotifySearch")) {
        RunResponseShape(env, st'.(ctx := Absorb(st'.ctx, s.out.value)), actions[1..], results + [s.out.value]);
      }
    }
  }

  /**
   * The context stays well formed for the whole run: `search_result` is None
   * or a search hit, so every fill from it succeeds; each step makes at most
   * MAX_RETRIES calls, so a run of n actions makes at most n * MAX_RETRIES;
   * and the calls a run makes are exactly the ones its state counts.
   */
  lemma {:induction false} RunInvariant(env: Env, st: RunState, actions: seq<Action>, results: seq<Dict>)
    requires SearchSlotOk(st.ctx.searchResult)
    requires st.next == |st.calls|
    ensures var e := RunFrom(env, st, actions, results).state;
      && SearchSlotOk(e.ctx.searchResult)
      && e.next == |e.calls|
      && |st.calls| <= |e.calls| <= |st.calls| + |actions| * MAX_RETRIES
      && e.calls[..|st.calls|] == st.calls
    decreases |actions|
  {
    if actions != [] {
      var a := actions[0];
      DispatchWellFormed(env, st.next, a.toolName, a.params, st.ctx);
      var s := DispatchStep(env, st.next, a.toolName, a.params, st.ctx);
      var st' := Advance(st, s);
      assert (st.calls + s.calls)[..|st.calls|] == st.calls;
      if s.out.Returns? && !("error" in s.out.value && a.toolName == JStr("SpotifySearch")) {
        var st'' := st'.(ctx := Absorb(st'.ctx, s.out.value));
        RunInvariant(env, st'', actions[1..], results + [s.out.value]);
        var e := RunFrom(env, st'', actions[1..], results + [s.out.value]).state;
        assert e.calls[..|st.calls|] == e.calls[..|st''.calls|][..|st.calls|];
      }
    }
  }

  /** A step that neither raises nor is a failed search hands its result and updated context to the rest of the run. */
  lemma ContinuesAfter(env: Env, st: RunState, a: Action, rest: seq<Action>, results: seq<Dict>)
    requires var s := DispatchStep(env, st.next, a.toolName, a.params, st.ctx);
      s.out.Returns? && !("error" in s.out.value && a.toolName == JStr("SpotifySearch"))
    ensures var s := DispatchStep(env, st.next, a.toolName, a.params, st.ctx);
      var st' := Advance(st, s);
      RunFrom(env, st, [a] + rest, results) ==
        RunFrom(env, st'.(ctx := Absorb(st'.ctx, s.out.value)), rest, results + [s.out.value])
  {
    assert ([a] + rest)[0] == a && ([a] + rest)[1..] == rest;
  }

  /**
   * After a successful get-info step the context has two different slots
   * written: the handler's `album_tracks` holds the payload's `tracks`, and
   * the executor's `album_info` holds the whole `result`; no handler reads
   * either of them.
   */
  lemma GetInfoWritesTwoSlots(env: Env, st: RunState, a: Action, rest: seq<Action>, results: seq<Dict>)
    requires ToolOf(a.toolName) == Some(GetInfo)
    requires var s := DispatchStep(env, st.next, a.toolName, a.params, st.ctx);
      s.out.Returns? && "error" !in s.out.value
    ensures var s := DispatchStep(env, st.next, a.toolName, a.params, st.ctx);
      var st' := Advance(st, s);
      var c := Absorb(st'.ctx, s.out.value);
      && RunFrom(env, st, [a] + rest, results) == RunFrom(env, st'.(ctx := c), rest, results + [s.out.value])
      && "result" in s.out.value && s.out.value["result"].JDict? && "tracks" in s.out.value["result"].fields
      && c.albumInfo == Some(s.out.value["result"])
      && c.albumTracks == s.out.value["result"].fields["tracks"]
      && c.searchResult == st.ctx.searchResult
  {
    ContinuesAfter(env, st, a, rest, results);
    GetInfoAction.GetInfoSuccess(env, st.next, a.params, st.ctx.searchResult);
  }

  /**
   * A successful search installs its hit as `search_result`, replacing the
   * one before it, and leaves the other slots alone; by `ContinuesAfter`
   * this is the context the rest of the run starts from.
   */
  lemma SearchInstallsHit(env: Env, st: RunState, a: Action)
    requires ToolOf(a.toolName) == Some(Search)
    requires var s := DispatchStep(env, st.next, a.toolName, a.params, st.ctx);
      s.out.Returns? && "error" !in s.out.value
    ensures var s := DispatchStep(env, st.next, a.toolName, a.params, st.ctx);
      var st' := Advance(st, s);
      var c := Absorb(st'.ctx, s.out.value);
      && "result" in s.out.value && c.searchResult == s.out.value["result"] && IsSearchHit(c.searchResult)
      && c.albumTracks == st.ctx.albumTracks && c.albumInfo == st.ctx.albumInfo
  {
    var s := DispatchStep(env, st.next, a.toolName, a.params, st.ctx);
    assert s == SearchAction.SearchStep(env, st.next, a.params);
    SearchAction.SearchStepFacts(env, st.next, a.params);
    assert SucceedsAs(s.out, "search") && s.tracks.None?;
  }

  /**
   * A lone `start` with an empty context resumes playback: one call, and the
   * response reports "Resuming playback" with the playback result as details.
   */
  lemma ResumeScenario(env: Env, start: nat, res: RemoteResult)
    requires env.script(start) == Respond(res) && !res.isError
    ensures var params := map["action" := JStr("start")];
      var e := Run(env, start, [Action(JStr("SpotifyPlayback"), params)]);
      var result := map["action" := JStr("playback"), "type" := JStr("resume"), "message" := JStr("Resuming playback")];
      && e.response == map["message" := JStr("Resuming playback"), "details" := JDict(result)]
      && e.state.calls == [Call("SpotifyPlayback", params)]
  {
    var params := map["action" := JStr("start")];
    var a := Action(JStr("SpotifyPlayback"), params);
    var result := map["action" := JStr("playback"), "type" := JStr("resume"), "message" := JStr("Resuming playback")];
    var st := RunState(InitialCtx, start, [], []);
    var s := DispatchStep(env, start, a.toolName, params, InitialCtx);
    assert PlaybackAction.FillSpotifyUri(params, JNull) == Returns(params);
    assert Invoke(env, start) == RetryTrace(Returns(Some(res)), 1, []);
    assert s.out == Returns(result);
    assert s.calls == [Call("SpotifyPlayback", params)];
    ContinuesAfter(env, st, a, [], []);
    FormatAllSuccesses([result]);
  }
}
