/**
 * State shared by the action handlers: the execution context, an action's
 * parameter dict (which handlers fill in place), the environment a run
 * happens in, and what one handler step does as a value.
 */
module ActionState {
  import opened PyJson
  import opened Remote
  import opened ToolRetry
  import opened Config

  /** The context dict as a value: `search_result`, `album_tracks` and the optional `album_info` slot. */
  datatype Ctx = Ctx(searchResult: Json, albumTracks: Json, albumInfo: Option<Json>)

  /** `{"search_result": None, "album_tracks": None}`. */
  const InitialCtx: Ctx := Ctx(JNull, JNull, None)

  /** The context dict the executor creates and the handlers read and write. */
  class Context {
    var searchResult: Json
    var albumTracks: Json
    var albumInfo: Option<Json>

    constructor ()
      ensures Value() == InitialCtx
    {
      searchResult := JNull;
      albumTracks := JNull;
      albumInfo := None;
    }

    function Value(): Ctx
      reads this
    {
      Ctx(searchResult, albumTracks, albumInfo)
    }
  }

  /** An action's `params` dict, which the handlers update in place. */
  class Params {
    var entries: Dict

    constructor (entries: Dict)
      ensures this.entries == entries
    {
      this.entries := entries;
    }
  }

  /** What a run depends on besides its actions: the session's scripted replies and the JSON decoder. */
  datatype Env = Env(script: nat -> Reply, decode: string -> Option<Json>)

  /**
   * One handler call as a value: its return value or exception, the params
   * after in-place filling, the value it stored in `context["album_tracks"]`
   * (if any), and the calls and waits it made.
   */
  datatype StepResult = StepResult(out: Outcome<Dict>, params: Dict, tracks: Option<Json>,
                                   calls: seq<Call>, waits: seq<nat>)

  /** A step that returns `{"error": msg}` without touching the session. */
  function Rejected(msg: string, params: Dict): StepResult {
    StepResult(Returns(ErrorDict(msg)), params, None, [], [])
  }

  /** A step whose in-place filling raised before any call. */
  function RaisedEarly(kind: ExcKind, text: string, params: Dict): StepResult {
    StepResult(Raises(kind, text), params, None, [], [])
  }

  /** `call_tool_with_retry(session, tool, params)` with the default bound, from call number `start`. */
  function Invoke(env: Env, start: nat): RetryTrace {
    Retry(env.script, start, MAX_RETRIES)
  }

  /** The calls one retry run issues. */
  function CallsOf(tool: string, params: Dict, t: RetryTrace): seq<Call> {
    Repeat(Call(tool, params), t.attempts)
  }

  /** `result.isError`, which raises when the retry loop returned None. */
  function IsErrorFlag(r: Option<RemoteResult>): (f: Outcome<bool>)
    ensures r.Some? ==> f == Returns(r.value.isError)
  {
    if r.None? then Raises(AttributeError, "'NoneType' object has no attribute 'isError'")
    else Returns(r.value.isError)
  }

  /**
   * The shape of the dict the search handler stores under `result`: exactly
   * the keys name, uri, id, artist and type, with type "album" or "track" and
   * uri "spotify:<type>:<id>".
   */
  predicate IsSearchHit(j: Json) {
    && j.JDict?
    && j.fields.Keys == {"name", "uri", "id", "artist", "type"}
    && (j.fields["type"] == JStr("album") || j.fields["type"] == JStr("track"))
    && j.fields["uri"] == JStr("spotify:" + j.fields["type"].s + ":" + Show(j.fields["id"]))
  }

  /** What `context["search_result"]` can hold during a run: None or a search hit. */
  predicate SearchSlotOk(j: Json) {
    j == JNull || IsSearchHit(j)
  }

  /**
   * `if search_result and not params.get(key): params[key] = search_result["uri"]`,
   * shared by the get-info and queue handlers.
   */
  function FillFromSearch(params: Dict, sr: Json, key: string): (r: Outcome<Dict>)
    ensures Truthy(Get(params, key)) || !Truthy(sr) ==> r == Returns(params)
    ensures r.Returns? ==> r.value.Keys == params.Keys + (if r.value == params then {} else {key})
    ensures r.Returns? ==> forall k :: k in params && k != key ==> r.value[k] == params[k]
    ensures Truthy(sr) && !Truthy(Get(params, key)) && sr.JDict? && "uri" in sr.fields ==>
              r == Returns(params[key := sr.fields["uri"]])
    ensures IsSearchHit(sr) ==> r.Returns?
  {
    if Truthy(sr) && !Truthy(Get(params, key)) then
      var uri :- Subscript(sr, "uri");
      Returns(params[key := uri])
    else Returns(params)
  }

  /**
   * What every handler step guarantees when the context is well formed: at
   * most MAX_RETRIES calls, and a step that makes no call has refused with
   * an error dict.
   */
  predicate CallsBounded(s: StepResult) {
    && |s.calls| <= MAX_RETRIES
    && (s.calls == [] ==> s.out.Returns? && "error" in s.out.value)
  }

  /** A successful outcome whose `action` is `action`. */
  predicate SucceedsAs(o: Outcome<Dict>, action: string) {
    o.Returns? && "error" !in o.value && Get(o.value, "action") == JStr(action)
  }

  /** A search hit is non-empty, hence truthy, and its uri always contains ':'. */
  lemma SearchHitFacts(j: Json)
    requires IsSearchHit(j)
    ensures Truthy(j)
    ensures IsSubstring(":", j.fields["uri"].s)
  {
    assert "uri" in j.fields;
    var u := j.fields["uri"].s;
    assert u[7..8] == ":";
    assert OccursAt(":", u, 7);
  }
}
