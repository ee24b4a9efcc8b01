/**
 * `handle_queue_action`: refuse when neither `track_id` nor a search result
 * is available, otherwise fill `track_id` from the search result when it is
 * absent, run the queue tool and report what was queued.
 */
module QueueAction {
  import opened PyJson
  import opened Remote
  import opened ToolRetry
  import opened Config
  import opened ActionState

  const NoTrackId: string := "No track ID available for queue"

  /** Neither a truthy `track_id` nor a truthy search result: the handler refuses before any call. */
  predicate NothingToQueue(params: Dict, sr: Json) {
    !Truthy(Get(params, "track_id")) && !Truthy(sr)
  }

  /** What the handler returns or raises once the retry loop has returned `r`. */
  function InterpretQueue(sr: Json, r: Option<RemoteResult>): Outcome<Dict> {
    var isError :- IsErrorFlag(r);
    if isError then Returns(ErrorDict("Failed to add to queue: " + FirstText(r.value.content, "")))
    else if Truthy(sr) then
      var ty :- Subscript(sr, "type");
      var name :- Subscript(sr, "name");
      var artist :- Subscript(sr, "artist");
      var itemType := if ty == JStr("album") then "album" else "track";
      Returns(map["action" := JStr("queue"),
                  "message" := JStr("Added " + itemType + " " + Show(name) + " by " + Show(artist) + " to queue"),
                  "item" := sr])
    else Returns(map["action" := JStr("queue"), "message" := JStr("Added item to queue")])
  }

  /** The whole queue step, with `sr` the context's `search_result`. */
  function QueueStep(env: Env, start: nat, params: Dict, sr: Json): StepResult {
    if NothingToQueue(params, sr) then Rejected(NoTrackId, params)
    else
      match FillFromSearch(params, sr, "track_id")
      case Raises(k, m) => RaisedEarly(k, m, params)
      case Returns(p) =>
        var t := Invoke(env, start);
        var calls := CallsOf("SpotifyQueue", p, t);
        match t.result
        case Raises(k, m) => StepResult(Raises(k, m), p, None, calls, t.waits)
        case Returns(r) => StepResult(InterpretQueue(sr, r), p, None, calls, t.waits)
  }

  /** `handle_queue_action(session, params, context)`. */
  method HandleQueue(session: Session, params: Params, ctx: Context) returns (out: Outcome<Dict>)
    modifies session, params
    ensures var s := QueueStep(Env(session.script, (_: string) => None), |old(session.calls)|, old(params.entries), ctx.searchResult);
      && out == s.out && params.entries == s.params
      && session.calls == old(session.calls) + s.calls && session.waits == old(session.waits) + s.waits
  {
    var searchResult := ctx.searchResult;
    if !Truthy(Get(params.entries, "track_id")) && !Truthy(searchResult) {
      return Returns(ErrorDict(NoTrackId));
    }
    if Truthy(searchResult) && !Truthy(Get(params.entries, "track_id")) {
      var uri := Subscript(searchResult, "uri");
      if uri.Raises? {
        return Raises(uri.kind, uri.text);
      }
      params.entries := params.entries["track_id" := uri.value];
    }
    var r := CallToolWithRetry(session, "SpotifyQueue", params.entries, MAX_RETRIES);
    if r.Raises? {
      return Raises(r.kind, r.text);
    }
    out := InterpretQueue(searchResult, r.value);
  }

  // ---------------------------------------------------------------------------
  // Properties of the queue handler

  /**
   * The handler refuses, with no call and unchanged params, exactly when it
   * has nothing to queue; otherwise, with a well-formed context, it makes at
   * least one call and the call carries a truthy `track_id`: the explicit one
   * if given, else the search hit's uri.
   */
  lemma QueueValidation(env: Env, start: nat, params: Dict, sr: Json)
    requires SearchSlotOk(sr)
    ensures var s := QueueStep(env, start, params, sr);
      && (NothingToQueue(params, sr) <==> s.out == Returns(ErrorDict(NoTrackId)) && s.calls == [])
      && (NothingToQueue(params, sr) ==> s.params == params && s.waits == [])
      && (!NothingToQueue(params, sr) ==>
            && |s.calls| >= 1 && s.calls[0] == Call("SpotifyQueue", s.params)
            && Truthy(Get(s.params, "track_id"))
            && s.params == (if Truthy(Get(params, "track_id")) then params else params["track_id" := sr.fields["uri"]]))
  {
    if !NothingToQueue(params, sr) {
      if sr != JNull {
        SearchHitFacts(sr);
        assert sr.fields["uri"].JStr? && sr.fields["uri"].s != [];
      }
      RetryBounds(env.script, start, MAX_RETRIES);
      var p := FillFromSearch(params, sr, "track_id").value;
      var t := Invoke(env, start);
      assert CallsOf("SpotifyQueue", p, t)[0] == Call("SpotifyQueue", p);
    }
  }

  /**
   * The outcome once the call has returned: the remote error carries the first
   * text; with a search hit the message names the hit and attaches it; without
   * one it is "Added item to queue".
   */
  lemma QueueMessages(sr: Json, res: RemoteResult)
    requires SearchSlotOk(sr)
    ensures var o := InterpretQueue(sr, Some(res));
      && (res.isError ==> o == Returns(ErrorDict("Failed to add to queue: " + FirstText(res.content, ""))))
      && (!res.isError && sr != JNull ==>
            o == Returns(map["action" := JStr("queue"),
                             "message" := JStr("Added " + sr.fields["type"].s + " " + Show(sr.fields["name"]) +
                                               " by " + Show(sr.fields["artist"]) + " to queue"),
                             "item" := sr]))
      && (!res.isError && sr == JNull ==>
            o == Returns(map["action" := JStr("queue"), "message" := JStr("Added item to queue")]))
  {
    if sr != JNull {
      SearchHitFacts(sr);
    }
  }

  /** With a well-formed context the fill never raises, the calls are bounded, and a success is a "queue" result. */
  lemma QueueStepFacts(env: Env, start: nat, params: Dict, sr: Json)
    requires SearchSlotOk(sr)
    ensures var s := QueueStep(env, start, params, sr);
      && CallsBounded(s)
      && (s.out.Returns? && "error" !in s.out.value ==> SucceedsAs(s.out, "queue"))
  {
    QueueValidation(env, start, params, sr);
    RetryBounds(env.script, start, MAX_RETRIES);
    var t := Invoke(env, start);
    if t.result.Returns? && !NothingToQueue(params, sr) {
      QueueMessages(sr, t.result.value.value);
    }
  }
}
