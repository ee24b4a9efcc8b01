/**
 * `handle_get_info_action`: fill `item_uri` from the search result when it is
 * absent, run the info tool, and store the payload's non-empty `tracks` in
 * `context["album_tracks"]`.
 */
module GetInfoAction {
  import opened PyJson
  import opened Remote
  import opened ToolRetry
  import opened Config
  import opened ActionState

  /**
   * What the handler returns or raises once the retry loop has returned `r`,
   * paired with the value it writes to `context["album_tracks"]`, if any.
   */
  function InterpretGetInfo(r: Option<RemoteResult>, decode: string -> Option<Json>): (o: (Outcome<Dict>, Option<Json>))
    ensures o.1.Some? <==> o.0.Returns? && "error" !in o.0.value
    ensures r.Some? && r.value.isError ==> o.0 == Returns(ErrorDict("Failed to get album tracks"))
    ensures o.1.Some? ==>
              && r.Some? && !r.value.isError
              && var data := decode(FirstText(r.value.content, "{}"));
              && data.Some? && data.value.JDict? && "tracks" in data.value.fields
              && o.1.value == data.value.fields["tracks"] && Truthy(o.1.value)
              && o.0.value == map["action" := JStr("get_info"), "result" := data.value]
    ensures r.Some? && !r.value.isError && decode(FirstText(r.value.content, "{}")).None? ==>
              o.0 == Returns(ErrorDict("Failed to parse album information"))
    ensures r.Some? && !r.value.isError &&
            (var data := decode(FirstText(r.value.content, "{}"));
             data.Some? && data.value.JDict? && !Truthy(GetOr(data.value.fields, "tracks", JList([])))) ==>
              o.0 == Returns(ErrorDict("No tracks found in album"))
  {
    match IsErrorFlag(r)
    case Raises(k, m) => (Raises(k, m), None)
    case Returns(isError) =>
      if isError then (Returns(ErrorDict("Failed to get album tracks")), None)
      else
        match decode(FirstText(r.value.content, "{}"))
        case None => (Returns(ErrorDict("Failed to parse album information")), None)
        case Some(data) =>
          if !data.JDict? then (NoGet(data), None)
          else
            var tracks := GetOr(data.fields, "tracks", JList([]));
            if !Truthy(tracks) then (Returns(ErrorDict("No tracks found in album")), None)
            else (Returns(map["action" := JStr("get_info"), "result" := data]), Some(tracks))
  }

  /** The whole get-info step, with `sr` the context's `search_result`. */
  function GetInfoStep(env: Env, start: nat, params: Dict, sr: Json): StepResult {
    match FillFromSearch(params, sr, "item_uri")
    case Raises(k, m) => RaisedEarly(k, m, params)
    case Returns(p) =>
      var t := Invoke(env, start);
      var calls := CallsOf("SpotifyGetInfo", p, t);
      match t.result
      case Raises(k, m) => StepResult(Raises(k, m), p, None, calls, t.waits)
      case Returns(r) =>
        var (o, tracks) := InterpretGetInfo(r, env.decode);
        StepResult(o, p, tracks, calls, t.waits)
  }

  /** `handle_get_info_action(session, params, context)`. */
  method HandleGetInfo(session: Session, params: Params, ctx: Context, decode: string -> Option<Json>)
    returns (out: Outcome<Dict>)
    modifies session, params, ctx
    ensures var s := GetInfoStep(Env(session.script, decode), |old(session.calls)|, old(params.entries), old(ctx.searchResult));
      && out == s.out && params.entries == s.params
      && session.calls == old(session.calls) + s.calls && session.waits == old(session.waits) + s.waits
      && ctx.searchResult == old(ctx.searchResult) && ctx.albumInfo == old(ctx.albumInfo)
      && ctx.albumTracks == (if s.tracks.Some? then s.tracks.value else old(ctx.albumTracks))
  {
    var searchResult := ctx.searchResult;
    if Truthy(searchResult) && !Truthy(Get(params.entries, "item_uri")) {
      var uri := Subscript(searchResult, "uri");
      if uri.Raises? {
        return Raises(uri.kind, uri.text);
      }
      params.entries := params.entries["item_uri" := uri.value];
    }
    var r := CallToolWithRetry(session, "SpotifyGetInfo", params.entries, MAX_RETRIES);
    if r.Raises? {
      return Raises(r.kind, r.text);
    }
    var (o, tracks) := InterpretGetInfo(r.value, decode);
    if tracks.Some? {
      ctx.albumTracks := tracks.value;
    }
    out := o;
  }

  /** With a well-formed context the fill never raises, the calls are bounded, and a success is a "get_info" result. */
  lemma GetInfoStepFacts(env: Env, start: nat, params: Dict, sr: Json)
    requires SearchSlotOk(sr)
    ensures var s := GetInfoStep(env, start, params, sr);
      && 1 <= |s.calls| && CallsBounded(s)
      && (s.out.Returns? && "error" !in s.out.value ==> SucceedsAs(s.out, "get_info"))
  {
    RetryBounds(env.script, start, MAX_RETRIES);
  }

  /**
   * A step succeeds exactly when it stores something in `album_tracks`, and
   * then it stores the non-empty `tracks` of the payload it returns as
   * `result`.
   */
  lemma GetInfoSuccess(env: Env, start: nat, params: Dict, sr: Json)
    ensures var s := GetInfoStep(env, start, params, sr);
      && (s.tracks.Some? <==> s.out.Returns? && "error" !in s.out.value)
      && (s.tracks.Some? ==>
            && "result" in s.out.value && s.out.value["result"].JDict? && "tracks" in s.out.value["result"].fields
            && s.tracks.value == s.out.value["result"].fields["tracks"] && Truthy(s.tracks.value)
            && SucceedsAs(s.out, "get_info"))
  {
  }

  /**
   * The in-place fill of `item_uri`: an explicit truthy value is kept; with a
   * well-formed context and none given, the search hit's uri is filled in,
   * and without a hit the params are left alone.
   */
  lemma GetInfoFills(env: Env, start: nat, params: Dict, sr: Json)
    requires SearchSlotOk(sr)
    ensures var s := GetInfoStep(env, start, params, sr);
      && (Truthy(Get(params, "item_uri")) ==> s.params == params)
      && (!Truthy(Get(params, "item_uri")) ==>
            s.params == if sr == JNull then params else params["item_uri" := sr.fields["uri"]])
  {
    if sr != JNull {
      SearchHitFacts(sr);
    }
    var f := FillFromSearch(params, sr, "item_uri");
    assert f.Returns?;
    assert GetInfoStep(env, start, params, sr).params == f.value;
  }
}
