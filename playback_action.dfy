/**
 * `handle_playback_action`: for `start`, derive `spotify_uri` from the search
 * result when it is absent; run the playback tool; and report what happened
 * with a message per action.
 */
module PlaybackAction {
  import opened PyJson
  import opened Remote
  import opened ToolRetry
  import opened Config
  import opened ActionState

  /** The URI playback uses for a stored search-result URI: prefixed as a track URI iff it has no ':'. */
  function PlaybackUri(uri: string): string {
    if IsSubstring(":", uri) then uri else "spotify:track:" + uri
  }

  /**
   * For `start` with a truthy search result and no truthy
   * `spotify_uri`, set `spotify_uri` from the stored URI; otherwise leave the
   * params alone.
   */
  function FillSpotifyUri(params: Dict, sr: Json): (r: Outcome<Dict>)
    ensures Get(params, "action") != JStr("start") || !Truthy(sr) || Truthy(Get(params, "spotify_uri")) ==>
              r == Returns(params)
    ensures Get(params, "action") == JStr("start") && Truthy(sr) && !Truthy(Get(params, "spotify_uri")) &&
            sr.JDict? && "uri" in sr.fields && sr.fields["uri"].JStr? ==>
              r == Returns(params["spotify_uri" := JStr(PlaybackUri(sr.fields["uri"].s))])
    ensures r.Returns? ==> forall k :: k in params && k != "spotify_uri" ==> k in r.value && r.value[k] == params[k]
  {
    if Get(params, "action") == JStr("start") && Truthy(sr) && !Truthy(Get(params, "spotify_uri")) then
      var uri :- Subscript(sr, "uri");
      var hasColon :- Contains(uri, ":");
      if !hasColon then Returns(params["spotify_uri" := JStr("spotify:track:" + Show(uri))])
      else Returns(params["spotify_uri" := uri])
    else Returns(params)
  }

  /** "album" when the stored item's type is "album", else "track". */
  function ItemType(ty: Json): string {
    if ty == JStr("album") then "album" else "track"
  }

  /** What the handler returns or raises once the retry loop has returned `r`; `params` are the filled params. */
  function InterpretPlayback(params: Dict, sr: Json, r: Option<RemoteResult>): Outcome<Dict> {
    var isError :- IsErrorFlag(r);
    if isError then
      Returns(ErrorDict("Playback action failed: " + Show(Get(params, "action")) + ": " + FirstText(r.value.content, "")))
    else
      var action := Get(params, "action");
      if action == JStr("start") then
        if Truthy(sr) then
          var ty :- Subscript(sr, "type");
          var name :- Subscript(sr, "name");
          var artist :- Subscript(sr, "artist");
          Returns(map["action" := JStr("playback"), "type" := action,
                      "message" := JStr("Playing " + ItemType(ty) + " " + Show(name) + " by " + Show(artist)),
                      "item" := sr])
        else
          Returns(map["action" := JStr("playback"), "type" := JStr("resume"), "message" := JStr("Resuming playback")])
      else if action == JStr("pause") then
        Returns(map["action" := JStr("playback"), "type" := JStr("pause"), "message" := JStr("Playback paused")])
      else if action == JStr("skip") then
        Returns(map["action" := JStr("playback"), "type" := JStr("skip"), "message" := JStr("Skipped to next track")])
      else
        Returns(map["action" := JStr("playback"), "type" := GetOr(params, "action", JStr("unknown")),
                    "message" := JStr("Playback command executed")])
  }

  /** The whole playback step, with `sr` the context's `search_result`. */
  function PlaybackStep(env: Env, start: nat, params: Dict, sr: Json): StepResult {
    match FillSpotifyUri(params, sr)
    case Raises(k, m) => RaisedEarly(k, m, params)
    case Returns(p) =>
      var t := Invoke(env, start);
      var calls := CallsOf("SpotifyPlayback", p, t);
      match t.result
      case Raises(k, m) => StepResult(Raises(k, m), p, None, calls, t.waits)
      case Returns(r) => StepResult(InterpretPlayback(p, sr, r), p, None, calls, t.waits)
  }

  /** `handle_playback_action(session, params, context)`. */
  method HandlePlayback(session: Session, params: Params, ctx: Context) returns (out: Outcome<Dict>)
    modifies session, params
    ensures var s := PlaybackStep(Env(session.script, (_: string) => None), |old(session.calls)|, old(params.entries), ctx.searchResult);
      && out == s.out && params.entries == s.params
      && session.calls == old(session.calls) + s.calls && session.waits == old(session.waits) + s.waits
  {
    var searchResult := ctx.searchResult;
    if Get(params.entries, "action") == JStr("start") {
      if Truthy(searchResult) && !Truthy(Get(params.entries, "spotify_uri")) {
        var uri := Subscript(searchResult, "uri");
        if uri.Raises? {
          return Raises(uri.kind, uri.text);
        }
        var hasColon := Contains(uri.value, ":");
        if hasColon.Raises? {
          return Raises(hasColon.kind, hasColon.text);
        }
        if !hasColon.value {
          params.entries := params.entries["spotify_uri" := JStr("spotify:track:" + Show(uri.value))];
        } else {
          params.entries := params.entries["spotify_uri" := uri.value];
        }
      }
    }
    var r := CallToolWithRetry(session, "SpotifyPlayback", params.entries, MAX_RETRIES);
    if r.Raises? {
      return Raises(r.kind, r.text);
    }
    out := InterpretPlayback(params.entries, searchResult, r.value);
  }

  // ---------------------------------------------------------------------------
  // Properties of the playback handler

  /**
   * The outcome messages once the call has returned without error: `start`
   * with a search hit plays it and attaches it as `item`; `start` without one
   * resumes; `pause` and `skip` have their messages; anything else is a
   * generic command; the remote error names the action and its first text.
   */
  lemma PlaybackMessages(params: Dict, sr: Json, res: RemoteResult)
    requires SearchSlotOk(sr)
    ensures var o := InterpretPlayback(params, sr, Some(res));
      var action := Get(params, "action");
      && (res.isError ==>
            o == Returns(ErrorDict("Playback action failed: " + Show(action) + ": " + FirstText(res.content, ""))))
      && (!res.isError ==> o.Returns? && "error" !in o.value && o.value["action"] == JStr("playback"))
      && (!res.isError && action == JStr("start") && sr != JNull ==>
            && o.value["type"] == JStr("start") && o.value["item"] == sr
            && o.value["message"] == JStr("Playing " + sr.fields["type"].s + " " + Show(sr.fields["name"]) +
                                          " by " + Show(sr.fields["artist"])))
      && (!res.isError && action == JStr("start") && sr == JNull ==>
            o.value["type"] == JStr("resume") && o.value["message"] == JStr("Resuming playback"))
      && (!res.isError && action == JStr("pause") ==> o.value["message"] == JStr("Playback paused"))
      && (!res.isError && action == JStr("skip") ==> o.value["message"] == JStr("Skipped to next track"))
      && (!res.isError && action != JStr("start") && action != JStr("pause") && action != JStr("skip") ==>
            o.value["message"] == JStr("Playback command executed") &&
            o.value["type"] == GetOr(params, "action", JStr("unknown")))
  {
    if sr != JNull {
      SearchHitFacts(sr);
    }
  }

  /**
   * With a search hit in the context, `start` without a URI plays the hit's
   * own URI unchanged (it always contains ':'), and an explicit URI is kept.
   */
  lemma PlaybackUsesHitUri(params: Dict, sr: Json)
    requires IsSearchHit(sr)
    requires Get(params, "action") == JStr("start")
    ensures !Truthy(Get(params, "spotify_uri")) ==>
              FillSpotifyUri(params, sr) == Returns(params["spotify_uri" := sr.fields["uri"]])
    ensures Truthy(Get(params, "spotify_uri")) ==> FillSpotifyUri(params, sr) == Returns(params)
  {
    SearchHitFacts(sr);
  }

  /** With a well-formed context the fill never raises, the calls are bounded, and a success is a "playback" result. */
  lemma PlaybackStepFacts(env: Env, start: nat, params: Dict, sr: Json)
    requires SearchSlotOk(sr)
    ensures var s := PlaybackStep(env, start, params, sr);
      && 1 <= |s.calls| && CallsBounded(s)
      && (s.out.Returns? && "error" !in s.out.value ==> SucceedsAs(s.out, "playback"))
  {
    if sr != JNull {
      SearchHitFacts(sr);
      if Get(params, "action") == JStr("start") {
        PlaybackUsesHitUri(params, sr);
      }
    }
    RetryBounds(env.script, start, MAX_RETRIES);
    var t := Invoke(env, start);
    if t.result.Returns? {
      PlaybackMessages(FillSpotifyUri(params, sr).value, sr, t.result.value.value);
    }
  }
}
