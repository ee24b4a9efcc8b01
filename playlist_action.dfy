/**
 * `handle_playlist_action`: dispatch on `params["action"]` to the playlist
 * operations, check each operation's required parameters before calling the
 * playlist tool, and report the outcome.
 */
module PlaylistAction {
  import opened PyJson
  import opened Remote
  import opened ToolRetry
  import opened Config
  import opened ActionState

  /** The playlist operations the handler knows; `ChangeTracks(true)` adds, `ChangeTracks(false)` removes. */
  datatype PlaylistOp = GetPlaylists | GetTracks | ChangeTracks(add: bool) | ChangeDetails

  /** The result of checking the params: refuse with a message, or go ahead with an operation. */
  datatype Check = Reject(msg: string) | Proceed(op: PlaylistOp)

  /** The `action` value naming an operation. */
  function OpName(op: PlaylistOp): string {
    match op
    case GetPlaylists => "get"
    case GetTracks => "get_tracks"
    case ChangeTracks(add) => if add then "add_tracks" else "remove_tracks"
    case ChangeDetails => "change_details"
  }

  /** The parameter checks that precede every call, in the order of the `if`/`elif` chain. */
  function CheckPlaylist(params: Dict): Check {
    var a := Get(params, "action");
    if a == JStr("get") then Proceed(GetPlaylists)
    else if a == JStr("get_tracks") then
      if !Truthy(Get(params, "playlist_id")) then Reject("playlist_id is required for get_tracks action")
      else Proceed(GetTracks)
    else if a == JStr("add_tracks") || a == JStr("remove_tracks") then
      if !Truthy(Get(params, "playlist_id")) || !Truthy(Get(params, "track_ids")) then
        Reject("playlist_id and track_ids are required for " + a.s + " action")
      else Proceed(ChangeTracks(a == JStr("add_tracks")))
    else if a == JStr("change_details") then
      if !Truthy(Get(params, "playlist_id")) || (!Truthy(Get(params, "name")) && !Truthy(Get(params, "description"))) then
        Reject("playlist_id and at least one of name or description are required")
      else Proceed(ChangeDetails)
    else Reject("Unknown playlist action: " + Show(a))
  }

  /** The remote error message of each operation. */
  function RemoteFailure(op: PlaylistOp): string {
    match op
    case GetPlaylists => "Failed to get playlists"
    case GetTracks => "Failed to get playlist tracks"
    case ChangeTracks(add) => if add then "Failed to add tracks" else "Failed to remove tracks"
    case ChangeDetails => "Failed to change playlist details"
  }

  /**
   * The `try` block of the two fetching operations: decode the first text (or
   * "{}") and count it; any failure is reported as `failure`.
   */
  function Fetched(res: RemoteResult, decode: string -> Option<Json>, action: string, noun: string,
                   suffix: string, failure: string): (o: Outcome<Dict>)
    requires noun != "action" && noun != "error"
    ensures o.Returns?
    ensures "error" in o.value ==> o.value == ErrorDict(failure)
    ensures "error" !in o.value ==> SucceedsAs(o, action)
  {
    match decode(FirstText(res.content, "{}"))
    case None => Returns(ErrorDict(failure))
    case Some(data) =>
      match Len(data)
      case Raises(_, _) => Returns(ErrorDict(failure))
      case Returns(n) =>
        Returns(map["action" := JStr(action), "message" := JStr("Found " + NatToString(n) + suffix), noun := data])
  }

  /** What the handler returns or raises once the retry loop has returned `r` for operation `op`. */
  function InterpretPlaylist(op: PlaylistOp, r: Option<RemoteResult>, decode: string -> Option<Json>): Outcome<Dict> {
    var isError :- IsErrorFlag(r);
    if isError then Returns(ErrorDict(RemoteFailure(op)))
    else
      match op
      case GetPlaylists =>
        Fetched(r.value, decode, "playlist_get", "playlists", " playlists", "Failed to parse playlists")
      case GetTracks =>
        Fetched(r.value, decode, "playlist_get_tracks", "tracks", " tracks in playlist", "Failed to parse playlist tracks")
      case ChangeTracks(add) =>
        Returns(map["action" := JStr("playlist_" + OpName(op)),
                    "message" := JStr(if add then "Tracks added to playlist" else "Tracks removed from playlist")])
      case ChangeDetails =>
        Returns(map["action" := JStr("playlist_change_details"), "message" := JStr("Playlist details updated")])
  }

  /** The whole playlist step; the handler never changes its params. */
  function PlaylistStep(env: Env, start: nat, params: Dict): StepResult {
    match CheckPlaylist(params)
    case Reject(msg) => Rejected(msg, params)
    case Proceed(op) =>
      var t := Invoke(env, start);
      var calls := CallsOf("SpotifyPlaylist", params, t);
      match t.result
      case Raises(k, m) => StepResult(Raises(k, m), params, None, calls, t.waits)
      case Returns(r) => StepResult(InterpretPlaylist(op, r, env.decode), params, None, calls, t.waits)
  }

  /** `handle_playlist_action(session, params, context)`; the context is not used. */
  method HandlePlaylist(session: Session, params: Params, decode: string -> Option<Json>) returns (out: Outcome<Dict>)
    modifies session
    ensures var s := PlaylistStep(Env(session.script, decode), |old(session.calls)|, params.entries);
      out == s.out && session.calls == old(session.calls) + s.calls && session.waits == old(session.waits) + s.waits
  {
    var check := CheckPlaylist(params.entries);
    if check.Reject? {
      return Returns(ErrorDict(check.msg));
    }
    var r := CallToolWithRetry(session, "SpotifyPlaylist", params.entries, MAX_RETRIES);
    if r.Raises? {
      return Raises(r.kind, r.text);
    }
    out := InterpretPlaylist(check.op, r.value, decode);
  }

  // ---------------------------------------------------------------------------
  // Properties of the playlist handler

  /**
   * Which params pass the checks, in both directions: `get` always; the
   * others when their required parameters are truthy; and the operation that
   * proceeds is the one the action names.
   */
  lemma PlaylistChecks(params: Dict)
    ensures var a := Get(params, "action");
      var pid := Truthy(Get(params, "playlist_id"));
      && (CheckPlaylist(params).Proceed? <==>
            || a == JStr("get")
            || (a == JStr("get_tracks") && pid)
            || ((a == JStr("add_tracks") || a == JStr("remove_tracks")) && pid && Truthy(Get(params, "track_ids")))
            || (a == JStr("change_details") && pid &&
                (Truthy(Get(params, "name")) || Truthy(Get(params, "description")))))
      && (CheckPlaylist(params).Proceed? ==> a == JStr(OpName(CheckPlaylist(params).op)))
      && (a != JStr("get") && a != JStr("get_tracks") && a != JStr("add_tracks") &&
          a != JStr("remove_tracks") && a != JStr("change_details") ==>
            CheckPlaylist(params) == Reject("Unknown playlist action: " + Show(a)))
  {
  }

  /**
   * A failed check returns its message with no call and no wait; a passed
   * check calls the playlist tool, with the params unchanged, between one
   * and MAX_RETRIES times.
   */
  lemma PlaylistCallsOnlyWhenValid(env: Env, start: nat, params: Dict)
    ensures var s := PlaylistStep(env, start, params);
      && s.params == params
      && (CheckPlaylist(params).Reject? ==>
            s.out == Returns(ErrorDict(CheckPlaylist(params).msg)) && s.calls == [] && s.waits == [])
      && (CheckPlaylist(params).Proceed? ==>
            1 <= |s.calls| <= MAX_RETRIES && forall i :: 0 <= i < |s.calls| ==> s.calls[i] == Call("SpotifyPlaylist", params))
  {
    RetryBounds(env.script, start, MAX_RETRIES);
  }

  /**
   * The fetching operations: the remote error has its own message; a payload
   * that does not decode, or decodes to something without a length, gives the
   * parse failure; otherwise the decoded value is returned with its length in
   * the message.
   */
  lemma PlaylistFetchOutcomes(res: RemoteResult, decode: string -> Option<Json>)
    ensures var data := decode(FirstText(res.content, "{}"));
      var g := InterpretPlaylist(GetPlaylists, Some(res), decode);
      var t := InterpretPlaylist(GetTracks, Some(res), decode);
      && (res.isError ==> g == Returns(ErrorDict("Failed to get playlists")) &&
                          t == Returns(ErrorDict("Failed to get playlist tracks")))
      && (!res.isError && (data.None? || Len(data.value).Raises?) ==>
            g == Returns(ErrorDict("Failed to parse playlists")) &&
            t == Returns(ErrorDict("Failed to parse playlist tracks")))
      && (!res.isError && data.Some? && data.value.JList? ==>
            && g.value["playlists"] == data.value && t.value["tracks"] == data.value
            && g.value["message"] == JStr("Found " + NatToString(|data.value.items|) + " playlists")
            && t.value["message"] == JStr("Found " + NatToString(|data.value.items|) + " tracks in playlist"))
      && ("error" !in g.value <==> !res.isError && data.Some? && Len(data.value).Returns?)
  {
  }

  /** Every successful outcome of operation `op` is a "playlist_<op>" result. */
  lemma PlaylistSuccessAction(op: PlaylistOp, res: RemoteResult, decode: string -> Option<Json>)
    ensures var o := InterpretPlaylist(op, Some(res), decode);
      o.Returns? && ("error" !in o.value ==> SucceedsAs(o, "playlist_" + OpName(op)))
  {
    if !res.isError {
      match op
      case GetPlaylists =>
        assert "playlist_" + OpName(op) == "playlist_get";
        assert InterpretPlaylist(op, Some(res), decode) ==
          Fetched(res, decode, "playlist_get", "playlists", " playlists", "Failed to parse playlists");
      case GetTracks =>
        assert "playlist_" + OpName(op) == "playlist_get_tracks";
        assert InterpretPlaylist(op, Some(res), decode) ==
          Fetched(res, decode, "playlist_get_tracks", "tracks", " tracks in playlist", "Failed to parse playlist tracks");
      case ChangeTracks(_) =>
      case ChangeDetails =>
        assert "playlist_" + OpName(op) == "playlist_change_details";
    }
  }

  /** The calls are bounded, and a success is a "playlist_..." result named after the operation. */
  lemma PlaylistStepFacts(env: Env, start: nat, params: Dict)
    ensures var s := PlaylistStep(env, start, params);
      && CallsBounded(s)
      && (s.out.Returns? && "error" !in s.out.value ==>
            CheckPlaylist(params).Proceed? && SucceedsAs(s.out, "playlist_" + OpName(CheckPlaylist(params).op)))
  {
    PlaylistCallsOnlyWhenValid(env, start, params);
    var t := Invoke(env, start);
    if CheckPlaylist(params).Proceed? && t.result.Returns? {
      RetryBounds(env.script, start, MAX_RETRIES);
      PlaylistSuccessAction(CheckPlaylist(params).op, t.result.value.value, env.decode);
    }
  }
}
