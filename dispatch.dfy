/**
 * `execute_single_action`: route an action to its handler by tool name; the
 * search handler gets no context, the others get the shared context.
 */
module Dispatch {
  import opened PyJson
  import opened Remote
  import opened ToolRetry
  import opened Config
  import opened ActionState
  import opened SearchAction
  import opened GetInfoAction
  import opened PlaybackAction
  import opened QueueAction
  import opened PlaylistAction

  /** The tools the dispatcher knows. */
  datatype Tool = Search | GetInfo | Playback | Queue | Playlist

  function ToolName(t: Tool): string {
    match t
    case Search => "SpotifySearch"
    case GetInfo => "SpotifyGetInfo"
    case Playback => "SpotifyPlayback"
    case Queue => "SpotifyQueue"
    case Playlist => "SpotifyPlaylist"
  }

  /** The tool an action's `tool_name` selects, if any: the inverse of `ToolName`. */
  function ToolOf(name: Json): (t: Option<Tool>)
    ensures t.Some? ==> name == JStr(ToolName(t.value))
    ensures forall u: Tool :: name == JStr(ToolName(u)) ==> t == Some(u)
  {
    if name == JStr("SpotifySearch") then Some(Search)
    else if name == JStr("SpotifyGetInfo") then Some(GetInfo)
    else if name == JStr("SpotifyPlayback") then Some(Playback)
    else if name == JStr("SpotifyQueue") then Some(Queue)
    else if name == JStr("SpotifyPlaylist") then Some(Playlist)
    else None
  }

  /** One dispatched step, with `ctx` the context before it. */
  function DispatchStep(env: Env, start: nat, name: Json, params: Dict, ctx: Ctx): (s: StepResult)
    ensures ToolOf(name).None? ==> s == Rejected("Unsupported action: " + Show(name), params)
    ensures s.tracks.Some? ==> ToolOf(name) == Some(GetInfo)
  {
    match ToolOf(name)
    case None => Rejected("Unsupported action: " + Show(name), params)
    case Some(Search) => SearchStep(env, start, params)
    case Some(GetInfo) => GetInfoStep(env, start, params, ctx.searchResult)
    case Some(Playback) => PlaybackStep(env, start, params, ctx.searchResult)
    case Some(Queue) => QueueStep(env, start, params, ctx.searchResult)
    case Some(Playlist) => PlaylistStep(env, start, params)
  }

  /** `execute_single_action(session, tool_name, params, context)`. */
  method ExecuteSingleAction(session: Session, toolName: Json, params: Params, ctx: Context,
                             decode: string -> Option<Json>) returns (out: Outcome<Dict>)
    modifies session, params, ctx
    ensures var s := DispatchStep(Env(session.script, decode), |old(session.calls)|, toolName, old(params.entries), old(ctx.Value()));
      && out == s.out && params.entries == s.params
      && session.calls == old(session.calls) + s.calls && session.waits == old(session.waits) + s.waits
      && ctx.Value() == old(ctx.Value()).(albumTracks := if s.tracks.Some? then s.tracks.value else old(ctx.albumTracks))
  {
    match ToolOf(toolName)
    case Some(Search) =>
      out := HandleSearch(session, params, decode);
    case Some(GetInfo) =>
      out := HandleGetInfo(session, params, ctx, decode);
    case Some(Playback) =>
      out := HandlePlayback(session, params, ctx);
    case Some(Queue) =>
      out := HandleQueue(session, params, ctx);
    case Some(Playlist) =>
      out := HandlePlaylist(session, params, decode);
    case None =>
      out := Returns(ErrorDict("Unsupported action: " + Show(toolName)));
  }

  // ---------------------------------------------------------------------------
  // Properties of a dispatched step

  /** Every tool name selects its own tool. */
  lemma ToolNamesDistinct(t: Tool, u: Tool)
    ensures ToolOf(JStr(ToolName(t))) == Some(t)
    ensures ToolName(t) == ToolName(u) ==> t == u
  {
  }

  /** A step reads only `search_result` from the context. */
  lemma DispatchReadsSearchResultOnly(env: Env, start: nat, name: Json, params: Dict, c1: Ctx, c2: Ctx)
    requires c1.searchResult == c2.searchResult
    ensures DispatchStep(env, start, name, params, c1) == DispatchStep(env, start, name, params, c2)
  {
  }

  /**
   * With a well-formed context: a step that makes no call has refused with an
   * error dict (a fill from the search hit never raises), a step makes at
   * most MAX_RETRIES calls, and the only successful result whose `action` is
   * "search" comes from the search tool and carries a search hit.
   */
  lemma DispatchWellFormed(env: Env, start: nat, name: Json, params: Dict, ctx: Ctx)
    requires SearchSlotOk(ctx.searchResult)
    ensures var s := DispatchStep(env, start, name, params, ctx);
      && |s.calls| <= MAX_RETRIES
      && (s.calls == [] ==> s.out.Returns? && "error" in s.out.value)
      && (s.out.Returns? && "error" !in s.out.value && Get(s.out.value, "action") == JStr("search") ==>
            ToolOf(name) == Some(Search) && IsSearchHit(Get(s.out.value, "result")))
  {
    match ToolOf(name)
    case None =>
    case Some(Search) => SearchStepFacts(env, start, params);
    case Some(GetInfo) => GetInfoStepFacts(env, start, params, ctx.searchResult);
    case Some(Playback) => PlaybackStepFacts(env, start, params, ctx.searchResult);
    case Some(Queue) => QueueStepFacts(env, start, params, ctx.searchResult);
    case Some(Playlist) =>
      PlaylistStepFacts(env, start, params);
      var s := PlaylistStep(env, start, params);
      if s.out.Returns? && "error" !in s.out.value {
        assert ("playlist_" + OpName(CheckPlaylist(params).op))[0] == 'p';
      }
  }
}
