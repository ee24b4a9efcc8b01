/**
 * `handle_search_action`: run the search tool, decode the first text payload
 * and turn the first album or track into a search hit
 * `{name, uri, id, artist, type}`. It receives the params but no context.
 */
module SearchAction {
  import opened PyJson
  import opened Remote
  import opened ToolRetry
  import opened Config
  import opened ActionState

  const ParseFailure: string := "Failed to parse search results"

  /** `qtype == "album"` and the payload's `albums` is truthy: the album branch. */
  predicate AlbumBranch(params: Dict, data: Dict) {
    Get(params, "qtype") == JStr("album") && Truthy(Get(data, "albums"))
  }

  /** The list the handler takes its item from and the item kind, or None when neither list is usable. */
  function ChosenList(params: Dict, data: Dict): Option<(Json, string)> {
    if AlbumBranch(params, data) then Some((data["albums"], "album"))
    else if Truthy(Get(data, "tracks")) then Some((data["tracks"], "track"))
    else None
  }

  /**
   * The artist: the first element of a list-typed `artists`, else `artist`,
   * else "Unknown Artist". On a value that is not a dict the Python `in`,
   * subscript or `.get` raises.
   */
  function ArtistOf(item: Json): (r: Outcome<Json>)
    ensures item.JDict? && "artists" in item.fields && item.fields["artists"].JList? ==>
              r == Index0(item.fields["artists"])
    ensures item.JDict? && !("artists" in item.fields && item.fields["artists"].JList?) ==>
              r == Returns(GetOr(item.fields, "artist", JStr("Unknown Artist")))
    ensures item.JDict? ==> r.Returns? || r == Raises(IndexError, "list index out of range")
  {
    var has :- Contains(item, "artists");
    if has then
      var artists :- Subscript(item, "artists");
      if artists.JList? then Index0(artists) else PyGet(item, "artist", JStr("Unknown Artist"))
    else PyGet(item, "artist", JStr("Unknown Artist"))
  }

  /** The search-hit dict built from one album or track item. */
  function HitOf(item: Json, kind: string): Outcome<Dict> {
    var artist :- ArtistOf(item);
    var name :- Subscript(item, "name");
    var id :- Subscript(item, "id");
    Returns(map["name" := name, "uri" := JStr("spotify:" + kind + ":" + Show(id)), "id" := id,
                "artist" := artist, "type" := JStr(kind)])
  }

  /** The body of the `try` block once the payload has decoded. */
  function SearchPayload(params: Dict, data: Json): Outcome<Dict> {
    if !data.JDict? then NoGet(data)
    else
      match ChosenList(params, data.fields)
      case None => Returns(ErrorDict("No results found for query: " + Show(Get(params, "query"))))
      case Some((coll, kind)) =>
        var item :- Index0(coll);
        var hit :- HitOf(item, kind);
        Returns(map["action" := JStr("search"), "result" := JDict(hit)])
  }

  /** The `except (json.JSONDecodeError, KeyError, IndexError)` clause. */
  function CatchParse(o: Outcome<Dict>): Outcome<Dict> {
    if o.Raises? && (o.kind == KeyError || o.kind == IndexError) then Returns(ErrorDict(ParseFailure))
    else o
  }

  /** What the handler returns or raises once the retry loop has returned `r`. */
  function InterpretSearch(params: Dict, r: Option<RemoteResult>, decode: string -> Option<Json>): Outcome<Dict> {
    if r.None? || r.value.isError then Returns(ErrorDict("No search results found"))
    else
      match decode(FirstText(r.value.content, "{}"))
      case None => Returns(ErrorDict(ParseFailure))
      case Some(data) => CatchParse(SearchPayload(params, data))
  }

  /** The whole search step, issuing its calls from call number `start` on. */
  function SearchStep(env: Env, start: nat, params: Dict): StepResult {
    var t := Invoke(env, start);
    var calls := CallsOf("SpotifySearch", params, t);
    match t.result
    case Raises(k, m) => StepResult(Raises(k, m), params, None, calls, t.waits)
    case Returns(r) => StepResult(InterpretSearch(params, r, env.decode), params, None, calls, t.waits)
  }

  /** `handle_search_action(session, params)`. */
  method HandleSearch(session: Session, params: Params, decode: string -> Option<Json>) returns (out: Outcome<Dict>)
    modifies session
    ensures var s := SearchStep(Env(session.script, decode), |old(session.calls)|, params.entries);
      out == s.out && session.calls == old(session.calls) + s.calls && session.waits == old(session.waits) + s.waits
  {
    var r := CallToolWithRetry(session, "SpotifySearch", params.entries, MAX_RETRIES);
    if r.Raises? {
      return Raises(r.kind, r.text);
    }
    out := InterpretSearch(params.entries, r.value, decode);
  }

  // ---------------------------------------------------------------------------
  // Properties of the search handler

  /**
   * A remote error gives exactly "No search results found"; a payload that
   * does not decode gives exactly "Failed to parse search results".
   */
  lemma SearchRemoteAndDecodeErrors(params: Dict, res: RemoteResult, decode: string -> Option<Json>)
    ensures res.isError ==> InterpretSearch(params, Some(res), decode) == Returns(ErrorDict("No search results found"))
    ensures !res.isError && decode(FirstText(res.content, "{}")).None? ==>
              InterpretSearch(params, Some(res), decode) == Returns(ErrorDict("Failed to parse search results"))
  {
  }

  /**
   * With no text element the payload is "{}"; if that decodes to the empty
   * dict, the handler reports that the query found nothing.
   */
  lemma SearchWithoutText(params: Dict, res: RemoteResult, decode: string -> Option<Json>)
    requires !res.isError
    requires forall i :: 0 <= i < |res.content| ==> res.content[i].None?
    requires decode("{}") == Some(JDict(map[]))
    ensures InterpretSearch(params, Some(res), decode) ==
              Returns(ErrorDict("No results found for query: " + Show(Get(params, "query"))))
  {
  }

  /** A decoded dict payload with neither a usable album list nor a non-empty track list names the query. */
  lemma SearchNoResults(params: Dict, data: Dict)
    requires !AlbumBranch(params, data) && !Truthy(Get(data, "tracks"))
    ensures CatchParse(SearchPayload(params, JDict(data))) ==
              Returns(ErrorDict("No results found for query: " + Show(Get(params, "query"))))
  {
  }

  /** A missing key or an empty list in the chosen item is reported as a parse failure, never raised. */
  lemma SearchMalformedItem(params: Dict, data: Dict)
    requires ChosenList(params, data).Some?
    requires var (coll, _) := ChosenList(params, data).value;
      coll.JDict? ||
      (coll.JList? && coll.items[0].JDict? &&
       (("artists" in coll.items[0].fields && coll.items[0].fields["artists"] == JList([])) ||
        "name" !in coll.items[0].fields || "id" !in coll.items[0].fields))
    ensures CatchParse(SearchPayload(params, JDict(data))) == Returns(ErrorDict("Failed to parse search results"))
  {
    var (coll, kind) := ChosenList(params, data).value;
    if coll.JList? {
      var item := coll.items[0];
      if "artists" in item.fields && item.fields["artists"] == JList([]) {
        assert ArtistOf(item) == Raises(IndexError, "list index out of range");
      } else {
        var a := ArtistOf(item);
        if a.Returns? {
          assert HitOf(item, kind).Raises? && HitOf(item, kind).kind == KeyError;
        }
      }
    }
  }

  /** A hit built from an item is a search hit whose id and name are the item's own. */
  lemma HitShape(item: Json, kind: string)
    requires kind == "album" || kind == "track"
    requires HitOf(item, kind).Returns?
    ensures var hit := HitOf(item, kind).value;
      && IsSearchHit(JDict(hit)) && hit["type"] == JStr(kind)
      && item.JDict? && "name" in item.fields && "id" in item.fields
      && hit["id"] == item.fields["id"] && hit["name"] == item.fields["name"]
      && Returns(hit["artist"]) == ArtistOf(item)
  {
  }

  /** A decoded payload that yields a success yields it from the first item of the chosen list. */
  lemma PayloadShape(params: Dict, data: Json)
    requires SearchPayload(params, data).Returns? && "error" !in SearchPayload(params, data).value
    ensures var d := SearchPayload(params, data).value;
      && data.JDict? && ChosenList(params, data.fields).Some?
      && var (coll, kind) := ChosenList(params, data.fields).value;
      && coll.JList? && coll.items != []
      && HitOf(coll.items[0], kind).Returns?
      && d == map["action" := JStr("search"), "result" := JDict(HitOf(coll.items[0], kind).value)]
  {
  }

  /**
   * Every successful search result is a search hit built from the first item
   * of the chosen list: the album branch is taken exactly when qtype is
   * "album" and `albums` is truthy, otherwise the non-empty `tracks` list is
   * used; `uri == "spotify:" + type + ":" + id`, `id` and `name` are copied
   * unchanged, and the artist follows `ArtistOf`.
   */
  lemma SearchSuccessShape(params: Dict, res: RemoteResult, decode: string -> Option<Json>)
    requires InterpretSearch(params, Some(res), decode).Returns?
    requires "error" !in InterpretSearch(params, Some(res), decode).value
    ensures var d := InterpretSearch(params, Some(res), decode).value;
      var data := decode(FirstText(res.content, "{}"));
      && !res.isError && data.Some? && data.value.JDict?
      && d.Keys == {"action", "result"} && d["action"] == JStr("search")
      && IsSearchHit(d["result"])
      && var hit := d["result"].fields;
      && (hit["type"] == JStr("album") <==> AlbumBranch(params, data.value.fields))
      && (hit["type"] == JStr("track") ==> Truthy(Get(data.value.fields, "tracks")))
      && var listKey := if hit["type"] == JStr("album") then "albums" else "tracks";
      && listKey in data.value.fields
      && var coll := data.value.fields[listKey];
      && coll.JList? && coll.items != [] && coll.items[0].JDict?
      && var item := coll.items[0].fields;
      && "name" in item && "id" in item
      && hit["id"] == item["id"] && hit["name"] == item["name"]
      && Returns(hit["artist"]) == ArtistOf(coll.items[0])
  {
    var data := decode(FirstText(res.content, "{}")).value;
    var o := SearchPayload(params, data);
    assert InterpretSearch(params, Some(res), decode) == CatchParse(o);
    assert o.Returns? && "error" !in o.value;
    PayloadShape(params, data);
    var (coll, kind) := ChosenList(params, data.fields).value;
    HitShape(coll.items[0], kind);
    assert kind == "album" ==> coll == data.fields["albums"];
    assert kind == "track" ==> coll == data.fields["tracks"];
  }

  /**
   * For a track with a string id the uri is "spotify:track:<id>", and the
   * artist comes out the same whether the payload lists it as
   * `"artists": [a]` or as `"artist": a`; with neither it is "Unknown Artist".
   */
  lemma SearchArtistForms(id: string, name: Json, a: Json)
    ensures var t1 := map["id" := JStr(id), "name" := name, "artists" := JList([a])];
      var t2 := map["id" := JStr(id), "name" := name, "artist" := a];
      var t3 := map["id" := JStr(id), "name" := name];
      && HitOf(JDict(t1), "track") == HitOf(JDict(t2), "track")
      && HitOf(JDict(t1), "track").Returns?
      && HitOf(JDict(t1), "track").value["uri"] == JStr("spotify:track:" + id)
      && HitOf(JDict(t1), "track").value["artist"] == a
      && HitOf(JDict(t3), "track").value["artist"] == JStr("Unknown Artist")
  {
    var t1 := map["id" := JStr(id), "name" := name, "artists" := JList([a])];
    var t2 := map["id" := JStr(id), "name" := name, "artist" := a];
    assert ArtistOf(JDict(t1)) == Returns(a);
    assert ArtistOf(JDict(t2)) == Returns(a);
  }

  /** A search step calls the tool at least once and at most MAX_RETRIES times, and every success carries a search hit. */
  lemma SearchStepFacts(env: Env, start: nat, params: Dict)
    ensures var s := SearchStep(env, start, params);
      && 1 <= |s.calls| && CallsBounded(s)
      && (s.out.Returns? && "error" !in s.out.value ==> SucceedsAs(s.out, "search") && IsSearchHit(s.out.value["result"]))
  {
    RetryBounds(env.script, start, MAX_RETRIES);
    var t := Invoke(env, start);
    var s := SearchStep(env, start, params);
    if t.result.Returns? && s.out.Returns? && "error" !in s.out.value {
      SearchSuccessShape(params, t.result.value.value, env.decode);
    }
  }
}
