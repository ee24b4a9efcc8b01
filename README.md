# Spotify action engine, modelled in Dafny

This project models the action-sequence engine of the Spotify language-model
controller. It also models the parser that turns the model's reply into
actions.

The engine (`execute_spotify_actions`) takes a list of `{tool_name, params}`
actions and runs them in order against one tool-calling session:

- each tool call is retried with exponential backoff;
- each action goes to its handler (search, get-info, playback, queue,
  playlist);
- a context dict is threaded from step to step: the last search hit, the
  album tracks and the album info;
- the run stops at a failed search and turns any exception into
  `{"error": str(e)}`;
- the results are formatted into one response (all succeeded, all failed,
  or partial success).

The parser (`parse_llm_response`) decodes the reply directly, or else from
the `[...]` span. It passes a lone error object through, wraps a single
action into a list, and checks that every action is a dict with `tool_name`
and `params`.

Every handler is modelled twice:

- a pure step function (`SearchStep`, `GetInfoStep`, …) that returns the
  outcome, the filled-in params, the context write, and the calls and waits
  made;
- an imperative method (`HandleSearch`, …) over a `Session`, a `Params`
  object and a `Context` object, whose postcondition equates its effect with
  the step function.

The executor is a loop whose invariant ties it to the recursive run function
`RunFrom`. The properties are proved as lemmas about the step functions and
the run.

Modules, one per file:

- `PyJson` (`py_json.dfy`): JSON values and the Python semantics the source
  relies on (truthiness, `.get`, subscripts, `in`, `len`, `+` on strings,
  f-string rendering), with exceptions as an `Outcome`.
- `Config` (`config.dfy`): `MAX_RETRIES` and `RETRY_DELAY`.
- `Remote` (`remote.dfy`): the session as a scripted stand-in. Call k gets
  reply k, and every call and wait is logged.
- `ToolRetry` (`retry.dfy`): `call_tool_with_retry`.
- `ActionState` (`action_state.dfy`): the context, the params object, what a
  step produces, and the shared fill-from-search rule.
- `SearchAction`, `GetInfoAction`, `PlaybackAction`, `QueueAction`,
  `PlaylistAction`: the five handlers.
- `Dispatch` (`dispatch.dfy`): `execute_single_action`.
- `FinalResponse` (`final_response.dfy`): `format_final_response`.
- `Executor` (`executor.dfy`): `execute_spotify_actions`.
- `LlmResponse` (`llm_response.dfy`): `parse_llm_response`.

Where the design description and the code differ, the model follows the
code:

- A successful get-info step writes two context slots. The handler sets
  `album_tracks` to the payload's tracks, and the executor sets
  `album_info` to the whole result. The design mentions one album slot.
  `GetInfoWritesTwoSlots` states both writes.
- A playlist action never reads the context, although it is passed one.

## Model

| member | source | states |
|---|---|---|
| ToolRetry.CallToolWithRetry | src/spotify_llm_controller/spotify_actions.py:15-44 | the loop returns the retry trace's result, logs exactly that many identical calls, and takes exactly the trace's waits |
| ToolRetry.RetrySucceedsAtAttempt | src/spotify_llm_controller/spotify_actions.py:32-36 | if attempts 1..k-1 raise and attempt k <= n returns, there are k calls, attempt k's result is returned, and k-1 backoff waits were taken |
| ToolRetry.RetryExhausted | src/spotify_llm_controller/spotify_actions.py:37-41 | if all n attempts raise, there are n calls, the last one's exception propagates, and n-1 waits were taken |
| ToolRetry.BackoffDelays | src/spotify_llm_controller/spotify_actions.py:43-44 | the wait after failure r is RETRY_DELAY * 2^(r-1) |
| ToolRetry.RetryBounds | src/spotify_llm_controller/spotify_actions.py:32-44 | every run makes 1..n attempts, waits once between consecutive attempts, never falls through to None, and raises only after n attempts |
| Remote.FirstText | src/spotify_llm_controller/spotify_actions.py:68 | the default comes back iff no element has a text; otherwise the text of the first element that has one |
| Remote.Session.CallTool | src/spotify_llm_controller/spotify_actions.py:35 | the reply is the script's entry for this call number, and the call is appended to the log |
| ActionState.FillFromSearch | src/spotify_llm_controller/spotify_actions.py:139-142 | an explicit truthy key or a falsy search result leaves the params alone; otherwise only that key is added, set to the hit's uri; a search hit never makes it raise |
| ActionState.SearchHitFacts | src/spotify_llm_controller/spotify_actions.py:105-111 | a stored search hit is truthy and its uri contains ':' |
| SearchAction.HandleSearch | src/spotify_llm_controller/spotify_actions.py:46-124 | the handler's return value and the calls and waits it logs are those of `SearchStep` |
| SearchAction.SearchRemoteAndDecodeErrors | src/spotify_llm_controller/spotify_actions.py:61-69 | a remote error gives "No search results found"; an undecodable payload gives "Failed to parse search results" |
| SearchAction.SearchWithoutText | src/spotify_llm_controller/spotify_actions.py:68-116 | with no text element the payload is "{}", and an empty dict reports that the query found nothing |
| SearchAction.SearchNoResults | src/spotify_llm_controller/spotify_actions.py:113-116 | without a usable album list or a non-empty track list the error names the query |
| SearchAction.SearchMalformedItem | src/spotify_llm_controller/spotify_actions.py:122-124 | a missing key or an empty artist list is caught as "Failed to parse search results", never raised |
| SearchAction.HitShape | src/spotify_llm_controller/spotify_actions.py:85-111 | a hit built from an item has exactly the keys name, uri, id, artist and type, with uri "spotify:<type>:<id>" and the item's id and name |
| SearchAction.PayloadShape | src/spotify_llm_controller/spotify_actions.py:73-121 | a successful payload is `{"action": "search", "result": hit}` built from the first item of the chosen list |
| SearchAction.SearchSuccessShape | src/spotify_llm_controller/spotify_actions.py:73-121 | every success is a search hit. The album branch is taken iff qtype is "album" and `albums` is truthy, otherwise `tracks` is used. id, name and artist come from item 0 |
| SearchAction.SearchArtistForms | src/spotify_llm_controller/spotify_actions.py:97-111 | `"artists": [a]` and `"artist": a` give the same hit; with neither the artist is "Unknown Artist"; the track uri is "spotify:track:<id>" |
| SearchAction.SearchStepFacts | src/spotify_llm_controller/spotify_actions.py:46-124 | a search makes 1..MAX_RETRIES calls, and every success is a "search" result carrying a search hit |
| GetInfoAction.HandleGetInfo | src/spotify_llm_controller/spotify_actions.py:126-169 | the handler's return value, filled params, calls, waits and `album_tracks` write are those of `GetInfoStep`; the other context slots are unchanged |
| GetInfoAction.InterpretGetInfo | src/spotify_llm_controller/spotify_actions.py:148-169 | `album_tracks` is written iff the outcome is a success, and then holds the payload's truthy `tracks`. Otherwise: a remote error is "Failed to get album tracks", an undecodable payload is "Failed to parse album information", and no tracks is "No tracks found in album" |
| GetInfoAction.GetInfoSuccess | src/spotify_llm_controller/spotify_actions.py:156-166 | a step succeeds exactly when it stores tracks, and the stored tracks are the `tracks` of the returned `result` |
| GetInfoAction.GetInfoFills | src/spotify_llm_controller/spotify_actions.py:140-142 | an explicit `item_uri` is kept; otherwise it is the hit's uri, or the params are unchanged without a hit |
| GetInfoAction.GetInfoStepFacts | src/spotify_llm_controller/spotify_actions.py:126-169 | a well-formed context never makes the fill raise; the step makes 1..MAX_RETRIES calls and every success is a "get_info" result |
| PlaybackAction.HandlePlayback | src/spotify_llm_controller/spotify_actions.py:171-265 | the handler's return value, filled params, calls and waits are those of `PlaybackStep` |
| PlaybackAction.FillSpotifyUri | src/spotify_llm_controller/spotify_actions.py:187-199 | only `start` with a truthy search result and no `spotify_uri` changes the params; a uri without ':' gets the "spotify:track:" prefix; other keys are kept |
| PlaybackAction.PlaybackUsesHitUri | src/spotify_llm_controller/spotify_actions.py:194-199 | with a search hit, `start` plays the hit's own uri unchanged, and an explicit uri is kept |
| PlaybackAction.PlaybackMessages | src/spotify_llm_controller/spotify_actions.py:213-265 | the remote error names the action and the first text; start with a hit plays it and attaches it; start without one resumes; pause and skip have their messages; anything else is a generic command typed by `params.get("action", "unknown")` |
| PlaybackAction.PlaybackStepFacts | src/spotify_llm_controller/spotify_actions.py:171-265 | a well-formed context never makes the fill raise; the step makes 1..MAX_RETRIES calls and every success is a "playback" result |
| QueueAction.HandleQueue | src/spotify_llm_controller/spotify_actions.py:267-332 | the handler's return value, filled params, calls and waits are those of `QueueStep` |
| QueueAction.QueueValidation | src/spotify_llm_controller/spotify_actions.py:282-297 | it refuses with "No track ID available for queue" and no call iff there is neither a `track_id` nor a search result; otherwise the call carries a truthy `track_id`, explicit or the hit's uri |
| QueueAction.QueueMessages | src/spotify_llm_controller/spotify_actions.py:306-332 | the remote error carries the first text; a hit is named and attached; without a hit the message is "Added item to queue" |
| QueueAction.QueueStepFacts | src/spotify_llm_controller/spotify_actions.py:267-332 | the calls are bounded, a step without calls is a refusal, and every success is a "queue" result |
| PlaylistAction.HandlePlaylist | src/spotify_llm_controller/spotify_actions.py:334-418 | the handler's return value, calls and waits are those of `PlaylistStep` |
| PlaylistAction.PlaylistChecks | src/spotify_llm_controller/spotify_actions.py:347-418 | which params pass the checks, in both directions; the operation that proceeds is the one the action names; anything else is "Unknown playlist action: <action>" |
| PlaylistAction.PlaylistCallsOnlyWhenValid | src/spotify_llm_controller/spotify_actions.py:367-410 | a failed check returns its message with no call; a passed one calls the playlist tool 1..MAX_RETRIES times with the params unchanged |
| PlaylistAction.Fetched | src/spotify_llm_controller/spotify_actions.py:355-365 | the fetch never raises; it gives either the parse-failure message or a success named after the operation |
| PlaylistAction.PlaylistFetchOutcomes | src/spotify_llm_controller/spotify_actions.py:349-386 | the remote error and the parse failure of both fetches; a decoded list is returned with "Found <len> ..." in the message; a success iff the payload decodes to something with a length |
| PlaylistAction.PlaylistSuccessAction | src/spotify_llm_controller/spotify_actions.py:349-415 | a returned result never raises, and every success has action "playlist_<operation>" |
| PlaylistAction.PlaylistStepFacts | src/spotify_llm_controller/spotify_actions.py:334-418 | the calls are bounded, a step without calls is a refusal, and a success comes from an operation that passed its check |
| PyJson.Len | src/spotify_llm_controller/spotify_actions.py:360 | `len` of a list, dict or string is its size, and it raises for any other value |
| PyJson.NatToStringRoundTrip | src/spotify_llm_controller/spotify_actions.py:360 | the decimal text written for a count reads back as that count |
| PyJson.ConcatStr | src/spotify_llm_controller/spotify_actions.py:467 | `m + "\nSome actions failed"` succeeds iff m is a string |
| Dispatch.ToolOf | src/spotify_llm_controller/spotify_actions.py:434-446 | the tool selected is the one whose name is given, and every known name selects its tool (inverse of the name table) |
| Dispatch.DispatchStep | src/spotify_llm_controller/spotify_actions.py:434-446 | an unknown tool gives "Unsupported action: <name>" with no call; only get-info writes `album_tracks` |
| Dispatch.ExecuteSingleAction | src/spotify_llm_controller/spotify_actions.py:420-446 | the dispatch method's effect on the session, the params and the context is that of `DispatchStep`, and the context only gains the handler's `album_tracks` write |
| Dispatch.ToolNamesDistinct | src/spotify_llm_controller/spotify_actions.py:434-443 | the five tool names are distinct and each selects its own handler |
| Dispatch.DispatchReadsSearchResultOnly | src/spotify_llm_controller/spotify_actions.py:434-443 | a step depends on the context only through `search_result` |
| Dispatch.DispatchWellFormed | src/spotify_llm_controller/spotify_actions.py:420-446 | with a well-formed context a step makes at most MAX_RETRIES calls, a step without calls is an error dict, and a "search" success comes only from the search tool and carries a hit |
| FinalResponse.Errors | src/spotify_llm_controller/spotify_actions.py:459 | every element kept has an "error" key, and there are no more than the results |
| FinalResponse.Successes | src/spotify_llm_controller/spotify_actions.py:465 | every element kept lacks "error", and errors and successes together account for every result |
| FinalResponse.PartitionConcat | src/spotify_llm_controller/spotify_actions.py:459-465 | both filters distribute over concatenation, so they keep the results' order |
| FinalResponse.AllErrorsIff | src/spotify_llm_controller/spotify_actions.py:459-463 | the errors are all the results iff every result has "error", and none iff no result has |
| FinalResponse.LastError | src/spotify_llm_controller/spotify_actions.py:463 | the last error is a result after which only successes follow |
| FinalResponse.LastSuccess | src/spotify_llm_controller/spotify_actions.py:467-469 | the last success is a result after which only errors follow |
| FinalResponse.FormatAllErrors | src/spotify_llm_controller/spotify_actions.py:460-463 | when all results are errors, the last result is returned verbatim |
| FinalResponse.FormatAllSuccesses | src/spotify_llm_controller/spotify_actions.py:474-477 | when no result is an error, the last result is the details, with its message or "Command executed successfully" |
| FinalResponse.FormatMixed | src/spotify_llm_controller/spotify_actions.py:464-472 | a mix gives the last success's message (or "Partial success") plus "\nSome actions failed", with that success and every error as details; a non-string message raises |
| FinalResponse.FormatEmpty | src/spotify_llm_controller/spotify_actions.py:474-475 | an empty list raises IndexError at `results[-1]` |
| FinalResponse.FormatShape | src/spotify_llm_controller/spotify_actions.py:448-477 | every returned response has an "error" key, or a "message" and a "details" key |
| Executor.Absorb | src/spotify_llm_controller/spotify_actions.py:518-525 | the executor never touches `album_tracks`; it changes `search_result` only after a "search" success and `album_info` only after a "get_info" success |
| Executor.RunAction | src/spotify_llm_controller/spotify_actions.py:505-525 | one pass of the loop body takes the run from this action to the run from the next one, or to its end |
| Executor.ExecuteSpotifyActions | src/spotify_llm_controller/spotify_actions.py:503-529 | the executor's response and the calls and waits it logs are those of the run function `Run` |
| Executor.EmptyRun | src/spotify_llm_controller/spotify_actions.py:527-529 | an empty action list makes no call and gives `{"error": "list index out of range"}` |
| Executor.FailedSearchStops | src/spotify_llm_controller/spotify_actions.py:513-516 | a search that returns an error ends the run with that result; the only calls after it are the search's own |
| Executor.ExceptionBecomesError | src/spotify_llm_controller/spotify_actions.py:528-529 | an exception in any step ends the run with `{"error": <its text>}` |
| Executor.UnknownToolContinues | src/spotify_llm_controller/spotify_actions.py:505-512 | an unknown tool adds its error to the results with no call, and the run goes on with the context unchanged |
| Executor.ContinuesAfter | src/spotify_llm_controller/spotify_actions.py:518-525 | a step that neither raises nor is a failed search passes its result and updated context to the rest of the run |
| Executor.SearchInstallsHit | src/spotify_llm_controller/spotify_actions.py:520-522 | a successful search overwrites `search_result` with its hit and leaves the other slots alone |
| Executor.GetInfoWritesTwoSlots | src/spotify_llm_controller/spotify_actions.py:518-525 | after a get-info success `album_info` holds the result, `album_tracks` holds its tracks, and `search_result` is unchanged |
| Executor.RunResponseShape | src/spotify_llm_controller/spotify_actions.py:503-529 | every response has an "error" key, or a "message" and a "details" key |
| Executor.RunInvariant | src/spotify_llm_controller/spotify_actions.py:505-525 | `search_result` stays None or a search hit for the whole run; n actions make at most n * MAX_RETRIES calls; earlier calls are kept |
| Executor.ResumeScenario | src/spotify_llm_controller/spotify_actions.py:239-245 | a lone `start` with an empty context makes one call and reports "Resuming playback" |
| LlmResponse.BracketSpanIff | src/spotify_llm_controller/openai_helper.py:109-110 | the `\[.*\]` match exists iff some '[' precedes some ']', and runs from the first '[' to the last ']' |
| LlmResponse.FallbackOutcomes | src/spotify_llm_controller/openai_helper.py:104-116 | after a failed direct decode: no bracket pair iff "LLM response is not valid JSON"; otherwise the first-'['-to-last-']' text is decoded, and its failure is "Failed to parse LLM response as JSON" |
| LlmResponse.ActionError | src/spotify_llm_controller/openai_helper.py:127-132 | an action passes iff it is a dict with `tool_name` and `params` |
| LlmResponse.ValidateFirstFailure | src/spotify_llm_controller/openai_helper.py:126-132 | the list passes iff every action is well formed; otherwise the first malformed action decides the message |
| LlmResponse.ParseEmpty | src/spotify_llm_controller/openai_helper.py:101-102 | an empty reply gives "Received empty response from LLM" whatever the decoder does |
| LlmResponse.ParseDirectFirst | src/spotify_llm_controller/openai_helper.py:104-106 | a reply that decodes directly is used as is, even when it contains a bracket span |
| LlmResponse.ParseShapes | src/spotify_llm_controller/openai_helper.py:118-124 | a lone `{"error"}` object is returned verbatim; a single well-formed action is wrapped into a one-element list; a list is kept |
| LlmResponse.ParseSuccessKeepsActions | src/spotify_llm_controller/openai_helper.py:118-133 | a returned dict is a lone error object; a returned list is the decoded list, same length, order and elements, and every element is well formed |
| LlmResponse.ParseRaisesOnFirstMalformed | src/spotify_llm_controller/openai_helper.py:126-133 | the parse raises ValueError iff some action is malformed, with the message of the first one: not a dict, else no `tool_name`, else no `params` |
| LlmResponse.ParseErrorDicts | src/spotify_llm_controller/openai_helper.py:104-116 | after a failed direct decode, no bracket pair gives "not valid JSON", and a bracket span that fails to decode gives "Failed to parse LLM response as JSON" |

## Left out

- Logging: every `logger` call is dropped, since it has no effect on results.
- Timing: `asyncio.sleep` and async scheduling are not modelled. Each backoff wait is recorded in the session's `waits` log instead of being taken.
- The remote session and the network: `session.call_tool` is a scripted stand-in whose k-th call gets reply k. Session setup and teardown are not part of this model.
- `client.py` (the HTTP endpoints and the session plumbing) is not part of this model.
- `OpenAIClient` is not part of this model: it makes foreign SDK calls. From `config.py` only `MAX_RETRIES` and `RETRY_DELAY` are modelled.
- JSON text decoding: `json.loads` is a parameter `decode: string -> Option<Json>`.
- The regular-expression engine: only the span that `\[.*\]` selects is modelled.
- Floating-point JSON numbers are not modelled; JSON numbers are integers.
- Dict key order is not modelled, since dicts are maps.
- The rendering of lists and dicts in f-strings (`Show`): they become the placeholders "[...]" and "{...}".
- Exception texts follow CPython 3.11 wording for the cases the handlers can reach.
- Executor.ExecuteSpotifyActions: it runs each handler on a fresh copy of the action's params. So it does not model that the caller's action dicts are filled in place, or aliasing between actions that share one params dict.
- Executor.ExecuteSpotifyActions: actions are `Action(toolName, params)` with a dict of params. A non-dict `params` and a missing `tool_name` or `params` key (a KeyError inside the `try`) are not modelled; the parser rejects the missing keys.
- PlaybackAction.InterpretPlayback and QueueAction.InterpretQueue: the `hasattr(result, 'content')` test and the `try` around `next(...)` are not modelled. A returned result always has `content`, and the generator cannot raise, so those branches cannot change the outcome.
- ToolRetry.Retry: with `max_retries <= 0` the loop body never runs and None is returned. Every handler passes MAX_RETRIES = 3, so this case appears only in `Retry` itself. That is why `InterpretSearch`'s `not result` test and the other handlers' AttributeError on `None.isError` are modelled but unreachable.
