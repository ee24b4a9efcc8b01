/**
 * The remote tool-calling session, replaced by a scripted stand-in: the k-th
 * call (counting from 0) gets the reply `script(k)`, and every call and every
 * backoff wait is appended to a log.
 */
module Remote {
  import opened PyJson

  /** What a tool call returns: the error flag and the content elements; `None` is an element without a `text` attribute. */
  datatype RemoteResult = RemoteResult(isError: bool, content: seq<Option<string>>)

  /** One scripted reply: the call raises with the given message, or it returns a result. */
  datatype Reply = Raise(message: string) | Respond(result: RemoteResult)

  /** One `session.call_tool(tool, params)` as it was issued. */
  datatype Call = Call(tool: string, params: Dict)

  /**
   * `next((msg.text for msg in content if hasattr(msg, 'text')), default)`:
   * the text of the first element that has one, else `default`.
   */
  function FirstText(content: seq<Option<string>>, default: string): (r: string)
    ensures (forall i :: 0 <= i < |content| ==> content[i].None?) ==> r == default
    ensures (exists i :: 0 <= i < |content| && content[i].Some?) ==>
              exists i :: 0 <= i < |content| && content[i] == Some(r) &&
                forall j :: 0 <= j < i ==> content[j].None?
  {
    if content == [] then default
    else if content[0].Some? then content[0].value
    else
      var r := FirstText(content[1..], default);
      assert forall i :: 1 <= i < |content| ==> content[i] == content[1..][i - 1];
      r
  }

  class Session {
    /** The reply the k-th call receives. */
    const script: nat -> Reply
    /** Every call issued so far, in order. */
    var calls: seq<Call>
    /** Every backoff wait (in seconds) taken between attempts, in order. */
    var waits: seq<nat>

    constructor (script: nat -> Reply)
      ensures this.script == script && calls == [] && waits == []
    {
      this.script := script;
      calls := [];
      waits := [];
    }

    /** `session.call_tool(tool, params)`: logs the call and hands out the next scripted reply. */
    method CallTool(tool: string, params: Dict) returns (reply: Reply)
      modifies this
      ensures reply == script(|old(calls)|)
      ensures calls == old(calls) + [Call(tool, params)] && waits == old(waits)
    {
      reply := script(|calls|);
      calls := calls + [Call(tool, params)];
    }

    /** `await asyncio.sleep(seconds)`, recorded instead of taken. */
    method Wait(seconds: nat)
      modifies this
      ensures waits == old(waits) + [seconds] && calls == old(calls)
    {
      waits := waits + [seconds];
    }
  }
}
