/**
 * `parse_llm_response`: turn the language model's raw reply into a list of
 * actions, or an error dict. The reply is decoded directly, or else from the
 * span the pattern `\[.*\]` (dot matching newlines) selects; a lone
 * `{"error": ...}` object is passed through, a single action is wrapped
 * into a list, and every action must be a dict with `tool_name` and `params`.
 */
module LlmResponse {
  import opened PyJson

  // ---------------------------------------------------------------------------
  // The bracket span

  /** The first position at or after `k` holding `c`. */
  function FirstFrom(s: string, c: char, k: nat): (r: Option<nat>)
    requires k <= |s|
    ensures r.Some? ==> k <= r.value < |s| && s[r.value] == c && forall j :: k <= j < r.value ==> s[j] != c
    ensures r.None? ==> forall j :: k <= j < |s| ==> s[j] != c
    decreases |s| - k
  {
    if k == |s| then None
    else if s[k] == c then Some(k)
    else FirstFrom(s, c, k + 1)
  }

  /** The last position before `k` holding `c`. */
  function LastBefore(s: string, c: char, k: nat): (r: Option<nat>)
    requires k <= |s|
    ensures r.Some? ==> r.value < k && s[r.value] == c && forall j :: r.value < j < k ==> s[j] != c
    ensures r.None? ==> forall j :: 0 <= j < k ==> s[j] != c
  {
    if k == 0 then None
    else if s[k - 1] == c then Some(k - 1)
    else LastBefore(s, c, k - 1)
  }

  /**
   * The positions of the match of `\[.*\]` in `s`: the search starts at the
   * first `[`, and the greedy `.*` runs to the last `]`; there is a match
   * exactly when that `]` comes after that `[`.
   */
  function BracketSpan(s: string): Option<(nat, nat)> {
    match (FirstFrom(s, '[', 0), LastBefore(s, ']', |s|))
    case (Some(i), Some(j)) => if i < j then Some((i, j)) else None
    case _ => None
  }

  /** Some `[` comes before some `]`. */
  predicate HasBracketPair(s: string) {
    exists i, j :: 0 <= i < j < |s| && s[i] == '[' && s[j] == ']'
  }

  /** The span exists exactly when a `[` precedes a `]`, and runs from the first `[` to the last `]`. */
  lemma BracketSpanIff(s: string)
    ensures BracketSpan(s).Some? <==> HasBracketPair(s)
    ensures BracketSpan(s).Some? ==>
      var (i, j) := BracketSpan(s).value;
      && i < j < |s| && s[i] == '[' && s[j] == ']'
      && (forall k :: 0 <= k < i ==> s[k] != '[')
      && (forall k :: j < k < |s| ==> s[k] != ']')
  {
    var f := FirstFrom(s, '[', 0);
    var l := LastBefore(s, ']', |s|);
    if HasBracketPair(s) {
      var i, j :| 0 <= i < j < |s| && s[i] == '[' && s[j] == ']';
      assert f.Some? && f.value <= i;
      assert l.Some? && j <= l.value;
    }
  }

  // ---------------------------------------------------------------------------
  // Decoding with the fallback

  /** The outcome of decoding: a value, or the error message to return. */
  datatype Decoding = Decoded(value: Json) | NotJson(error: string)

  /** `json.loads(content)`, and on failure `json.loads` of the bracket span. */
  function DecodeWithFallback(content: string, decode: string -> Option<Json>): Decoding {
    match decode(content)
    case Some(v) => Decoded(v)
    case None =>
      match BracketSpan(content)
      case None => NotJson("LLM response is not valid JSON")
      case Some((i, j)) =>
        match decode(content[i..j + 1])
        case Some(v) => Decoded(v)
        case None => NotJson("Failed to parse LLM response as JSON")
  }

  /**
   * When the direct decode fails: without a `[` before a `]` the reply is
   * "not valid JSON"; otherwise the text from the first `[` to the last `]`,
   * both included, is decoded, and its failure is "Failed to parse".
   */
  lemma FallbackOutcomes(content: string, decode: string -> Option<Json>)
    requires decode(content).None?
    ensures !HasBracketPair(content) <==> DecodeWithFallback(content, decode) == NotJson("LLM response is not valid JSON")
    ensures forall i, j ::
      && 0 <= i < j < |content| && content[i] == '[' && content[j] == ']'
      && (forall k :: 0 <= k < i ==> content[k] != '[')
      && (forall k :: j < k < |content| ==> content[k] != ']')
      ==> DecodeWithFallback(content, decode) ==
            (if decode(content[i..j + 1]).Some? then Decoded(decode(content[i..j + 1]).value)
             else NotJson("Failed to parse LLM response as JSON"))
  {
    BracketSpanIff(content);
    forall i, j |
      && 0 <= i < j < |content| && content[i] == '[' && content[j] == ']'
      && (forall k :: 0 <= k < i ==> content[k] != '[')
      && (forall k :: j < k < |content| ==> content[k] != ']')
      ensures DecodeWithFallback(content, decode) ==
            (if decode(content[i..j + 1]).Some? then Decoded(decode(content[i..j + 1]).value)
             else NotJson("Failed to parse LLM response as JSON"))
    {
      var (a, b) := BracketSpan(content).value;
      assert content[a] == '[' && content[b] == ']';
      assert a == i && b == j;
    }
  }

  // ---------------------------------------------------------------------------
  // Validation

  /** A dict with both a `tool_name` and a `params` key. */
  predicate WellFormedAction(a: Json) {
    a.JDict? && "tool_name" in a.fields && "params" in a.fields
  }

  /** The message of the first check an action fails, in the order the checks are made. */
  function ActionError(a: Json): (r: Option<string>)
    ensures r.None? <==> WellFormedAction(a)
  {
    if !a.JDict? then Some("Each action must be a dictionary")
    else if "tool_name" !in a.fields then Some("Action missing tool_name")
    else if "params" !in a.fields then Some("Action missing params")
    else None
  }

  /** The `for` loop over the actions: the first failing action raises its message. */
  function Validate(items: seq<Json>): Option<string> {
    if items == [] then None
    else
      match ActionError(items[0])
      case Some(m) => Some(m)
      case None => Validate(items[1..])
  }

  /**
   * The list passes exactly when every action is well formed, and otherwise
   * fails with the message of the first action that is not.
   */
  lemma {:induction false} ValidateFirstFailure(items: seq<Json>)
    ensures Validate(items).None? <==> forall i :: 0 <= i < |items| ==> WellFormedAction(items[i])
    ensures Validate(items).Some? ==>
      exists k :: 0 <= k < |items| && Validate(items) == ActionError(items[k]) &&
                  forall i :: 0 <= i < k ==> WellFormedAction(items[i])
  {
    if items != [] && ActionError(items[0]).None? {
      var rest := items[1..];
      ValidateFirstFailure(rest);
      assert forall i :: 1 <= i < |items| ==> items[i] == rest[i - 1];
      if Validate(rest).Some? {
        var k :| 0 <= k < |rest| && Validate(rest) == ActionError(rest[k]) &&
                 forall i :: 0 <= i < k ==> WellFormedAction(rest[i]);
        assert Validate(items) == ActionError(items[k + 1]);
      }
    }
  }

  // ---------------------------------------------------------------------------
  // The whole parse

  /** A decoded value that is an `{"error": ...}` object and nothing else. */
  predicate IsErrorObject(v: Json) {
    v.JDict? && "error" in v.fields && |v.fields| == 1
  }

  /** The decoded list of actions; a single value is a one-action list. */
  function AsActionList(v: Json): seq<Json> {
    if v.JList? then v.items else [v]
  }

  /** `parse_llm_response(content)`; it raises ValueError for a malformed action. */
  function ParseLlmResponse(content: string, decode: string -> Option<Json>): Outcome<Json> {
    if content == [] then Returns(JDict(ErrorDict("Received empty response from LLM")))
    else
      match DecodeWithFallback(content, decode)
      case NotJson(msg) => Returns(JDict(ErrorDict(msg)))
      case Decoded(parsed) =>
        if IsErrorObject(parsed) then Returns(parsed)
        else
          var items := AsActionList(parsed);
          match Validate(items)
          case Some(m) => Raises(ValueError, m)
          case None => Returns(JList(items))
  }

  // ---------------------------------------------------------------------------
  // Properties of the parse

  /** An empty reply is reported as such, whatever the decoder does. */
  lemma ParseEmpty(decode: string -> Option<Json>)
    ensures ParseLlmResponse("", decode) == Returns(JDict(map["error" := JStr("Received empty response from LLM")]))
  {
  }

  /** A reply that decodes directly is used as it is, even when it contains a bracket span. */
  lemma ParseDirectFirst(content: string, decode: string -> Option<Json>)
    requires content != [] && decode(content).Some?
    ensures DecodeWithFallback(content, decode) == Decoded(decode(content).value)
  {
  }

  /**
   * Once decoded, an `{"error": ...}` object alone is returned verbatim; any
   * other dict is wrapped into a one-element list; a list is kept as it is.
   */
  lemma ParseShapes(content: string, decode: string -> Option<Json>)
    requires content != [] && DecodeWithFallback(content, decode).Decoded?
    ensures var v := DecodeWithFallback(content, decode).value;
      var r := ParseLlmResponse(content, decode);
      && (IsErrorObject(v) ==> r == Returns(v))
      && (!IsErrorObject(v) && !v.JList? && WellFormedAction(v) ==> r == Returns(JList([v])))
      && (v.JList? && r.Returns? ==> r == Returns(v))
  {
    var v := DecodeWithFallback(content, decode).value;
    if !IsErrorObject(v) && !v.JList? && WellFormedAction(v) {
      assert [v][1..] == [];
      assert Validate([v]) == None;
    }
  }

  /**
   * Every result that is not an error dict is the decoded list, of the same
   * length and order with the elements unchanged, and every element is a
   * dict with `tool_name` and `params`.
   */
  lemma ParseSuccessKeepsActions(content: string, decode: string -> Option<Json>)
    requires ParseLlmResponse(content, decode).Returns?
    ensures var r := ParseLlmResponse(content, decode).value;
      && (r.JDict? ==> "error" in r.fields && |r.fields| == 1)
      && (r.JList? ==>
            && content != [] && DecodeWithFallback(content, decode).Decoded?
            && r.items == AsActionList(DecodeWithFallback(content, decode).value)
            && forall i :: 0 <= i < |r.items| ==> WellFormedAction(r.items[i]))
  {
    if content != [] && DecodeWithFallback(content, decode).Decoded? {
      var v := DecodeWithFallback(content, decode).value;
      if !IsErrorObject(v) {
        ValidateFirstFailure(AsActionList(v));
      }
    }
  }

  /**
   * For a decoded value that is not an error object, the parse raises
   * ValueError exactly when some action is malformed, with the message of
   * the first malformed action: not a dict, else no `tool_name`, else no
   * `params`.
   */
  lemma ParseRaisesOnFirstMalformed(content: string, decode: string -> Option<Json>)
    requires content != [] && DecodeWithFallback(content, decode).Decoded?
    requires !IsErrorObject(DecodeWithFallback(content, decode).value)
    ensures var items := AsActionList(DecodeWithFallback(content, decode).value);
      var r := ParseLlmResponse(content, decode);
      && (r.Raises? <==> exists i :: 0 <= i < |items| && !WellFormedAction(items[i]))
      && (r.Raises? ==>
            && r.kind == ValueError
            && exists k :: 0 <= k < |items| && (forall i :: 0 <= i < k ==> WellFormedAction(items[i])) &&
                 r.text == (if !items[k].JDict? then "Each action must be a dictionary"
                            else if "tool_name" !in items[k].fields then "Action missing tool_name"
                            else "Action missing params"))
  {
    var items := AsActionList(DecodeWithFallback(content, decode).value);
    ValidateFirstFailure(items);
  }

  /** The three error dicts the parse returns, and when. */
  lemma ParseErrorDicts(content: string, decode: string -> Option<Json>)
    requires content != [] && decode(content).None?
    ensures var r := ParseLlmResponse(content, decode);
      && (!HasBracketPair(content) ==> r == Returns(JDict(ErrorDict("LLM response is not valid JSON"))))
      && (HasBracketPair(content) && DecodeWithFallback(content, decode).NotJson? ==>
            r == Returns(JDict(ErrorDict("Failed to parse LLM response as JSON"))))
  {
    FallbackOutcomes(content, decode);
    BracketSpanIff(content);
  }
}
