/**
 * `format_final_response`: reduce the per-action results to one response,
 * partitioning them by the presence of an `"error"` key.
 */
module FinalResponse {
  import opened PyJson

  /** `[r for r in results if "error" in r]`. */
  function Errors(results: seq<Dict>): (e: seq<Dict>)
    ensures |e| <= |results|
    ensures forall i :: 0 <= i < |e| ==> "error" in e[i]
  {
    if results == [] then []
    else
      var last := results[|results| - 1];
      Errors(results[..|results| - 1]) + (if "error" in last then [last] else [])
  }

  /** `[r for r in results if "error" not in r]`; together with `Errors` it accounts for every result. */
  function Successes(results: seq<Dict>): (s: seq<Dict>)
    ensures |s| + |Errors(results)| == |results|
    ensures forall i :: 0 <= i < |s| ==> "error" !in s[i]
  {
    if results == [] then []
    else
      var last := results[|results| - 1];
      Successes(results[..|results| - 1]) + (if "error" !in last then [last] else [])
  }

  /** The dicts as JSON values, in order. */
  function JDicts(ds: seq<Dict>): (r: seq<Json>)
    ensures |r| == |ds| && forall i :: 0 <= i < |ds| ==> r[i] == JDict(ds[i])
  {
    if ds == [] then [] else JDicts(ds[..|ds| - 1]) + [JDict(ds[|ds| - 1])]
  }

  /** `format_final_response(results)`; it raises IndexError on an empty list. */
  function FormatFinalResponse(results: seq<Dict>): Outcome<Dict> {
    var errs := Errors(results);
    if errs != [] then
      if |errs| == |results| then Returns(errs[|errs| - 1])
      else
        var succ := Successes(results);
        var lastSuccess := succ[|succ| - 1];
        var m :- ConcatStr(GetOr(lastSuccess, "message", JStr("Partial success")), "\nSome actions failed");
        Returns(map["message" := JStr(m),
                    "details" := JDict(map["success" := JDict(lastSuccess), "errors" := JList(JDicts(errs))])])
    else if results == [] then Raises(IndexError, "list index out of range")
    else
      var last := results[|results| - 1];
      Returns(map["message" := GetOr(last, "message", JStr("Command executed successfully")), "details" := JDict(last)])
  }

  // ---------------------------------------------------------------------------
  // Properties of the partition

  /** Filtering distributes over concatenation, so both lists keep the results' order. */
  lemma {:induction false} PartitionConcat(a: seq<Dict>, b: seq<Dict>)
    ensures Errors(a + b) == Errors(a) + Errors(b)
    ensures Successes(a + b) == Successes(a) + Successes(b)
    decreases |b|
  {
    if b == [] {
      assert a + b == a;
    } else {
      var b' := b[..|b| - 1];
      assert (a + b)[..|a + b| - 1] == a + b';
      PartitionConcat(a, b');
    }
  }

  /** Every result is an error or a success, so the errors are all of them exactly when there is no success. */
  lemma {:induction false} AllErrorsIff(results: seq<Dict>)
    ensures |Errors(results)| == |results| <==> forall i :: 0 <= i < |results| ==> "error" in results[i]
    ensures Errors(results) == [] <==> forall i :: 0 <= i < |results| ==> "error" !in results[i]
    decreases |results|
  {
    if results != [] {
      var init := results[..|results| - 1];
      AllErrorsIff(init);
      assert forall i :: 0 <= i < |init| ==> init[i] == results[i];
    }
  }

  /** The last error, when there is one, is a result after which only successes follow. */
  lemma {:induction false} LastError(results: seq<Dict>)
    requires Errors(results) != []
    ensures exists i :: 0 <= i < |results| && results[i] == Errors(results)[|Errors(results)| - 1] &&
                        forall j :: i < j < |results| ==> "error" !in results[j]
    decreases |results|
  {
    var last := results[|results| - 1];
    var init := results[..|results| - 1];
    assert results == init + [last];
    if "error" !in last {
      assert Errors(results) == Errors(init);
      LastError(init);
      var i :| 0 <= i < |init| && init[i] == Errors(init)[|Errors(init)| - 1] &&
               forall j :: i < j < |init| ==> "error" !in init[j];
      assert results[i] == init[i];
      assert forall j :: i < j < |results| ==> j == |results| - 1 || results[j] == init[j];
    } else {
      assert results[|results| - 1] == last;
    }
  }

  /** The last success, when there is one, is a result after which only errors follow. */
  lemma {:induction false} LastSuccess(results: seq<Dict>)
    requires Successes(results) != []
    ensures exists i :: 0 <= i < |results| && results[i] == Successes(results)[|Successes(results)| - 1] &&
                        forall j :: i < j < |results| ==> "error" in results[j]
    decreases |results|
  {
    var last := results[|results| - 1];
    var init := results[..|results| - 1];
    assert results == init + [last];
    if "error" in last {
      assert Successes(results) == Successes(init);
      LastSuccess(init);
      var i :| 0 <= i < |init| && init[i] == Successes(init)[|Successes(init)| - 1] &&
               forall j :: i < j < |init| ==> "error" in init[j];
      assert results[i] == init[i];
      assert forall j :: i < j < |results| ==> j == |results| - 1 || results[j] == init[j];
    } else {
      assert results[|results| - 1] == last;
    }
  }

  /** All results are errors: the last one is returned verbatim. */
  lemma FormatAllErrors(results: seq<Dict>)
    requires results != []
    requires forall i :: 0 <= i < |results| ==> "error" in results[i]
    ensures FormatFinalResponse(results) == Returns(results[|results| - 1])
  {
    AllErrorsIff(results);
    LastError(results);
    var i :| 0 <= i < |results| && results[i] == Errors(results)[|Errors(results)| - 1] &&
             forall j :: i < j < |results| ==> "error" !in results[j];
    assert i == |results| - 1;
  }

  /** No result is an error: the last one is reported, with default message "Command executed successfully". */
  lemma FormatAllSuccesses(results: seq<Dict>)
    requires results != []
    requires forall i :: 0 <= i < |results| ==> "error" !in results[i]
    ensures var last := results[|results| - 1];
      FormatFinalResponse(results) ==
        Returns(map["message" := GetOr(last, "message", JStr("Command executed successfully")), "details" := JDict(last)])
  {
    AllErrorsIff(results);
  }

  /**
   * A mix of errors and successes (by `AllErrorsIff`, some result has an
   * "error" key and some has none): the last success's message (default
   * "Partial success") followed by "\nSome actions failed", with the last
   * success and every error, in order, as details; a last success whose
   * message is not a string makes the concatenation raise.
   */
  lemma FormatMixed(results: seq<Dict>)
    requires Errors(results) != [] && Successes(results) != []
    ensures var succ := Successes(results);
      var m := GetOr(succ[|succ| - 1], "message", JStr("Partial success"));
      var r := FormatFinalResponse(results);
      && (r.Returns? <==> m.JStr?)
      && (r.Returns? ==>
            r.value == map["message" := JStr(m.s + "\nSome actions failed"),
                           "details" := JDict(map["success" := JDict(succ[|succ| - 1]),
                                                  "errors" := JList(JDicts(Errors(results)))])])
  {
  }

  /** The empty list raises the IndexError of `results[-1]`. */
  lemma FormatEmpty()
    ensures FormatFinalResponse([]) == Raises(IndexError, "list index out of range")
  {
  }

  /** Whatever it returns has an "error" key, or a "message" and a "details" key. */
  lemma FormatShape(results: seq<Dict>)
    requires FormatFinalResponse(results).Returns?
    ensures var d := FormatFinalResponse(results).value;
      "error" in d || ("message" in d && "details" in d)
  {
  }
}
