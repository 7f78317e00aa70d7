/** The merge step of `Client#batched_request`: every response is validated
    in order, the per-service result lists are flattened and stripped of
    nils, and the cursor is taken from the last response. */
module Merge {
  import opened Json
  import opened Protocol

  /** `SERVICE_RESULTS_KEYS`: the body field that holds a service's results. */
  const ServiceResultsKeys: map<string, string> := map["getUsers" := "users", "getLicenses" := "licenses"]

  /** The public result of a batched fetch. */
  datatype Response = Response(results: seq<Value>, count: nat, sinceModifiedToken: Value)

  /** `response.body.fetch SERVICE_RESULTS_KEYS[service], []`. For a service
      without a results key the lookup key is nil, which no decoded body
      holds, so the default applies. */
  function ResultsOf(service: string, r: RawResponse): (v: Value)
    ensures service in ServiceResultsKeys && ServiceResultsKeys[service] in r.body ==>
              v == r.body[ServiceResultsKeys[service]]
    ensures service !in ServiceResultsKeys || ServiceResultsKeys[service] !in r.body ==>
              v == Arr([])
  {
    if service in ServiceResultsKeys && ServiceResultsKeys[service] in r.body
    then r.body[ServiceResultsKeys[service]]
    else Arr([])
  }

  /** Ruby's `Array#flatten`, which is deep: each array element is replaced,
      recursively, by its own elements; every other element stays. */
  function Flatten(vs: seq<Value>): (r: seq<Value>)
    ensures forall v :: v in r ==> !v.Arr?
    ensures (forall k :: 0 <= k < |vs| ==> !vs[k].Arr?) ==> r == vs
  {
    if vs == [] then []
    else
      (match vs[0]
       case Arr(xs) => Flatten(xs)
       case _ => [vs[0]])
      + Flatten(vs[1..])
  }

  /** Ruby's `Array#compact`: drop the nils, keep everything else in order. */
  function Compact(vs: seq<Value>): (r: seq<Value>)
    ensures |r| <= |vs|
    ensures forall v :: v in r <==> v in vs && v != Null
    ensures Null !in vs ==> r == vs
  {
    if vs == [] then []
    else if vs[0] == Null then Compact(vs[1..])
    else [vs[0]] + Compact(vs[1..])
  }

  /** The list each response contributes, in response order. */
  function ResultLists(service: string, rs: seq<RawResponse>): (ls: seq<Value>)
    ensures |ls| == |rs|
    ensures forall i :: 0 <= i < |rs| ==> ls[i] == ResultsOf(service, rs[i])
  {
    seq(|rs|, i requires 0 <= i < |rs| => ResultsOf(service, rs[i]))
  }

  /** `responses.map { ... }.flatten.compact`. */
  function Merged(service: string, rs: seq<RawResponse>): (m: seq<Value>)
    ensures forall k :: 0 <= k < |m| ==> m[k] != Null && !m[k].Arr?
  {
    var flat := Flatten(ResultLists(service, rs));
    var m := Compact(flat);
    assert forall k :: 0 <= k < |m| ==> m[k] in m && m[k] in flat;
    m
  }

  /** The non-nil entries one batch contributes on its own. */
  function BatchEntries(service: string, r: RawResponse): seq<Value>
  {
    Compact(Flatten([ResultsOf(service, r)]))
  }

  /** The index of the first response that fails `raise_if_unsuccessful`,
      or `|rs|` when they all pass. */
  function FirstFailure(rs: seq<RawResponse>): (i: nat)
    ensures i <= |rs|
    ensures forall j :: 0 <= j < i ==> IsSuccessful(rs[j])
    ensures i < |rs| ==> !IsSuccessful(rs[i])
  {
    if rs == [] then 0
    else if !IsSuccessful(rs[0]) then 0
    else 1 + FirstFailure(rs[1..])
  }

  /** The continuation cursor of a response: the `sinceModifiedToken` field
      of its body. */
  function Cursor(r: RawResponse): (v: Value)
    ensures "sinceModifiedToken" in r.body ==> v == r.body["sinceModifiedToken"]
    ensures "sinceModifiedToken" !in r.body ==> v == Null
  {
    Get(r.body, "sinceModifiedToken")
  }

  /** The merge of lines 85-90 with the cursor read from the body of the
      last response (see `CursorAsWritten` for the lookup as written). */
  function Aggregate(service: string, rs: seq<RawResponse>): (res: Result<Response>)
    requires |rs| > 0
    ensures res.Failure? <==> exists i :: 0 <= i < |rs| && !IsSuccessful(rs[i])
    ensures res.Failure? ==>
              exists i :: 0 <= i < |rs| && !IsSuccessful(rs[i]) && res.error == ErrorOf(rs[i]) &&
                          forall j :: 0 <= j < i ==> IsSuccessful(rs[j])
    ensures res.Success? ==>
              && res.value.results == Merged(service, rs)
              && res.value.count == |res.value.results|
              && res.value.sinceModifiedToken == Cursor(rs[|rs| - 1])
  {
    var i := FirstFailure(rs);
    if i < |rs| then Failure(ErrorOf(rs[i]))
    else
      var m := Merged(service, rs);
      Success(Response(m, |m|, Cursor(rs[|rs| - 1])))
  }

  /** `responses.last[:sinceModifiedToken]` as written: `Faraday::Response#[]`
      looks the name up among the HTTP headers (case-insensitively), not in
      the decoded body. */
  function CursorAsWritten(r: RawResponse): (v: Value)
    ensures "sincemodifiedtoken" in r.headers ==> v == Str(r.headers["sincemodifiedtoken"])
    ensures "sincemodifiedtoken" !in r.headers ==> v == Null
  {
    if "sincemodifiedtoken" in r.headers then Str(r.headers["sincemodifiedtoken"]) else Null
  }

  /** A last batch that carries its cursor in the body, as the service
      sends it, and no such header: the lookup as written yields nil and the
      next incremental sync would start from scratch. */
  lemma CursorAsWrittenDropsBodyToken()
    ensures var r := RawResponse(true, map["status" := Num(0), "sinceModifiedToken" := Str("T2")], map[]);
            CursorAsWritten(r) == Null && Cursor(r) == Str("T2")
  {
  }

  // ---- Properties of the merge ----

  lemma {:induction false} FlattenAppend(a: seq<Value>, b: seq<Value>)
    ensures Flatten(a + b) == Flatten(a) + Flatten(b)
  {
    if a == [] {
      assert a + b == b;
    } else {
      assert (a + b)[0] == a[0];
      assert (a + b)[1..] == a[1..] + b;
      FlattenAppend(a[1..], b);
    }
  }

  lemma {:induction false} CompactAppend(a: seq<Value>, b: seq<Value>)
    ensures Compact(a + b) == Compact(a) + Compact(b)
  {
    if a == [] {
      assert a + b == b;
    } else {
      assert (a + b)[0] == a[0];
      assert (a + b)[1..] == a[1..] + b;
      CompactAppend(a[1..], b);
    }
  }

  /** The entries of all batches, concatenated in batch order. */
  function ConcatEntries(service: string, rs: seq<RawResponse>): seq<Value>
  {
    if rs == [] then [] else BatchEntries(service, rs[0]) + ConcatEntries(service, rs[1..])
  }

  /** The number of non-nil entries summed over the batches. */
  function SumCounts(service: string, rs: seq<RawResponse>): nat
  {
    if rs == [] then 0 else |BatchEntries(service, rs[0])| + SumCounts(service, rs[1..])
  }

  /** Merging all responses at once gives each batch's entries, in batch
      order: the flatten-then-compact of lines 85-88 is a per-batch
      concatenation. */
  lemma {:induction false} MergedIsBatchConcat(service: string, rs: seq<RawResponse>)
    ensures Merged(service, rs) == ConcatEntries(service, rs)
  {
    if rs != [] {
      var ls := ResultLists(service, rs);
      assert ls == [ResultsOf(service, rs[0])] + ResultLists(service, rs[1..]);
      FlattenAppend([ResultsOf(service, rs[0])], ResultLists(service, rs[1..]));
      CompactAppend(Flatten([ResultsOf(service, rs[0])]), Flatten(ResultLists(service, rs[1..])));
      MergedIsBatchConcat(service, rs[1..]);
    }
  }

  lemma {:induction false} ConcatEntriesLength(service: string, rs: seq<RawResponse>)
    ensures |ConcatEntries(service, rs)| == SumCounts(service, rs)
  {
    if rs != [] {
      ConcatEntriesLength(service, rs[1..]);
    }
  }

  /** The merged list is as long as the sum over the batches of their
      non-nil entries. */
  lemma MergedLengthIsSumOfBatches(service: string, rs: seq<RawResponse>)
    ensures |Merged(service, rs)| == SumCounts(service, rs)
  {
    MergedIsBatchConcat(service, rs);
    ConcatEntriesLength(service, rs);
  }

  lemma FlattenOne(v: Value)
    ensures Flatten([v]) == if v.Arr? then Flatten(v.items) else [v]
  {
    var one := [v];
    assert one[1..] == [];
  }

  /** When a batch's field is a list of non-list entries (the shape the
      service sends: objects, some possibly null), the deep flatten is a
      one-level splice and the batch contributes exactly its non-nil entries. */
  lemma OneLevelBatch(service: string, r: RawResponse, xs: seq<Value>)
    requires ResultsOf(service, r) == Arr(xs)
    requires forall k :: 0 <= k < |xs| ==> !xs[k].Arr?
    ensures BatchEntries(service, r) == Compact(xs)
  {
    FlattenOne(Arr(xs));
  }
}
