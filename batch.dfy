/** Planning and result of `Client#batched_request`: a probe reveals the
    batch count and token, the remaining batches are requested with
    `overrideIndex` 1..N-1, and all responses are merged in issue order. */
module Batch {
  import opened Json
  import opened Protocol
  import opened Merge

  /** The HTTP side: the server answers each request. It is a function of
      the request alone, which is what fetching from an unchanged data set
      means. */
  type Server = Request -> RawResponse

  /** `sinceModifiedToken: since_modified_token`, the probe's only parameter. */
  function ProbeParams(sinceModifiedToken: Value): Body
  {
    map["sinceModifiedToken" := sinceModifiedToken]
  }

  /** `batchToken: batch_token, overrideIndex: i + 1`. */
  function FanOutParams(batchToken: Value, index: int): Body
  {
    map["batchToken" := batchToken, "overrideIndex" := Num(index)]
  }

  /** `SERVICE_URLS[service]`: nil for a service the configuration did not list. */
  function UrlOf(urls: map<string, Value>, service: string): Value
  {
    Get(urls, service)
  }

  function ProbeRequest(url: Value, stoken: string, sinceModifiedToken: Value): Request
  {
    Request(url, RequestBody(ProbeParams(sinceModifiedToken), stoken))
  }

  function FanOutRequest(url: Value, stoken: string, batchToken: Value, index: int): Request
  {
    Request(url, RequestBody(FanOutParams(batchToken, index), stoken))
  }

  /** `first_response.body[:totalBatchCount] - 1`: anything but a number
      there (nil when the field is absent) raises before any fan-out. */
  function RemainingRequests(probe: RawResponse): (r: Result<int>)
    ensures r.Success? <==> Get(probe.body, "totalBatchCount").Num?
    ensures r.Success? ==> r.value + 1 == Get(probe.body, "totalBatchCount").n
    ensures r.Failure? ==> r.error == BadBatchCount(Get(probe.body, "totalBatchCount"))
  {
    match Get(probe.body, "totalBatchCount")
    case Num(n) => Success(n - 1)
    case other => Failure(BadBatchCount(other))
  }

  /** `first_response.body[:batchToken]`. */
  function BatchToken(probe: RawResponse): Value
  {
    Get(probe.body, "batchToken")
  }

  /** `remaining.times.map { |i| ... overrideIndex: i + 1 }`: no request at
      all when `remaining` is zero or negative. */
  function FanOutPlan(url: Value, stoken: string, batchToken: Value, remaining: int): (p: seq<Request>)
    ensures |p| == if remaining > 0 then remaining else 0
  {
    seq(if remaining > 0 then remaining else 0, k => FanOutRequest(url, stoken, batchToken, k + 1))
  }

  /** Every request of one fetch, in issue order: the probe, then the
      fan-out when the probe gave a usable batch count. */
  function IssuedRequests(urls: map<string, Value>, stoken: string, service: string,
                          sinceModifiedToken: Value, server: Server): (reqs: seq<Request>)
    ensures |reqs| >= 1
    ensures reqs[0] == ProbeRequest(UrlOf(urls, service), stoken, sinceModifiedToken)
  {
    var url := UrlOf(urls, service);
    var probeReq := ProbeRequest(url, stoken, sinceModifiedToken);
    var probe := server(probeReq);
    match RemainingRequests(probe)
    case Failure(_) => [probeReq]
    case Success(remaining) => [probeReq] + FanOutPlan(url, stoken, BatchToken(probe), remaining)
  }

  /** `responses`: one response per request, at the position of its request. */
  function Responses(server: Server, reqs: seq<Request>): (rs: seq<RawResponse>)
    ensures |rs| == |reqs|
    ensures forall k :: 0 <= k < |reqs| ==> rs[k] == server(reqs[k])
  {
    seq(|reqs|, k requires 0 <= k < |reqs| => server(reqs[k]))
  }

  /** The outcome of `batched_request`. */
  function Fetch(urls: map<string, Value>, stoken: string, service: string,
                 sinceModifiedToken: Value, server: Server): (r: Result<Response>)
    ensures var probe := server(ProbeRequest(UrlOf(urls, service), stoken, sinceModifiedToken));
            RemainingRequests(probe).Failure? ==> r == Failure(RemainingRequests(probe).error)
    ensures var reqs := IssuedRequests(urls, stoken, service, sinceModifiedToken, server);
            var rs := Responses(server, reqs);
            RemainingRequests(rs[0]).Success? ==>
              (r.Failure? <==> exists i :: 0 <= i < |rs| && !IsSuccessful(rs[i]))
    ensures r.Success? ==> r.value.count == |r.value.results|
    ensures r.Success? ==> forall k :: 0 <= k < |r.value.results| ==> r.value.results[k] != Null
  {
    var reqs := IssuedRequests(urls, stoken, service, sinceModifiedToken, server);
    match RemainingRequests(server(reqs[0]))
    case Failure(e) => Failure(e)
    case Success(_) => Aggregate(service, Responses(server, reqs))
  }

  // ---- Planning ----

  /** A probe answering `totalBatchCount = N` with N >= 1 leads to exactly
      N requests; a count of zero or less leads to the probe alone, and so
      does a count that is not a number. */
  lemma IssuedCount(urls: map<string, Value>, stoken: string, service: string,
                    sinceModifiedToken: Value, server: Server)
    ensures var reqs := IssuedRequests(urls, stoken, service, sinceModifiedToken, server);
            var total := Get(server(reqs[0]).body, "totalBatchCount");
            && (total.Num? && total.n >= 1 ==> |reqs| == total.n)
            && (!total.Num? || total.n < 1 ==> |reqs| == 1)
  {
  }

  /** The request at position k >= 1 is the fan-out request with
      `overrideIndex = k`, carrying the probe response's batch token; the
      probe carries neither field. Every request carries the session token
      and goes to the service's URL. */
  lemma {:induction false} FanOutShape(urls: map<string, Value>, stoken: string, service: string,
                                       sinceModifiedToken: Value, server: Server, k: nat)
    requires k < |IssuedRequests(urls, stoken, service, sinceModifiedToken, server)|
    ensures var reqs := IssuedRequests(urls, stoken, service, sinceModifiedToken, server);
            var probe := server(reqs[0]);
            && reqs[k].url == UrlOf(urls, service)
            && reqs[k].body[TokenKey] == Str(stoken)
            && (k == 0 ==> "batchToken" !in reqs[k].body && "overrideIndex" !in reqs[k].body
                           && reqs[k].body["sinceModifiedToken"] == sinceModifiedToken)
            && (k > 0 ==> reqs[k].body.Keys == {"batchToken", "overrideIndex", TokenKey}
                          && reqs[k].body["overrideIndex"] == Num(k)
                          && reqs[k].body["batchToken"] == BatchToken(probe))
  {
    var reqs := IssuedRequests(urls, stoken, service, sinceModifiedToken, server);
    if k > 0 {
      var probe := server(reqs[0]);
      var remaining := RemainingRequests(probe).value;
      var plan := FanOutPlan(UrlOf(urls, service), stoken, BatchToken(probe), remaining);
      assert reqs == [reqs[0]] + plan;
      assert reqs[k] == plan[k - 1];
    }
  }

  /** The `overrideIndex` of a request, or -1 for a request without one
      (the probe). */
  function IndexOf(req: Request): int
  {
    match Get(req.body, "overrideIndex")
    case Num(n) => n
    case _ => -1
  }

  /** The fan-out indices are exactly 1..N-1 and tell the requests apart
      (no two requests of a fetch share an index), and each request sits at
      the position equal to its index. */
  lemma OverrideIndices(urls: map<string, Value>, stoken: string, service: string,
                        sinceModifiedToken: Value, server: Server)
    ensures var reqs := IssuedRequests(urls, stoken, service, sinceModifiedToken, server);
            var indices := set k | 1 <= k < |reqs| :: IndexOf(reqs[k]);
            && (forall i :: i in indices <==> 1 <= i < |reqs|)
            && (forall k :: 1 <= k < |reqs| ==> IndexOf(reqs[k]) == k)
            && IndexOf(reqs[0]) == -1
            && (forall j, k :: 0 <= j < k < |reqs| ==> IndexOf(reqs[j]) != IndexOf(reqs[k]))
  {
    var reqs := IssuedRequests(urls, stoken, service, sinceModifiedToken, server);
    forall k | 0 <= k < |reqs|
      ensures IndexOf(reqs[k]) == if k == 0 then -1 else k
    {
      FanOutShape(urls, stoken, service, sinceModifiedToken, server, k);
    }
    var indices := set k | 1 <= k < |reqs| :: IndexOf(reqs[k]);
    forall i | i in indices || 1 <= i < |reqs|
      ensures i in indices <==> 1 <= i < |reqs|
    {
      if 1 <= i < |reqs| {
        assert IndexOf(reqs[i]) == i;
      }
    }
  }

  /** `batched_request` passes its extra keyword parameters nowhere: no
      request of a fetch carries any parameter other than the cursor, the
      batch token and index, and the session token. In particular the
      `includeRetired` flag of `get_users` is never sent. */
  lemma ExtraParamsNotSent(urls: map<string, Value>, stoken: string, service: string,
                           sinceModifiedToken: Value, server: Server, k: nat)
    requires k < |IssuedRequests(urls, stoken, service, sinceModifiedToken, server)|
    ensures var req := IssuedRequests(urls, stoken, service, sinceModifiedToken, server)[k];
            req.body.Keys <= {"sinceModifiedToken", "batchToken", "overrideIndex", TokenKey}
            && "includeRetired" !in req.body
  {
    FanOutShape(urls, stoken, service, sinceModifiedToken, server, k);
  }

  // ---- Outcome ----

  /** A failing batch, probe included, fails the whole fetch with the error
      of the first failing batch in index order; with all batches
      successful, the fetch succeeds. */
  lemma FetchFailsAtFirstFailure(urls: map<string, Value>, stoken: string, service: string,
                                 sinceModifiedToken: Value, server: Server)
    requires RemainingRequests(server(ProbeRequest(UrlOf(urls, service), stoken, sinceModifiedToken))).Success?
    ensures var rs := Responses(server, IssuedRequests(urls, stoken, service, sinceModifiedToken, server));
            var res := Fetch(urls, stoken, service, sinceModifiedToken, server);
            && (res.Failure? <==> exists i :: 0 <= i < |rs| && !IsSuccessful(rs[i]))
            && (res.Failure? ==> exists i :: 0 <= i < |rs| && !IsSuccessful(rs[i]) && res.error == ErrorOf(rs[i])
                                             && forall j :: 0 <= j < i ==> IsSuccessful(rs[j]))
  {
  }

  /** A probe without a numeric `totalBatchCount` stops the fetch before any
      fan-out, whether or not the probe itself was successful. */
  lemma FetchRejectsBadBatchCount(urls: map<string, Value>, stoken: string, service: string,
                                  sinceModifiedToken: Value, server: Server)
    requires !Get(server(ProbeRequest(UrlOf(urls, service), stoken, sinceModifiedToken)).body, "totalBatchCount").Num?
    ensures |IssuedRequests(urls, stoken, service, sinceModifiedToken, server)| == 1
    ensures Fetch(urls, stoken, service, sinceModifiedToken, server).Failure?
    ensures Fetch(urls, stoken, service, sinceModifiedToken, server).error.BadBatchCount?
  {
  }

  /** A successful fetch returns the batches' entries concatenated in index
      order without nils, a count equal to their number and to the sum of
      the per-batch counts, and the cursor of the response to the request
      with the highest index (the probe when there is no fan-out). */
  lemma FetchResult(urls: map<string, Value>, stoken: string, service: string,
                    sinceModifiedToken: Value, server: Server)
    requires Fetch(urls, stoken, service, sinceModifiedToken, server).Success?
    ensures var reqs := IssuedRequests(urls, stoken, service, sinceModifiedToken, server);
            var rs := Responses(server, reqs);
            var resp := Fetch(urls, stoken, service, sinceModifiedToken, server).value;
            && (forall i :: 0 <= i < |rs| ==> IsSuccessful(rs[i]))
            && resp.results == ConcatEntries(service, rs)
            && resp.count == |resp.results| == SumCounts(service, rs)
            && (forall k :: 0 <= k < |resp.results| ==> resp.results[k] != Null)
            && (forall k :: 0 <= k < |reqs| ==> IndexOf(reqs[k]) <= IndexOf(reqs[|reqs| - 1]))
            && resp.sinceModifiedToken == Cursor(server(reqs[|reqs| - 1]))
  {
    var reqs := IssuedRequests(urls, stoken, service, sinceModifiedToken, server);
    var rs := Responses(server, reqs);
    MergedIsBatchConcat(service, rs);
    MergedLengthIsSumOfBatches(service, rs);
    OverrideIndices(urls, stoken, service, sinceModifiedToken, server);
  }

  // ---- Completion order ----

  /** The responses of a parallel block complete in an order of the HTTP
      library's choosing; each completion fills the response object that
      was appended when its request was issued. `order` lists the positions
      in completion order. */
  function Settle(slots: seq<Option<RawResponse>>, produced: seq<RawResponse>, order: seq<nat>): (r: seq<Option<RawResponse>>)
    requires |slots| == |produced|
    requires forall k :: 0 <= k < |order| ==> order[k] < |produced|
    ensures |r| == |slots|
    decreases |order|
  {
    if order == [] then slots
    else Settle(slots[order[0] := Some(produced[order[0]])], produced, order[1..])
  }

  lemma {:induction false} SettleAt(slots: seq<Option<RawResponse>>, produced: seq<RawResponse>, order: seq<nat>, j: nat)
    requires |slots| == |produced|
    requires forall k :: 0 <= k < |order| ==> order[k] < |produced|
    requires j < |slots|
    ensures Settle(slots, produced, order)[j] == if j in order then Some(produced[j]) else slots[j]
    decreases |order|
  {
    if order != [] {
      var next := slots[order[0] := Some(produced[order[0]])];
      SettleAt(next, produced, order[1..], j);
      assert j in order <==> j == order[0] || j in order[1..];
    }
  }

  /** Whatever the completion order, once every request has completed the
      responses stand in issue order: the probe first, then by ascending
      `overrideIndex`. */
  lemma CompletionOrderIrrelevant(server: Server, reqs: seq<Request>, order: seq<nat>)
    requires forall k :: 0 <= k < |order| ==> order[k] < |reqs|
    requires forall j :: 0 <= j < |reqs| ==> j in order
    ensures var produced := Responses(server, reqs);
            var r := Settle(seq(|reqs|, _ => None), produced, order);
            forall j :: 0 <= j < |reqs| ==> r[j] == Some(produced[j])
  {
    var produced := Responses(server, reqs);
    forall j | 0 <= j < |reqs|
      ensures Settle(seq(|reqs|, _ => None), produced, order)[j] == Some(produced[j])
    {
      SettleAt(seq(|reqs|, _ => None), produced, order, j);
    }
  }

  /** The completion-order argument applied to one fetch: whatever order the
      fan-out completes in, the settled slots hold exactly the responses
      `Fetch` merges, in issue order. */
  lemma FetchSettlesInIssueOrder(urls: map<string, Value>, stoken: string, service: string,
                                 sinceModifiedToken: Value, server: Server, order: seq<nat>)
    requires var n := |IssuedRequests(urls, stoken, service, sinceModifiedToken, server)|;
             (forall k :: 0 <= k < |order| ==> order[k] < n) && (forall j :: 0 <= j < n ==> j in order)
    ensures var reqs := IssuedRequests(urls, stoken, service, sinceModifiedToken, server);
            var rs := Responses(server, reqs);
            var settled := Settle(seq(|reqs|, _ => None), rs, order);
            && (forall j :: 0 <= j < |reqs| ==> settled[j] == Some(rs[j]))
            && (RemainingRequests(rs[0]).Success? ==>
                  Fetch(urls, stoken, service, sinceModifiedToken, server) == Aggregate(service, rs))
  {
    var reqs := IssuedRequests(urls, stoken, service, sinceModifiedToken, server);
    CompletionOrderIrrelevant(server, reqs, order);
  }
}

/** A three-batch users fetch, worked through: the probe reports three
    batches under token "abc"; the last batch holds a null entry. The users
    are any entries that are neither null nor lists. */
module BatchExample {
  import opened Json
  import opened Protocol
  import opened Merge
  import opened Batch

  predicate Entry(u: Value)
  {
    u != Null && !u.Arr?
  }

  function Batch0(u1: Value, u2: Value): RawResponse
  {
    RawResponse(true, map["status" := Num(0), "totalBatchCount" := Num(3), "batchToken" := Str("abc"),
                          "users" := Arr([u1, u2]), "sinceModifiedToken" := Str("T0")], map[])
  }

  function Batch1(u3: Value): RawResponse
  {
    RawResponse(true, map["status" := Num(0), "users" := Arr([u3]), "sinceModifiedToken" := Str("T1")], map[])
  }

  function Batch2(u4: Value): RawResponse
  {
    RawResponse(true, map["status" := Num(0), "users" := Arr([u4, Null]), "sinceModifiedToken" := Str("T2")], map[])
  }

  /** A server holding the three batches, answering by `overrideIndex`. */
  function ExampleServer(u1: Value, u2: Value, u3: Value, u4: Value): Server
  {
    (req: Request) =>
      match Get(req.body, "overrideIndex")
      case Num(1) => Batch1(u3)
      case Num(2) => Batch2(u4)
      case _ => Batch0(u1, u2)
  }

  lemma ExampleResponses(u1: Value, u2: Value, u3: Value, u4: Value)
    ensures var server := ExampleServer(u1, u2, u3, u4);
            && RemainingRequests(server(ProbeRequest(Null, "token", Null))) == Success(2)
            && Responses(server, IssuedRequests(map[], "token", "getUsers", Null, server))
               == [Batch0(u1, u2), Batch1(u3), Batch2(u4)]
  {
    var server := ExampleServer(u1, u2, u3, u4);
    assert "overrideIndex" !in RequestBody(ProbeParams(Null), "token");
    assert server(ProbeRequest(Null, "token", Null)) == Batch0(u1, u2);
    var plan := FanOutPlan(Null, "token", Str("abc"), 2);
    assert plan == [FanOutRequest(Null, "token", Str("abc"), 1), FanOutRequest(Null, "token", Str("abc"), 2)];
    assert RequestBody(FanOutParams(Str("abc"), 1), "token")["overrideIndex"] == Num(1);
    assert RequestBody(FanOutParams(Str("abc"), 2), "token")["overrideIndex"] == Num(2);
    var reqs := IssuedRequests(map[], "token", "getUsers", Null, server);
    assert reqs == [ProbeRequest(Null, "token", Null)] + plan;
  }

  lemma ConcatThree(service: string, a: RawResponse, b: RawResponse, c: RawResponse)
    ensures ConcatEntries(service, [a, b, c])
            == BatchEntries(service, a) + BatchEntries(service, b) + BatchEntries(service, c)
  {
    var rs := [a, b, c];
    assert rs[1..] == [b, c] && [b, c][1..] == [c] && [c][1..] == [];
    assert ConcatEntries(service, [c]) == BatchEntries(service, c);
    assert ConcatEntries(service, [b, c]) == BatchEntries(service, b) + BatchEntries(service, c);
  }

  lemma ExampleEntries(u1: Value, u2: Value, u3: Value, u4: Value)
    requires Entry(u1) && Entry(u2) && Entry(u3) && Entry(u4)
    ensures BatchEntries("getUsers", Batch0(u1, u2)) == [u1, u2]
    ensures BatchEntries("getUsers", Batch1(u3)) == [u3]
    ensures BatchEntries("getUsers", Batch2(u4)) == [u4]
  {
    OneLevelBatch("getUsers", Batch0(u1, u2), [u1, u2]);
    OneLevelBatch("getUsers", Batch1(u3), [u3]);
    OneLevelBatch("getUsers", Batch2(u4), [u4, Null]);
    assert Compact([u4, Null]) == [u4] by {
      assert [u4, Null][1..] == [Null];
      assert [Null][1..] == [];
    }
  }

  lemma ExampleMerge(u1: Value, u2: Value, u3: Value, u4: Value)
    requires Entry(u1) && Entry(u2) && Entry(u3) && Entry(u4)
    ensures Merged("getUsers", [Batch0(u1, u2), Batch1(u3), Batch2(u4)]) == [u1, u2, u3, u4]
  {
    MergedIsBatchConcat("getUsers", [Batch0(u1, u2), Batch1(u3), Batch2(u4)]);
    ConcatThree("getUsers", Batch0(u1, u2), Batch1(u3), Batch2(u4));
    ExampleEntries(u1, u2, u3, u4);
  }

  lemma ExampleAllSucceed(u1: Value, u2: Value, u3: Value, u4: Value)
    ensures FirstFailure([Batch0(u1, u2), Batch1(u3), Batch2(u4)]) == 3
  {
    var rs := [Batch0(u1, u2), Batch1(u3), Batch2(u4)];
    assert rs[1..] == [Batch1(u3), Batch2(u4)] && rs[1..][1..] == [Batch2(u4)] && rs[1..][1..][1..] == [];
  }

  /** The fetch returns the four users in batch order, count 4, and the
      cursor of batch 2. */
  lemma ThreeBatchFetch(u1: Value, u2: Value, u3: Value, u4: Value)
    requires Entry(u1) && Entry(u2) && Entry(u3) && Entry(u4)
    ensures Fetch(map[], "token", "getUsers", Null, ExampleServer(u1, u2, u3, u4))
            == Success(Response([u1, u2, u3, u4], 4, Str("T2")))
  {
    var rs := [Batch0(u1, u2), Batch1(u3), Batch2(u4)];
    ExampleResponses(u1, u2, u3, u4);
    assert Fetch(map[], "token", "getUsers", Null, ExampleServer(u1, u2, u3, u4)) == Aggregate("getUsers", rs);
    ExampleAllSucceed(u1, u2, u3, u4);
    ExampleMerge(u1, u2, u3, u4);
    assert Cursor(rs[2]) == Str("T2");
  }
}
