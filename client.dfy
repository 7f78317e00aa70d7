/** `Apple::VolumePurchaseProgram::Client`: the shared service URL table,
    the client that owns a session token, and its batched fetches. */
module VppClient {
  import opened Json
  import opened Protocol
  import opened Merge
  import opened Batch
  import opened Setup

  /** `SERVICE_URLS`: one mutable table shared by every client, filled from
      the configuration body each time a client initializes. */
  class ServiceDirectory {
    var urls: map<string, Value>

    constructor ()
      ensures urls == map[]
    {
      urls := map[];
    }

    /** The `response.body.each` loop: record the value of every key of the
        form `<name>SrvUrl` under `<name>`, keeping what earlier clients
        recorded for the other services. */
    method Load(config: seq<(string, Value)>)
      modifies this
      ensures urls == old(urls) + ServiceUrlTable(config)
    {
      var i := 0;
      while i < |config|
        invariant 0 <= i <= |config|
        invariant urls == old(urls) + ServiceUrlTable(config[..i])
      {
        var (key, value) := config[i];
        ghost var before := ServiceUrlTable(config[..i]);
        ServiceUrlTableStep(config, i);
        match ServiceNameOf(key) {
          case Some(name) =>
            UnionUpdate(old(urls), before, name, value);
            urls := urls[name := value];
          case None =>
        }
        i := i + 1;
      }
      assert config[..i] == config;
    }
  }

  /** Setting a key after a union is setting it in the right-hand map. */
  lemma UnionUpdate(a: map<string, Value>, b: map<string, Value>, k: string, v: Value)
    ensures (a + b)[k := v] == a + b[k := v]
  {
  }

  class Client {
    const stoken: string
    const directory: ServiceDirectory

    /** The configuration part of `initialize`: the body of the
        `VPPServiceConfigSrv` response is loaded into the shared table. */
    constructor (stoken: string, directory: ServiceDirectory, config: seq<(string, Value)>)
      modifies directory
      ensures this.stoken == stoken && this.directory == directory
      ensures directory.urls == old(directory.urls) + ServiceUrlTable(config)
    {
      this.stoken := stoken;
      this.directory := directory;
      new;
      directory.Load(config);
    }

    /** The request `request(service, **params)` sends. */
    function RequestTo(service: string, params: Body): (r: Request)
      reads this, directory
      ensures service in directory.urls ==> r.url == directory.urls[service]
      ensures service !in directory.urls ==> r.url == Null
      ensures r.body.Keys == params.Keys + {TokenKey}
      ensures r.body[TokenKey] == Str(stoken)
      ensures forall k :: k in params && k != TokenKey ==> r.body[k] == params[k]
    {
      Request(UrlOf(directory.urls, service), RequestBody(params, stoken))
    }

    /** `batched_request(service, since_modified_token:, **params)`: the probe,
        the fan-out appended in issue order, and the merge. `params` is
        accepted and, as in the source, never sent. */
    method BatchedRequest(service: string, sinceModifiedToken: Value, params: Body, server: Server)
      returns (result: Result<Response>, requests: seq<Request>)
      ensures requests == IssuedRequests(directory.urls, stoken, service, sinceModifiedToken, server)
      ensures result == Fetch(directory.urls, stoken, service, sinceModifiedToken, server)
    {
      var probeRequest := RequestTo(service, ProbeParams(sinceModifiedToken));
      var first := server(probeRequest);
      requests := [probeRequest];
      var responses := [first];
      match RemainingRequests(first) {
        case Failure(e) =>
          result := Failure(e);
        case Success(remaining) =>
          var batchToken := BatchToken(first);
          ghost var plan := FanOutPlan(UrlOf(directory.urls, service), stoken, batchToken, remaining);
          var i := 0;
          while i < remaining
            invariant 0 <= i <= |plan|
            invariant requests == [probeRequest] + plan[..i]
            invariant responses == Responses(server, requests)
          {
            var next := RequestTo(service, FanOutParams(batchToken, i + 1));
            requests := requests + [next];
            responses := responses + [server(next)];
            i := i + 1;
          }
          assert plan[..i] == plan;
          result := Aggregate(service, responses);
      }
    }

    /** `get_users`: the users fetch. Its `includeRetired: 1` goes into the
        ignored extra parameters. */
    method GetUsers(sinceModifiedToken: Value, server: Server)
      returns (result: Result<Response>, requests: seq<Request>)
      ensures result == Fetch(directory.urls, stoken, "getUsers", sinceModifiedToken, server)
      ensures requests == IssuedRequests(directory.urls, stoken, "getUsers", sinceModifiedToken, server)
      ensures forall k :: 0 <= k < |requests| ==> "includeRetired" !in requests[k].body
    {
      result, requests := BatchedRequest("getUsers", sinceModifiedToken, map["includeRetired" := Num(1)], server);
      forall k | 0 <= k < |requests|
        ensures "includeRetired" !in requests[k].body
      {
        ExtraParamsNotSent(directory.urls, stoken, "getUsers", sinceModifiedToken, server, k);
      }
    }

    /** `get_licenses`: the licenses fetch. */
    method GetLicenses(sinceModifiedToken: Value, server: Server)
      returns (result: Result<Response>, requests: seq<Request>)
      ensures result == Fetch(directory.urls, stoken, "getLicenses", sinceModifiedToken, server)
      ensures requests == IssuedRequests(directory.urls, stoken, "getLicenses", sinceModifiedToken, server)
    {
      result, requests := BatchedRequest("getLicenses", sinceModifiedToken, map[], server);
    }
  }
}
