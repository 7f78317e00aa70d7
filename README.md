# VPP client: batched fetch protocol

A Dafny model of the batched fetch in the Ruby client for Apple's Volume
Purchase Program service (`Apple::VolumePurchaseProgram::Client`). The
client fetches users and licenses in numbered batches. It sends a probe
request. The probe's response gives the number of batches
(`totalBatchCount`) and a shared `batchToken`. The client then requests
batches 1..N-1 with `overrideIndex` set, in parallel. It validates every
response in index order and merges the per-service result lists. It returns
the cursor (`sinceModifiedToken`) for the next incremental sync.

Modules, one per component of `client.rb`:

- `Json` (json.dfy): decoded JSON values (`Null` is Ruby's `nil`) and the two hash lookups `[]` and `fetch`.
- `Protocol` (protocol.dfy): the request body merge of `request`, `raise_if_unsuccessful` and the error it raises, and the non-parallel branch of `request`.
- `Merge` (merge.dfy): `SERVICE_RESULTS_KEYS`, Ruby's deep `flatten` and `compact`, the first-failure scan and the aggregated `Response`, with the lemmas that the merge is a per-batch concatenation.
- `Batch` (batch.dfy): the probe and fan-out plan, the requests and responses of one fetch, the `Fetch` specification function and its lemmas, and the completion-order argument. `BatchExample` works through a three-batch fetch.
- `Setup` (setup.dfy): parsing of the `<name>SrvUrl` keys of the configuration body, and the hostname/GUID check of the client context.
- `VppClient` (client.dfy): the shared `SERVICE_URLS` table as a class whose `Load` loop fills it; the `Client` class with `BatchedRequest` (the issuing loop, proved equal to `Fetch`), `GetUsers` and `GetLicenses`.

The HTTP side is a parameter. A `Server` is a total function from a
`Request` (URL and JSON body) to a `RawResponse`: the transport's success
flag, the decoded body and the headers. Being a function, it answers the
same request the same way, which models an unchanged data set. That is
why repeating a fetch gives the same `Response`.

The model follows what the code does, including points where it is easy
to misread:

- The probe is issued before the parallel block, not inside it.
- `batched_request` never forwards its extra parameters, so `get_users` does not send `includeRetired` (`Batch.ExtraParamsNotSent`).
- A response with a non-2xx HTTP status (`success?` false) is reported like an API error: the error is built from `errorNumber` and `errorMessage` of the body, or `fetch` raises.
- `compact` removes only nils. Empty objects and `false` stay in the results.
- A probe without a numeric `totalBatchCount` fails with `nil - 1`. It does not fail with a dedicated protocol error. Either way no fan-out request is sent.
- A `totalBatchCount` of zero or less sends only the probe.
- One exception: the cursor. Line 90 looks `sinceModifiedToken` up on the HTTP response object, which reads the headers. `Merge.Aggregate`, `Batch.Fetch` and `VppClient.Client.BatchedRequest` return the body's `sinceModifiedToken` instead, the corrected reading recorded under "## Findings". `Merge.CursorAsWritten` models the lookup as written.

## Model

| member | source | states |
|---|---|---|
| `Protocol.RequestBody` | Apple/VolumePurchaseProgram/client.rb:53 | the body is the caller's parameters plus `sToken`; the session token overrides a caller's `sToken`, and no other parameter changes |
| `Protocol.ErrorOf` | Apple/VolumePurchaseProgram/client.rb:67 | the error carries the body's `errorNumber` and `errorMessage`; a missing `errorNumber`, then a missing `errorMessage`, is a missing-key error instead |
| `Protocol.CheckSuccess` | Apple/VolumePurchaseProgram/client.rb:65-69 | passes iff the transport succeeded and `status` is 0; otherwise fails with `ErrorOf`, an API error exactly when both error fields are present |
| `Protocol.Immediate` | Apple/VolumePurchaseProgram/client.rb:57-62 | without `in_parallel`, succeeds with the body exactly for successful responses and fails with their error otherwise |
| `Merge.ResultsOf` | Apple/VolumePurchaseProgram/client.rb:87 | a response's result list is its body field named by `SERVICE_RESULTS_KEYS` (`getUsers` to `users`, `getLicenses` to `licenses`), and the empty list when the field or the service's key is missing |
| `Merge.Flatten` | Apple/VolumePurchaseProgram/client.rb:88 | the deep flatten leaves no list in the result, and leaves a sequence without lists unchanged |
| `Merge.Compact` | Apple/VolumePurchaseProgram/client.rb:88 | the result holds exactly the non-nil values of the input, is no longer than it, and equals an input without nils |
| `Merge.Merged` | Apple/VolumePurchaseProgram/client.rb:85-88 | the merged results contain neither nils nor lists |
| `Merge.FirstFailure` | Apple/VolumePurchaseProgram/client.rb:85-86 | every response before the returned index is successful and the one at it is not; the index is the length when all succeed |
| `Merge.Aggregate` | Apple/VolumePurchaseProgram/client.rb:85-90 | fails iff some response is unsuccessful, then with the error of the first such response in order; otherwise the merged results, their count, and the cursor of the last response |
| `Merge.CursorAsWritten` | Apple/VolumePurchaseProgram/client.rb:90 | the lookup as written reads the headers: the `sinceModifiedToken` header's value when present, nil otherwise |
| `Merge.Cursor` | Apple/VolumePurchaseProgram/client.rb:90 | the corrected cursor: the body's `sinceModifiedToken` when present, nil otherwise |
| `Merge.CursorAsWrittenDropsBodyToken` | Apple/VolumePurchaseProgram/client.rb:90 | a last batch carrying its cursor "T2" in the body and no such header: the lookup as written gives nil, the body gives "T2" |
| `Merge.MergedIsBatchConcat` | Apple/VolumePurchaseProgram/client.rb:85-88 | flatten-then-compact over all responses equals the concatenation, in response order, of each batch's own non-nil entries |
| `Merge.MergedLengthIsSumOfBatches` | Apple/VolumePurchaseProgram/client.rb:88-90 | the number of merged results is the sum over the batches of their non-nil entries |
| `Merge.OneLevelBatch` | Apple/VolumePurchaseProgram/client.rb:85-88 | for a batch whose list holds no nested lists, the batch contributes exactly its non-nil entries, in order |
| `Batch.RemainingRequests` | Apple/VolumePurchaseProgram/client.rb:73 | succeeds iff the probe's `totalBatchCount` is a number, with that number minus one; otherwise fails carrying the value found |
| `Batch.FanOutPlan` | Apple/VolumePurchaseProgram/client.rb:79-81 | `remaining.times` issues `remaining` requests, none when it is zero or negative |
| `Batch.IssuedRequests` | Apple/VolumePurchaseProgram/client.rb:72-81 | a fetch issues at least one request, and the first is the probe carrying the cursor and the session token |
| `Batch.Responses` | Apple/VolumePurchaseProgram/client.rb:75-81 | `responses` has one entry per issued request, and entry k is the server's answer to request k |
| `Batch.Fetch` | Apple/VolumePurchaseProgram/client.rb:71-91 | a non-numeric batch count fails with that error; otherwise the fetch fails iff some response is unsuccessful; a successful fetch's count equals the number of its results, none of them nil |
| `Batch.IssuedCount` | Apple/VolumePurchaseProgram/client.rb:72-80 | for `totalBatchCount = N >= 1` exactly N requests are issued; a smaller or non-numeric count issues the probe alone |
| `Batch.FanOutShape` | Apple/VolumePurchaseProgram/client.rb:72-80 | every request goes to the service's URL with the session token; the probe carries the cursor and no batch fields; request k >= 1 carries exactly `batchToken` (the probe response's), `overrideIndex = k` and `sToken` |
| `Batch.OverrideIndices` | Apple/VolumePurchaseProgram/client.rb:74-80 | the fan-out indices are exactly 1..N-1, request k sits at position k, the probe has none, and no two requests share an index |
| `Batch.ExtraParamsNotSent` | Apple/VolumePurchaseProgram/client.rb:71-80 | no request carries a parameter other than the cursor, batch token, index and session token; `includeRetired` is never sent |
| `Batch.FetchFailsAtFirstFailure` | Apple/VolumePurchaseProgram/client.rb:85-88 | with a numeric batch count, the fetch fails iff some batch, the probe included, is unsuccessful, and then with the first failing batch's error in index order |
| `Batch.FetchRejectsBadBatchCount` | Apple/VolumePurchaseProgram/client.rb:73 | a probe without a numeric `totalBatchCount` fails the fetch after the probe alone, whether or not the probe succeeded |
| `Batch.FetchResult` | Apple/VolumePurchaseProgram/client.rb:85-90 | a successful fetch had only successful batches; its results are the per-batch non-nil entries concatenated in index order; its count equals their number and the per-batch sum; the cursor comes from the request with the highest index |
| `Batch.Settle` | Apple/VolumePurchaseProgram/client.rb:78-82 | completions in any order keep one slot per issued request; `Batch.SettleAt` gives each slot's content |
| `Batch.SettleAt` | Apple/VolumePurchaseProgram/client.rb:78-82 | after completions in any order, a slot holds its own request's response if that request completed, and is unchanged otherwise |
| `Batch.CompletionOrderIrrelevant` | Apple/VolumePurchaseProgram/client.rb:75-82 | whatever the completion order, once all requests have completed, position k holds the response to the k-th issued request |
| `Batch.FetchSettlesInIssueOrder` | Apple/VolumePurchaseProgram/client.rb:75-88 | for one fetch, whatever order its requests complete in, the settled slots are exactly the responses the merge reads, in issue order, and the fetch is the merge of them |
| `BatchExample.ThreeBatchFetch` | Apple/VolumePurchaseProgram/client.rb:71-91 | three batches `[u1,u2]`, `[u3]`, `[u4,nil]` with cursors T0, T1, T2 give results `[u1,u2,u3,u4]`, count 4 and cursor T2 |
| `Setup.ServiceNameOf` | Apple/VolumePurchaseProgram/client.rb:31-32 | a key names a service iff it is longer than `SrvUrl` and ends with it; the name is non-empty and the key is the name followed by `SrvUrl` |
| `Setup.ServiceNameRoundTrip` | Apple/VolumePurchaseProgram/client.rb:31-32 | every non-empty name is recovered from its key `<name>SrvUrl` |
| `Setup.BareSuffixIsNoService` | Apple/VolumePurchaseProgram/client.rb:31 | the key `SrvUrl` alone names no service |
| `Setup.ServiceUrlTable` | Apple/VolumePurchaseProgram/client.rb:30-34 | every service in the table comes from some configuration key that names it |
| `Setup.ServiceUrlTableContents` | Apple/VolumePurchaseProgram/client.rb:30-34 | a service is in the table iff some configuration key is its non-empty name followed by `SrvUrl`, and its URL is that key's value |
| `Setup.CheckClientContext` | Apple/VolumePurchaseProgram/client.rb:46-48 | passes iff the context is an object whose `hostname` and `guid` are this client's; a mismatch fails carrying the values found |
| `Setup.RegisteredContextPasses` | Apple/VolumePurchaseProgram/client.rb:42-46 | a context registered by this client passes the check for it, and fails it for any other hostname or GUID |
| `VppClient.ServiceDirectory.Load` | Apple/VolumePurchaseProgram/client.rb:30-34 | the shared table afterwards is the earlier table overridden by the services parsed from the configuration |
| `VppClient.Client.constructor` | Apple/VolumePurchaseProgram/client.rb:19-34 | the client keeps its session token and loads the configuration's service URLs into the shared table |
| `VppClient.Client.RequestTo` | Apple/VolumePurchaseProgram/client.rb:52-53 | a request goes to the URL the shared table holds for the service, nil for a service it lacks; its body is the caller's parameters plus `sToken` set to the session token, every other parameter unchanged |
| `VppClient.Client.BatchedRequest` | Apple/VolumePurchaseProgram/client.rb:71-91 | the issuing loop sends exactly the requests of `IssuedRequests` and returns the outcome `Fetch` specifies |
| `VppClient.Client.GetUsers` | Apple/VolumePurchaseProgram/client.rb:93-95 | the users fetch; no request carries `includeRetired` |
| `VppClient.Client.GetLicenses` | Apple/VolumePurchaseProgram/client.rb:97-99 | the licenses fetch |

## Findings

| source | as written | input that shows it | evidently intended | confidence | as-written member | corrected member |
|---|---|---|---|---|---|---|
| Apple/VolumePurchaseProgram/client.rb:90 | `responses.last[:sinceModifiedToken]` calls `Faraday::Response#[]`, which looks the name up among the HTTP response headers | a last batch with body `sinceModifiedToken: "T2"` and no such header: the returned cursor is nil | the `sinceModifiedToken` field of the last response's body, where the service sends it | medium, not executed; it depends on Faraday's `Response#[]` delegating to the headers | `Merge.CursorAsWrittenDropsBodyToken` | `Merge.Aggregate` |

## Left out

- Merge.Aggregate, Batch.FetchResult and VppClient.Client.BatchedRequest return the cursor from the last response's body, the corrected reading under "## Findings". They do not return the header lookup that line 90 performs; `Merge.CursorAsWritten` models that lookup on its own.

- RawResponse.success stands only for Faraday's HTTP status test (`success?`, a 2xx status). Failures that give no response at all, such as a refused connection or a time-out, make the adapter raise inside the parallel block (lines 78-82), in completion order and ahead of the in-order check of lines 85-86. They are not modelled, and `Batch.FetchFailsAtFirstFailure` does not cover them.
- HTTP transport and parallelism (Faraday, Typhoeus, Hydra): responses are the value of a `Server` function. The limit of `MAX_CONCURRENCY = 5` requests in flight is enforced by Hydra and is not modelled.
- A server whose answers change between requests: `Server` is a function of the request.
- JSON encoding and decoding (MultiJson): bodies are already-decoded maps. Numbers are integers only, so a float `status` of `0.0`, which Ruby counts as equal to 0, is not modelled.
- The network part of `initialize`: the `VPPServiceConfigSrv` fetch (line 29), the `clientConfig` requests, and the choice at lines 39-45 between the stored context and registering a new one. The configuration body is given as a sequence of key-value pairs in body order. `Setup.CheckClientContext` receives the decoded context.
- Regex details of the `SrvUrl` match: Ruby's `^` and `$` anchor at line breaks, and `.` excludes them, so keys containing line breaks match differently. Keys are modelled as single-line strings.
- Exception messages: errors are an `Error` datatype carrying the values the message would print. `BadBatchCount` stands for the NoMethodError or TypeError that `totalBatchCount - 1` or `.times` raises. `BadClientContext` stands for the error raised when the context is not a hash.
- What Faraday does with a nil URL for a service missing from `SERVICE_URLS`: the request carries `Null` as its URL.
- HTTP header name case: headers are keyed by lower-cased name, standing for Faraday's case-insensitive header lookup.
