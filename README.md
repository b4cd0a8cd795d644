# dnschecker worker, modelled in Dafny

The dnschecker worker answers `POST /api/check-domain` with a verdict on a
domain's SPF, DKIM and DMARC TXT records. Two pieces carry its logic, and this
project models both:

- **The record classification engine** (`src/worker/checkDomainHandler.ts`), pure
  functions in module `DomainCheck`. The DNS-over-HTTPS resolver is an oracle
  (`Resolver = Lookup -> DnsResponse`). `SelectRecord` reduces its response to the
  first `Answer` entry's `data`, or `null`. The three classifiers map that optional
  string to a `RecordResult` (`status`, `record`, `recommendation`). `CheckDomain`
  validates the request's `domain` value and assembles `{domain, spf, dkim, dmarc}`.
- **Admission control** (`src/worker/index.ts`), class `Worker.RateLimiter`. Its
  `counts` map is updated in place by `Admit` (the middleware), by `Expire` (the
  window timer firing) and by `HandleCheckDomain` (middleware, then handler). Each
  method is tied to a pure transition function: `Transition`, `Expired`, `Serve`.
  The lemmas about traces of those functions give the per-window bound.

Module `JsString` models the JavaScript built-ins the code relies on:
`startsWith`, `includes` (a left-to-right scan proved equal to "occurs at some
index") and truthiness. Module `Wrappers` holds `Option`, which stands for `null`.

Quirks of the code that the model keeps:

- DKIM sends exactly SPF's query: TXT at the bare domain, with no selector and no
  `_domainkey` label (`DkimLookup`, `SpfDkimShareLookup`).
- DMARC passes on any record that contains the substring `p=`.
- Records are classified exactly as the resolver returns them, with no quote
  stripping.
- An empty record string is falsy, so it counts as "not found".
- An empty `CF-Connecting-IP` header is falsy too, so it falls into the "unknown" bucket.
- A rejected request leaves the map unchanged. An admitted request whose domain is
  invalid still uses up quota.

The worker does not strip quotes, filter or rank several records, check SPF
mechanism grammar, probe DKIM selectors, validate DKIM or DMARC tags, truncate
records or compute an `m365` flag, and neither does the model.

## Model

| member | source | states |
|---|---|---|
| JsString.StartsWith | src/worker/checkDomainHandler.ts:16 | `startsWith` holds exactly when the pattern occurs in the record at index 0 |
| JsString.Truthy | src/worker/checkDomainHandler.ts:36 | a value is falsy exactly when it is `undefined`, `null`, `false`, `0` or the empty string; this is the test behind `!domain` here and `!record` at lines 15, 22 and 29 |
| JsString.Includes | src/worker/checkDomainHandler.ts:23 | `includes` is true exactly when the pattern occurs in the record at some index |
| DomainCheck.SelectRecord | src/worker/checkDomainHandler.ts:8-10 | the result is non-null exactly when the response is ok, has an `Answer` array, and its first entry has a non-empty `data`; it is then that `data` unchanged |
| DomainCheck.ClassifySpf | src/worker/checkDomainHandler.ts:15-17 | never `warning`; `pass` exactly when a record is present and starts with `v=spf1`; a missing record gives `fail`, `null`, "No SPF record found."; a present record is kept unchanged, with the fail or pass message |
| DomainCheck.ClassifyDkim | src/worker/checkDomainHandler.ts:22-24 | `fail` exactly when no record is present; `pass` exactly when the record contains `k=rsa` or `k=ed25519`; otherwise `warning` with "Check DKIM key format."; the record is echoed as for SPF |
| DomainCheck.ClassifyDmarc | src/worker/checkDomainHandler.ts:29-31 | never `warning`; `pass` exactly when a record is present and contains `p=`; a missing record gives `fail`, `null`, "No DMARC record found."; a record without `p=` gives `fail` and is kept |
| DomainCheck.QueryDns | src/worker/checkDomainHandler.ts:3-11 | one resolver round trip: non-null exactly when the resolver's response to the query has a non-empty first `data`, which it then returns unchanged |
| DomainCheck.DkimLookup | src/worker/checkDomainHandler.ts:21 | DKIM's query is SPF's query: TXT at the bare domain |
| DomainCheck.DmarcLookupDistinct | src/worker/checkDomainHandler.ts:14-28 | DMARC's query (`_dmarc.` + domain) is never the apex query SPF and DKIM send, so DMARC never classifies the apex answer |
| DomainCheck.ValidateSpf | src/worker/checkDomainHandler.ts:13-18 | the verdict's record is exactly what the SPF lookup returned, `null` included, and it passes exactly when that record starts with `v=spf1` |
| DomainCheck.ValidateDkim | src/worker/checkDomainHandler.ts:20-25 | the verdict's record is exactly what the DKIM lookup returned, and it fails exactly when that lookup returned `null` |
| DomainCheck.ValidateDmarc | src/worker/checkDomainHandler.ts:27-32 | the verdict's record is exactly what the DMARC lookup returned, and it passes exactly when that record contains `p=` |
| DomainCheck.CheckDomain | src/worker/checkDomainHandler.ts:34-47 | the response is 400 `{error: "Invalid domain"}` exactly when `domain` is not a non-empty string; otherwise, for a resolver that answers, it is 200 with the domain echoed and, in that order, the SPF and DKIM verdicts of the TXT answer for the domain itself and the DMARC verdict of the TXT answer for `_dmarc.` + domain |
| DomainCheck.HandlerQueriesLookups | src/worker/checkDomainHandler.ts:36-44 | an invalid domain makes no query; for a valid one the spf, dkim and dmarc fields classify the selected answers to the first, second and third entries of `Lookups`, in that order |
| DomainCheck.SpfDkimShareLookup | src/worker/checkDomainHandler.ts:13-25 | DKIM sends exactly SPF's query (same name, same type), so given one answer R to that query the two verdicts are the SPF and DKIM classifications of R |
| DomainCheck.ResponseDependsOnlyOnLookups | src/worker/checkDomainHandler.ts:36-46 | two resolvers that agree on the handler's queries give identical responses; for an invalid domain the resolver is never consulted |
| DomainCheck.ValidatorsDeterministic | src/worker/checkDomainHandler.ts:13-32 | validators have no hidden state: the same looked-up records give identical results, whatever the raw responses were |
| Worker.SourceKey | src/worker/index.ts:10 | the key is never empty; it is the header value when that value is present and non-empty, and otherwise "unknown" |
| Worker.Transition | src/worker/index.ts:12-23 | admitted exactly when the key's count (0 without an entry) is below `LIMIT`; admission sets that key's count to one more and changes nothing else; rejection leaves the map unchanged |
| Worker.Expired | src/worker/index.ts:15 | the key's entry is gone and every other entry is unchanged |
| Worker.FirstRequestAdmitted | src/worker/index.ts:12-23 | a request for a key without an entry is admitted and leaves count 1 |
| Worker.TransitionPreservesBounded | src/worker/index.ts:19-23 | admission increments the key's count by exactly 1, and every count stays at most `LIMIT` |
| Worker.TransitionFrame | src/worker/index.ts:12-23 | a request leaves every other key's entry as it was |
| Worker.ExpiryResets | src/worker/index.ts:15 | after expiry the next request for that key is admitted with count 1 |
| Worker.AtMostLimitPerWindow | src/worker/index.ts:14-23 | over any run of requests and other keys' timers without an expiry of the key, the key's count grows by exactly its admissions, which are at most `LIMIT` minus its starting count |
| Worker.RequestsAdmitted | src/worker/index.ts:19-23 | n requests in a row for one key admit exactly min(n, remaining quota) |
| Worker.FourthRequestRejected | src/worker/index.ts:19-20 | from a fresh key, `LIMIT` (3) requests are admitted and the next one is rejected with the map unchanged |
| Worker.Serve | src/worker/index.ts:9-30 | a rejected request gets 429 with "Failed to check domain please wait 30 minutes" and the map is unchanged; an admitted one gets the domain check's response and its count incremented |
| Worker.InvalidDomainStillCounts | src/worker/index.ts:19-30 | an admitted request with an invalid domain is answered 400 and still uses one unit of quota |
| Worker.RateLimiter.constructor | src/worker/index.ts:7 | the map starts empty |
| Worker.RateLimiter.Admit | src/worker/index.ts:9-23 | the outcome and the new map are those of `Transition` on the derived key, and every count stays within `LIMIT` |
| Worker.RateLimiter.Expire | src/worker/index.ts:15 | the new map is the old one without that key |
| Worker.RateLimiter.HandleCheckDomain | src/worker/index.ts:9-30 | the response and the new map are those of `Serve`: the middleware runs first and only an admitted request reaches the handler |

## Left out

- The DNS-over-HTTPS call (`fetch`, URL construction, the `Accept` header, JSON parsing) is the `Resolver` oracle. A `data` value that is not a string is not modelled.
- Resolver faults: `fetch` rejecting, `response.json()` failing on an ok response whose body is not JSON, and `data.Answer` read on a JSON `null` body all throw. The fault leaves the handler through `Promise.all`, and the framework answers with a server error, after the quota has been spent. The `Resolver` oracle always answers, so `CheckDomain` and `Serve` describe only requests whose lookups all complete.
- DomainCheck.SpfDkimShareLookup: the resolver is a function, so identical queries get identical answers. The worker sends the SPF and DKIM queries as two separate HTTP requests, and those can be answered differently: one may be non-ok, or the first `Answer` entry may differ. The model does not promise that the two verdicts show the same record in that case.
- `c.req.json()` throwing on a malformed body, and destructuring a `null` body, are not modelled. Both end in the framework's error response. The model takes the body's `domain` property as a `JsValue`.
- `JsValue` numbers are integers. NaN and fractional numbers are not modelled, and their only effect is to be rejected as non-strings.
- Strings are Dafny `seq<char>`. JavaScript compares UTF-16 code units; for the ASCII tokens matched here this makes no difference.
- `Promise.all`: the three validators are evaluated one after another and combined in the fixed order spf, dkim, dmarc.
- The timer: `setTimeout`, `WINDOW_MS` and wall-clock time are left out. The firing of a key's timer is the explicit `Expire` step. The entry's timer handle is not kept, so an entry is just its count.
- Concurrent requests interleaving on the shared map are not modelled. Each `Admit` is one atomic step.
- Hono routing, the `GET /api/` endpoint, and `next()` are left out. The handler is called directly after admission.
- The `m365` and `details` fields of the React app's result types are never produced by the worker. The React UI (`src/react-app/App.tsx`) is presentation only.
