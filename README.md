# go-swan-client protocol adapters, modelled in Dafny

This project models the two protocol adapters of go-swan-client's client
package:

- the **Lotus JSON-RPC adapter** (`common/client/lotusclient.go`), which
  talks to a Filecoin chain node. For each of six node methods it builds a
  request object after section 4 of the JSON-RPC 2.0 Specification: version
  "2.0", the fixed id 7878, the method name and a positional parameter list.
  For `LotusVersion` and `LotusMarketGetAsk` that list is a Go slice that is
  never appended to, so it is nil and `encoding/json` writes `"params": null`.
  Section 4 allows `params` to be omitted, or else requires an array or an
  object, so these two requests do not meet it; the model writes their
  parameters as `NullParams`. It picks a route: which URL, which verb, and which token, if any. It then
  classifies the decoded response object of section 5: an optional error
  object (section 5.1) and an optional result.
- the **Swan REST adapter** (`common/client/swan.go`), which talks to the
  task service. It covers the token handshake, the deal-list query with its
  default page size, the deal-status update with its positional optional
  form fields, the task-miner reassignment and the task-creation form. It
  also models the case-insensitive "SUCCESS" check that decides success.

Files:

- `wrappers.dfy`: `Option`, `Result` and `Outcome`.
- `strs.dfy`: the parts of Go's `strings` and `strconv` that the adapters
  use. These are `Contains`, `ToUpper` (ASCII only), `Itoa` with its inverse
  `ParseInt`, and `FormatBool`.
- `lotus.dfy`: module `Lotus`.
- `swan.dfy`: module `Swan`.

Transport and decoding are inputs. A Lotus call's reply is a
`Response<T> = NoResponse | DecodeFail | Envelope(id, jsonRpc, error?, result?)`.
A Swan call's reply is a `Reply<T> = Undecodable | Decoded(status, data)`.
An empty transport response is not valid JSON, so in Swan it is
`Undecodable`.

The Lotus classifiers are compared with one reference rule:
- `Delivers`: a call yields a value only from an envelope with a null error
  and a non-null result.
- `ReferenceFailure`: failures are ranked as no response, then decoding, then
  the error object, then a null result.

The model compares each classifier with this reference rule. The code does
not follow it everywhere, and the model follows the code:

- `LotusClientImport` follows the rule exactly.
- `LotusVersion` and `LotusClientGenCar` never fail on a null result.
  Version's result is a value rather than a pointer, so a null result yields
  the zero value's version, `""`.
- `LotusClientCalcCommP` and `LotusMarketGetAsk` never look at the error
  object. A response that carries both an error and a result yields the
  result (`Lotus.ErrorIgnoredByCommPAndAsk`).
- `LotusClientStartDeal` reads the result without a nil check. Its
  classifier therefore requires `StartDealReadable`: the response is not an
  envelope with a null error and a null result.

## Model

| member | source | states |
|---|---|---|
| `Lotus.VersionRequest` | common/client/lotusclient.go:119-131 | Version sends a null `params` (the nil slice) that decodes to the Version call, tokenless, to the miner API |
| `Lotus.MarketGetAskRequest` | common/client/lotusclient.go:156-168 | MarketGetAsk sends a null `params` (the nil slice), tokenless, to the miner API |
| `Lotus.CalcCommPRequest` | common/client/lotusclient.go:188-201 | CalcCommP sends exactly the array `[filepath]`, as a POST to the node API with the access token |
| `Lotus.ImportRequest` | common/client/lotusclient.go:227-244 | Import sends exactly `[{Path, IsCAR}]`, as a GET to the node API with the access token |
| `Lotus.GenCarRequest` | common/client/lotusclient.go:276-294 | GenCar sends `[{Path: src, IsCAR}, dest]` in that order, as a GET to the node API with the access token |
| `Lotus.StartDealRequest` | common/client/lotusclient.go:343-381 | StartDeal sends a single proposal, as a GET to the node API with the access token |
| `Lotus.RequestRoundTrip` | common/client/lotusclient.go:16-28 | every request carries "2.0" and 7878, and decodes back to exactly the call that built it |
| `Lotus.ParseCallCanonical` | common/client/lotusclient.go:30-35 | a request object decodes to a call only if it is exactly that call's request, so no other order, length or shape is accepted |
| `Lotus.NullParamsOnlyForPublicQueries` | common/client/lotusclient.go:119-381 | `params` is null exactly for Version and MarketGetAsk; every other call sends an array |
| `Lotus.GenCarOrderMatters` | common/client/lotusclient.go:279-285 | the GenCar parameters in swapped order form no valid request |
| `Lotus.RoutingPolicy` | common/client/lotusclient.go:131-381 | a request is tokenless iff it is Version or MarketGetAsk (sent to the miner API); every other call goes to the node API with the access token; only CalcCommP is a POST |
| `Lotus.StartDealCarriesInputs` | common/client/lotusclient.go:349-372 | the root cid, piece cid, piece size, start epoch, wallet, miner, flags and duration reach the parameter list unchanged, with the constants 42, "2", "0" and "string value" |
| `Lotus.StartDealScenario` | common/client/lotusclient.go:350-371 | the proposal for bafy1/bafy2/1024/f01000/f3abc keeps those values, with raw block size 42 |
| `Lotus.VersionOutcome` | common/client/lotusclient.go:131-152 | fails exactly on no response, a decode failure or an error object, ranked by the reference order; otherwise returns the version, or "" when the result is null |
| `Lotus.MarketGetAskOutcome` | common/client/lotusclient.go:168-184 | returns the ask iff the response decoded with a non-null result, whatever the error object holds |
| `Lotus.CalcCommPOutcome` | common/client/lotusclient.go:201-218 | returns the root cid iff the response decoded with a non-null result, whatever the error object holds |
| `Lotus.ImportOutcome` | common/client/lotusclient.go:244-272 | succeeds iff the reference rule delivers, with the root cid; otherwise fails with the reference failure (no response, then decode, then error, then null result) |
| `Lotus.GenCarOutcome` | common/client/lotusclient.go:294-314 | passes iff the response decoded with a null error object, for a result of any type |
| `Lotus.StartDealOutcome` | common/client/lotusclient.go:381-402 | on readable responses, succeeds iff the reference rule delivers, with the result's cid; otherwise fails with the reference failure, never with a null result |
| `Lotus.ErrorTakesPrecedence` | common/client/lotusclient.go:131-402 | Version, Import, GenCar and StartDeal report the error object even when a result is present |
| `Lotus.ErrorIgnoredByCommPAndAsk` | common/client/lotusclient.go:168-218 | CalcCommP and MarketGetAsk return the result of a response that also carries an error |
| `Lotus.NoValueOnFailure` | common/client/lotusclient.go:131-402 | Import, GenCar and StartDeal fail wherever the reference rule rejects; CalcCommP and MarketGetAsk return nil unless a result is present; Version's only value there is "" |
| `Lotus.ResponseIdNotChecked` | common/client/lotusclient.go:44-48 | for all six calls, the response's id and version members do not affect the outcome (nor, for StartDeal, whether the response is readable) |
| `Lotus.ImportScenario` | common/client/lotusclient.go:227-272 | importing /tmp/a.car as a car with result root bafy123 yields "bafy123" |
| `Strs.ContainsIff` | common/client/swan.go:54 | the left-to-right scan of strings.Contains is true iff the substring occurs at some index |
| `Strs.ToUpper` | common/client/swan.go:91 | upper-casing keeps the length and upper-cases each ASCII letter in place |
| `Strs.ToUpperEqualsIff` | common/client/swan.go:91 | upper-casing gives an all-capitals word iff the input spells it letter by letter in any case |
| `Strs.ItoaRoundTrip` | common/client/swan.go:105 | strconv.Itoa's text parses back to the same integer |
| `Strs.FormatBool` | common/client/swan.go:156 | the text is "true" iff the flag is set and "false" iff it is not |
| `Swan.HandshakeRequest` | common/client/swan.go:49-52 | the handshake POSTs the API key and access token to `/user/api_keys/jwt` without a token |
| `Swan.GetClient` | common/client/swan.go:54-73 | a session results iff "fail" occurs nowhere in the raw response and `data` has a "jwt" entry; the session holds that token with the configured URL and key; "fail" anywhere is fatal; otherwise a missing `data` object is fatal and a `data` object without "jwt" panics |
| `Swan.HandshakeFailScenario` | common/client/swan.go:54-58 | the reply `{"status":"fail","message":"bad key"}` is fatal whatever was decoded |
| `Swan.RowLimit` | common/client/swan.go:77-80 | the page size is "50" without a limit argument, otherwise the first argument |
| `Swan.OfflineDealsRequest` | common/client/swan.go:82-83 | a GET with the session token to the unescaped concatenation of the URL, miner, status, limit and offset 0 |
| `Swan.OfflineDealsUrlAmbiguous` | common/client/swan.go:82 | without escaping, two different status/limit pairs give the same URL |
| `Swan.StatusIsSuccess` | common/client/swan.go:91 | the ToUpper check accepts a status iff it spells SUCCESS in any case |
| `Swan.OfflineDealsOutcome` | common/client/swan.go:84-96 | the deal list is returned iff the reply decoded and its status spells SUCCESS in any case; otherwise nil |
| `Swan.DealStatusForm` | common/client/swan.go:107-120 | the form built by successive Adds is `status`, then the i-th optional key with the i-th entry, for the first three entries at most |
| `Swan.DealStatusPrefixRule` | common/client/swan.go:107-120 | `status` is always first; `note`, `file_path` and `file_size` are present iff there are at least one, two or three entries, each with its entry |
| `Swan.DealStatusIgnoresExtra` | common/client/swan.go:118-120 | entries beyond the third do not change the form |
| `Swan.DealStatusNoteOnly` | common/client/swan.go:110-112 | statusInfo ["ok"] gives exactly status and note=ok |
| `Swan.DealStatusUrlInjective` | common/client/swan.go:105 | distinct deal ids are updated at distinct URLs |
| `Swan.UpdateOfflineDealStatus` | common/client/swan.go:99-137 | an empty status sends nothing and fails; otherwise the form, already encoded and wrapped in a reader, is PUT to `/my_miner/deals/<id>` with the token, and the result is true iff the reply decoded with status SUCCESS in any case |
| `Swan.UpdateTaskByUuid` | common/client/swan.go:139-147 | PUTs only `miner_fid`, as the url.Values value itself rather than its encoded text, to `/uuid_tasks/<uuid>` with the token and returns the response unvalidated |
| `Swan.CreateTaskParams` | common/client/swan.go:152-165 | the map filled key by key equals the task's form fields |
| `Swan.TaskFieldsSpec` | common/client/swan.go:152-165 | the keys are the five fixed ones plus `miner_id` iff a miner is named; is_public is "true"/"false"; type is the verified type name for a verified task and the regular one otherwise, so it tells them apart when the two names differ |
| `Swan.CreateTask` | common/client/swan.go:149-173 | uploads the form and the file under field "file" to `/tasks` with the token; returns "" on upload error, else the response |

## Left out

- `Lotus.StartDealOutcome`: requires `StartDealReadable`. A decoded response with a null error and a null result makes the source dereference nil and panic; that panic is not modelled.
- `Strs.ToUpper`: upper-cases ASCII letters only. Go's `strings.ToUpper` also maps non-ASCII letters, so for example "ſuccess" (with U+017F) is accepted by the source and rejected by the model.
- `Swan.GetClient`: a "jwt" entry that is not a string is not modelled; it would panic at the type assertion. A missing entry is modelled as `JwtPanic`. The status and message that the fatal log prints are not modelled.
- HTTP transport (`HttpGet`, `HttpPost`, `HttpGetNoToken`, `HttpPostNoToken`, `HttpPut`, `HttpPostFile`): defined outside the core. Each call is a request value, and its reply is an input.
- JSON encoding and decoding (`encoding/json`, `utils.GetField*FromJson`): the decoded shape is an input, with an explicit decode-failure case.
- `LotusGetClient` and the configuration: endpoints and tokens are passed in as `LotusClient`, `MainConfig` and `SwanClient` values.
- `constants.DURATION`, `constants.TASK_TYPE_VERIFIED` and `constants.TASK_TYPE_REGULAR` are not part of this model. They are parameters (`duration`, `TaskTypes`).
- Logging. A fatal log is the `Fatal` outcome, not process termination.
- Error message texts built with `fmt.Errorf`: failures are the kinds `EmptyResponse`, `Undecodable`, `Remote(code, message)` and `NullResult`.
- The `cost` argument of `LotusClientStartDeal`: it is unused and is a decimal. `int(pieceSize)` is taken as the identity, as on 64-bit platforms.
- `url.Values.Encode`: its key sorting and percent-escaping are not modelled. A form is the sequence of pairs in the order they were added. The deal-status update sends the encoded text (`EncodedForm`) and the task update sends the `url.Values` value (`Values`); how `HttpPut` serialises the latter is outside the core.
- The multipart file streaming inside `HttpPostFile`: only its fields, file field name and path are modelled.
- The declared but unused method names `Filecoin.ClientGetDealInfo`, `Filecoin.ClientGetDealStatus` and `Filecoin.ChainHead`: no adapter function sends them.
- `model.FileDesc`, `model.DealConfig`, `model.Task` and `model.OfflineDeal`: only the fields the adapters read are modelled. The deal type is a type parameter.
