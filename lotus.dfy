/** The chain node's JSON-RPC adapter (common/client/lotusclient.go).

    Every adapter function builds a request object after section 4 of the
    JSON-RPC 2.0 Specification (version "2.0", a fixed id, the method name
    and a positional parameter list, which for the two public queries is a
    nil slice and goes out as null), sends it over one of two routes, and
    classifies the decoded response object of section 5 (an optional error
    object, section 5.1, and an optional result).  HTTP and JSON decoding are
    inputs here: a call's reply is given as a `Response`. */
module Lotus {
  import opened Wrappers

  const JSON_RPC_ID: int := 7878
  const JSON_RPC_VERSION: string := "2.0"
  const MARKET_GET_ASK: string := "Filecoin.MarketGetAsk"
  const CLIENT_CALC_COMM_P: string := "Filecoin.ClientCalcCommP"
  const CLIENT_IMPORT: string := "Filecoin.ClientImport"
  const CLIENT_GEN_CAR: string := "Filecoin.ClientGenCar"
  const CLIENT_START_DEAL: string := "Filecoin.ClientStartDeal"
  const VERSION: string := "Filecoin.Version"

  /** Fixed values written into every deal proposal. */
  const TRANSFER_TYPE: string := "string value"
  const RAW_BLOCK_SIZE: int := 42
  const EPOCH_PRICE: string := "2"
  const PROVIDER_COLLATERAL: string := "0"

  // ---------------------------------------------------------------------
  // Data shapes
  // ---------------------------------------------------------------------

  /** The configured endpoints: the node's API (with its token) and the
      miner's API, which these adapters call without a token. */
  datatype LotusClient = LotusClient(
    apiUrl: string, accessToken: string, minerApiUrl: string, minerAccessToken: string)

  /** A content identifier, serialised as {"/": cid}. */
  datatype Cid = Cid(cid: string)

  datatype ClientFileParam = ClientFileParam(path: string, isCar: bool)

  datatype ClientStartDealParamData = ClientStartDealParamData(
    transferType: string, root: Cid, pieceCid: Cid, pieceSize: int, rawBlockSize: int)

  datatype ClientStartDealParam = ClientStartDealParam(
    data: ClientStartDealParamData,
    wallet: string,
    miner: string,
    epochPrice: string,
    minBlocksDuration: int,
    providerCollateral: string,
    dealStartEpoch: int,
    fastRetrieval: bool,
    verifiedDeal: bool)

  /** The fields of a local car file description that a deal proposal reads. */
  datatype FileDesc = FileDesc(dataCid: string, pieceCid: string, startEpoch: int)

  /** The fields of the deal configuration that a deal proposal reads. */
  datatype DealConfig = DealConfig(
    senderWallet: string, minerFid: string, fastRetrieval: bool, verifiedDeal: bool)

  /** One element of the positional `params` list. */
  datatype Param =
    | StringParam(s: string)
    | FileParam(file: ClientFileParam)
    | DealParam(deal: ClientStartDealParam)

  /** The `params` member as encoding/json writes it: a slice that was never
      appended to is nil and is written as null; any other slice is written
      as an array. */
  datatype ParamList = NullParams | Params(items: seq<Param>)

  /** The request object (LotusJsonRpcParams). */
  datatype JsonRpcParams = JsonRpcParams(jsonRpc: string, methodName: string, params: ParamList, id: int)

  /** Which transport function is used: HttpGet/HttpGetNoToken or HttpPost. */
  datatype Verb = Get | Post

  /** Where a request goes and with which bearer token, if any. */
  datatype Route = Route(verb: Verb, url: string, token: Option<string>)

  datatype Request = Request(route: Route, body: JsonRpcParams)

  /** The six chain-node calls, with their typed arguments. */
  datatype Call =
    | VersionCall
    | MarketGetAskCall
    | CalcCommPCall(filepath: string)
    | ImportCall(file: ClientFileParam)
    | GenCarCall(src: ClientFileParam, destCarFilePath: string)
    | StartDealCall(deal: ClientStartDealParam)

  // ---------------------------------------------------------------------
  // Request construction
  // ---------------------------------------------------------------------

  /** The request object every adapter function builds. */
  function NewRpc(methodName: string, params: ParamList): JsonRpcParams
  {
    JsonRpcParams(JSON_RPC_VERSION, methodName, params, JSON_RPC_ID)
  }

  /** Reads a request object back into the call it encodes: the version and
      id must be the fixed ones, and the method name selects the exact
      positional shape of the parameter list. */
  function ParseCall(p: JsonRpcParams): Option<Call>
  {
    if p.jsonRpc != JSON_RPC_VERSION || p.id != JSON_RPC_ID then None
    else if p.methodName == VERSION && p.params.NullParams? then Some(VersionCall)
    else if p.methodName == MARKET_GET_ASK && p.params.NullParams? then Some(MarketGetAskCall)
    else if p.params.NullParams? then None
    else
      var items := p.params.items;
      if p.methodName == CLIENT_CALC_COMM_P && |items| == 1 && items[0].StringParam? then
        Some(CalcCommPCall(items[0].s))
      else if p.methodName == CLIENT_IMPORT && |items| == 1 && items[0].FileParam? then
        Some(ImportCall(items[0].file))
      else if p.methodName == CLIENT_GEN_CAR && |items| == 2
              && items[0].FileParam? && items[1].StringParam? then
        Some(GenCarCall(items[0].file, items[1].s))
      else if p.methodName == CLIENT_START_DEAL && |items| == 1 && items[0].DealParam? then
        Some(StartDealCall(items[0].deal))
      else None
  }

  /** LotusVersion: the parameter slice is never appended to, so `params` is
      null; sent without a token to the miner API. */
  function VersionRequest(c: LotusClient): (r: Request)
    ensures r.body.params == NullParams
    ensures ParseCall(r.body) == Some(VersionCall)
    ensures r.route == Route(Get, c.minerApiUrl, None)
  {
    Request(Route(Get, c.minerApiUrl, None), NewRpc(VERSION, NullParams))
  }

  /** LotusMarketGetAsk: `params` is null as for LotusVersion; sent without a
      token to the miner API. */
  function MarketGetAskRequest(c: LotusClient): (r: Request)
    ensures r.body.params == NullParams
    ensures ParseCall(r.body) == Some(MarketGetAskCall)
    ensures r.route == Route(Get, c.minerApiUrl, None)
  {
    Request(Route(Get, c.minerApiUrl, None), NewRpc(MARKET_GET_ASK, NullParams))
  }

  /** LotusClientCalcCommP: the file path alone, POSTed to the node API with its token. */
  function CalcCommPRequest(c: LotusClient, filepath: string): (r: Request)
    ensures r.body.params == Params([StringParam(filepath)])
    ensures ParseCall(r.body) == Some(CalcCommPCall(filepath))
    ensures r.route == Route(Post, c.apiUrl, Some(c.accessToken))
  {
    Request(Route(Post, c.apiUrl, Some(c.accessToken)), NewRpc(CLIENT_CALC_COMM_P, Params([StringParam(filepath)])))
  }

  /** LotusClientImport: one {Path, IsCAR} object, sent with GET to the node API with its token. */
  function ImportRequest(c: LotusClient, filepath: string, isCar: bool): (r: Request)
    ensures r.body.params == Params([FileParam(ClientFileParam(filepath, isCar))])
    ensures ParseCall(r.body) == Some(ImportCall(ClientFileParam(filepath, isCar)))
    ensures r.route == Route(Get, c.apiUrl, Some(c.accessToken))
  {
    var file := ClientFileParam(filepath, isCar);
    Request(Route(Get, c.apiUrl, Some(c.accessToken)), NewRpc(CLIENT_IMPORT, Params([FileParam(file)])))
  }

  /** LotusClientGenCar: the source {Path, IsCAR} first, then the destination path. */
  function GenCarRequest(c: LotusClient, srcFilePath: string, destCarFilePath: string, srcFilePathIsCar: bool)
    : (r: Request)
    ensures r.body.params == Params([FileParam(ClientFileParam(srcFilePath, srcFilePathIsCar)), StringParam(destCarFilePath)])
    ensures ParseCall(r.body) == Some(GenCarCall(ClientFileParam(srcFilePath, srcFilePathIsCar), destCarFilePath))
    ensures r.route == Route(Get, c.apiUrl, Some(c.accessToken))
  {
    var src := ClientFileParam(srcFilePath, srcFilePathIsCar);
    Request(Route(Get, c.apiUrl, Some(c.accessToken)),
            NewRpc(CLIENT_GEN_CAR, Params([FileParam(src), StringParam(destCarFilePath)])))
  }

  /** The deal proposal of LotusClientStartDeal.  `duration` stands for the
      configured constant DURATION. */
  function StartDealParam(carFile: FileDesc, pieceSize: int, dealConfig: DealConfig, duration: int)
    : (p: ClientStartDealParam)
  {
    ClientStartDealParam(
      ClientStartDealParamData(TRANSFER_TYPE, Cid(carFile.dataCid), Cid(carFile.pieceCid), pieceSize, RAW_BLOCK_SIZE),
      dealConfig.senderWallet,
      dealConfig.minerFid,
      EPOCH_PRICE,
      duration,
      PROVIDER_COLLATERAL,
      carFile.startEpoch,
      dealConfig.fastRetrieval,
      dealConfig.verifiedDeal)
  }

  /** LotusClientStartDeal: the proposal alone, sent with GET to the node API with its token. */
  function StartDealRequest(c: LotusClient, carFile: FileDesc, pieceSize: int, dealConfig: DealConfig, duration: int)
    : (r: Request)
    ensures r.body.params == Params([DealParam(StartDealParam(carFile, pieceSize, dealConfig, duration))])
    ensures ParseCall(r.body) == Some(StartDealCall(StartDealParam(carFile, pieceSize, dealConfig, duration)))
    ensures r.route == Route(Get, c.apiUrl, Some(c.accessToken))
  {
    var deal := StartDealParam(carFile, pieceSize, dealConfig, duration);
    Request(Route(Get, c.apiUrl, Some(c.accessToken)), NewRpc(CLIENT_START_DEAL, Params([DealParam(deal)])))
  }

  /** The request the adapter sends for a call. */
  function RequestFor(c: LotusClient, call: Call): Request
  {
    match call
    case VersionCall => VersionRequest(c)
    case MarketGetAskCall => MarketGetAskRequest(c)
    case CalcCommPCall(filepath) => CalcCommPRequest(c, filepath)
    case ImportCall(file) => ImportRequest(c, file.path, file.isCar)
    case GenCarCall(src, dest) => GenCarRequest(c, src.path, dest, src.isCar)
    case StartDealCall(deal) => StartDealRequest(c, FileDesc(deal.data.root.cid, deal.data.pieceCid.cid, deal.dealStartEpoch),
                                                 deal.data.pieceSize,
                                                 DealConfig(deal.wallet, deal.miner, deal.fastRetrieval, deal.verifiedDeal),
                                                 deal.minBlocksDuration)
  }

  /** Public queries: the ones sent to the miner API without a token. */
  predicate IsPublicQuery(call: Call)
  {
    call.VersionCall? || call.MarketGetAskCall?
  }

  /** The deal proposals the adapter can build: its constant fields are fixed. */
  predicate IsBuiltProposal(deal: ClientStartDealParam)
  {
    && deal.data.transferType == TRANSFER_TYPE
    && deal.data.rawBlockSize == RAW_BLOCK_SIZE
    && deal.epochPrice == EPOCH_PRICE
    && deal.providerCollateral == PROVIDER_COLLATERAL
  }

  /** The calls the adapter can issue. */
  predicate Issuable(call: Call)
  {
    call.StartDealCall? ==> IsBuiltProposal(call.deal)
  }

  // ---------------------------------------------------------------------
  // Request lemmas
  // ---------------------------------------------------------------------

  /** Every request carries version "2.0", id 7878 and its method's name, and
      decodes back to exactly the call that produced it. */
  lemma RequestRoundTrip(c: LotusClient, call: Call)
    requires Issuable(call)
    ensures RequestFor(c, call).body.jsonRpc == "2.0"
    ensures RequestFor(c, call).body.id == 7878
    ensures ParseCall(RequestFor(c, call).body) == Some(call)
  {
  }

  /** A request object decodes to a call only when it is exactly the request
      the adapter would send for that call: the parameter list admits no
      other order, length or shape. */
  lemma ParseCallCanonical(c: LotusClient, p: JsonRpcParams, call: Call)
    requires Issuable(call)
    requires ParseCall(p) == Some(call)
    ensures p == RequestFor(c, call).body
  {
    match call
    case VersionCall =>
    case MarketGetAskCall =>
    case CalcCommPCall(_) =>
      assert p.params.items == [p.params.items[0]];
    case ImportCall(_) =>
      assert p.params.items == [p.params.items[0]];
    case GenCarCall(_, _) =>
      assert p.params.items == [p.params.items[0], p.params.items[1]];
    case StartDealCall(_) =>
      assert p.params.items == [p.params.items[0]];
  }

  /** Swapping the two GenCar parameters gives a request no method accepts. */
  lemma GenCarOrderMatters(src: ClientFileParam, dest: string)
    ensures ParseCall(NewRpc(CLIENT_GEN_CAR, Params([StringParam(dest), FileParam(src)]))) == None
  {
  }

  /** Only the public queries send `params` as null, which section 4 of the
      JSON-RPC 2.0 Specification does not allow (a present `params` must be
      an array or an object); every other call sends an array. */
  lemma NullParamsOnlyForPublicQueries(c: LotusClient, call: Call)
    ensures RequestFor(c, call).body.params.NullParams? <==> IsPublicQuery(call)
  {
  }

  /** Public queries go tokenless to the miner API; every other call goes to
      the node API with the node's access token.  The miner's access token is
      never used. */
  lemma RoutingPolicy(c: LotusClient, call: Call)
    ensures var route := RequestFor(c, call).route;
      && (route.token.None? <==> IsPublicQuery(call))
      && (IsPublicQuery(call) ==> route == Route(Get, c.minerApiUrl, None))
      && (!IsPublicQuery(call) ==> route.url == c.apiUrl && route.token == Some(c.accessToken))
      && (route.verb == Post <==> call.CalcCommPCall?)
  {
  }

  /** The identifiers, sizes and configuration of a proposal reach the
      outgoing parameter list unmodified, next to the fixed constants. */
  lemma StartDealCarriesInputs(c: LotusClient, carFile: FileDesc, pieceSize: int, dealConfig: DealConfig, duration: int)
    ensures var params := StartDealRequest(c, carFile, pieceSize, dealConfig, duration).body.params.items;
      && |params| == 1 && params[0].DealParam?
      && var deal := params[0].deal;
      && deal.data.root.cid == carFile.dataCid
      && deal.data.pieceCid.cid == carFile.pieceCid
      && deal.data.pieceSize == pieceSize
      && deal.dealStartEpoch == carFile.startEpoch
      && deal.wallet == dealConfig.senderWallet
      && deal.miner == dealConfig.minerFid
      && deal.fastRetrieval == dealConfig.fastRetrieval
      && deal.verifiedDeal == dealConfig.verifiedDeal
      && deal.minBlocksDuration == duration
      && IsBuiltProposal(deal)
  {
  }

  /** The proposal of the deal-start scenario keeps its identifiers, with the raw
      block size fixed at 42. */
  lemma StartDealScenario(c: LotusClient, startEpoch: int, duration: int)
    ensures var deal := StartDealParam(FileDesc("bafy1", "bafy2", startEpoch), 1024,
                                       DealConfig("f3abc", "f01000", false, false), duration);
      deal.data.root == Cid("bafy1") && deal.data.pieceCid == Cid("bafy2") && deal.data.pieceSize == 1024
      && deal.miner == "f01000" && deal.wallet == "f3abc" && deal.data.rawBlockSize == 42
  {
  }

  // ---------------------------------------------------------------------
  // Responses
  // ---------------------------------------------------------------------

  /** The error object of section 5.1. */
  datatype RpcError = RpcError(code: int, message: string)

  /** What a call gets back: no response at all (the transport's empty
      string), a body that does not decode into the expected shape, or a
      decoded response object whose `error` and `result` members may each be
      null.  The `id` and `jsonrpc` members are decoded but never checked. */
  datatype Response<T> =
    | NoResponse
    | DecodeFail
    | Envelope(id: int, jsonRpc: string, error: Option<RpcError>, result: Option<T>)

  /** Why a call that reports errors failed. */
  datatype Failure = EmptyResponse | Undecodable | Remote(err: RpcError) | NullResult

  datatype VersionResult = VersionResult(version: string, apiVersion: int, blockDelay: int)

  datatype Ask = Ask(
    price: string, verifiedPrice: string, minPieceSize: int, maxPieceSize: int,
    miner: string, timestamp: int, expiry: int, seqNo: int)

  datatype AskResult = AskResult(ask: Ask)

  datatype CommPResult = CommPResult(root: Cid, size: int)

  datatype ImportResult = ImportResult(root: Cid, importId: int)

  /** The reference discipline: a call yields a value only from a decoded
      response with a null error and a non-null result. */
  predicate Delivers<T>(r: Response<T>)
  {
    r.Envelope? && r.error.None? && r.result.Some?
  }

  /** The reference precedence of failures: no response, then decoding, then
      the error object (even beside a result), then a null result. */
  function ReferenceFailure<T>(r: Response<T>): Failure
    requires !Delivers(r)
  {
    match r
    case NoResponse => EmptyResponse
    case DecodeFail => Undecodable
    case Envelope(_, _, error, _) => if error.Some? then Remote(error.value) else NullResult
  }

  /** LotusVersion.  The result member is a value, not a pointer: a null
      result decodes to the zero value, whose version is "". */
  function VersionOutcome(r: Response<VersionResult>): (o: Result<string, Failure>)
    ensures o.Success? <==> r.Envelope? && r.error.None?
    ensures o.Failure? ==> !Delivers(r) && o.error == ReferenceFailure(r)
    ensures Delivers(r) ==> o == Success(r.result.value.version)
    ensures r.Envelope? && r.error.None? && r.result.None? ==> o == Success("")
  {
    match r
    case NoResponse => Failure(EmptyResponse)
    case DecodeFail => Failure(Undecodable)
    case Envelope(_, _, error, result) =>
      if error.Some? then Failure(Remote(error.value))
      else Success(match result case Some(v) => v.version case None => "")
  }

  /** LotusMarketGetAsk: nil on no response, on a decoding failure and on a
      null result; the error member is never looked at. */
  function MarketGetAskOutcome(r: Response<AskResult>): (o: Option<Ask>)
    ensures o.Some? <==> r.Envelope? && r.result.Some?
    ensures o.Some? ==> o.value == r.result.value.ask
  {
    match r
    case Envelope(_, _, _, Some(v)) => Some(v.ask)
    case _ => None
  }

  /** LotusClientCalcCommP: nil on no response, on a decoding failure and on
      a null result; the error member is never looked at. */
  function CalcCommPOutcome(r: Response<CommPResult>): (o: Option<string>)
    ensures o.Some? <==> r.Envelope? && r.result.Some?
    ensures o.Some? ==> o.value == r.result.value.root.cid
  {
    match r
    case Envelope(_, _, _, Some(v)) => Some(v.root.cid)
    case _ => None
  }

  /** LotusClientImport: follows the reference discipline exactly. */
  function ImportOutcome(r: Response<ImportResult>): (o: Result<string, Failure>)
    ensures o.Success? <==> Delivers(r)
    ensures o.Success? ==> o.value == r.result.value.root.cid
    ensures o.Failure? ==> !Delivers(r) && o.error == ReferenceFailure(r)
  {
    match r
    case NoResponse => Failure(EmptyResponse)
    case DecodeFail => Failure(Undecodable)
    case Envelope(_, _, error, result) =>
      if error.Some? then Failure(Remote(error.value))
      else if result.None? then Failure(NullResult)
      else Success(result.value.root.cid)
  }

  /** LotusClientGenCar: decodes only the id, version and error members, so
      the result (of any type) plays no part. */
  function GenCarOutcome<T>(r: Response<T>): (o: Outcome<Failure>)
    ensures o.Pass? <==> r.Envelope? && r.error.None?
    ensures o.Fail? ==> !Delivers(r) && o.error == ReferenceFailure(r)
  {
    match r
    case NoResponse => Fail(EmptyResponse)
    case DecodeFail => Fail(Undecodable)
    case Envelope(_, _, error, _) => if error.Some? then Fail(Remote(error.value)) else Pass
  }

  /** LotusClientStartDeal reads the result's cid without a nil check: a
      decoded response with a null error and a null result dereferences nil.
      Every other response can be classified. */
  predicate StartDealReadable(r: Response<Cid>)
  {
    r.Envelope? && r.error.None? ==> r.result.Some?
  }

  /** LotusClientStartDeal, on the responses it can read. */
  function StartDealOutcome(r: Response<Cid>): (o: Result<string, Failure>)
    requires StartDealReadable(r)
    ensures o.Success? <==> Delivers(r)
    ensures o.Success? ==> o.value == r.result.value.cid
    ensures o.Failure? ==> o.error == ReferenceFailure(r) && !o.error.NullResult?
  {
    match r
    case NoResponse => Failure(EmptyResponse)
    case DecodeFail => Failure(Undecodable)
    case Envelope(_, _, error, result) =>
      if error.Some? then Failure(Remote(error.value))
      else Success(result.value.cid)
  }

  // ---------------------------------------------------------------------
  // Response lemmas
  // ---------------------------------------------------------------------

  /** Import, Version, GenCar and StartDeal report the error object whenever
      there is one, whatever the result member holds. */
  lemma ErrorTakesPrecedence(id: int, v: string, e: RpcError,
                             ver: Option<VersionResult>, imp: Option<ImportResult>,
                             deal: Option<Cid>, any: Option<AskResult>)
    ensures VersionOutcome(Envelope(id, v, Some(e), ver)) == Failure(Remote(e))
    ensures ImportOutcome(Envelope(id, v, Some(e), imp)) == Failure(Remote(e))
    ensures GenCarOutcome(Envelope(id, v, Some(e), any)) == Fail(Remote(e))
    ensures StartDealOutcome(Envelope(id, v, Some(e), deal)) == Failure(Remote(e))
  {
  }

  /** CalcCommP and MarketGetAsk never consult the error member: a response
      carrying both an error and a result yields the result. */
  lemma ErrorIgnoredByCommPAndAsk(id: int, v: string, e: RpcError, commP: CommPResult, ask: AskResult)
    ensures CalcCommPOutcome(Envelope(id, v, Some(e), Some(commP))) == Some(commP.root.cid)
    ensures MarketGetAskOutcome(Envelope(id, v, Some(e), Some(ask))) == Some(ask.ask)
    ensures !Delivers(Envelope(id, v, Some(e), Some(commP)))
  {
  }

  /** No value on failure: wherever the reference discipline rejects a
      response, Import, StartDeal and GenCar report failure; CalcCommP and
      MarketGetAsk return nil unless there is a result; Version succeeds
      without a result only with "". */
  lemma NoValueOnFailure(r1: Response<ImportResult>, r2: Response<Cid>, r3: Response<CommPResult>,
                         r4: Response<AskResult>, r5: Response<VersionResult>)
    ensures !Delivers(r1) ==> ImportOutcome(r1).Failure?
    ensures StartDealReadable(r2) && !Delivers(r2) ==> StartDealOutcome(r2).Failure?
    ensures !(r3.Envelope? && r3.result.Some?) ==> CalcCommPOutcome(r3).None?
    ensures !(r4.Envelope? && r4.result.Some?) ==> MarketGetAskOutcome(r4).None?
    ensures !Delivers(r5) && VersionOutcome(r5).Success? ==> VersionOutcome(r5).value == ""
  {
  }

  /** No classifier compares the response's id and version members with the
      request's: for every call, any id and version give the same outcome
      (and, for StartDeal, the same readability). */
  lemma ResponseIdNotChecked<T>(id1: int, v1: string, id2: int, v2: string, e: Option<RpcError>,
                                version: Option<VersionResult>, ask: Option<AskResult>,
                                commP: Option<CommPResult>, imported: Option<ImportResult>,
                                car: Option<T>, deal: Option<Cid>)
    ensures VersionOutcome(Envelope(id1, v1, e, version)) == VersionOutcome(Envelope(id2, v2, e, version))
    ensures MarketGetAskOutcome(Envelope(id1, v1, e, ask)) == MarketGetAskOutcome(Envelope(id2, v2, e, ask))
    ensures CalcCommPOutcome(Envelope(id1, v1, e, commP)) == CalcCommPOutcome(Envelope(id2, v2, e, commP))
    ensures ImportOutcome(Envelope(id1, v1, e, imported)) == ImportOutcome(Envelope(id2, v2, e, imported))
    ensures GenCarOutcome(Envelope(id1, v1, e, car)) == GenCarOutcome(Envelope(id2, v2, e, car))
    ensures StartDealReadable(Envelope(id1, v1, e, deal)) <==> StartDealReadable(Envelope(id2, v2, e, deal))
    ensures StartDealReadable(Envelope(id1, v1, e, deal)) ==>
              StartDealOutcome(Envelope(id1, v1, e, deal)) == StartDealOutcome(Envelope(id2, v2, e, deal))
  {
  }

  /** Importing "/tmp/a.car" as a car file: a response whose result root is
      "bafy123" yields the content identifier "bafy123". */
  lemma ImportScenario(c: LotusClient)
    ensures ImportRequest(c, "/tmp/a.car", true).body.params == Params([FileParam(ClientFileParam("/tmp/a.car", true))])
    ensures ImportOutcome(Envelope(7878, "2.0", None, Some(ImportResult(Cid("bafy123"), 5)))) == Success("bafy123")
  {
  }
}
