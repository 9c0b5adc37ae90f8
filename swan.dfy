/** The task service's REST adapter (common/client/swan.go).

    Requests are built by string concatenation and form filling; the
    transport and the JSON decoding of replies are inputs: a reply is given
    already decoded, or as `Undecodable` (which is also what an empty
    transport response becomes, since it is not valid JSON). */
module Swan {
  import opened Wrappers
  import Strs

  const GET_OFFLINEDEAL_LIMIT_DEFAULT: int := 50
  const RESPONSE_STATUS_SUCCESS: string := "SUCCESS"

  /** The optional form fields of a deal-status update, in the order they are added. */
  const STATUS_INFO_KEYS: seq<string> := ["note", "file_path", "file_size"]

  // ---------------------------------------------------------------------
  // Data shapes
  // ---------------------------------------------------------------------

  /** The task-service part of the configuration. */
  datatype MainConfig = MainConfig(swanApiUrl: string, swanApiKey: string, swanAccessToken: string)

  /** A session: the service URL, the API key and the bearer token from the handshake. */
  datatype SwanClient = SwanClient(apiUrl: string, apiKey: string, token: string)

  datatype Verb = Get | Post | Put

  datatype Body =
    | TokenAccessInfo(apiKey: string, accessToken: string)   // JSON {"apikey", "access_token"}
    | Text(text: string)                                      // a JSON-encoded string
    | EncodedForm(fields: seq<(string, string)>)              // a reader over url.Values.Encode()
    | Values(fields: seq<(string, string)>)                   // the url.Values value itself
    | Multipart(formFields: map<string, string>, fileField: string, filePath: string)

  /** One call to the transport: verb, URL, bearer token (if any) and body. */
  datatype HttpRequest = HttpRequest(verb: Verb, url: string, token: Option<string>, body: Body)

  /** A reply whose body decoded into {status, data}, or one that did not. */
  datatype Reply<T> = Undecodable | Decoded(status: string, data: T)

  /** The fields of a task that its creation sends. */
  datatype Task = Task(
    taskName: string, curatedDataset: string, description: string,
    isPublic: bool, isVerified: bool, minerId: Option<string>)

  /** The configured task-type names TASK_TYPE_VERIFIED and TASK_TYPE_REGULAR. */
  datatype TaskTypes = TaskTypes(verified: string, regular: string)

  /** The error HttpPostFile can return instead of a body. */
  datatype UploadError = UploadError(message: string)

  /** A task-service status word counts as success when it spells SUCCESS in
      any mixture of cases. */
  predicate IsSuccessWord(status: string)
  {
    |status| == |RESPONSE_STATUS_SUCCESS|
    && forall k :: 0 <= k < |status| ==>
         Strs.SameLetterIgnoringCase(status[k], RESPONSE_STATUS_SUCCESS[k])
  }

  /** The check the adapter performs: strings.ToUpper(status) == "SUCCESS". */
  predicate StatusIsSuccess(status: string)
    ensures StatusIsSuccess(status) <==> IsSuccessWord(status)
  {
    Strs.ToUpperEqualsIff(status, RESPONSE_STATUS_SUCCESS);
    Strs.ToUpper(status) == RESPONSE_STATUS_SUCCESS
  }

  // ---------------------------------------------------------------------
  // SwanGetClient: the token handshake
  // ---------------------------------------------------------------------

  /** Why client construction stops the process. */
  datatype FatalReason = FailMarker | NoData

  /** The outcome of the handshake: a session, a fatal log that ends the
      process, or the panic of asserting a missing "jwt" entry to a string. */
  datatype Handshake = Connected(client: SwanClient) | Fatal(reason: FatalReason) | JwtPanic

  /** The handshake request: the API key and access token POSTed without a token. */
  function HandshakeRequest(conf: MainConfig): (r: HttpRequest)
    ensures r.url == conf.swanApiUrl + "/user/api_keys/jwt"
    ensures r.verb == Post && r.token.None?
    ensures r.body == TokenAccessInfo(conf.swanApiKey, conf.swanAccessToken)
  {
    HttpRequest(Post, conf.swanApiUrl + "/user/api_keys/jwt", None,
                TokenAccessInfo(conf.swanApiKey, conf.swanAccessToken))
  }

  /** SwanGetClient's decision on the raw response and its decoded `data`
      member (None when that member is not an object). */
  function GetClient(conf: MainConfig, response: string, data: Option<map<string, string>>): (h: Handshake)
    ensures h.Connected? <==>
              !(exists i: nat :: Strs.OccursAt(response, "fail", i)) && data.Some? && "jwt" in data.value
    ensures h.Connected? ==> h.client == SwanClient(conf.swanApiUrl, conf.swanApiKey, data.value["jwt"])
    ensures (exists i: nat :: Strs.OccursAt(response, "fail", i)) ==> h == Fatal(FailMarker)
    ensures !(exists i: nat :: Strs.OccursAt(response, "fail", i)) && data.None? ==> h == Fatal(NoData)
    ensures !(exists i: nat :: Strs.OccursAt(response, "fail", i)) && data.Some? && "jwt" !in data.value ==>
              h == JwtPanic
  {
    Strs.ContainsIff(response, "fail");
    if Strs.Contains(response, "fail") then Fatal(FailMarker)
    else if data.None? then Fatal(NoData)
    else if "jwt" !in data.value then JwtPanic
    else Connected(SwanClient(conf.swanApiUrl, conf.swanApiKey, data.value["jwt"]))
  }

  /** A failure-marked handshake reply ends client construction, whatever
      was decoded from it. */
  lemma HandshakeFailScenario(conf: MainConfig, data: Option<map<string, string>>)
    ensures GetClient(conf, "{\"status\":\"fail\",\"message\":\"bad key\"}", data) == Fatal(FailMarker)
  {
    var response := "{\"status\":\"fail\",\"message\":\"bad key\"}";
    assert response == "{\"status\":\"" + "fail" + "\",\"message\":\"bad key\"}";
    assert response[11..15] == "fail";
    assert Strs.OccursAt(response, "fail", 11);
  }

  // ---------------------------------------------------------------------
  // SwanGetOfflineDeals
  // ---------------------------------------------------------------------

  /** The page size: the first optional argument, else the default 50. */
  function RowLimit(limit: seq<string>): (r: string)
    ensures |limit| == 0 ==> r == "50"
    ensures |limit| > 0 ==> r == limit[0]
  {
    if |limit| > 0 then limit[0] else Strs.Itoa(GET_OFFLINEDEAL_LIMIT_DEFAULT)
  }

  /** The deal-list URL, concatenated without escaping. */
  function OfflineDealsUrl(c: SwanClient, minerFid: string, status: string, limit: seq<string>): string
  {
    c.apiUrl + "/offline_deals/" + minerFid + "?deal_status=" + status + "&limit=" + RowLimit(limit) + "&offset=0"
  }

  function OfflineDealsRequest(c: SwanClient, minerFid: string, status: string, limit: seq<string>): (r: HttpRequest)
    ensures r.verb == Get && r.token == Some(c.token) && r.body == Text("")
    ensures r.url == OfflineDealsUrl(c, minerFid, status, limit)
  {
    HttpRequest(Get, OfflineDealsUrl(c, minerFid, status, limit), Some(c.token), Text(""))
  }

  /** The deal list is returned only from a decoded reply whose status is
      SUCCESS in any case; otherwise nil. */
  function OfflineDealsOutcome<D>(reply: Reply<seq<D>>): (deals: Option<seq<D>>)
    ensures deals.Some? <==> reply.Decoded? && IsSuccessWord(reply.status)
    ensures deals.Some? ==> deals.value == reply.data
  {
    if reply.Undecodable? then None
    else if !StatusIsSuccess(reply.status) then None
    else Some(reply.data)
  }

  /** Without escaping, a status and a limit can shift text between them:
      two different argument lists ask for the same URL. */
  lemma OfflineDealsUrlAmbiguous(c: SwanClient, minerFid: string)
    ensures OfflineDealsUrl(c, minerFid, "a&limit=1", ["2"]) == OfflineDealsUrl(c, minerFid, "a", ["1&limit=2"])
  {
  }

  // ---------------------------------------------------------------------
  // SwanUpdateOfflineDealStatus
  // ---------------------------------------------------------------------

  function Min(a: int, b: int): int
  {
    if a < b then a else b
  }

  /** The form of a status update: `status` first, then the i-th optional key
      with the i-th status-info entry, for the first (at most three) entries. */
  function DealStatusFields(status: string, statusInfo: seq<string>): (fields: seq<(string, string)>)
  {
    var n := Min(|statusInfo|, |STATUS_INFO_KEYS|);
    [("status", status)] + seq(n, i requires 0 <= i < n => (STATUS_INFO_KEYS[i], statusInfo[i]))
  }

  /** Builds the form by successive url.Values.Add calls. */
  method DealStatusForm(status: string, statusInfo: seq<string>) returns (params: seq<(string, string)>)
    ensures params == DealStatusFields(status, statusInfo)
  {
    params := [];
    params := params + [("status", status)];
    if |statusInfo| > 0 {
      params := params + [("note", statusInfo[0])];
    }
    if |statusInfo| > 1 {
      params := params + [("file_path", statusInfo[1])];
    }
    if |statusInfo| > 2 {
      params := params + [("file_size", statusInfo[2])];
    }
  }

  predicate HasKey(fields: seq<(string, string)>, key: string)
  {
    exists i :: 0 <= i < |fields| && fields[i].0 == key
  }

  /** The prefix rule: `status` always, `note` with one entry, `file_path`
      with two, `file_size` with three, each carrying its entry. */
  lemma DealStatusPrefixRule(status: string, statusInfo: seq<string>)
    ensures var f := DealStatusFields(status, statusInfo);
      && f[0] == ("status", status)
      && (HasKey(f, "note") <==> |statusInfo| >= 1)
      && (HasKey(f, "file_path") <==> |statusInfo| >= 2)
      && (HasKey(f, "file_size") <==> |statusInfo| >= 3)
      && |f| == 1 + Min(|statusInfo|, 3)
      && forall i :: 1 <= i < |f| ==> f[i] == (STATUS_INFO_KEYS[i - 1], statusInfo[i - 1])
  {
    var f := DealStatusFields(status, statusInfo);
    var n := Min(|statusInfo|, 3);
    forall key | key in STATUS_INFO_KEYS
      ensures HasKey(f, key) <==> exists j :: 0 <= j < n && STATUS_INFO_KEYS[j] == key
    {
      if HasKey(f, key) {
        var i :| 0 <= i < |f| && f[i].0 == key;
        assert i > 0;
        assert STATUS_INFO_KEYS[i - 1] == key;
      }
      if exists j :: 0 <= j < n && STATUS_INFO_KEYS[j] == key {
        var j :| 0 <= j < n && STATUS_INFO_KEYS[j] == key;
        assert f[j + 1].0 == key;
      }
    }
    assert STATUS_INFO_KEYS[0] == "note" && STATUS_INFO_KEYS[1] == "file_path" && STATUS_INFO_KEYS[2] == "file_size";
  }

  /** Entries of statusInfo beyond the third are ignored. */
  lemma DealStatusIgnoresExtra(status: string, statusInfo: seq<string>)
    requires |statusInfo| > 3
    ensures DealStatusFields(status, statusInfo) == DealStatusFields(status, statusInfo[..3])
  {
  }

  /** With a single entry "ok" the form is status and note=ok, nothing else. */
  lemma DealStatusNoteOnly(status: string)
    ensures DealStatusFields(status, ["ok"]) == [("status", status), ("note", "ok")]
  {
  }

  function DealStatusUrl(c: SwanClient, dealId: int): string
  {
    c.apiUrl + "/my_miner/deals/" + Strs.Itoa(dealId)
  }

  /** Distinct deals are updated at distinct URLs. */
  lemma DealStatusUrlInjective(c: SwanClient, d1: int, d2: int)
    requires d1 != d2
    ensures DealStatusUrl(c, d1) != DealStatusUrl(c, d2)
  {
    Strs.ItoaInjective(d1, d2);
    var prefix := c.apiUrl + "/my_miner/deals/";
    assert DealStatusUrl(c, d1)[|prefix|..] == Strs.Itoa(d1);
    assert DealStatusUrl(c, d2)[|prefix|..] == Strs.Itoa(d2);
  }

  /** SwanUpdateOfflineDealStatus.  An empty status sends nothing and fails;
      otherwise the form is PUT to the deal's URL and the result is true
      exactly when the reply decodes with status SUCCESS in any case.
      `reply` is the decoded reply to the PUT (its data is the message). */
  method UpdateOfflineDealStatus(c: SwanClient, dealId: int, status: string, statusInfo: seq<string>,
                                 reply: Reply<string>)
    returns (request: Option<HttpRequest>, ok: bool)
    ensures request.None? <==> |status| == 0
    ensures request.Some? ==>
              request.value == HttpRequest(Put, DealStatusUrl(c, dealId), Some(c.token),
                                           EncodedForm(DealStatusFields(status, statusInfo)))
    ensures ok <==> |status| > 0 && reply.Decoded? && IsSuccessWord(reply.status)
  {
    if |status| == 0 {
      return None, false;
    }
    var params := DealStatusForm(status, statusInfo);
    request := Some(HttpRequest(Put, DealStatusUrl(c, dealId), Some(c.token), EncodedForm(params)));
    if reply.Undecodable? {
      return request, false;
    }
    if !StatusIsSuccess(reply.status) {
      return request, false;
    }
    ok := true;
  }

  // ---------------------------------------------------------------------
  // SwanUpdateTaskByUuid
  // ---------------------------------------------------------------------

  /** SwanUpdateTaskByUuid: PUTs the single field miner_fid, handing the
      url.Values itself to the transport rather than its encoded text, and
      hands back the transport's response text unvalidated. */
  function UpdateTaskByUuid(c: SwanClient, taskUuid: string, minerFid: string, response: string)
    : (r: (HttpRequest, string))
    ensures r.0.url == c.apiUrl + "/uuid_tasks/" + taskUuid
    ensures r.0.verb == Put && r.0.token == Some(c.token)
    ensures r.0.body == Values([("miner_fid", minerFid)])
    ensures r.1 == response
  {
    (HttpRequest(Put, c.apiUrl + "/uuid_tasks/" + taskUuid, Some(c.token), Values([("miner_fid", minerFid)])),
     response)
  }

  // ---------------------------------------------------------------------
  // SwanCreateTask
  // ---------------------------------------------------------------------

  const REQUIRED_TASK_KEYS: set<string> := {"task_name", "curated_dataset", "description", "is_public", "type"}

  /** The task's form fields: the four always sent, its type, and its miner if it has one. */
  function TaskFields(task: Task, types: TaskTypes): map<string, string>
  {
    var base := map["task_name" := task.taskName,
                    "curated_dataset" := task.curatedDataset,
                    "description" := task.description,
                    "is_public" := Strs.FormatBool(task.isPublic),
                    "type" := if task.isVerified then types.verified else types.regular];
    if task.minerId.Some? then base["miner_id" := task.minerId.value] else base
  }

  /** Fills the parameter map of SwanCreateTask key by key. */
  method CreateTaskParams(task: Task, types: TaskTypes) returns (params: map<string, string>)
    ensures params == TaskFields(task, types)
  {
    params := map[];
    params := params["task_name" := task.taskName];
    params := params["curated_dataset" := task.curatedDataset];
    params := params["description" := task.description];
    params := params["is_public" := Strs.FormatBool(task.isPublic)];
    if task.isVerified {
      params := params["type" := types.verified];
    } else {
      params := params["type" := types.regular];
    }
    if task.minerId.Some? {
      params := params["miner_id" := task.minerId.value];
    }
  }

  /** The keys and values of a task's form: `miner_id` is present exactly
      when the task names a miner, `is_public` is "true" or "false", `type`
      is the configured verified or regular type name, and so tells a verified task from a regular one when the two configured
      type names differ. */
  lemma TaskFieldsSpec(task: Task, types: TaskTypes)
    ensures var f := TaskFields(task, types);
      && f.Keys == REQUIRED_TASK_KEYS + (if task.minerId.Some? then {"miner_id"} else {})
      && f["task_name"] == task.taskName
      && f["curated_dataset"] == task.curatedDataset
      && f["description"] == task.description
      && (f["is_public"] == "true" <==> task.isPublic)
      && (f["is_public"] == "false" <==> !task.isPublic)
      && ("miner_id" in f <==> task.minerId.Some?)
      && (task.minerId.Some? ==> f["miner_id"] == task.minerId.value)
      && f["type"] == (if task.isVerified then types.verified else types.regular)
      && (types.verified != types.regular ==> (f["type"] == types.verified <==> task.isVerified))
  {
  }

  /** SwanCreateTask: uploads the form with the file under field "file" to
      /tasks; the result is "" when the upload errs, else the response. */
  method CreateTask(c: SwanClient, task: Task, csvFilePath: string, types: TaskTypes,
                    upload: Result<string, UploadError>)
    returns (request: HttpRequest, response: string)
    ensures request == HttpRequest(Post, c.apiUrl + "/tasks", Some(c.token),
                                   Multipart(TaskFields(task, types), "file", csvFilePath))
    ensures upload.Failure? ==> response == ""
    ensures upload.Success? ==> response == upload.value
  {
    var params := CreateTaskParams(task, types);
    request := HttpRequest(Post, c.apiUrl + "/tasks", Some(c.token), Multipart(params, "file", csvFilePath));
    if upload.Failure? {
      return request, "";
    }
    response := upload.value;
  }
}
