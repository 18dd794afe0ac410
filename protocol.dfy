/**
 * The provisioning protocol as functions on the state it touches: the
 * activity's preference file, the number of requests sent so far and the
 * trace of its observable effects. The imperative methods of the activity
 * are proved to compute exactly these functions.
 */
module Protocol {
  import opened Wrappers
  import opened KotlinText
  import opened Http
  import opened Endpoints

  /** The string resources the provisioning code shows. */
  datatype Message = ToastSuccess | ProvisioningRetryMessage | ProvisioningFailedMessage

  datatype Event =
    | ShowWaiting                        // binding.pbWaiting.show()
    | HideWaiting                        // binding.pbWaiting.hide()
    | Attempt(cycle: nat, url: string)   // a candidate taken up in cycle 1 or 2
    | HttpGet(url: string, timeoutMs: int)
    | Import(payload: string)            // importBatchConfig(payload)
    | Toast(message: Message)
    | ToastError(message: Message)
    | PutString(key: string, value: string)

  /** The activity's state: `vsemoionline_prefs`, requests sent, effects so far. */
  datatype World = World(prefs: map<string, string>, sent: nat, trace: seq<Event>)

  /** What a call returns, and the state it leaves. */
  datatype Step<T> = Step(result: T, world: World)

  function Emit(w: World, e: Event): World {
    w.(trace := w.trace + [e])
  }

  /** `prefs.edit().putString(key, value).apply()`. */
  function Put(w: World, key: string, value: string): World {
    w.(prefs := w.prefs[key := value], trace := w.trace + [PutString(key, value)])
  }

  /** `prefs.getString(key, null)`. */
  function GetString(prefs: map<string, string>, key: string): Option<string> {
    if key in prefs then Some(prefs[key]) else None
  }

  function LastWorkingUrl(prefs: map<string, string>): Option<string> {
    GetString(prefs, PrefLastWorkingUrl)
  }

  /** One GET: recorded, counted, and answered by the oracle. */
  function Send(w: World, url: string, timeoutMs: int, net: Network): Step<Outcome> {
    Step(net(Request(w.sent, url, timeoutMs)),
         World(w.prefs, w.sent + 1, w.trace + [HttpGet(url, timeoutMs)]))
  }

  /** getOrCreateDeviceId: the stored id, or `freshId` stored and returned. */
  function DeviceIdLookup(w: World, freshId: string): Step<string> {
    if PrefDeviceId in w.prefs then Step(w.prefs[PrefDeviceId], w)
    else Step(freshId, Put(w, PrefDeviceId, freshId))
  }

  /**
   * fetchProvisioningEndpoint: a 200 answer normalised into a provisioning
   * URL, any other status none, and a failed request re-thrown.
   */
  function EndpointFetch(w: World, platformUrl: string, timeoutMs: int, net: Network): Step<Result<Option<string>>> {
    var s := Send(w, platformUrl, timeoutMs, net);
    match s.result
    case Answered(code, body) =>
      Step(Return(if code == HttpOk then Some(NormaliseEndpoint(body)) else None), s.world)
    case TimedOut => Step(Throw(SocketTimeoutException), s.world)
    case Failed => Step(Throw(OtherException), s.world)
  }

  /**
   * fetchAndImportConfig: a GET of the device-id URL; on 200 the trimmed
   * body is imported and a success toast shown; any other status is false;
   * a failed request is re-thrown.
   */
  function ConfigFetch(w: World, baseUrl: string, timeoutMs: int, freshId: string, net: Network): Step<Result<bool>> {
    var id := DeviceIdLookup(w, freshId);
    var s := Send(id.world, ProvisionRequestUrl(baseUrl, id.result), timeoutMs, net);
    match s.result
    case Answered(code, body) =>
      if code == HttpOk then Step(Return(true), Emit(Emit(s.world, Import(Trim(body))), Toast(ToastSuccess)))
      else Step(Return(false), s.world)
    case TimedOut => Step(Throw(SocketTimeoutException), s.world)
    case Failed => Step(Throw(OtherException), s.world)
  }

  /**
   * The body of the orchestrator's per-candidate `try`: the provisioning
   * URL that imported a configuration, none if there was no import, or the
   * exception that escaped.
   */
  function CandidateAttempt(w: World, c: Candidate, cycle: nat, timeoutMs: int, freshId: string, net: Network)
    : Step<Result<Option<string>>>
  {
    var p := ProvisionUrlLookup(Emit(w, Attempt(cycle, c.url)), c, timeoutMs, net);
    match p.result
    case Throw(e) => p
    case Return(None) => p
    case Return(Some(provisionUrl)) => FetchFrom(p.world, provisionUrl, timeoutMs, freshId, net)
  }

  /** `val provisionUrl = if (isDirect) url else fetchProvisioningEndpoint(url, timeoutMs)`. */
  function ProvisionUrlLookup(w: World, c: Candidate, timeoutMs: int, net: Network): Step<Result<Option<string>>> {
    if c.isDirect then Step(Return(Some(c.url)), w) else EndpointFetch(w, c.url, timeoutMs, net)
  }

  /** The configuration fetch from a known provisioning URL: that URL on success. */
  function FetchFrom(w: World, provisionUrl: string, timeoutMs: int, freshId: string, net: Network)
    : Step<Result<Option<string>>>
  {
    var f := ConfigFetch(w, provisionUrl, timeoutMs, freshId, net);
    match f.result
    case Throw(e) => Step(Throw(e), f.world)
    case Return(ok) => Step(Return(if ok then Some(provisionUrl) else None), f.world)
  }

  predicate Succeeded(r: Result<Option<string>>) {
    r.Return? && r.value.Some?
  }

  /**
   * One cycle: the provisioning URL that succeeded, the result of every
   * candidate taken up, the candidates that timed out, and the final state.
   */
  datatype CycleResult = CycleResult(
    succeeded: Option<string>,
    results: seq<Result<Option<string>>>,
    timedOut: seq<Candidate>,
    world: World)

  /**
   * A `for` loop over `cands` that stops at the first success and saves it
   * as the last working URL; every exception is caught, and the candidates
   * whose exception was a socket timeout are collected.
   */
  function CycleRun(w: World, cands: seq<Candidate>, cycle: nat, timeoutMs: int, freshId: string, net: Network)
    : CycleResult
    decreases |cands|
  {
    if cands == [] then CycleResult(None, [], [], w)
    else
      var a := CandidateAttempt(w, cands[0], cycle, timeoutMs, freshId, net);
      if Succeeded(a.result) then
        CycleResult(a.result.value, [a.result], [], Put(a.world, PrefLastWorkingUrl, a.result.value.value))
      else
        var rest := CycleRun(a.world, cands[1..], cycle, timeoutMs, freshId, net);
        rest.(results := [a.result] + rest.results,
              timedOut := (if a.result == Throw(SocketTimeoutException) then [cands[0]] else []) + rest.timedOut)
  }

  datatype RunResult = RunResult(success: bool, first: CycleResult, second: Option<CycleResult>, world: World)

  /**
   * The coroutine tryProvisioningWithFallback launches: cycle 1 over the
   * candidate list with the quick timeout; cycle 2, after an advisory toast,
   * over the timed-out candidates with the patient timeout, when cycle 1
   * failed and some timed out; an error toast when both failed; finally the
   * waiting indicator is hidden.
   */
  function ProvisioningRun(w: World, freshId: string, net: Network): RunResult {
    var cands := CandidateList(LastWorkingUrl(w.prefs));
    var c1 := CycleRun(w, cands, 1, ProvisionTimeoutQuickMs, freshId, net);
    if c1.succeeded.Some? then
      RunResult(true, c1, None, Emit(c1.world, HideWaiting))
    else if c1.timedOut == [] then
      RunResult(false, c1, None, Emit(Emit(c1.world, ToastError(ProvisioningFailedMessage)), HideWaiting))
    else
      var c2 := CycleRun(Emit(c1.world, Toast(ProvisioningRetryMessage)), c1.timedOut, 2,
                         ProvisionTimeoutPatientMs, freshId, net);
      if c2.succeeded.Some? then
        RunResult(true, c1, Some(c2), Emit(c2.world, HideWaiting))
      else
        RunResult(false, c1, Some(c2), Emit(Emit(c2.world, ToastError(ProvisioningFailedMessage)), HideWaiting))
  }

  const MagicLinkScheme: string := "vsemoionline"

  /**
   * `intent.data`, already parsed: its scheme, whether it is hierarchical
   * (`scheme://…`, as opposed to an opaque `scheme:…`), and its decoded
   * query pairs.
   */
  datatype Uri = Uri(scheme: Option<string>, hierarchical: bool, query: seq<(string, string)>)

  /** `Uri.getQueryParameter(name)`: the first value given for `name`. */
  function QueryParameter(query: seq<(string, string)>, name: string): (r: Option<string>)
    ensures r.Some? <==> exists i :: 0 <= i < |query| && query[i].0 == name
    ensures r.Some? ==> exists i :: 0 <= i < |query| && query[i] == (name, r.value)
                                   && forall j :: 0 <= j < i ==> query[j].0 != name
  {
    if |query| == 0 then None
    else if query[0].0 == name then Some(query[0].1)
    else
      var r := QueryParameter(query[1..], name);
      assert forall i :: 1 <= i < |query| ==> query[i] == query[1..][i - 1];
      r
  }

  datatype MagicLinkOutcome =
    | NotMagicLink              // no data, or another scheme
    | MissingUrlParameter
    | Imported(provisionUrl: string)
    | NotImported               // a status other than 200
    | Crashed(exception: Exception)  // the exception is not caught

  /**
   * handleMagicLink: a `vsemoionline` link with a `url` parameter is fetched
   * with the patient timeout and saved on success. Nothing is caught: on an
   * opaque link `getQueryParameter` throws on the calling thread, and an
   * exception of the fetch ends the coroutine before the indicator is hidden.
   */
  function MagicLinkRun(w: World, data: Option<Uri>, freshId: string, net: Network): Step<MagicLinkOutcome> {
    if data.None? || data.value.scheme != Some(MagicLinkScheme) then Step(NotMagicLink, w)
    else if !data.value.hierarchical then Step(Crashed(UnsupportedOperationException), w)
    else
      match QueryParameter(data.value.query, "url")
      case None => Step(MissingUrlParameter, w)
      case Some(provisionUrl) =>
        var f := ConfigFetch(Emit(w, ShowWaiting), provisionUrl, ProvisionTimeoutPatientMs, freshId, net);
        match f.result
        case Throw(e) => Step(Crashed(e), f.world)
        case Return(ok) =>
          if ok then Step(Imported(provisionUrl), Emit(Put(f.world, PrefLastWorkingUrl, provisionUrl), HideWaiting))
          else Step(NotImported, Emit(f.world, HideWaiting))
  }

  /**
   * handleMagicLink as its authors evidently meant it: an opaque link has
   * no readable `url` parameter, and a failed request is caught like a
   * refused one, so the indicator is always hidden again.
   */
  function MagicLinkRunGuarded(w: World, data: Option<Uri>, freshId: string, net: Network): Step<MagicLinkOutcome> {
    if data.None? || data.value.scheme != Some(MagicLinkScheme) then Step(NotMagicLink, w)
    else if !data.value.hierarchical then Step(MissingUrlParameter, w)
    else
      match QueryParameter(data.value.query, "url")
      case None => Step(MissingUrlParameter, w)
      case Some(provisionUrl) =>
        var f := ConfigFetch(Emit(w, ShowWaiting), provisionUrl, ProvisionTimeoutPatientMs, freshId, net);
        if f.result == Return(true) then
          Step(Imported(provisionUrl), Emit(Put(f.world, PrefLastWorkingUrl, provisionUrl), HideWaiting))
        else Step(NotImported, Emit(f.world, HideWaiting))
  }
}
