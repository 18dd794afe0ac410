/**
 * MainActivity's provisioning code as an object: the single-flight flag,
 * the preference file, the request counter and the effect trace are fields
 * the methods update in place. Every method is proved to compute exactly
 * the function of the protocol that specifies it, so the properties proved
 * about those functions hold of the activity.
 */
module Activity {
  import opened Wrappers
  import opened KotlinText
  import opened Http
  import opened Endpoints
  import opened Protocol

  /** `CycleRun`'s result for a whole cycle, given what the first candidates of it gave. */
  function Prefixed(results: seq<Result<Option<string>>>, timedOut: seq<Candidate>, rest: CycleResult): CycleResult {
    rest.(results := results + rest.results, timedOut := timedOut + rest.timedOut)
  }

  /** Taking up one more candidate that did not succeed extends the prefix of the cycle. */
  lemma CycleStepFailed(whole: CycleResult, results: seq<Result<Option<string>>>, timedOut: seq<Candidate>,
                        cands: seq<Candidate>, i: nat, cycle: nat, timeoutMs: int, freshId: string, net: Network,
                        before: World, r: Result<Option<string>>, after: World)
    requires i < |cands|
    requires whole == Prefixed(results, timedOut, CycleRun(before, cands[i..], cycle, timeoutMs, freshId, net))
    requires Step(r, after) == CandidateAttempt(before, cands[i], cycle, timeoutMs, freshId, net)
    requires !Succeeded(r)
    ensures r == Throw(SocketTimeoutException) ==>
              whole == Prefixed(results + [r], timedOut + [cands[i]], CycleRun(after, cands[i + 1..], cycle, timeoutMs, freshId, net))
    ensures r != Throw(SocketTimeoutException) ==>
              whole == Prefixed(results + [r], timedOut, CycleRun(after, cands[i + 1..], cycle, timeoutMs, freshId, net))
  {
    assert cands[i..][0] == cands[i] && cands[i..][1..] == cands[i + 1..];
    var rest := CycleRun(after, cands[i + 1..], cycle, timeoutMs, freshId, net);
    if r != Throw(SocketTimeoutException) {
      assert [] + rest.timedOut == rest.timedOut;
    }
  }

  /** A candidate that succeeded ends the cycle, with its URL saved. */
  lemma CycleStepSucceeded(whole: CycleResult, results: seq<Result<Option<string>>>, timedOut: seq<Candidate>,
                           cands: seq<Candidate>, i: nat, cycle: nat, timeoutMs: int, freshId: string, net: Network,
                           before: World, r: Result<Option<string>>, after: World)
    requires i < |cands|
    requires whole == Prefixed(results, timedOut, CycleRun(before, cands[i..], cycle, timeoutMs, freshId, net))
    requires Step(r, after) == CandidateAttempt(before, cands[i], cycle, timeoutMs, freshId, net)
    requires Succeeded(r)
    ensures whole.succeeded == Some(r.value.value) && whole.timedOut == timedOut
    ensures whole.world == Put(after, PrefLastWorkingUrl, r.value.value)
  {
    assert cands[i..][0] == cands[i];
  }

  class MainActivity {
    /** Answers every GET the activity sends. */
    const network: Network
    /** `isProvisioningInProgress`: a provisioning coroutine has been launched and has not finished. */
    var isProvisioningInProgress: bool
    /** The `vsemoionline_prefs` preference file. */
    var prefs: map<string, string>
    var sent: nat
    var trace: seq<Event>

    function State(): World
      reads this
    {
      World(prefs, sent, trace)
    }

    constructor (network: Network, prefs: map<string, string>)
      ensures this.network == network && State() == World(prefs, 0, []) && !isProvisioningInProgress
    {
      this.network := network;
      this.prefs := prefs;
      sent := 0;
      trace := [];
      isProvisioningInProgress := false;
    }

    /** One UI effect: an indicator change, a toast, an import, a log line naming a candidate. */
    method Record(e: Event)
      modifies this
      ensures State() == Emit(old(State()), e)
      ensures isProvisioningInProgress == old(isProvisioningInProgress)
    {
      trace := trace + [e];
    }

    /** `prefs.edit().putString(key, value).apply()`. */
    method PutPref(key: string, value: string)
      modifies this
      ensures State() == Put(old(State()), key, value)
      ensures isProvisioningInProgress == old(isProvisioningInProgress)
    {
      prefs := prefs[key := value];
      trace := trace + [PutString(key, value)];
    }

    /** An `HttpURLConnection` GET with `timeoutMs` as connect and read timeout. */
    method Get(url: string, timeoutMs: int) returns (o: Outcome)
      modifies this
      ensures Step(o, State()) == Send(old(State()), url, timeoutMs, network)
      ensures isProvisioningInProgress == old(isProvisioningInProgress)
    {
      o := network(Request(sent, url, timeoutMs));
      sent := sent + 1;
      trace := trace + [HttpGet(url, timeoutMs)];
    }

    /** getOrCreateDeviceId, with `freshId` standing for the random UUID. */
    method GetOrCreateDeviceId(freshId: string) returns (deviceId: string)
      modifies this
      ensures Step(deviceId, State()) == DeviceIdLookup(old(State()), freshId)
      ensures isProvisioningInProgress == old(isProvisioningInProgress)
    {
      if PrefDeviceId in prefs {
        deviceId := prefs[PrefDeviceId];
      } else {
        deviceId := freshId;
        PutPref(PrefDeviceId, deviceId);
      }
    }

    method SaveLastWorkingProvisionUrl(url: string)
      modifies this
      ensures State() == Put(old(State()), PrefLastWorkingUrl, url)
      ensures isProvisioningInProgress == old(isProvisioningInProgress)
    {
      PutPref(PrefLastWorkingUrl, url);
    }

    method GetLastWorkingProvisionUrl() returns (url: Option<string>)
      ensures url == LastWorkingUrl(prefs)
      ensures url.Some? <==> PrefLastWorkingUrl in prefs
    {
      if PrefLastWorkingUrl in prefs {
        url := Some(prefs[PrefLastWorkingUrl]);
      } else {
        url := None;
      }
    }

    method FetchProvisioningEndpoint(platformUrl: string, timeoutMs: int) returns (r: Result<Option<string>>)
      modifies this
      ensures Step(r, State()) == EndpointFetch(old(State()), platformUrl, timeoutMs, network)
      ensures isProvisioningInProgress == old(isProvisioningInProgress)
    {
      var o := Get(platformUrl, timeoutMs);
      match o {
        case Answered(responseCode, body) =>
          if responseCode == HttpOk {
            r := Return(Some(NormaliseEndpoint(body)));
          } else {
            r := Return(None);
          }
        case TimedOut => r := Throw(SocketTimeoutException);
        case Failed => r := Throw(OtherException);
      }
    }

    method FetchAndImportConfig(baseUrl: string, timeoutMs: int, freshId: string) returns (r: Result<bool>)
      modifies this
      ensures Step(r, State()) == ConfigFetch(old(State()), baseUrl, timeoutMs, freshId, network)
      ensures isProvisioningInProgress == old(isProvisioningInProgress)
    {
      var deviceId := GetOrCreateDeviceId(freshId);
      var fullUrl := ProvisionRequestUrl(baseUrl, deviceId);
      var o := Get(fullUrl, timeoutMs);
      match o {
        case Answered(responseCode, body) =>
          if responseCode == HttpOk {
            Record(Import(Trim(body)));
            Record(Toast(ToastSuccess));
            r := Return(true);
          } else {
            r := Return(false);
          }
        case TimedOut => r := Throw(SocketTimeoutException);
        case Failed => r := Throw(OtherException);
      }
    }

    /** The body of one iteration's `try`: the provisioning URL that imported, none, or the exception. */
    method AttemptCandidate(c: Candidate, cycle: nat, timeoutMs: int, freshId: string) returns (r: Result<Option<string>>)
      modifies this
      ensures Step(r, State()) == CandidateAttempt(old(State()), c, cycle, timeoutMs, freshId, network)
      ensures isProvisioningInProgress == old(isProvisioningInProgress)
    {
      Record(Attempt(cycle, c.url));
      var provisionUrl: Result<Option<string>>;
      if c.isDirect {
        provisionUrl := Return(Some(c.url));
      } else {
        provisionUrl := FetchProvisioningEndpoint(c.url, timeoutMs);
      }
      match provisionUrl {
        case Throw(e) => r := Throw(e);
        case Return(None) => r := Return(None);
        case Return(Some(u)) =>
          var result := FetchAndImportConfig(u, timeoutMs, freshId);
          match result {
            case Throw(e) => r := Throw(e);
            case Return(ok) => r := Return(if ok then Some(u) else None);
          }
      }
    }

    /**
     * One cycle's `for` loop: the candidates in order until the first
     * success, which is saved; every exception is caught, and the candidates
     * whose exception was a socket timeout are collected.
     */
    method RunCycle(cands: seq<Candidate>, cycle: nat, timeoutMs: int, freshId: string)
      returns (succeeded: Option<string>, timedOutUrls: seq<Candidate>)
      modifies this
      ensures var c := CycleRun(old(State()), cands, cycle, timeoutMs, freshId, network);
        succeeded == c.succeeded && timedOutUrls == c.timedOut && State() == c.world
      ensures isProvisioningInProgress == old(isProvisioningInProgress)
    {
      ghost var whole := CycleRun(State(), cands, cycle, timeoutMs, freshId, network);
      ghost var results: seq<Result<Option<string>>> := [];
      succeeded := None;
      timedOutUrls := [];
      var i := 0;
      while i < |cands|
        invariant 0 <= i <= |cands|
        invariant whole == Prefixed(results, timedOutUrls, CycleRun(State(), cands[i..], cycle, timeoutMs, freshId, network))
        invariant isProvisioningInProgress == old(isProvisioningInProgress)
      {
        ghost var before := State();
        var r := AttemptCandidate(cands[i], cycle, timeoutMs, freshId);
        if r.Return? && r.value.Some? {
          CycleStepSucceeded(whole, results, timedOutUrls, cands, i, cycle, timeoutMs, freshId, network, before, r, State());
          SaveLastWorkingProvisionUrl(r.value.value);
          succeeded := r.value;
          break;
        }
        CycleStepFailed(whole, results, timedOutUrls, cands, i, cycle, timeoutMs, freshId, network, before, r, State());
        if r == Throw(SocketTimeoutException) {
          timedOutUrls := timedOutUrls + [cands[i]];
        }
        results := results + [r];
        i := i + 1;
      }
      if i == |cands| {
        assert cands[i..] == [];
      }
    }

    /**
     * tryProvisioningWithFallback up to the launch: a call while a run is in
     * progress does nothing; otherwise the flag is set and the waiting
     * indicator shown, and the launched coroutine is RunProvisioningJob.
     */
    method TryProvisioningWithFallback() returns (launched: bool)
      modifies this
      ensures launched == !old(isProvisioningInProgress)
      ensures isProvisioningInProgress
      ensures !launched ==> State() == old(State())
      ensures launched ==> State() == Emit(old(State()), ShowWaiting)
    {
      if isProvisioningInProgress {
        return false;
      }
      isProvisioningInProgress := true;
      Record(ShowWaiting);
      launched := true;
    }

    /**
     * The coroutine tryProvisioningWithFallback launches: the candidate
     * list, cycle 1, cycle 2 when cycle 1 failed with timeouts, the closing
     * notifications, and in the end the flag cleared.
     */
    method RunProvisioningJob(freshId: string) returns (success: bool)
      modifies this
      ensures var run := ProvisioningRun(old(State()), freshId, network);
        success == run.success && State() == run.world
      ensures !isProvisioningInProgress
    {
      ghost var w := State();
      var lastWorking := GetLastWorkingProvisionUrl();
      var urlsToTry := BuildCandidates(lastWorking);
      var first, timedOutUrls := RunCycle(urlsToTry, 1, ProvisionTimeoutQuickMs, freshId);
      success := first.Some?;
      if !success && timedOutUrls != [] {
        Record(Toast(ProvisioningRetryMessage));
        var second, _ := RunCycle(timedOutUrls, 2, ProvisionTimeoutPatientMs, freshId);
        success := second.Some?;
      }
      if !success {
        Record(ToastError(ProvisioningFailedMessage));
      }
      Record(HideWaiting);
      isProvisioningInProgress := false;
    }

    /** checkAndAutoProvision: provisioning is launched only when no server is configured. */
    method CheckAndAutoProvision(serverList: seq<string>) returns (launched: bool)
      modifies this
      ensures launched <==> serverList == [] && !old(isProvisioningInProgress)
      ensures serverList != [] ==> State() == old(State()) && isProvisioningInProgress == old(isProvisioningInProgress)
      ensures serverList == [] ==> isProvisioningInProgress
      ensures launched ==> State() == Emit(old(State()), ShowWaiting)
      ensures !launched ==> State() == old(State())
    {
      if serverList == [] {
        launched := TryProvisioningWithFallback();
      } else {
        launched := false;
      }
    }

    /** handleMagicLink, which neither reads nor sets the in-progress flag. */
    method HandleMagicLink(data: Option<Uri>, freshId: string) returns (outcome: MagicLinkOutcome)
      modifies this
      ensures Step(outcome, State()) == MagicLinkRun(old(State()), data, freshId, network)
      ensures isProvisioningInProgress == old(isProvisioningInProgress)
    {
      if data.Some? && data.value.scheme == Some(MagicLinkScheme) && !data.value.hierarchical {
        outcome := Crashed(UnsupportedOperationException);
      } else if data.Some? && data.value.scheme == Some(MagicLinkScheme) {
        var provisionUrl := QueryParameter(data.value.query, "url");
        if provisionUrl.Some? {
          Record(ShowWaiting);
          var result := FetchAndImportConfig(provisionUrl.value, ProvisionTimeoutPatientMs, freshId);
          match result {
            case Throw(e) =>
              outcome := Crashed(e);
            case Return(ok) =>
              if ok {
                SaveLastWorkingProvisionUrl(provisionUrl.value);
              }
              Record(HideWaiting);
              outcome := if ok then Imported(provisionUrl.value) else NotImported;
          }
        } else {
          outcome := MissingUrlParameter;
        }
      } else {
        outcome := NotMagicLink;
      }
    }
  }
}
