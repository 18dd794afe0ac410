/**
 * What the protocol promises: which candidates each cycle takes up and in
 * which order, which ones it keeps for the retry cycle, what it saves, and
 * which notifications a run shows.
 */
module Properties {
  import opened Wrappers
  import opened KotlinText
  import opened Http
  import opened Endpoints
  import opened Protocol

  // ---------------------------------------------------------------- traces

  function Urls(cs: seq<Candidate>): (r: seq<string>)
    ensures |r| == |cs| && forall i :: 0 <= i < |cs| ==> r[i] == cs[i].url
  {
    seq(|cs|, i requires 0 <= i < |cs| => cs[i].url)
  }

  /** The candidate URLs taken up in the given cycle, in trace order. */
  function Attempts(t: seq<Event>, cycle: nat): seq<string> {
    if t == [] then []
    else (if t[0].Attempt? && t[0].cycle == cycle then [t[0].url] else []) + Attempts(t[1..], cycle)
  }

  function Count(t: seq<Event>, e: Event): nat {
    if t == [] then 0 else (if t[0] == e then 1 else 0) + Count(t[1..], e)
  }

  /**
   * Effects inside one candidate's attempt, after its Attempt event:
   * requests with the cycle's timeout, the import, the success toast and
   * the creation of the device id.
   */
  predicate Quiet(e: Event, timeoutMs: int) {
    || (e.HttpGet? && e.timeoutMs == timeoutMs)
    || e.Import?
    || e == Toast(ToastSuccess)
    || (e.PutString? && e.key == PrefDeviceId)
  }

  /** Effects a cycle may have: those of its attempts, and saving the last working URL. */
  predicate CycleEvent(e: Event, cycle: nat, timeoutMs: int) {
    || Quiet(e, timeoutMs)
    || (e.Attempt? && e.cycle == cycle)
    || (e.PutString? && e.key == PrefLastWorkingUrl)
  }

  lemma {:induction false} AttemptsAppend(a: seq<Event>, b: seq<Event>, cycle: nat)
    ensures Attempts(a + b, cycle) == Attempts(a, cycle) + Attempts(b, cycle)
  {
    if a != [] {
      assert (a + b)[1..] == a[1..] + b;
      AttemptsAppend(a[1..], b, cycle);
    } else {
      assert a + b == b;
    }
  }

  lemma {:induction false} CountAppend(a: seq<Event>, b: seq<Event>, e: Event)
    ensures Count(a + b, e) == Count(a, e) + Count(b, e)
  {
    if a != [] {
      assert (a + b)[1..] == a[1..] + b;
      CountAppend(a[1..], b, e);
    } else {
      assert a + b == b;
    }
  }

  lemma {:induction false} QuietHasNoAttempts(d: seq<Event>, cycle: nat, timeoutMs: int)
    requires forall i :: 0 <= i < |d| ==> Quiet(d[i], timeoutMs)
    ensures Attempts(d, cycle) == []
  {
    if d != [] {
      QuietHasNoAttempts(d[1..], cycle, timeoutMs);
    }
  }

  /** A cycle's effects hold no advisory or failure toast and no other cycle's attempts. */
  lemma {:induction false} CycleEventsExclude(d: seq<Event>, cycle: nat, timeoutMs: int, e: Event)
    requires forall i :: 0 <= i < |d| ==> CycleEvent(d[i], cycle, timeoutMs)
    requires !CycleEvent(e, cycle, timeoutMs)
    ensures Count(d, e) == 0
  {
    if d != [] {
      CycleEventsExclude(d[1..], cycle, timeoutMs, e);
    }
  }

  lemma {:induction false} CycleEventsOtherCycle(d: seq<Event>, cycle: nat, timeoutMs: int, other: nat)
    requires forall i :: 0 <= i < |d| ==> CycleEvent(d[i], cycle, timeoutMs)
    requires other != cycle
    ensures Attempts(d, other) == []
  {
    if d != [] {
      CycleEventsOtherCycle(d[1..], cycle, timeoutMs, other);
    }
  }

  // ------------------------------------------------------- one candidate

  predicate AllQuiet(d: seq<Event>, timeoutMs: int) {
    forall i :: 0 <= i < |d| ==> Quiet(d[i], timeoutMs)
  }

  lemma QuietAppend(a: seq<Event>, b: seq<Event>, timeoutMs: int)
    requires AllQuiet(a, timeoutMs) && AllQuiet(b, timeoutMs)
    ensures AllQuiet(a + b, timeoutMs)
  {
    forall i | 0 <= i < |a + b| ensures Quiet((a + b)[i], timeoutMs) {
      if i < |a| { assert (a + b)[i] == a[i]; } else { assert (a + b)[i] == b[i - |a|]; }
    }
  }

  /**
   * The device id keeps a stored value, and the last working URL keeps its
   * value: what every step but the save of a success leaves alone.
   */
  predicate KeepsKeys(before: map<string, string>, after: map<string, string>) {
    && (PrefDeviceId in before ==> PrefDeviceId in after && after[PrefDeviceId] == before[PrefDeviceId])
    && GetString(after, PrefLastWorkingUrl) == GetString(before, PrefLastWorkingUrl)
  }

  /** A relay fetch is one request and nothing else. */
  lemma EndpointFetchEffects(w: World, platformUrl: string, timeoutMs: int, net: Network)
    ensures var p := EndpointFetch(w, platformUrl, timeoutMs, net);
      p.world == World(w.prefs, w.sent + 1, w.trace + [HttpGet(platformUrl, timeoutMs)])
  {
  }

  /**
   * getOrCreateDeviceId: a stored id is returned and nothing changes; with
   * none stored the fresh id is stored and returned; either way every later
   * lookup returns that same id and changes nothing.
   */
  lemma DeviceIdStable(w: World, freshId: string, laterId: string)
    ensures var s := DeviceIdLookup(w, freshId);
      && (PrefDeviceId in w.prefs ==> s.result == w.prefs[PrefDeviceId] && s.world == w)
      && (PrefDeviceId !in w.prefs ==>
            && s.result == freshId
            && s.world.prefs == w.prefs[PrefDeviceId := freshId]
            && s.world.trace == w.trace + [PutString(PrefDeviceId, freshId)])
      && DeviceIdLookup(s.world, laterId) == Step(s.result, s.world)
  {
  }

  /**
   * fetchProvisioningEndpoint sends one request to the relay: a 200 answer
   * gives its normalised text, any other status nothing, and a failed
   * request re-throws its exception, which tells a timeout apart.
   */
  lemma EndpointFetchOutcomes(w: World, platformUrl: string, timeoutMs: int, net: Network)
    ensures var o := net(Request(w.sent, platformUrl, timeoutMs));
            var p := EndpointFetch(w, platformUrl, timeoutMs, net);
      && p.world == World(w.prefs, w.sent + 1, w.trace + [HttpGet(platformUrl, timeoutMs)])
      && (p.result.Throw? <==> !o.Answered?)
      && (!o.Answered? ==> p.result == Throw(Raised(o)))
      && (o.Answered? && o.code == HttpOk ==> p.result == Return(Some(NormaliseEndpoint(o.body))))
      && (o.Answered? && o.code != HttpOk ==> p.result == Return(None))
  {
  }

  /**
   * fetchAndImportConfig sends one request, to the device-id URL: true iff
   * the answer is 200, in which case the trimmed body is imported and a
   * success toast shown last; false for any other status; a failed request
   * re-throws.
   */
  lemma ConfigFetchOutcomes(w: World, baseUrl: string, timeoutMs: int, freshId: string, net: Network)
    ensures var id := DeviceIdLookup(w, freshId);
            var o := net(Request(w.sent, ProvisionRequestUrl(baseUrl, id.result), timeoutMs));
            var f := ConfigFetch(w, baseUrl, timeoutMs, freshId, net);
      && f.world.sent == w.sent + 1
      && (f.result == Return(true) <==> o.Answered? && o.code == HttpOk)
      && (f.result == Return(false) <==> o.Answered? && o.code != HttpOk)
      && (!o.Answered? ==> f.result == Throw(Raised(o)))
      && (f.result == Return(true) ==>
            |f.world.trace| >= 2 && f.world.trace[|f.world.trace| - 2..] == [Import(Trim(o.body)), Toast(ToastSuccess)])
  {
  }

  /**
   * A configuration fetch may store the device id, sends one request, and
   * on a 200 answer imports and toasts.
   */
  lemma ConfigFetchEffects(w: World, baseUrl: string, timeoutMs: int, freshId: string, net: Network)
    returns (d: seq<Event>)
    ensures var f := ConfigFetch(w, baseUrl, timeoutMs, freshId, net);
      && f.world.trace == w.trace + d && AllQuiet(d, timeoutMs)
      && KeepsKeys(w.prefs, f.world.prefs)
  {
    var id := DeviceIdLookup(w, freshId);
    var d0: seq<Event> := if PrefDeviceId in w.prefs then [] else [PutString(PrefDeviceId, freshId)];
    assert id.world.trace == w.trace + d0;
    var url := ProvisionRequestUrl(baseUrl, id.result);
    var s := Send(id.world, url, timeoutMs, net);
    var f := ConfigFetch(w, baseUrl, timeoutMs, freshId, net);
    if s.result.Answered? && s.result.code == HttpOk {
      d := d0 + [HttpGet(url, timeoutMs), Import(Trim(s.result.body)), Toast(ToastSuccess)];
      assert f.world.trace == w.trace + d by {
        assert f.world.trace == id.world.trace + [HttpGet(url, timeoutMs)] + [Import(Trim(s.result.body))] + [Toast(ToastSuccess)];
      }
    } else {
      d := d0 + [HttpGet(url, timeoutMs)];
      assert f.world.trace == w.trace + d by {
        assert f.world.trace == id.world.trace + [HttpGet(url, timeoutMs)];
      }
    }
    assert AllQuiet(d, timeoutMs);
  }

  lemma FetchFromEffects(w: World, provisionUrl: string, timeoutMs: int, freshId: string, net: Network)
    returns (d: seq<Event>)
    ensures var f := FetchFrom(w, provisionUrl, timeoutMs, freshId, net);
      && f.world.trace == w.trace + d && AllQuiet(d, timeoutMs)
      && KeepsKeys(w.prefs, f.world.prefs)
  {
    d := ConfigFetchEffects(w, provisionUrl, timeoutMs, freshId, net);
  }

  lemma LookupEffects(w: World, c: Candidate, timeoutMs: int, net: Network) returns (d: seq<Event>)
    ensures var p := ProvisionUrlLookup(w, c, timeoutMs, net);
      p.world.trace == w.trace + d && AllQuiet(d, timeoutMs) && p.world.prefs == w.prefs
    ensures c.isDirect ==> d == [] && ProvisionUrlLookup(w, c, timeoutMs, net).world == w
    ensures !c.isDirect ==> d == [HttpGet(c.url, timeoutMs)] && ProvisionUrlLookup(w, c, timeoutMs, net).world.sent == w.sent + 1
  {
    d := if c.isDirect then [] else [HttpGet(c.url, timeoutMs)];
  }

  /** Helper: one unfolding of `CandidateAttempt`. */
  lemma AttemptUnfolds(w: World, c: Candidate, cycle: nat, timeoutMs: int, freshId: string, net: Network)
    ensures var p := ProvisionUrlLookup(Emit(w, Attempt(cycle, c.url)), c, timeoutMs, net);
      CandidateAttempt(w, c, cycle, timeoutMs, freshId, net)
        == if Succeeded(p.result) then FetchFrom(p.world, p.result.value.value, timeoutMs, freshId, net) else p
  {
  }

  /**
   * An attempt records its candidate first, then only requests, the import,
   * the success toast and a new device id; the last working URL is left as
   * it is.
   */
  lemma AttemptEffects(w: World, c: Candidate, cycle: nat, timeoutMs: int, freshId: string, net: Network)
    returns (d: seq<Event>)
    ensures var a := CandidateAttempt(w, c, cycle, timeoutMs, freshId, net);
      && a.world.trace == w.trace + [Attempt(cycle, c.url)] + d && AllQuiet(d, timeoutMs)
      && KeepsKeys(w.prefs, a.world.prefs)
  {
    var w0 := Emit(w, Attempt(cycle, c.url));
    var p := ProvisionUrlLookup(w0, c, timeoutMs, net);
    d := LookupEffects(w0, c, timeoutMs, net);
    AttemptUnfolds(w, c, cycle, timeoutMs, freshId, net);
    if Succeeded(p.result) {
      var a := FetchFrom(p.world, p.result.value.value, timeoutMs, freshId, net);
      var d2 := FetchFromEffects(p.world, p.result.value.value, timeoutMs, freshId, net);
      QuietAppend(d, d2, timeoutMs);
      assert a.world.trace == (w.trace + [Attempt(cycle, c.url)] + d) + d2;
      d := d + d2;
    }
  }

  /**
   * The provisioning URL of a successful attempt is the candidate's own URL
   * when it is direct, and the normalised answer of its relay when it is not.
   */
  lemma AttemptSucceedsWith(w: World, c: Candidate, cycle: nat, timeoutMs: int, freshId: string, net: Network)
    ensures var a := CandidateAttempt(w, c, cycle, timeoutMs, freshId, net);
            var relay := net(Request(w.sent, c.url, timeoutMs));
      Succeeded(a.result) ==>
        && (c.isDirect ==> a.result.value.value == c.url)
        && (!c.isDirect ==> relay.Answered? && relay.code == HttpOk
                            && a.result.value.value == NormaliseEndpoint(relay.body))
  {
    var w0 := Emit(w, Attempt(cycle, c.url));
    if !c.isDirect {
      var p := EndpointFetch(w0, c.url, timeoutMs, net);
      assert w0.sent == w.sent;
    }
  }

  // ------------------------------------------------------------ one cycle

  /** The candidates whose result was a socket timeout, in their order. */
  function TimedOutOf(cs: seq<Candidate>, rs: seq<Result<Option<string>>>): seq<Candidate>
    requires |cs| == |rs|
  {
    if cs == [] then []
    else (if rs[0] == Throw(SocketTimeoutException) then [cs[0]] else []) + TimedOutOf(cs[1..], rs[1..])
  }

  /** A candidate is kept for the retry cycle iff one of its tries timed out. */
  lemma {:induction false} TimedOutOfMembers(cs: seq<Candidate>, rs: seq<Result<Option<string>>>, c: Candidate)
    requires |cs| == |rs|
    ensures c in TimedOutOf(cs, rs) <==>
              exists i :: 0 <= i < |cs| && cs[i] == c && rs[i] == Throw(SocketTimeoutException)
    ensures |TimedOutOf(cs, rs)| <= |cs|
  {
    if cs != [] {
      TimedOutOfMembers(cs[1..], rs[1..], c);
      if c in TimedOutOf(cs[1..], rs[1..]) {
        var i :| 0 <= i < |cs| - 1 && cs[1..][i] == c && rs[1..][i] == Throw(SocketTimeoutException);
        assert cs[i + 1] == c && rs[i + 1] == Throw(SocketTimeoutException);
      }
      if exists i :: 0 <= i < |cs| && cs[i] == c && rs[i] == Throw(SocketTimeoutException) {
        var i :| 0 <= i < |cs| && cs[i] == c && rs[i] == Throw(SocketTimeoutException);
        if i > 0 {
          assert cs[1..][i - 1] == c && rs[1..][i - 1] == Throw(SocketTimeoutException);
        }
      }
    }
  }

  /**
   * A cycle takes up candidates in order and stops at the first success: the
   * result of every candidate before the last one taken up is a failure, all
   * are taken up when none succeeds, and the time-outs it keeps are exactly
   * the candidates whose result was a socket timeout.
   */
  lemma {:induction false} CycleOutcomes(w: World, cands: seq<Candidate>, cycle: nat, timeoutMs: int, freshId: string, net: Network)
    ensures var r := CycleRun(w, cands, cycle, timeoutMs, freshId, net);
      && |r.results| <= |cands|
      && (r.succeeded.None? ==> |r.results| == |cands|)
      && (r.succeeded.Some? ==> |r.results| > 0 && r.results[|r.results| - 1] == Return(r.succeeded))
      && (forall i :: 0 <= i < |r.results| ==> (Succeeded(r.results[i]) <==> r.succeeded.Some? && i == |r.results| - 1))
      && r.timedOut == TimedOutOf(cands[..|r.results|], r.results)
    decreases |cands|
  {
    if cands != [] {
      var a := CandidateAttempt(w, cands[0], cycle, timeoutMs, freshId, net);
      if !Succeeded(a.result) {
        var rest := CycleRun(a.world, cands[1..], cycle, timeoutMs, freshId, net);
        CycleOutcomes(a.world, cands[1..], cycle, timeoutMs, freshId, net);
        var r := CycleRun(w, cands, cycle, timeoutMs, freshId, net);
        assert r.results == [a.result] + rest.results;
        assert cands[..|r.results|][1..] == cands[1..][..|rest.results|];
        assert forall i :: 1 <= i < |r.results| ==> r.results[i] == rest.results[i - 1];
      }
    }
  }

  /** The events of one attempt are events of its cycle, naming its candidate once. */
  lemma AttemptEvents(c: Candidate, cycle: nat, timeoutMs: int, da: seq<Event>)
    requires AllQuiet(da, timeoutMs)
    ensures var e := [Attempt(cycle, c.url)] + da;
      (forall i :: 0 <= i < |e| ==> CycleEvent(e[i], cycle, timeoutMs)) && Attempts(e, cycle) == [c.url]
  {
    QuietHasNoAttempts(da, cycle, timeoutMs);
    AttemptsAppend([Attempt(cycle, c.url)], da, cycle);
  }

  lemma CycleEventsAppend(a: seq<Event>, b: seq<Event>, cycle: nat, timeoutMs: int)
    requires forall i :: 0 <= i < |a| ==> CycleEvent(a[i], cycle, timeoutMs)
    requires forall i :: 0 <= i < |b| ==> CycleEvent(b[i], cycle, timeoutMs)
    ensures forall i :: 0 <= i < |a + b| ==> CycleEvent((a + b)[i], cycle, timeoutMs)
  {
    forall i | 0 <= i < |a + b| ensures CycleEvent((a + b)[i], cycle, timeoutMs) {
      if i < |a| { assert (a + b)[i] == a[i]; } else { assert (a + b)[i] == b[i - |a|]; }
    }
  }

  lemma UrlsCons(cands: seq<Candidate>, n: nat)
    requires n < |cands|
    ensures Urls(cands[..n + 1]) == [cands[0].url] + Urls(cands[1..][..n])
  {
    assert cands[..n + 1] == [cands[0]] + cands[1..][..n];
  }

  /** The trace facts a cycle establishes, given what it added. */
  predicate CycleTrace(w: World, cands: seq<Candidate>, cycle: nat, timeoutMs: int, r: CycleResult, d: seq<Event>) {
    && r.world.trace == w.trace + d
    && (forall i :: 0 <= i < |d| ==> CycleEvent(d[i], cycle, timeoutMs))
    && |r.results| <= |cands|
    && Attempts(d, cycle) == Urls(cands[..|r.results|])
  }

  /** Trace bookkeeping for a cycle that stops at its first candidate. */
  lemma ConsSucceeded(before: seq<Event>, cands: seq<Candidate>, cycle: nat, timeoutMs: int, da: seq<Event>, saved: string,
                      after: seq<Event>)
    returns (d: seq<Event>)
    requires cands != [] && AllQuiet(da, timeoutMs)
    requires after == before + [Attempt(cycle, cands[0].url)] + da + [PutString(PrefLastWorkingUrl, saved)]
    ensures after == before + d
    ensures forall i :: 0 <= i < |d| ==> CycleEvent(d[i], cycle, timeoutMs)
    ensures Attempts(d, cycle) == Urls(cands[..1])
  {
    var head := [Attempt(cycle, cands[0].url)] + da;
    AttemptEvents(cands[0], cycle, timeoutMs, da);
    var tail := [PutString(PrefLastWorkingUrl, saved)];
    NoAttempts(tail, cycle);
    assert Urls(cands[..1]) == [cands[0].url];
    d := head + tail;
    AttemptsAppend(head, tail, cycle);
    CycleEventsAppend(head, tail, cycle, timeoutMs);
  }

  /** Trace bookkeeping for a cycle that goes on past its first candidate. */
  lemma ConsFailed(before: seq<Event>, cands: seq<Candidate>, cycle: nat, timeoutMs: int, da: seq<Event>, middle: seq<Event>,
                   tail: seq<Event>, n: nat, after: seq<Event>)
    returns (d: seq<Event>)
    requires cands != [] && AllQuiet(da, timeoutMs) && n < |cands|
    requires middle == before + [Attempt(cycle, cands[0].url)] + da
    requires after == middle + tail
    requires forall i :: 0 <= i < |tail| ==> CycleEvent(tail[i], cycle, timeoutMs)
    requires Attempts(tail, cycle) == Urls(cands[1..][..n])
    ensures after == before + d
    ensures forall i :: 0 <= i < |d| ==> CycleEvent(d[i], cycle, timeoutMs)
    ensures Attempts(d, cycle) == Urls(cands[..n + 1])
  {
    var head := [Attempt(cycle, cands[0].url)] + da;
    AttemptEvents(cands[0], cycle, timeoutMs, da);
    UrlsCons(cands, n);
    d := head + tail;
    AttemptsAppend(head, tail, cycle);
    CycleEventsAppend(head, tail, cycle, timeoutMs);
  }

  /**
   * The effects of a cycle: its own attempts, requests, imports, success
   * toasts, the device id and the last working URL, the attempts naming the candidates taken
   * up, in order.
   */
  lemma {:induction false} CycleEffects(w: World, cands: seq<Candidate>, cycle: nat, timeoutMs: int, freshId: string, net: Network)
    returns (d: seq<Event>)
    ensures CycleTrace(w, cands, cycle, timeoutMs, CycleRun(w, cands, cycle, timeoutMs, freshId, net), d)
    decreases |cands|
  {
    var r := CycleRun(w, cands, cycle, timeoutMs, freshId, net);
    if cands == [] {
      d := [];
    } else {
      var a := CandidateAttempt(w, cands[0], cycle, timeoutMs, freshId, net);
      var da := AttemptEffects(w, cands[0], cycle, timeoutMs, freshId, net);
      if Succeeded(a.result) {
        d := ConsSucceeded(w.trace, cands, cycle, timeoutMs, da, a.result.value.value, r.world.trace);
      } else {
        var rest := CycleRun(a.world, cands[1..], cycle, timeoutMs, freshId, net);
        var tail := CycleEffects(a.world, cands[1..], cycle, timeoutMs, freshId, net);
        d := ConsFailed(w.trace, cands, cycle, timeoutMs, da, a.world.trace, tail, |rest.results|, r.world.trace);
      }
    }
  }

  /**
   * A cycle stores the provisioning URL that succeeded as the last working
   * URL, and nothing else: without a success that URL keeps its value, and
   * a stored device id is never replaced.
   */
  lemma {:induction false} CycleSaves(w: World, cands: seq<Candidate>, cycle: nat, timeoutMs: int, freshId: string, net: Network)
    ensures var r := CycleRun(w, cands, cycle, timeoutMs, freshId, net);
      && (PrefDeviceId in w.prefs ==> PrefDeviceId in r.world.prefs && r.world.prefs[PrefDeviceId] == w.prefs[PrefDeviceId])
      && LastWorkingUrl(r.world.prefs) == (if r.succeeded.Some? then r.succeeded else LastWorkingUrl(w.prefs))
    decreases |cands|
  {
    if cands != [] {
      var a := CandidateAttempt(w, cands[0], cycle, timeoutMs, freshId, net);
      var _ := AttemptEffects(w, cands[0], cycle, timeoutMs, freshId, net);
      if !Succeeded(a.result) {
        CycleSaves(a.world, cands[1..], cycle, timeoutMs, freshId, net);
      }
    }
  }

  /** The relay at `url` answered 200 with a body that normalises to `provisionUrl`. */
  ghost predicate RelayGave(net: Network, url: string, timeoutMs: int, provisionUrl: string) {
    exists n: nat :: net(Request(n, url, timeoutMs)).Answered? && net(Request(n, url, timeoutMs)).code == HttpOk
                     && provisionUrl == NormaliseEndpoint(net(Request(n, url, timeoutMs)).body)
  }

  /**
   * What a cycle saves is the resolved provisioning URL of the last
   * candidate it took up: the candidate's own URL when direct, and
   * otherwise the normalised body of a 200 answer its relay gave.
   */
  lemma {:induction false} CycleSucceededUrl(w: World, cands: seq<Candidate>, cycle: nat, timeoutMs: int, freshId: string, net: Network)
    ensures var r := CycleRun(w, cands, cycle, timeoutMs, freshId, net);
      r.succeeded.Some? ==>
        && 0 < |r.results| <= |cands|
        && var c := cands[|r.results| - 1];
          && (c.isDirect ==> r.succeeded.value == c.url)
          && (!c.isDirect ==> RelayGave(net, c.url, timeoutMs, r.succeeded.value))
    decreases |cands|
  {
    if cands != [] {
      var a := CandidateAttempt(w, cands[0], cycle, timeoutMs, freshId, net);
      AttemptSucceedsWith(w, cands[0], cycle, timeoutMs, freshId, net);
      if !Succeeded(a.result) {
        CycleSucceededUrl(a.world, cands[1..], cycle, timeoutMs, freshId, net);
        var r := CycleRun(w, cands, cycle, timeoutMs, freshId, net);
        assert |r.results| == 1 + |CycleRun(a.world, cands[1..], cycle, timeoutMs, freshId, net).results|;
      } else if !cands[0].isDirect {
        assert net(Request(w.sent, cands[0].url, timeoutMs)).Answered?;
      }
    }
  }

  /** Without a timed-out request an attempt never reports a socket timeout. */
  lemma AttemptWithoutTimeouts(w: World, c: Candidate, cycle: nat, timeoutMs: int, freshId: string, net: Network)
    requires forall q :: !net(q).TimedOut?
    ensures CandidateAttempt(w, c, cycle, timeoutMs, freshId, net).result != Throw(SocketTimeoutException)
  {
    var w0 := Emit(w, Attempt(cycle, c.url));
    var p := ProvisionUrlLookup(w0, c, timeoutMs, net);
    if !c.isDirect {
      assert !net(Request(w0.sent, c.url, timeoutMs)).TimedOut?;
    }
    if Succeeded(p.result) {
      var id := DeviceIdLookup(p.world, freshId);
      var u := ProvisionRequestUrl(p.result.value.value, id.result);
      assert !net(Request(id.world.sent, u, timeoutMs)).TimedOut?;
    }
  }

  /** Without a timed-out request a cycle keeps no candidate for a retry. */
  lemma {:induction false} CycleWithoutTimeouts(w: World, cands: seq<Candidate>, cycle: nat, timeoutMs: int, freshId: string, net: Network)
    requires forall q :: !net(q).TimedOut?
    ensures CycleRun(w, cands, cycle, timeoutMs, freshId, net).timedOut == []
    decreases |cands|
  {
    if cands != [] {
      var a := CandidateAttempt(w, cands[0], cycle, timeoutMs, freshId, net);
      AttemptWithoutTimeouts(w, cands[0], cycle, timeoutMs, freshId, net);
      if !Succeeded(a.result) {
        CycleWithoutTimeouts(a.world, cands[1..], cycle, timeoutMs, freshId, net);
      }
    }
  }

  /** When every request times out, an attempt reports a socket timeout. */
  lemma AttemptAllTimeouts(w: World, c: Candidate, cycle: nat, timeoutMs: int, freshId: string, net: Network)
    requires forall q :: net(q) == TimedOut
    ensures CandidateAttempt(w, c, cycle, timeoutMs, freshId, net).result == Throw(SocketTimeoutException)
  {
    var w0 := Emit(w, Attempt(cycle, c.url));
    var p := ProvisionUrlLookup(w0, c, timeoutMs, net);
    if !c.isDirect {
      assert net(Request(w0.sent, c.url, timeoutMs)) == TimedOut;
    } else {
      var id := DeviceIdLookup(p.world, freshId);
      var u := ProvisionRequestUrl(c.url, id.result);
      assert net(Request(id.world.sent, u, timeoutMs)) == TimedOut;
    }
  }

  /** When every request times out, a cycle takes up every candidate and keeps all of them for a retry. */
  lemma {:induction false} CycleAllTimeouts(w: World, cands: seq<Candidate>, cycle: nat, timeoutMs: int, freshId: string, net: Network)
    requires forall q :: net(q) == TimedOut
    ensures var r := CycleRun(w, cands, cycle, timeoutMs, freshId, net);
      r.succeeded == None && |r.results| == |cands| && r.timedOut == cands
    decreases |cands|
  {
    if cands != [] {
      var a := CandidateAttempt(w, cands[0], cycle, timeoutMs, freshId, net);
      AttemptAllTimeouts(w, cands[0], cycle, timeoutMs, freshId, net);
      CycleAllTimeouts(a.world, cands[1..], cycle, timeoutMs, freshId, net);
      assert [cands[0]] + cands[1..] == cands;
    }
  }

  /**
   * As written, a last working URL equal to the primary URL is listed twice,
   * so when nothing answers in time both copies are kept for cycle 2 and
   * each is retried with the patient timeout.
   */
  lemma RepeatedPrimaryRetriedTwice(w: World, freshId: string, net: Network)
    requires LastWorkingUrl(w.prefs) == Some(PrimaryProvisionUrl)
    requires forall q :: net(q) == TimedOut
    ensures var r := ProvisioningRun(w, freshId, net);
      && !r.success
      && r.first.timedOut == CandidateList(Some(PrimaryProvisionUrl))
      && r.first.timedOut[0] == r.first.timedOut[1] == Candidate(PrimaryProvisionUrl, true)
      && r.second.Some?
      && |r.second.value.results| == |r.first.timedOut|
  {
    var cands := CandidateList(Some(PrimaryProvisionUrl));
    CycleAllTimeouts(w, cands, 1, ProvisionTimeoutQuickMs, freshId, net);
    var c1 := CycleRun(w, cands, 1, ProvisionTimeoutQuickMs, freshId, net);
    CycleAllTimeouts(Emit(c1.world, Toast(ProvisioningRetryMessage)), c1.timedOut, 2,
                     ProvisionTimeoutPatientMs, freshId, net);
  }

  /** The time-outs kept from a list that names every URL once name every URL once. */
  lemma {:induction false} TimedOutOfDistinct(cs: seq<Candidate>, rs: seq<Result<Option<string>>>)
    requires |cs| == |rs|
    requires DistinctUrls(cs)
    ensures DistinctUrls(TimedOutOf(cs, rs))
  {
    if cs != [] {
      var rest := TimedOutOf(cs[1..], rs[1..]);
      assert DistinctUrls(cs[1..]) by {
        forall i, j | 0 <= i < j < |cs| - 1 ensures cs[1..][i].url != cs[1..][j].url {
          assert cs[1..][i] == cs[i + 1] && cs[1..][j] == cs[j + 1];
        }
      }
      TimedOutOfDistinct(cs[1..], rs[1..]);
      if rs[0] == Throw(SocketTimeoutException) {
        forall k | 0 <= k < |rest| ensures rest[k].url != cs[0].url {
          TimedOutOfMembers(cs[1..], rs[1..], rest[k]);
          var i :| 0 <= i < |cs| - 1 && cs[1..][i] == rest[k] && rs[1..][i] == Throw(SocketTimeoutException);
          assert cs[i + 1] == rest[k];
        }
        var t := [cs[0]] + rest;
        forall i, j | 0 <= i < j < |t| ensures t[i].url != t[j].url {
          assert t[j] == rest[j - 1];
          if i > 0 {
            assert t[i] == rest[i - 1];
          }
        }
      }
    }
  }

  /**
   * Over the deduplicated list, a cycle keeps each URL at most once for the
   * retry cycle, whatever the network does.
   */
  lemma DedupedRetryOnce(w: World, lastWorking: Option<string>, cycle: nat, timeoutMs: int, freshId: string, net: Network)
    ensures DistinctUrls(CycleRun(w, DedupedCandidateList(lastWorking), cycle, timeoutMs, freshId, net).timedOut)
  {
    var cands := DedupedCandidateList(lastWorking);
    var r := CycleRun(w, cands, cycle, timeoutMs, freshId, net);
    CycleOutcomes(w, cands, cycle, timeoutMs, freshId, net);
    var prefix := cands[..|r.results|];
    assert DistinctUrls(prefix) by {
      forall i, j | 0 <= i < j < |prefix| ensures prefix[i].url != prefix[j].url {
        assert prefix[i] == cands[i] && prefix[j] == cands[j];
      }
    }
    TimedOutOfDistinct(prefix, r.results);
  }

  // -------------------------------------------------------------- one run

  /** The closing effects of a run: the failure toast when nothing succeeded, then the indicator hidden. */
  function Closing(success: bool): seq<Event> {
    (if success then [] else [ToastError(ProvisioningFailedMessage)]) + [HideWaiting]
  }

  /** The provisioning URL a run saved, if any. */
  function SavedUrl(r: RunResult): Option<string> {
    if r.first.succeeded.Some? then r.first.succeeded
    else if r.second.Some? then r.second.value.succeeded
    else None
  }

  /**
   * How a run is put together: cycle 1 over the candidate list with the
   * quick timeout; the advisory toast and cycle 2 over the timed-out
   * candidates with the patient timeout exactly when cycle 1 failed with
   * some timeouts; then the closing effects. The run succeeds iff a cycle
   * did.
   */
  predicate Shaped(w: World, cands: seq<Candidate>, r: RunResult, d1: seq<Event>, d2: seq<Event>) {
    ShapedCycles(w, cands, r, d1, d2) && ShapedTrace(w, r, d1, d2)
  }

  predicate ShapedCycles(w: World, cands: seq<Candidate>, r: RunResult, d1: seq<Event>, d2: seq<Event>) {
    var retry := Emit(r.first.world, Toast(ProvisioningRetryMessage));
    && CycleTrace(w, cands, 1, ProvisionTimeoutQuickMs, r.first, d1)
    && (r.second.Some? <==> r.first.succeeded.None? && r.first.timedOut != [])
    && (r.second.Some? ==> CycleTrace(retry, r.first.timedOut, 2, ProvisionTimeoutPatientMs, r.second.value, d2))
    && (r.second.None? ==> d2 == [])
  }

  predicate ShapedTrace(w: World, r: RunResult, d1: seq<Event>, d2: seq<Event>) {
    && (r.success <==> SavedUrl(r).Some?)
    && r.world.trace == w.trace + d1 + (if r.second.Some? then [Toast(ProvisioningRetryMessage)] + d2 else [])
                        + Closing(r.success)
  }

  lemma RunCycles(w: World, freshId: string, net: Network) returns (d1: seq<Event>, d2: seq<Event>)
    ensures ShapedCycles(w, CandidateList(LastWorkingUrl(w.prefs)), ProvisioningRun(w, freshId, net), d1, d2)
  {
    var cands := CandidateList(LastWorkingUrl(w.prefs));
    var c1 := CycleRun(w, cands, 1, ProvisionTimeoutQuickMs, freshId, net);
    d1 := CycleEffects(w, cands, 1, ProvisionTimeoutQuickMs, freshId, net);
    d2 := [];
    if c1.succeeded.None? && c1.timedOut != [] {
      var retry := Emit(c1.world, Toast(ProvisioningRetryMessage));
      d2 := CycleEffects(retry, c1.timedOut, 2, ProvisionTimeoutPatientMs, freshId, net);
    }
  }

  lemma RunTrace(w: World, freshId: string, net: Network, d1: seq<Event>, d2: seq<Event>)
    requires ShapedCycles(w, CandidateList(LastWorkingUrl(w.prefs)), ProvisioningRun(w, freshId, net), d1, d2)
    ensures ShapedTrace(w, ProvisioningRun(w, freshId, net), d1, d2)
  {
  }

  lemma RunShape(w: World, freshId: string, net: Network) returns (d1: seq<Event>, d2: seq<Event>)
    ensures Shaped(w, CandidateList(LastWorkingUrl(w.prefs)), ProvisioningRun(w, freshId, net), d1, d2)
  {
    d1, d2 := RunCycles(w, freshId, net);
    RunTrace(w, freshId, net, d1, d2);
  }

  lemma CountSingle(x: Event, e: Event)
    ensures Count([x], e) == if x == e then 1 else 0
  {
    assert [x][1..] == [];
  }

  lemma {:induction false} NoAttempts(d: seq<Event>, cycle: nat)
    requires forall i :: 0 <= i < |d| ==> !d[i].Attempt?
    ensures Attempts(d, cycle) == []
  {
    if d != [] {
      NoAttempts(d[1..], cycle);
    }
  }

  /** The failure toast shows once iff nothing succeeded; the indicator is hidden once. */
  lemma CountClosing(success: bool, e: Event)
    ensures Count(Closing(success), e)
            == (if e == HideWaiting then 1 else 0) + (if !success && e == ToastError(ProvisioningFailedMessage) then 1 else 0)
  {
    CountSingle(HideWaiting, e);
    if !success {
      CountAppend([ToastError(ProvisioningFailedMessage)], [HideWaiting], e);
      CountSingle(ToastError(ProvisioningFailedMessage), e);
    } else {
      assert Closing(success) == [HideWaiting];
    }
  }

  /** How often a notification `e` occurs in a trace of the run's shape. */
  lemma TallyOne(d1: seq<Event>, d2: seq<Event>, retried: bool, success: bool, e: Event)
    requires forall i :: 0 <= i < |d1| ==> CycleEvent(d1[i], 1, ProvisionTimeoutQuickMs)
    requires forall i :: 0 <= i < |d2| ==> CycleEvent(d2[i], 2, ProvisionTimeoutPatientMs)
    requires !CycleEvent(e, 1, ProvisionTimeoutQuickMs) && !CycleEvent(e, 2, ProvisionTimeoutPatientMs)
    ensures var d := d1 + (if retried then [Toast(ProvisioningRetryMessage)] + d2 else []) + Closing(success);
      Count(d, e) == (if retried && e == Toast(ProvisioningRetryMessage) then 1 else 0) + Count(Closing(success), e)
  {
    var mid: seq<Event> := if retried then [Toast(ProvisioningRetryMessage)] + d2 else [];
    CountAppend(d1 + mid, Closing(success), e);
    CountAppend(d1, mid, e);
    CycleEventsExclude(d1, 1, ProvisionTimeoutQuickMs, e);
    if retried {
      CountAppend([Toast(ProvisioningRetryMessage)], d2, e);
      CountSingle(Toast(ProvisioningRetryMessage), e);
      CycleEventsExclude(d2, 2, ProvisionTimeoutPatientMs, e);
    }
  }

  /** The attempts of each cycle in a trace of the run's shape are those of that cycle's part. */
  lemma TallyAttempts(d1: seq<Event>, d2: seq<Event>, retried: bool, success: bool, cycle: nat)
    requires forall i :: 0 <= i < |d1| ==> CycleEvent(d1[i], 1, ProvisionTimeoutQuickMs)
    requires forall i :: 0 <= i < |d2| ==> CycleEvent(d2[i], 2, ProvisionTimeoutPatientMs)
    requires !retried ==> d2 == []
    requires cycle == 1 || cycle == 2
    ensures var d := d1 + (if retried then [Toast(ProvisioningRetryMessage)] + d2 else []) + Closing(success);
      Attempts(d, cycle) == if cycle == 1 then Attempts(d1, 1) else Attempts(d2, 2)
  {
    var mid: seq<Event> := if retried then [Toast(ProvisioningRetryMessage)] + d2 else [];
    AttemptsAppend(d1 + mid, Closing(success), cycle);
    AttemptsAppend(d1, mid, cycle);
    NoAttempts(Closing(success), cycle);
    if cycle == 1 {
      CycleEventsOtherCycle(d2, 2, ProvisionTimeoutPatientMs, 1);
    } else {
      CycleEventsOtherCycle(d1, 1, ProvisionTimeoutQuickMs, 2);
    }
    if retried {
      AttemptsAppend([Toast(ProvisioningRetryMessage)], d2, cycle);
      NoAttempts([Toast(ProvisioningRetryMessage)], cycle);
    } else {
      NoAttempts(mid, cycle);
    }
  }

  /**
   * The notifications of a run: the indicator hidden once and last, the
   * advisory toast once iff cycle 2 ran, the failure toast once iff neither
   * cycle succeeded; cycle 1 takes up the candidate list in order until its
   * first success, cycle 2 the timed-out candidates in order.
   */
  predicate Notified(w: World, cands: seq<Candidate>, r: RunResult, d: seq<Event>) {
    && r.world.trace == w.trace + d
    && |d| > 0 && d[|d| - 1] == HideWaiting && Count(d, HideWaiting) == 1
    && Count(d, ShowWaiting) == 0
    && Count(d, Toast(ProvisioningRetryMessage)) == (if r.second.Some? then 1 else 0)
    && Count(d, ToastError(ProvisioningFailedMessage)) == (if r.success then 0 else 1)
    && |r.first.results| <= |cands|
    && Attempts(d, 1) == Urls(cands[..|r.first.results|])
    && (r.second.Some? ==> |r.second.value.results| <= |r.first.timedOut|
                           && Attempts(d, 2) == Urls(r.first.timedOut[..|r.second.value.results|]))
    && (r.second.None? ==> Attempts(d, 2) == [])
  }

  lemma ShapedNotified(w: World, cands: seq<Candidate>, r: RunResult, d1: seq<Event>, d2: seq<Event>)
    returns (d: seq<Event>)
    requires Shaped(w, cands, r, d1, d2)
    ensures Notified(w, cands, r, d)
  {
    var retried := r.second.Some?;
    d := d1 + (if retried then [Toast(ProvisioningRetryMessage)] + d2 else []) + Closing(r.success);
    TallyOne(d1, d2, retried, r.success, HideWaiting);
    TallyOne(d1, d2, retried, r.success, ShowWaiting);
    TallyOne(d1, d2, retried, r.success, Toast(ProvisioningRetryMessage));
    TallyOne(d1, d2, retried, r.success, ToastError(ProvisioningFailedMessage));
    CountClosing(r.success, HideWaiting);
    CountClosing(r.success, ShowWaiting);
    CountClosing(r.success, Toast(ProvisioningRetryMessage));
    CountClosing(r.success, ToastError(ProvisioningFailedMessage));
    TallyAttempts(d1, d2, retried, r.success, 1);
    TallyAttempts(d1, d2, retried, r.success, 2);
  }

  lemma RunNotifications(w: World, freshId: string, net: Network) returns (d: seq<Event>)
    ensures Notified(w, CandidateList(LastWorkingUrl(w.prefs)), ProvisioningRun(w, freshId, net), d)
  {
    var d1, d2 := RunShape(w, freshId, net);
    d := ShapedNotified(w, CandidateList(LastWorkingUrl(w.prefs)), ProvisioningRun(w, freshId, net), d1, d2);
  }

  /**
   * A run saves the provisioning URL that succeeded in either cycle as the
   * last working URL, keeps the old one when neither succeeded, and never
   * replaces a stored device id.
   */
  lemma RunSaves(w: World, freshId: string, net: Network)
    ensures var r := ProvisioningRun(w, freshId, net);
      && (r.success <==> SavedUrl(r).Some?)
      && LastWorkingUrl(r.world.prefs) == (if r.success then SavedUrl(r) else LastWorkingUrl(w.prefs))
      && (PrefDeviceId in w.prefs ==> PrefDeviceId in r.world.prefs && r.world.prefs[PrefDeviceId] == w.prefs[PrefDeviceId])
  {
    var cands := CandidateList(LastWorkingUrl(w.prefs));
    var c1 := CycleRun(w, cands, 1, ProvisionTimeoutQuickMs, freshId, net);
    CycleSaves(w, cands, 1, ProvisionTimeoutQuickMs, freshId, net);
    if c1.succeeded.None? && c1.timedOut != [] {
      var retry := Emit(c1.world, Toast(ProvisioningRetryMessage));
      CycleSaves(retry, c1.timedOut, 2, ProvisionTimeoutPatientMs, freshId, net);
    }
  }

  /**
   * Cycle 2 runs over exactly the cycle-1 candidates whose try timed out,
   * in their order: every candidate was taken up, and a candidate is in the
   * retry list iff its result was a socket timeout. A relay that returned
   * nothing, a refused fetch or any other exception keeps it out.
   */
  lemma RetryCandidates(w: World, freshId: string, net: Network)
    ensures var r := ProvisioningRun(w, freshId, net);
            var cands := CandidateList(LastWorkingUrl(w.prefs));
      r.second.Some? ==>
        && |r.first.results| == |cands|
        && r.first.timedOut == TimedOutOf(cands, r.first.results)
        && (forall c :: c in r.first.timedOut <==>
              exists i :: 0 <= i < |cands| && cands[i] == c && r.first.results[i] == Throw(SocketTimeoutException))
  {
    var r := ProvisioningRun(w, freshId, net);
    var cands := CandidateList(LastWorkingUrl(w.prefs));
    CycleOutcomes(w, cands, 1, ProvisionTimeoutQuickMs, freshId, net);
    if r.second.Some? {
      assert cands[..|r.first.results|] == cands;
      forall c {
        TimedOutOfMembers(cands, r.first.results, c);
      }
    }
  }

  /** A network that never times out never leads to the retry cycle. */
  lemma NoRetryWithoutTimeouts(w: World, freshId: string, net: Network)
    requires forall q :: !net(q).TimedOut?
    ensures ProvisioningRun(w, freshId, net).second.None?
  {
    CycleWithoutTimeouts(w, CandidateList(LastWorkingUrl(w.prefs)), 1, ProvisionTimeoutQuickMs, freshId, net);
  }

  /**
   * With no last working URL stored, the primary server is tried first;
   * when it answers the configuration request with 200, the run ends in
   * cycle 1 after that one candidate and saves the primary URL.
   */
  lemma PrimaryAnswersFirst(w: World, freshId: string, net: Network)
    requires PrefLastWorkingUrl !in w.prefs
    requires var id := DeviceIdLookup(w, freshId).result;
             var answer := net(Request(w.sent, ProvisionRequestUrl(PrimaryProvisionUrl, id), ProvisionTimeoutQuickMs));
             answer.Answered? && answer.code == HttpOk
    ensures var r := ProvisioningRun(w, freshId, net);
      && r.success && r.second.None? && |r.first.results| == 1
      && LastWorkingUrl(r.world.prefs) == Some(PrimaryProvisionUrl)
  {
    var cands := CandidateList(None);
    assert cands[0] == Candidate(PrimaryProvisionUrl, true);
    var w0 := Emit(w, Attempt(1, PrimaryProvisionUrl));
    assert DeviceIdLookup(w0, freshId).result == DeviceIdLookup(w, freshId).result;
    assert DeviceIdLookup(w0, freshId).world.sent == w.sent;
    RunSaves(w, freshId, net);
  }

  // ----------------------------------------------------------- magic links

  /**
   * A magic link is acted on only with the `vsemoionline` scheme, a
   * hierarchical form and a `url` parameter. Without the scheme it is
   * ignored, in opaque form it crashes on `getQueryParameter`, and without
   * a `url` parameter it is rejected; none of these changes anything. The
   * first `url` value is fetched; a success saves it as the last working
   * URL, any other end leaves that URL alone, and a stored device id is
   * kept.
   */
  lemma MagicLinkOutcomes(w: World, data: Option<Uri>, freshId: string, net: Network)
    ensures var m := MagicLinkRun(w, data, freshId, net);
      && (m.result.NotMagicLink? <==> data.None? || data.value.scheme != Some(MagicLinkScheme))
      && (m.result == Crashed(UnsupportedOperationException) <==>
            data.Some? && data.value.scheme == Some(MagicLinkScheme) && !data.value.hierarchical)
      && (m.result.MissingUrlParameter? <==>
            data.Some? && data.value.scheme == Some(MagicLinkScheme) && data.value.hierarchical
            && QueryParameter(data.value.query, "url").None?)
      && ((m.result.NotMagicLink? || m.result.MissingUrlParameter? || m.result == Crashed(UnsupportedOperationException))
            ==> m.world == w)
      && (m.result.Imported? ==>
            && QueryParameter(data.value.query, "url") == Some(m.result.provisionUrl)
            && LastWorkingUrl(m.world.prefs) == Some(m.result.provisionUrl))
      && (!m.result.Imported? ==> LastWorkingUrl(m.world.prefs) == LastWorkingUrl(w.prefs))
      && (PrefDeviceId in w.prefs ==> PrefDeviceId in m.world.prefs && m.world.prefs[PrefDeviceId] == w.prefs[PrefDeviceId])
  {
    if data.Some? && data.value.scheme == Some(MagicLinkScheme) && data.value.hierarchical {
      var u := QueryParameter(data.value.query, "url");
      if u.Some? {
        var _ := ConfigFetchEffects(Emit(w, ShowWaiting), u.value, ProvisionTimeoutPatientMs, freshId, net);
      }
    }
  }

  /**
   * A magic link that is acted on shows the indicator, sends its requests
   * with the patient timeout, saves the URL if it imported, and hides the
   * indicator again, except when the request throws, which ends it with
   * the indicator still shown.
   */
  lemma MagicLinkTrace(w: World, data: Option<Uri>, freshId: string, net: Network) returns (d: seq<Event>)
    ensures var m := MagicLinkRun(w, data, freshId, net);
      && data.Some? && data.value.scheme == Some(MagicLinkScheme) && data.value.hierarchical
      && QueryParameter(data.value.query, "url").Some? ==>
        && m.world.trace == w.trace + [ShowWaiting] + d
             + (if m.result.Imported? then [PutString(PrefLastWorkingUrl, m.result.provisionUrl)] else [])
             + (if m.result.Crashed? then [] else [HideWaiting])
        && AllQuiet(d, ProvisionTimeoutPatientMs)
  {
    d := [];
    if data.Some? && data.value.scheme == Some(MagicLinkScheme) && data.value.hierarchical {
      var u := QueryParameter(data.value.query, "url");
      if u.Some? {
        d := ConfigFetchEffects(Emit(w, ShowWaiting), u.value, ProvisionTimeoutPatientMs, freshId, net);
      }
    }
  }

  /** A direct candidate whose configuration request times out. */
  lemma DirectTimesOut(w: World, url: string, cycle: nat, timeoutMs: int, freshId: string, net: Network)
    requires net(Request(w.sent, ProvisionRequestUrl(url, DeviceIdLookup(w, freshId).result), timeoutMs)) == TimedOut
    ensures var a := CandidateAttempt(w, Candidate(url, true), cycle, timeoutMs, freshId, net);
      && a.result == Throw(SocketTimeoutException) && a.world.sent == w.sent + 1
      && PrefDeviceId in a.world.prefs && a.world.prefs[PrefDeviceId] == DeviceIdLookup(w, freshId).result
      && LastWorkingUrl(a.world.prefs) == LastWorkingUrl(w.prefs)
  {
    var w0 := Emit(w, Attempt(cycle, url));
    assert DeviceIdLookup(w0, freshId).result == DeviceIdLookup(w, freshId).result;
  }

  /** A relay whose request times out. */
  lemma RelayTimesOut(w: World, url: string, cycle: nat, timeoutMs: int, freshId: string, net: Network)
    requires net(Request(w.sent, url, timeoutMs)) == TimedOut
    ensures var a := CandidateAttempt(w, Candidate(url, false), cycle, timeoutMs, freshId, net);
      a.result == Throw(SocketTimeoutException) && a.world.sent == w.sent + 1 && a.world.prefs == w.prefs
  {
  }

  /**
   * With no last working URL stored: the primary times out, the relay
   * answers 200 and the provisioning URL it names answers 200. The run
   * succeeds in cycle 1 through the relay and saves the URL the relay
   * named; the primary was kept for a retry that never comes.
   */
  lemma RelayRescuesTimedOutPrimary(w: World, freshId: string, net: Network)
    requires PrefLastWorkingUrl !in w.prefs
    requires var id := DeviceIdLookup(w, freshId).result;
             var relay := net(Request(w.sent + 1, FallbackPlatformUrls[0], ProvisionTimeoutQuickMs));
      && net(Request(w.sent, ProvisionRequestUrl(PrimaryProvisionUrl, id), ProvisionTimeoutQuickMs)) == TimedOut
      && relay.Answered? && relay.code == HttpOk
      && var provision := net(Request(w.sent + 2, ProvisionRequestUrl(NormaliseEndpoint(relay.body), id), ProvisionTimeoutQuickMs));
         provision.Answered? && provision.code == HttpOk
    ensures var r := ProvisioningRun(w, freshId, net);
            var relay := net(Request(w.sent + 1, FallbackPlatformUrls[0], ProvisionTimeoutQuickMs));
      && r.success && r.second.None?
      && r.first.timedOut == [Candidate(PrimaryProvisionUrl, true)]
      && LastWorkingUrl(r.world.prefs) == Some(NormaliseEndpoint(relay.body))
  {
    var primary := Candidate(PrimaryProvisionUrl, true);
    var relay := Candidate(FallbackPlatformUrls[0], false);
    var cands := CandidateList(None);
    assert cands == [primary, relay];
    DirectTimesOut(w, PrimaryProvisionUrl, 1, ProvisionTimeoutQuickMs, freshId, net);
    var a := CandidateAttempt(w, primary, 1, ProvisionTimeoutQuickMs, freshId, net);
    var b := CandidateAttempt(a.world, relay, 1, ProvisionTimeoutQuickMs, freshId, net);
    assert Succeeded(b.result);
    assert cands[1..] == [relay];
    RunSaves(w, freshId, net);
  }

  /** Cycle 1 with no last working URL, when the primary and the relay both time out. */
  lemma BothTimeOut(w: World, freshId: string, net: Network)
    requires PrefLastWorkingUrl !in w.prefs
    requires var id := DeviceIdLookup(w, freshId).result;
      && net(Request(w.sent, ProvisionRequestUrl(PrimaryProvisionUrl, id), ProvisionTimeoutQuickMs)) == TimedOut
      && net(Request(w.sent + 1, FallbackPlatformUrls[0], ProvisionTimeoutQuickMs)) == TimedOut
    ensures var c := CycleRun(w, CandidateList(None), 1, ProvisionTimeoutQuickMs, freshId, net);
      && c.succeeded.None? && c.timedOut == CandidateList(None)
      && c.world.sent == w.sent + 2 && PrefLastWorkingUrl !in c.world.prefs
      && PrefDeviceId in c.world.prefs && c.world.prefs[PrefDeviceId] == DeviceIdLookup(w, freshId).result
  {
    var primary := Candidate(PrimaryProvisionUrl, true);
    var relay := Candidate(FallbackPlatformUrls[0], false);
    var cands := CandidateList(None);
    assert cands == [primary, relay];
    DirectTimesOut(w, PrimaryProvisionUrl, 1, ProvisionTimeoutQuickMs, freshId, net);
    var a := CandidateAttempt(w, primary, 1, ProvisionTimeoutQuickMs, freshId, net);
    RelayTimesOut(a.world, FallbackPlatformUrls[0], 1, ProvisionTimeoutQuickMs, freshId, net);
    var b := CandidateAttempt(a.world, relay, 1, ProvisionTimeoutQuickMs, freshId, net);
    assert cands[1..] == [relay] && cands[1..][1..] == [];
    var tail := CycleRun(a.world, [relay], 1, ProvisionTimeoutQuickMs, freshId, net);
    assert tail.timedOut == [relay] && tail.world == b.world;
  }

  /**
   * When every candidate times out in cycle 1, the advisory toast
   * is shown and cycle 2 retries them all with the patient timeout; the
   * primary answers this time, and it is saved.
   */
  lemma PrimaryAnswersOnRetry(w: World, freshId: string, net: Network)
    requires PrefLastWorkingUrl !in w.prefs
    requires var id := DeviceIdLookup(w, freshId).result;
             var answer := net(Request(w.sent + 2, ProvisionRequestUrl(PrimaryProvisionUrl, id), ProvisionTimeoutPatientMs));
      && net(Request(w.sent, ProvisionRequestUrl(PrimaryProvisionUrl, id), ProvisionTimeoutQuickMs)) == TimedOut
      && net(Request(w.sent + 1, FallbackPlatformUrls[0], ProvisionTimeoutQuickMs)) == TimedOut
      && answer.Answered? && answer.code == HttpOk
    ensures var r := ProvisioningRun(w, freshId, net);
      && r.first.timedOut == CandidateList(None) && r.second.Some?
      && r.success && |r.second.value.results| == 1
      && LastWorkingUrl(r.world.prefs) == Some(PrimaryProvisionUrl)
  {
    var cands := CandidateList(None);
    BothTimeOut(w, freshId, net);
    var c1 := CycleRun(w, cands, 1, ProvisionTimeoutQuickMs, freshId, net);
    var retry := Emit(c1.world, Toast(ProvisioningRetryMessage));
    assert c1.timedOut[0] == Candidate(PrimaryProvisionUrl, true);
    var w0 := Emit(retry, Attempt(2, PrimaryProvisionUrl));
    assert DeviceIdLookup(w0, freshId).result == DeviceIdLookup(w, freshId).result;
    RunSaves(w, freshId, net);
  }

  /** Without a 200 answer no attempt succeeds. */
  lemma AttemptWithoutOk(w: World, c: Candidate, cycle: nat, timeoutMs: int, freshId: string, net: Network)
    requires forall q :: !(net(q).Answered? && net(q).code == HttpOk)
    ensures !Succeeded(CandidateAttempt(w, c, cycle, timeoutMs, freshId, net).result)
  {
    var w0 := Emit(w, Attempt(cycle, c.url));
    var p := ProvisionUrlLookup(w0, c, timeoutMs, net);
    if Succeeded(p.result) {
      var id := DeviceIdLookup(p.world, freshId);
      var u := ProvisionRequestUrl(p.result.value.value, id.result);
      assert !(net(Request(id.world.sent, u, timeoutMs)).Answered? && net(Request(id.world.sent, u, timeoutMs)).code == HttpOk);
    }
  }

  lemma {:induction false} CycleWithoutOk(w: World, cands: seq<Candidate>, cycle: nat, timeoutMs: int, freshId: string, net: Network)
    requires forall q :: !(net(q).Answered? && net(q).code == HttpOk)
    ensures CycleRun(w, cands, cycle, timeoutMs, freshId, net).succeeded.None?
    decreases |cands|
  {
    if cands != [] {
      var a := CandidateAttempt(w, cands[0], cycle, timeoutMs, freshId, net);
      AttemptWithoutOk(w, cands[0], cycle, timeoutMs, freshId, net);
      CycleWithoutOk(a.world, cands[1..], cycle, timeoutMs, freshId, net);
    }
  }

  /**
   * When no request is ever answered 200, whatever mix of
   * timeouts and errors, the run fails and shows the failure toast exactly
   * once, and the last working URL keeps its value.
   */
  lemma NothingAnswersOk(w: World, freshId: string, net: Network) returns (d: seq<Event>)
    requires forall q :: !(net(q).Answered? && net(q).code == HttpOk)
    ensures var r := ProvisioningRun(w, freshId, net);
      && !r.success
      && r.world.trace == w.trace + d
      && Count(d, ToastError(ProvisioningFailedMessage)) == 1
      && LastWorkingUrl(r.world.prefs) == LastWorkingUrl(w.prefs)
  {
    var cands := CandidateList(LastWorkingUrl(w.prefs));
    var c1 := CycleRun(w, cands, 1, ProvisionTimeoutQuickMs, freshId, net);
    CycleWithoutOk(w, cands, 1, ProvisionTimeoutQuickMs, freshId, net);
    CycleWithoutOk(Emit(c1.world, Toast(ProvisioningRetryMessage)), c1.timedOut, 2, ProvisionTimeoutPatientMs, freshId, net);
    d := RunNotifications(w, freshId, net);
    RunSaves(w, freshId, net);
  }

  /**
   * As written, a magic link whose provisioning server times out ends the
   * coroutine with the exception: nothing is saved and the waiting
   * indicator, once shown, is never hidden.
   */
  lemma MagicLinkTimeoutCrashes(w: World, data: Option<Uri>, freshId: string, net: Network)
    requires data.Some? && data.value.scheme == Some(MagicLinkScheme) && data.value.hierarchical
    requires QueryParameter(data.value.query, "url").Some?
    requires var u := QueryParameter(data.value.query, "url").value;
             var id := DeviceIdLookup(w, freshId).result;
             net(Request(w.sent, ProvisionRequestUrl(u, id), ProvisionTimeoutPatientMs)) == TimedOut
    ensures var m := MagicLinkRun(w, data, freshId, net);
      && m.result == Crashed(SocketTimeoutException)
      && |w.trace| < |m.world.trace| && m.world.trace[|w.trace|] == ShowWaiting
      && HideWaiting !in m.world.trace[|w.trace|..]
      && LastWorkingUrl(m.world.prefs) == LastWorkingUrl(w.prefs)
  {
    var u := QueryParameter(data.value.query, "url").value;
    var w0 := Emit(w, ShowWaiting);
    assert DeviceIdLookup(w0, freshId).result == DeviceIdLookup(w, freshId).result;
    var m := MagicLinkRun(w, data, freshId, net);
    var d := MagicLinkTrace(w, data, freshId, net);
    MagicLinkOutcomes(w, data, freshId, net);
    assert m.world.trace[|w.trace|..] == [ShowWaiting] + d;
  }

  /**
   * As written, an opaque `vsemoionline:` link makes `getQueryParameter`
   * throw on the calling thread, whatever query it carries.
   */
  lemma MagicLinkOpaqueCrashes(w: World, data: Option<Uri>, freshId: string, net: Network)
    requires data.Some? && data.value.scheme == Some(MagicLinkScheme) && !data.value.hierarchical
    ensures MagicLinkRun(w, data, freshId, net).result == Crashed(UnsupportedOperationException)
  {
  }

  /**
   * With the exceptions caught, no magic link crashes: an opaque one is
   * rejected like one without a `url` parameter, and every link that is
   * acted on hides the indicator last. The guarded version imports exactly
   * when the code as written does, and agrees with it whenever that code
   * does not crash.
   */
  lemma MagicLinkGuardedHidesIndicator(w: World, data: Option<Uri>, freshId: string, net: Network)
    ensures var g := MagicLinkRunGuarded(w, data, freshId, net);
      && !g.result.Crashed?
      && (data.Some? && data.value.scheme == Some(MagicLinkScheme) && !data.value.hierarchical ==>
            g == Step(MissingUrlParameter, w))
      && (!g.result.NotMagicLink? && !g.result.MissingUrlParameter? ==>
            |g.world.trace| > 0 && g.world.trace[|g.world.trace| - 1] == HideWaiting)
      && (g.result.Imported? <==> MagicLinkRun(w, data, freshId, net).result.Imported?)
      && (!MagicLinkRun(w, data, freshId, net).result.Crashed? ==> g == MagicLinkRun(w, data, freshId, net))
  {
  }
}
