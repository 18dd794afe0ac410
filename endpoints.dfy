/**
 * The constants of MainActivity's companion object and the pure parts of the
 * provisioning protocol: the candidate list, the normalisation of a relay's
 * answer into a provisioning URL, and the device-id request URL.
 */
module Endpoints {
  import opened Wrappers
  import opened KotlinText

  /** Keys in the `vsemoionline_prefs` preference file. */
  const PrefLastWorkingUrl: string := "last_working_provisioning_url"
  const PrefDeviceId: string := "device_id"

  /** Cycle 1 (quick scan) and cycle 2 (patient retry) timeouts, in ms. */
  const ProvisionTimeoutQuickMs: int := 3000
  const ProvisionTimeoutPatientMs: int := 10000

  const PrimaryProvisionUrl: string := "http://103.241.67.124:8888/provision"

  /** Relay ("platform") URLs that answer with the current provisioning host. */
  const FallbackPlatformUrls: seq<string> := [
    "https://gist.githubusercontent.com/dmitry-ulyanichev/0b552cd7f00f8735f8a4832321825162/raw/a1592ec7783bd7c5248a19892779aa199feddd64/endpoint.txt"
  ]

  /**
   * A source to try: `isDirect` means `url` is itself a provisioning URL;
   * otherwise it is a relay whose answer names one.
   */
  datatype Candidate = Candidate(url: string, isDirect: bool)

  /** Where the primary URL sits in the candidate list. */
  function PrimaryIndex(lastWorking: Option<string>): nat {
    if lastWorking.Some? then 1 else 0
  }

  /** The relays, in listed order, each marked indirect. */
  function Relays(platformUrls: seq<string>): (r: seq<Candidate>)
    ensures |r| == |platformUrls|
    ensures forall j :: 0 <= j < |r| ==> r[j] == Candidate(platformUrls[j], false)
  {
    seq(|platformUrls|, j requires 0 <= j < |platformUrls| => Candidate(platformUrls[j], false))
  }

  /** The candidate list of one provisioning run, in priority order. */
  function CandidateList(lastWorking: Option<string>): seq<Candidate> {
    (if lastWorking.Some? then [Candidate(lastWorking.value, true)] else [])
    + [Candidate(PrimaryProvisionUrl, true)]
    + Relays(FallbackPlatformUrls)
  }

  /**
   * Builds the list the way the orchestrator does, by appending to an
   * initially empty list: the last working URL, the primary URL, then every
   * relay.
   */
  method BuildCandidates(lastWorking: Option<string>) returns (urlsToTry: seq<Candidate>)
    ensures urlsToTry == CandidateList(lastWorking)
    ensures |urlsToTry| == PrimaryIndex(lastWorking) + 1 + |FallbackPlatformUrls|
    ensures lastWorking.Some? ==> urlsToTry[0] == Candidate(lastWorking.value, true)
    ensures urlsToTry[PrimaryIndex(lastWorking)] == Candidate(PrimaryProvisionUrl, true)
    ensures forall j :: 0 <= j < |FallbackPlatformUrls| ==>
              urlsToTry[PrimaryIndex(lastWorking) + 1 + j] == Candidate(FallbackPlatformUrls[j], false)
    ensures forall k :: 0 <= k < |urlsToTry| ==> (urlsToTry[k].isDirect <==> k <= PrimaryIndex(lastWorking))
  {
    urlsToTry := [];
    if lastWorking.Some? {
      urlsToTry := urlsToTry + [Candidate(lastWorking.value, true)];
    }
    urlsToTry := urlsToTry + [Candidate(PrimaryProvisionUrl, true)];
    var head := urlsToTry;
    var n := 0;
    while n < |FallbackPlatformUrls|
      invariant 0 <= n <= |FallbackPlatformUrls|
      invariant urlsToTry == head + Relays(FallbackPlatformUrls[..n])
    {
      assert FallbackPlatformUrls[..n + 1] == FallbackPlatformUrls[..n] + [FallbackPlatformUrls[n]];
      urlsToTry := urlsToTry + [Candidate(FallbackPlatformUrls[n], false)];
      n := n + 1;
    }
    assert FallbackPlatformUrls[..n] == FallbackPlatformUrls;
  }

  /** No two candidates of `cs` share a URL. */
  predicate DistinctUrls(cs: seq<Candidate>) {
    forall i, j :: 0 <= i < j < |cs| ==> cs[i].url != cs[j].url
  }

  /** `cs` without the candidates whose URL is `u`, in their order. */
  function WithoutUrl(cs: seq<Candidate>, u: string): (r: seq<Candidate>)
    ensures forall c :: c in r <==> c in cs && c.url != u
    ensures (forall i :: 0 <= i < |cs| ==> cs[i].url != u) ==> r == cs
    ensures DistinctUrls(cs) ==> DistinctUrls(r)
  {
    if cs == [] then []
    else
      var rest := WithoutUrl(cs[1..], u);
      assert DistinctUrls(cs) ==> DistinctUrls(cs[1..]) by {
        if DistinctUrls(cs) {
          forall i, j | 0 <= i < j < |cs| - 1 ensures cs[1..][i].url != cs[1..][j].url {
            assert cs[1..][i] == cs[i + 1] && cs[1..][j] == cs[j + 1];
          }
        }
      }
      if cs[0].url == u then rest
      else
        assert DistinctUrls(cs) ==> forall c :: c in rest ==> c.url != cs[0].url by {
          if DistinctUrls(cs) {
            forall c | c in rest ensures c.url != cs[0].url {
              var k :| 0 <= k < |cs| - 1 && cs[1..][k] == c;
              assert cs[k + 1] == c;
            }
          }
        }
        [cs[0]] + rest
  }

  /** Helper: the primary URL is not a relay's URL. */
  lemma PrimaryIsNoRelay()
    ensures PrimaryProvisionUrl !in FallbackPlatformUrls
  {
    assert |PrimaryProvisionUrl| != |FallbackPlatformUrls[0]|;
  }

  /** Without a last working URL, the candidate list names every URL once. */
  lemma BaseListDistinct()
    ensures DistinctUrls(CandidateList(None))
  {
    PrimaryIsNoRelay();
    assert CandidateList(None) == [Candidate(PrimaryProvisionUrl, true), Candidate(FallbackPlatformUrls[0], false)];
  }

  /**
   * The candidate list with its last working URL named once: a later entry
   * with the same URL (the primary URL, or a relay) is dropped.
   */
  function DedupedCandidateList(lastWorking: Option<string>): (r: seq<Candidate>)
    ensures DistinctUrls(r)
    ensures lastWorking.Some? ==> |r| > 0 && r[0] == Candidate(lastWorking.value, true)
    ensures forall c :: c in r <==>
              c in CandidateList(lastWorking) && (lastWorking.Some? && c.url == lastWorking.value ==> c.isDirect)
    ensures (lastWorking.None? || (lastWorking.value != PrimaryProvisionUrl && lastWorking.value !in FallbackPlatformUrls))
              ==> r == CandidateList(lastWorking)
  {
    var tail := CandidateList(None);
    BaseListDistinct();
    match lastWorking
    case None => tail
    case Some(u) =>
      var rest := WithoutUrl(tail, u);
      assert CandidateList(lastWorking) == [Candidate(u, true)] + tail;
      assert (u != PrimaryProvisionUrl && u !in FallbackPlatformUrls) ==> rest == tail by {
        assert tail == [Candidate(PrimaryProvisionUrl, true), Candidate(FallbackPlatformUrls[0], false)];
      }
      assert DistinctUrls([Candidate(u, true)] + rest) by {
        forall i, j | 0 < i < j < 1 + |rest| ensures ([Candidate(u, true)] + rest)[i].url != ([Candidate(u, true)] + rest)[j].url {
          assert ([Candidate(u, true)] + rest)[i] == rest[i - 1];
        }
        forall j | 0 < j < 1 + |rest| ensures ([Candidate(u, true)] + rest)[j].url != u {
          assert rest[j - 1] in rest;
        }
      }
      [Candidate(u, true)] + rest
  }

  predicate HasHttpScheme(s: string) {
    StartsWith(s, "http://") || StartsWith(s, "https://")
  }

  /**
   * What fetchProvisioningEndpoint makes of a relay's 200 answer: the trimmed
   * text, if it is already an http(s) URL, or else `http://<text>/provision`.
   */
  function NormaliseEndpoint(endpointText: string): (r: string)
    ensures HasHttpScheme(r)
    ensures r == Trim(endpointText) <==> HasHttpScheme(Trim(endpointText))
    ensures !HasHttpScheme(Trim(endpointText)) ==>
              |r| == |Trim(endpointText)| + 17 && r[7..|r| - 10] == Trim(endpointText)
  {
    var t := Trim(endpointText);
    if StartsWith(t, "http://") || StartsWith(t, "https://") then t
    else
      var r := "http://" + t + "/provision";
      assert "http://" <= r;
      r
  }

  /** A normalised URL normalises to itself. */
  lemma NormaliseIdempotent(endpointText: string)
    ensures NormaliseEndpoint(NormaliseEndpoint(endpointText)) == NormaliseEndpoint(endpointText)
  {
    var t := Trim(endpointText);
    var r := NormaliseEndpoint(endpointText);
    TrimTrimmed(endpointText);
    if !HasHttpScheme(t) {
      assert r[0] == 'h' && r[|r| - 1] == 'n';
    }
    assert Trimmed(r);
    TrimOfTrimmed(r);
  }

  /** An answer that is already a URL, once trimmed, is used as it is. */
  lemma NormaliseKeepsUrl(endpointText: string)
    requires HasHttpScheme(Trim(endpointText))
    ensures NormaliseEndpoint(endpointText) == Trim(endpointText)
  {
  }

  /** Any other answer is taken as a host, reached over plain HTTP. */
  lemma NormaliseWrapsHost(endpointText: string)
    requires !HasHttpScheme(Trim(endpointText))
    ensures NormaliseEndpoint(endpointText) == "http://" + Trim(endpointText) + "/provision"
  {
  }

  /**
   * A relay answering with a bare domain, such as `provision.example.com`,
   * names a provisioning server reached over plain HTTP.
   */
  lemma NormaliseExampleDomain()
    ensures NormaliseEndpoint("provision.example.com") == "http://provision.example.com/provision"
  {
    var h := "provision.example.com";
    assert Trim(h) == h by {
      assert Trimmed(h);
      TrimOfTrimmed(h);
    }
    assert !HasHttpScheme(Trim(h)) by {
      assert h[0] != 'h';
    }
    NormaliseWrapsHost(h);
    WrappedDomainLiteral();
  }

  /** A relay answering `103.241.67.124:8888` names the primary provisioning URL. */
  lemma NormaliseExampleHostPort()
    ensures NormaliseEndpoint("103.241.67.124:8888") == PrimaryProvisionUrl
  {
    var h := "103.241.67.124:8888";
    assert Trim(h) == h by {
      assert Trimmed(h);
      TrimOfTrimmed(h);
    }
    assert !HasHttpScheme(Trim(h)) by {
      assert h[0] != 'h';
    }
    NormaliseWrapsHost(h);
    WrappedHostPortLiteral();
  }

  /** String-literal bookkeeping for the examples above. */
  lemma WrappedDomainLiteral()
    ensures "http://" + "provision.example.com" + "/provision" == "http://provision.example.com/provision"
  {
  }

  lemma WrappedHostPortLiteral()
    ensures "http://" + "103.241.67.124:8888" + "/provision" == PrimaryProvisionUrl
  {
  }

  /** Whitespace around the relay's answer, such as a final newline, is ignored. */
  lemma NormaliseIgnoresPadding(before: string, text: string, after: string)
    requires AllWhitespace(before) && AllWhitespace(after) && Trimmed(text)
    ensures NormaliseEndpoint(before + text + after) == NormaliseEndpoint(text)
  {
    TrimSurrounded(before, text, after);
    TrimOfTrimmed(text);
  }

  /**
   * The URL fetchAndImportConfig requests: `device_id=<id>` appended as a
   * new query string, or as one more parameter when the URL has one.
   */
  function ProvisionRequestUrl(baseUrl: string, deviceId: string): (r: string)
    ensures StartsWith(r, baseUrl)
    ensures |r| == |baseUrl| + 1 + |"device_id="| + |deviceId|
    ensures r[|baseUrl|] == (if '?' in baseUrl then '&' else '?')
    ensures r[|baseUrl| + 1..] == "device_id=" + deviceId
  {
    var separator := if '?' in baseUrl then "&" else "?";
    baseUrl + separator + "device_id=" + deviceId
  }

  /**
   * The first `?` of the request URL is the first `?` of the base URL, or
   * the appended separator when the base URL has none.
   */
  lemma RequestUrlQueryStart(baseUrl: string, deviceId: string)
    ensures IndexOf(ProvisionRequestUrl(baseUrl, deviceId), '?')
         == (if '?' in baseUrl then IndexOf(baseUrl, '?') else Some(|baseUrl|))
  {
    var r := ProvisionRequestUrl(baseUrl, deviceId);
    IndexOfExtends(baseUrl, r, '?');
  }

  lemma {:induction false} IndexOfExtends(s: string, t: string, c: char)
    requires StartsWith(t, s)
    requires c in s || (|t| > |s| && t[|s|] == c)
    ensures IndexOf(t, c) == (if c in s then IndexOf(s, c) else Some(|s|))
  {
    if |s| > 0 && s[0] != c {
      assert t[1..][..|s| - 1] == s[1..];
      assert c in s ==> c in s[1..];
      IndexOfExtends(s[1..], t[1..], c);
    }
  }

  /** Different base URLs never give the same request URL for one device. */
  lemma RequestUrlInjective(base1: string, base2: string, deviceId: string)
    requires ProvisionRequestUrl(base1, deviceId) == ProvisionRequestUrl(base2, deviceId)
    ensures base1 == base2
  {
    var r := ProvisionRequestUrl(base1, deviceId);
    assert |base1| == |base2|;
    assert base1 == r[..|base1|] == base2;
  }
}
