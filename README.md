# VseMoiOnline provisioning, modelled in Dafny

The VseMoiOnline fork of v2rayNG adds automatic provisioning to its main
screen. When no server is configured, the activity fetches a VLESS config
from a backend and imports it. It tries a list of candidates in order: the
last URL that worked, then the hard-coded primary provisioning URL, then
"relay" platforms whose plain-text answer names the current provisioning
endpoint. Cycle 1 gives every request 3 seconds. Cycle 2 gives 10 seconds
and runs only when nothing succeeded, and only over the candidates that
timed out in cycle 1. A flag stops a second run from starting while one is
going. A `vsemoionline://…?url=…` magic link provisions from the URL it
carries.

This project models that logic, all of it in `MainActivity.kt`:

- `wrappers.dfy` (`Wrappers`) defines `Option`.
- `kotlin_text.dfy` (`KotlinText`) models Kotlin's `String.trim()`, which
  uses the JVM notion of whitespace, and `startsWith`; `contains` is
  Dafny's `in`. An `IndexOf` helper states where a URL's query starts. It
  proves that trimming is idempotent and drops exactly the surrounding
  whitespace.
- `endpoints.dfy` (`Endpoints`) holds the constants and the candidate list.
  It also holds how a relay's answer becomes a provisioning URL, and how
  the `device_id` query parameter is appended.
- `http.dfy` (`Http`) models the network as an oracle. A request is a
  number (how many requests came before it), a URL and a timeout. The
  answer is an HTTP status and body, a socket timeout, or another failure.
  It also defines the exceptions the Kotlin code throws and catches
  (`Result` = value or `Throw`).
- `protocol.dfy` (`Protocol`) gives each operation as a function on a
  `World`. A World is the preference file, the number of requests sent and
  the trace of observable effects: waiting indicator, toasts, imports,
  preference writes, requests and "attempting" log lines. It includes one
  cycle (`CycleRun`), the whole two-cycle run (`ProvisioningRun`) and the
  magic link (`MagicLinkRun`).
- `main_activity.dfy` (`Activity`) has the class `MainActivity`. Its fields
  are the source's `isProvisioningInProgress` flag and preference file,
  plus a request counter and an effect trace that the model adds. Its methods follow the
  Kotlin, loops included. Each one is proved to compute exactly the
  corresponding `Protocol` function. In the model only requests and
  `getQueryParameter` fail. A failed request is a `Throw` result that the
  callers handle as the Kotlin does, so no provisioning method ends by
  throwing; exceptions the Kotlin might meet elsewhere (in the import or
  the preference file) are not modelled.
- `properties.dfy` (`Properties`) proves what the provisioning code
  promises about those functions.

## Model

| member | source | states |
|---|---|---|
| Endpoints.Relays | V2rayNG/app/src/main/java/com/v2ray/ang/ui/MainActivity.kt:340-343 | every fallback platform URL becomes one relay candidate (not direct), in order |
| Endpoints.BuildCandidates | V2rayNG/app/src/main/java/com/v2ray/ang/ui/MainActivity.kt:329-343 | the list holds a saved last working URL first (direct), then the primary URL (direct), then every fallback platform (relay); a candidate is direct iff it lies at or before the primary's position |
| Endpoints.BaseListDistinct | V2rayNG/app/src/main/java/com/v2ray/ang/ui/MainActivity.kt:337-343 | with no last working URL, the candidate list names every URL once |
| Endpoints.WithoutUrl | V2rayNG/app/src/main/java/com/v2ray/ang/ui/MainActivity.kt:329-343 | dropping the entries with a given URL keeps exactly the other entries, is the identity when no entry has that URL, and keeps a list free of repeated URLs free of them |
| Endpoints.DedupedCandidateList | V2rayNG/app/src/main/java/com/v2ray/ang/ui/MainActivity.kt:329-343 | corrected list: no URL appears twice; the last working URL stays first; it holds exactly the source list's candidates except a relay or primary entry repeating the last working URL; it is the source's list whenever that URL is neither the primary nor a relay |
| Endpoints.NormaliseEndpoint | V2rayNG/app/src/main/java/com/v2ray/ang/ui/MainActivity.kt:449-460 | the result always has an http(s) scheme; it is the trimmed answer iff that already starts with `http://` or `https://`, and otherwise `http://<answer>/provision` |
| Endpoints.NormaliseIdempotent | V2rayNG/app/src/main/java/com/v2ray/ang/ui/MainActivity.kt:449-460 | normalising an already normalised endpoint changes nothing |
| Endpoints.NormaliseKeepsUrl | V2rayNG/app/src/main/java/com/v2ray/ang/ui/MainActivity.kt:455-456 | an answer that is already a URL is used as it is, after trimming |
| Endpoints.NormaliseWrapsHost | V2rayNG/app/src/main/java/com/v2ray/ang/ui/MainActivity.kt:457-460 | any other answer is taken as host[:port] and wrapped as `http://…/provision` |
| Endpoints.NormaliseExampleDomain | V2rayNG/app/src/main/java/com/v2ray/ang/ui/MainActivity.kt:431-460 | a relay answering with the domain `provision.example.com`, the answer form named at line 433, gives `http://provision.example.com/provision` |
| Endpoints.NormaliseExampleHostPort | V2rayNG/app/src/main/java/com/v2ray/ang/ui/MainActivity.kt:431-460 | a relay answering `103.241.67.124:8888`, the example at line 433, gives exactly the primary provisioning URL of line 65 |
| Endpoints.NormaliseIgnoresPadding | V2rayNG/app/src/main/java/com/v2ray/ang/ui/MainActivity.kt:449 | whitespace around a relay's answer does not change the provisioning URL derived from it |
| Endpoints.ProvisionRequestUrl | V2rayNG/app/src/main/java/com/v2ray/ang/ui/MainActivity.kt:482-483 | the request URL is the base URL, then `&` when the base already has a `?` and `?` otherwise, then `device_id=<id>` |
| Endpoints.RequestUrlQueryStart | V2rayNG/app/src/main/java/com/v2ray/ang/ui/MainActivity.kt:482-483 | the first `?` of the request URL is the base URL's own first `?`, or the appended separator when the base has none |
| Endpoints.RequestUrlInjective | V2rayNG/app/src/main/java/com/v2ray/ang/ui/MainActivity.kt:482-483 | two base URLs with the same device id give the same request URL only when they are equal |
| KotlinText.TrimStartSuffix | V2rayNG/app/src/main/java/com/v2ray/ang/ui/MainActivity.kt:449 | trimming the start gives a suffix that starts with non-whitespace or is empty, after only whitespace |
| KotlinText.TrimEndPrefix | V2rayNG/app/src/main/java/com/v2ray/ang/ui/MainActivity.kt:449 | trimming the end gives a prefix that ends with non-whitespace or is empty, before only whitespace |
| KotlinText.TrimTrimmed | V2rayNG/app/src/main/java/com/v2ray/ang/ui/MainActivity.kt:449 | `trim()` leaves no whitespace at either end |
| KotlinText.TrimIsInfix | V2rayNG/app/src/main/java/com/v2ray/ang/ui/MainActivity.kt:449 | the trimmed text is a contiguous piece of the original, surrounded only by whitespace |
| KotlinText.TrimSurrounded | V2rayNG/app/src/main/java/com/v2ray/ang/ui/MainActivity.kt:496 | whitespace around text that has none at its ends is exactly what `trim()` removes |
| KotlinText.TrimIdempotent | V2rayNG/app/src/main/java/com/v2ray/ang/ui/MainActivity.kt:496 | trimming twice is trimming once |
| Http.Raised | V2rayNG/app/src/main/java/com/v2ray/ang/ui/MainActivity.kt:372-377 | a failed request raises `SocketTimeoutException` iff it timed out, and another exception otherwise |
| Protocol.QueryParameter | V2rayNG/app/src/main/java/com/v2ray/ang/ui/MainActivity.kt:245 | the parameter is found iff some query pair has that name, and its value is then the value of the first such pair |
| Properties.EndpointFetchEffects | V2rayNG/app/src/main/java/com/v2ray/ang/ui/MainActivity.kt:439-468 | asking a relay sends exactly one GET with the cycle's timeout and changes nothing else |
| Properties.EndpointFetchOutcomes | V2rayNG/app/src/main/java/com/v2ray/ang/ui/MainActivity.kt:447-467 | a relay gives a URL iff it answers 200 (then its normalised body), nothing on any other status, and re-throws a timeout or failure as the matching exception |
| Properties.DeviceIdStable | V2rayNG/app/src/main/java/com/v2ray/ang/ui/MainActivity.kt:268-281 | a stored device id is returned with nothing changed; otherwise the new id is stored and returned; any later lookup returns that id and changes nothing |
| Properties.ConfigFetchOutcomes | V2rayNG/app/src/main/java/com/v2ray/ang/ui/MainActivity.kt:479-516 | the config request goes to the device-id URL; it returns true iff the answer is 200, and then the trimmed body is imported and a success toast shown; a timeout or failure is re-thrown as the matching exception |
| Properties.ConfigFetchEffects | V2rayNG/app/src/main/java/com/v2ray/ang/ui/MainActivity.kt:479-516 | fetching a config adds only requests with its timeout, the import, the success toast and a new device id; it keeps the stored device id and the last working URL |
| Properties.FetchFromEffects | V2rayNG/app/src/main/java/com/v2ray/ang/ui/MainActivity.kt:363-364 | the same holds for the fetch made once a candidate's provisioning URL is known |
| Properties.LookupEffects | V2rayNG/app/src/main/java/com/v2ray/ang/ui/MainActivity.kt:356-361 | resolving a direct candidate leaves the state unchanged; resolving a relay sends exactly one GET of the relay's URL with the cycle's timeout; neither writes a preference |
| Properties.AttemptEffects | V2rayNG/app/src/main/java/com/v2ray/ang/ui/MainActivity.kt:353-371 | an attempt records its candidate first, then only effects of its own timeout; it keeps the device id and the last working URL |
| Properties.AttemptSucceedsWith | V2rayNG/app/src/main/java/com/v2ray/ang/ui/MainActivity.kt:356-367 | a successful attempt's provisioning URL is the candidate's own URL when direct, and the normalised 200 answer of its relay otherwise |
| Properties.TimedOutOfMembers | V2rayNG/app/src/main/java/com/v2ray/ang/ui/MainActivity.kt:372-374 | a candidate is kept for cycle 2 iff one of its tries failed with a socket timeout; the list is never longer than the tries |
| Properties.CycleOutcomes | V2rayNG/app/src/main/java/com/v2ray/ang/ui/MainActivity.kt:350-379 | a cycle takes candidates up in order; it stops at the first success, and only that last try succeeded; with no success it tries every candidate; the timed-out list is exactly the tried candidates whose result was a socket timeout |
| Properties.CycleEffects | V2rayNG/app/src/main/java/com/v2ray/ang/ui/MainActivity.kt:350-379 | a cycle only appends events of its own cycle and timeout, and its "attempting" lines name exactly the candidates it tried, in order |
| Properties.CycleSaves | V2rayNG/app/src/main/java/com/v2ray/ang/ui/MainActivity.kt:363-369 | a cycle keeps the device id; the last working URL becomes the succeeding provisioning URL, or stays unchanged when none succeeded |
| Properties.CycleSucceededUrl | V2rayNG/app/src/main/java/com/v2ray/ang/ui/MainActivity.kt:356-367 | what a cycle saves is the last tried candidate's own URL when direct, and otherwise the normalised body of some 200 answer of its relay (the relay's own address only if the relay names itself) |
| Properties.AttemptWithoutTimeouts | V2rayNG/app/src/main/java/com/v2ray/ang/ui/MainActivity.kt:372-377 | when no request times out, no attempt reports a socket timeout |
| Properties.CycleWithoutTimeouts | V2rayNG/app/src/main/java/com/v2ray/ang/ui/MainActivity.kt:372-377 | when no request times out, a cycle keeps nothing for retry |
| Properties.AttemptAllTimeouts | V2rayNG/app/src/main/java/com/v2ray/ang/ui/MainActivity.kt:353-374 | when every request times out, every attempt, direct or relay, reports a socket timeout |
| Properties.CycleAllTimeouts | V2rayNG/app/src/main/java/com/v2ray/ang/ui/MainActivity.kt:350-378 | when every request times out, a cycle succeeds nowhere, tries every candidate and keeps the whole list, in order, for retry |
| Properties.TimedOutOfDistinct | V2rayNG/app/src/main/java/com/v2ray/ang/ui/MainActivity.kt:372-374 | if the tried candidates name every URL once, so do the time-outs kept for cycle 2 |
| Properties.RunCycles | V2rayNG/app/src/main/java/com/v2ray/ang/ui/MainActivity.kt:345-415 | cycle 1 runs over the whole list with 3 s; cycle 2 runs iff cycle 1 failed with timeouts, over exactly those candidates with 10 s |
| Properties.RunTrace | V2rayNG/app/src/main/java/com/v2ray/ang/ui/MainActivity.kt:382-423 | the run's trace is cycle 1, then the retry toast and cycle 2 when cycle 2 runs, then the failure toast when nothing succeeded, then hiding the indicator |
| Properties.RunShape | V2rayNG/app/src/main/java/com/v2ray/ang/ui/MainActivity.kt:327-423 | both facts together for the whole provisioning job |
| Properties.CountClosing | V2rayNG/app/src/main/java/com/v2ray/ang/ui/MainActivity.kt:417-423 | the closing steps show the failure toast once iff the run failed, and hide the indicator exactly once |
| Properties.TallyOne | V2rayNG/app/src/main/java/com/v2ray/ang/ui/MainActivity.kt:382-423 | events no cycle produces occur in the job's trace only through the retry toast and the closing steps |
| Properties.TallyAttempts | V2rayNG/app/src/main/java/com/v2ray/ang/ui/MainActivity.kt:350-414 | each cycle's "attempting" lines come from that cycle alone |
| Properties.ShapedNotified | V2rayNG/app/src/main/java/com/v2ray/ang/ui/MainActivity.kt:382-423 | a run of that shape hides the indicator exactly once and as its last effect, never shows it again, shows the retry toast once iff cycle 2 ran and the failure toast once iff the run failed; its cycle-1 "attempting" lines name, in order, the candidates up to and including cycle 1's first success (all of them when none succeeds), and its cycle-2 lines name, in order, the timed-out candidates up to cycle 2's first success |
| Properties.RunNotifications | V2rayNG/app/src/main/java/com/v2ray/ang/ui/MainActivity.kt:327-423 | every provisioning job notifies the user in that way |
| Properties.RunSaves | V2rayNG/app/src/main/java/com/v2ray/ang/ui/MainActivity.kt:365-367 | a job succeeds iff it saved a provisioning URL; the last working URL is then that URL, and is unchanged otherwise; the device id is kept |
| Properties.RetryCandidates | V2rayNG/app/src/main/java/com/v2ray/ang/ui/MainActivity.kt:381-390 | when cycle 2 runs, cycle 1 tried every candidate and failed, and cycle 2's list is exactly the cycle-1 candidates that timed out |
| Properties.RepeatedPrimaryRetriedTwice | V2rayNG/app/src/main/java/com/v2ray/ang/ui/MainActivity.kt:329-390 | as written: with the primary URL saved as last working and every request timing out, the run fails, cycle 1 keeps the primary twice among its time-outs, and cycle 2 retries both copies |
| Properties.DedupedRetryOnce | V2rayNG/app/src/main/java/com/v2ray/ang/ui/MainActivity.kt:372-390 | corrected: over the deduplicated list, whatever the network does, the candidates a cycle keeps for retry name every URL once |
| Properties.NoRetryWithoutTimeouts | V2rayNG/app/src/main/java/com/v2ray/ang/ui/MainActivity.kt:377-382 | when no request times out, cycle 2 never runs |
| Properties.PrimaryAnswersFirst | V2rayNG/app/src/main/java/com/v2ray/ang/ui/MainActivity.kt:337-369 | with nothing saved and the primary answering 200, the job succeeds on its first try, skips cycle 2 and saves the primary URL |
| Properties.DirectTimesOut | V2rayNG/app/src/main/java/com/v2ray/ang/ui/MainActivity.kt:363-374 | a direct candidate whose config request times out ends in a socket timeout |
| Properties.RelayTimesOut | V2rayNG/app/src/main/java/com/v2ray/ang/ui/MainActivity.kt:356-374 | a relay candidate whose platform request times out ends in a socket timeout |
| Properties.RelayRescuesTimedOutPrimary | V2rayNG/app/src/main/java/com/v2ray/ang/ui/MainActivity.kt:337-374 | with the primary timing out and the relay naming a working server, cycle 1 succeeds, keeps only the primary as timed out, skips cycle 2 and saves the relay's normalised answer |
| Properties.BothTimeOut | V2rayNG/app/src/main/java/com/v2ray/ang/ui/MainActivity.kt:350-379 | with the primary and the relay both timing out, cycle 1 fails and keeps both for retry, in order |
| Properties.PrimaryAnswersOnRetry | V2rayNG/app/src/main/java/com/v2ray/ang/ui/MainActivity.kt:381-409 | when both time out at 3 s but the primary answers at 10 s, cycle 2 runs, succeeds on its first try and saves the primary URL |
| Properties.AttemptWithoutOk | V2rayNG/app/src/main/java/com/v2ray/ang/ui/MainActivity.kt:363-371 | when no request is answered 200, no attempt succeeds |
| Properties.CycleWithoutOk | V2rayNG/app/src/main/java/com/v2ray/ang/ui/MainActivity.kt:350-379 | when no request is answered 200, no cycle succeeds |
| Properties.NothingAnswersOk | V2rayNG/app/src/main/java/com/v2ray/ang/ui/MainActivity.kt:417-422 | when no request is answered 200, the job fails, shows exactly one failure toast and keeps the last working URL |
| Properties.MagicLinkOutcomes | V2rayNG/app/src/main/java/com/v2ray/ang/ui/MainActivity.kt:243-262 | a link is ignored iff it lacks the `vsemoionline` scheme; it crashes with `UnsupportedOperationException` iff it has that scheme in opaque form; it is rejected iff it is hierarchical and lacks a `url` parameter; these three leave everything unchanged; an import saves the link's URL; otherwise the last working URL is kept; the device id is always kept |
| Properties.MagicLinkTrace | V2rayNG/app/src/main/java/com/v2ray/ang/ui/MainActivity.kt:248-256 | a link that is acted on shows the indicator, makes one 10 s fetch, saves the URL when it imported, and ends by hiding the indicator unless the fetch threw |
| Properties.MagicLinkTimeoutCrashes | V2rayNG/app/src/main/java/com/v2ray/ang/ui/MainActivity.kt:249-257 | the code as written: a magic link whose server times out ends in an uncaught `SocketTimeoutException`; the indicator shown at line 248 is never hidden and nothing is saved |
| Properties.MagicLinkOpaqueCrashes | V2rayNG/app/src/main/java/com/v2ray/ang/ui/MainActivity.kt:244-245 | the code as written: an opaque `vsemoionline:` link makes `getQueryParameter` throw `UnsupportedOperationException`, which nothing catches |
| Properties.MagicLinkGuardedHidesIndicator | V2rayNG/app/src/main/java/com/v2ray/ang/ui/MainActivity.kt:243-262 | with both exceptions caught, a magic link never crashes: an opaque link is rejected with nothing changed, and a link that is acted on always ends by hiding the indicator; it imports exactly when the code as written does, and behaves the same whenever that code does not crash |
| Activity.CycleStepFailed | V2rayNG/app/src/main/java/com/v2ray/ang/ui/MainActivity.kt:372-378 | one failed try in the cycle loop adds its candidate to the timed-out list iff it was a socket timeout, and the loop goes on with the rest |
| Activity.CycleStepSucceeded | V2rayNG/app/src/main/java/com/v2ray/ang/ui/MainActivity.kt:365-369 | one successful try ends the cycle, saving its provisioning URL |
| Activity.MainActivity.constructor | V2rayNG/app/src/main/java/com/v2ray/ang/ui/MainActivity.kt:106 | a new activity is not provisioning, has sent nothing and has done nothing |
| Activity.MainActivity.Record | V2rayNG/app/src/main/java/com/v2ray/ang/ui/MainActivity.kt:385 | an effect is appended to the trace, and nothing else changes |
| Activity.MainActivity.PutPref | V2rayNG/app/src/main/java/com/v2ray/ang/ui/MainActivity.kt:274 | a preference is written and recorded |
| Activity.MainActivity.Get | V2rayNG/app/src/main/java/com/v2ray/ang/ui/MainActivity.kt:441-447 | one GET is counted, recorded and answered by the network |
| Activity.MainActivity.GetOrCreateDeviceId | V2rayNG/app/src/main/java/com/v2ray/ang/ui/MainActivity.kt:268-281 | computes the device-id lookup on the activity's state |
| Activity.MainActivity.SaveLastWorkingProvisionUrl | V2rayNG/app/src/main/java/com/v2ray/ang/ui/MainActivity.kt:287-291 | stores the URL under `last_working_provisioning_url` |
| Activity.MainActivity.GetLastWorkingProvisionUrl | V2rayNG/app/src/main/java/com/v2ray/ang/ui/MainActivity.kt:297-300 | returns the saved URL iff one is stored, changing nothing |
| Activity.MainActivity.FetchProvisioningEndpoint | V2rayNG/app/src/main/java/com/v2ray/ang/ui/MainActivity.kt:439-468 | computes the relay fetch on the activity's state |
| Activity.MainActivity.FetchAndImportConfig | V2rayNG/app/src/main/java/com/v2ray/ang/ui/MainActivity.kt:479-516 | computes the config fetch on the activity's state |
| Activity.MainActivity.AttemptCandidate | V2rayNG/app/src/main/java/com/v2ray/ang/ui/MainActivity.kt:353-378 | computes one try of the cycle loop on the activity's state |
| Activity.MainActivity.RunCycle | V2rayNG/app/src/main/java/com/v2ray/ang/ui/MainActivity.kt:347-379 | the loop computes exactly the cycle function: its success, its timed-out list and its new state |
| Activity.MainActivity.TryProvisioningWithFallback | V2rayNG/app/src/main/java/com/v2ray/ang/ui/MainActivity.kt:317-327 | a job is launched iff none is in progress; then the flag is set and the indicator shown; otherwise nothing changes |
| Activity.MainActivity.RunProvisioningJob | V2rayNG/app/src/main/java/com/v2ray/ang/ui/MainActivity.kt:328-427 | the launched job computes exactly the two-cycle run, returns its success, and always clears the flag |
| Activity.MainActivity.CheckAndAutoProvision | V2rayNG/app/src/main/java/com/v2ray/ang/ui/MainActivity.kt:604-611 | a job is launched iff no server is configured and none is in progress; with servers configured nothing changes |
| Activity.MainActivity.HandleMagicLink | V2rayNG/app/src/main/java/com/v2ray/ang/ui/MainActivity.kt:243-262 | computes the magic-link handling as written, and leaves the provisioning flag alone |

## Left out

- The Android UI and lifecycle (`onCreate`, `onNewIntent`, `onResume`, views, adapters, menus) are not modelled. `binding.pbWaiting.show()/hide()`, the toasts and `importBatchConfig` are events in the trace.
- Real HTTP is not modelled: `HttpURLConnection` is an oracle keyed by request number, URL and timeout. A malformed URL's `MalformedURLException` is one of its "other failure" answers.
- Coroutine dispatch (`Dispatchers.IO`/`Main`) is not modelled. `TryProvisioningWithFallback` is the synchronous part before `launch`, and `RunProvisioningJob` is the launched body. A magic link and a job running at the same time are not interleaved; their preference writes would simply overwrite each other.
- `java.util.UUID.randomUUID()` is the `freshId` parameter.
- `MmkvManager.decodeServerList()` is the `serverList` parameter of `CheckAndAutoProvision`.
- Android's `Uri` parsing and percent-decoding are not modelled: a link is its scheme, whether it is hierarchical, and its list of decoded query pairs. An opaque link is kept as a case of its own because `getQueryParameter` throws on it.
- Endpoints.RequestUrlQueryStart: it locates the first `?` only. With a base URL that has a `#` fragment (possible for a magic link's `url=` value), `java.net.URL` reads `device_id=` as part of the fragment, so the server never receives the id. URL parsing is not modelled, so nothing here states where the query actually lies.
- Logging is left out, except the per-candidate "attempting" lines, which are `Attempt` events.
- `Activity.MainActivity.RunProvisioningJob`: since no exception escapes the cycles in the model, the `finally` clause is just the final clearing of the flag.
- Cycle 2's timed-out list is computed by the same `RunCycle`, but the source never uses it.
- `Properties.RepeatedPrimaryRetriedTwice`: the repeated primary URL (see Findings) is shown for a network on which every request times out. For other networks the model runs the list as written and claims nothing about the repeat; the deduplicated list is not wired into `ProvisioningRun`.
- `Properties.CycleSucceededUrl`: for a relay it states that some request to that relay answered with the saved URL, not which one.

## Findings

| source | as written | input that shows it | evidently intended | confidence | as-written member | corrected member |
|---|---|---|---|---|---|---|
| V2rayNG/app/src/main/java/com/v2ray/ang/ui/MainActivity.kt:249-257 | `handleMagicLink` calls `fetchAndImportConfig` with no `try`; that function re-throws every exception (lines 513-516), so the coroutine dies before line 255 | a `vsemoionline://provision?url=…` link whose server does not answer within 10 s | the waiting indicator is hidden whatever the fetch does, and a failed fetch counts as "not imported" | not executed | Properties.MagicLinkTimeoutCrashes (on Protocol.MagicLinkRun) | Properties.MagicLinkGuardedHidesIndicator (on Protocol.MagicLinkRunGuarded) |
| V2rayNG/app/src/main/java/com/v2ray/ang/ui/MainActivity.kt:244-245 | the scheme test accepts any `vsemoionline` URI, and `getQueryParameter` then runs on the main thread outside any `try`; Android's `Uri` throws `UnsupportedOperationException` from it for a URI that is not hierarchical | the opaque link `vsemoionline:provision?url=https://example.org` (no `//`) | the link is rejected like one without a `url` parameter, instead of crashing the activity | not executed | Properties.MagicLinkOpaqueCrashes (on Protocol.MagicLinkRun) | Properties.MagicLinkGuardedHidesIndicator (on Protocol.MagicLinkRunGuarded) |
| V2rayNG/app/src/main/java/com/v2ray/ang/ui/MainActivity.kt:329-343 | the last working URL is added first and the primary URL is added after it unconditionally, so once the primary URL has worked (and been saved, line 366) it is listed twice | a saved last working URL equal to `http://103.241.67.124:8888/provision` while that host does not answer within the timeouts | each URL is tried once per cycle, so an unreachable primary costs one 3 s and one 10 s wait, not two of each | not executed | Properties.RepeatedPrimaryRetriedTwice (on Endpoints.CandidateList) | Properties.DedupedRetryOnce (on Endpoints.DedupedCandidateList) |

`Activity.MainActivity.HandleMagicLink` follows the source as written. `Protocol.MagicLinkRunGuarded` is the corrected handling. In the same way, `Protocol.ProvisioningRun` and `Activity.MainActivity.RunProvisioningJob` run the candidate list as written. `Endpoints.DedupedCandidateList` is the corrected list.
