# Bot tagging, blacklisting and page routing — a Dafny model

This project models the anti-bot layer of a small Express web application and
its browser script, and proves properties of that model. The layer has three
parts:

- **Browser tagger** (`public/script/detect.js`, module `Detect`, hash in
  `Fingerprint`):
  - It queues telemetry events and sends them in batches. A batch is sent when
    it reaches a size limit, when a timer fires, or when the page unloads.
  - It watches mouse movement, scroll cadence and form timing.
  - It takes a 32-bit FNV-1a fingerprint of the browser.
  - It computes a local risk score.
- **Server blacklist** (`middleware/frontblock.js`, module `FrontBlock`):
  - It keeps an ordered list of blocked entries, written through to a JSON
    file after every change.
  - GET requests from a listed (address, user agent) pair are denied.
  - The `/bot-events` handler classifies each incoming batch. It lists the
    sender when the batch looks automated.
  - Admin, block and unblock routes change the list.
- **Address and route helpers** (`utils.js`, module `Utils`):
  - They extract the client address from `X-Forwarded-For` or the socket,
    removing the IPv4-mapped prefix `::ffff:` (RFC 4291, section 2.5.5.2).
  - They translate between backend page names and frontend routes.
  - `getNextPage` chooses the next page of a numbered page flow, skipping
    steps marked `"0"`.

Supporting modules:
- `JsStrings`: the JavaScript string built-ins used here.
- `Telemetry`: the event record shared by the two sides.
- `Wrappers`: `Option` and `Result`.
- `Pipeline`: how the tagger's events fare in the server's classifier.

State that the source changes in place is modelled as classes with `modifies`
clauses:
- the tagger's module-level variables (`Detect.BotTagger`);
- the blacklist (`FrontBlock.Blacklist`);
- the request session (`Utils.Session`).

Ghost fields carry the history the contracts talk about:
- `log`: every event ever queued.
- `handled`: every batch taken off the queue.
- `scrollHistory`: every scroll delta.
- `disk`: the contents of the blacklist file.

Clock readings, `Math.random()` draws and the floating-point regression are
parameters.

Some behaviour is modelled as written and stated as lemmas:
- An entry added by `addToBlacklist` has no user agent. The middleware matches
  on address and user agent together, so such an entry never denies a request
  (`FrontBlock.ManualEntryNeverMatches`).
- The tagger reports its mouse score under the payload key `linearity`. The
  server reads `linearityScore`. So a tagger-produced `mouse_summary` never
  flags a batch (`Pipeline.MouseSummaryNeverQualifies`).
- `computeLinearity` picks exactly `min(40, len)` points. For the six or more
  samples it insists on, its "fewer than 3 points" branch cannot be taken
  (`Detect.EnoughPoints`).
- `getReqClientIP` trims the address only when it contains a comma.
- The risk score is clamped to [0, 100], but it can never exceed 60
  (`Detect.RiskScoreRange`).

## Model

| member | source | states |
|---|---|---|
| Utils.ReqClientIP | utils.js:18-31 | The address is absent exactly when every candidate is absent. Otherwise it is exactly the first hop (text before the first comma, trimmed only when a comma was present) of the chosen candidate, with a leading `::ffff:` removed, so it contains no comma. A truthy `X-Forwarded-For` header is the chosen candidate. |
| Utils.FirstHop | utils.js:21-23 | The result contains no comma. An address without a comma is returned unchanged (no trimming). |
| Utils.Unmap | utils.js:26-28 | An address starting with `::ffff:` is that prefix followed by the result. Any other address is unchanged. |
| Utils.ForwardedMappedAddress | utils.js:18-31 | For a forwarded list whose first hop is `::ffff:` + v, the client address is v. |
| Utils.ClientIP | utils.js:11-16 | With neither a header nor a handshake address, the call fails (`ip.startsWith` on undefined). Otherwise the result is exactly the untrimmed text before the first comma of the header (or, without one, the handshake address), with a leading `::ffff:` removed. |
| Utils.Or | utils.js:19 | `a \|\| b` picks `a` exactly when it is present and non-empty. |
| Utils.Normalize | utils.js:117-119 | A normalized string contains no capital letter. |
| Utils.NormalizeFixes | utils.js:117-119 | A string with no leading `/`, no surrounding white space and no capital letter is its own normal form. |
| Utils.RouteOf | utils.js:108-114 | The lookup succeeds exactly for the keys of `routeMap`. It returns the route paired with the key. |
| Utils.LookupIn | utils.js:123 | Table lookup succeeds exactly when the key occurs. It returns a value paired with that key. |
| Utils.ResolveFrontendRoute | utils.js:122-124 | A key of `routeMap` maps to its route. Any other page maps to itself. |
| Utils.FindKey | utils.js:129-131 | Returns the first table position whose route normalizes to the input. It returns none exactly when no route does. |
| Utils.ResolveBackendRoute | utils.js:127-133 | Returns the first `routeMap` key whose normalized route equals the normalized input. If there is none, it returns the normalized input. |
| Utils.BackendFrontendRoundTrip | utils.js:122-133 | Resolving a backend page to its frontend route and back gives the page again. |
| Utils.RouteIsNormal | utils.js:108-119 | Every route of `routeMap` is already normalized. |
| Utils.RoutesDistinct | utils.js:108-114 | No two backend pages share a route. |
| Utils.SortedKeysSorted | utils.js:141-143 | The sorted key list is strictly ascending and holds exactly the keys of `pageFlow`. |
| Utils.IndexOfPage | utils.js:145-147 | Returns the first position holding the page. It returns none exactly when no position does. |
| Utils.NextLiveIndex | utils.js:152-158 | Returns the first position at or after the start whose page is neither empty nor `"0"`, or none if there is no such position. |
| Utils.Successor | utils.js:145-160 | A chosen successor page is never `"0"` or empty. |
| Utils.SuccessorIsFirstLiveAfter | utils.js:141-160 | The successor is the first non-`"0"` page after the first occurrence of the current page. With no successor, nothing live follows that occurrence. |
| Utils.ChosenPage | utils.js:137-160 | An empty or missing current page gives no next page. A chosen page is never `"0"`. |
| Utils.ShapeRoute | utils.js:164-183 | An external URL loses all leading and trailing slashes. A local route loses its trailing slashes and then gains a `/` in front exactly when it does not already start with one. |
| Utils.NextPage | utils.js:136-184 | `getNextPage` returns null exactly when no next page is chosen. |
| Utils.GetNextPage | utils.js:136-184 | The result equals the shaped next route. When that route is an external URL, the session is marked blocked with a cookie max age of 3600000. Otherwise the session keeps its values. The admin flag never changes. |
| Utils.FirstLivePageAfter | utils.js:151-158 | The loop finds the first non-`"0"` page after the current position, or none. |
| Utils.NoChosenPage | utils.js:149-160 | Without a chosen page the result is null and the session is left alone. |
| Utils.ChosenPageLeads | utils.js:162-183 | With a chosen page, the result is its shaped frontend route. The session changes exactly when that route is external. |
| Utils.PlainPageResolvesToItself | utils.js:127-133 | A normalized page that equals no route of `routeMap` resolves to itself. |
| Utils.FlowPages | utils.js:99-105 | The flow in key order is login, otp, bill, `"0"`, final. |
| Utils.SignInIsLogin | utils.js:127-133 | `/sign-in` resolves to the backend page `login`. |
| Utils.ChosenAfterSignIn | utils.js:137-158 | After `/sign-in` the flow chooses `otp`. |
| Utils.NextAfterSignIn | utils.js:136-184 | After `/sign-in` the next page is `/sign-in?action=otp`, and the session is untouched. |
| Utils.OtpRouteShape | utils.js:178-183 | The otp route is local and is returned with a leading `/`. |
| Utils.ChosenAfterBill | utils.js:137-158 | After `bill` the `"0"` step is skipped and `final` is chosen. |
| Utils.BillIsPlain | utils.js:127-133 | `bill` is no route, so it resolves to itself. |
| Utils.BillSuccessor | utils.js:141-158 | After `bill` in the flow the `"0"` step is skipped and `final` follows. |
| Utils.NextAfterBillSkipsPlaceholder | utils.js:136-184 | After `bill` the next page is the external URL, and the session is marked blocked. |
| Utils.FinalRouteShape | utils.js:164-176 | The final route is external and already has no surrounding slashes. |
| Utils.NoNextAfterFinal | utils.js:149-160 | After `final` there is no next page. |
| JsStrings.DropLeadingSpec | utils.js:174 | Removing leading characters keeps a suffix. Only matching characters are removed, and the removal stops at the first one that does not match. |
| JsStrings.DropTrailingSpec | utils.js:180 | Removing trailing characters keeps a prefix. Only matching characters are removed, and the removal stops at the last one that does not match. |
| JsStrings.FirstSegment | utils.js:22 | `split(",")[0]` is a prefix containing no comma. If it is shorter than the input, a comma follows it. |
| JsStrings.FirstSegmentOfJoin | utils.js:22 | The first segment of `a + "," + b` is `a` when `a` contains no comma. |
| JsStrings.ToLower | utils.js:118 | Lower-casing keeps the length and maps each character on its own. |
| JsStrings.ToRadix | public/script/detect.js:58 | `toString(base)` yields a non-empty string of base digits, with no leading zero except for 0 itself. |
| JsStrings.RadixRoundTrip | public/script/detect.js:58 | Reading the printed digits back gives the number. |
| JsStrings.RadixInjective | public/script/detect.js:58 | Different numbers print differently. |
| Fingerprint.OrUnknown | public/script/detect.js:47-49 | A missing or empty value becomes `unknown`. A present value is kept. |
| Fingerprint.CodeUnits | public/script/detect.js:55 | A character takes one UTF-16 code unit below U+10000 and two (a surrogate pair) above. |
| Fingerprint.Utf16 | public/script/detect.js:54-55 | The code-unit sequence is between one and two times the string's length. |
| Fingerprint.FnvFromBasis | public/script/detect.js:53-57 | The left-to-right loop from the offset basis computes the FNV-1a hash. |
| Fingerprint.FnvConcat | public/script/detect.js:53-57 | Hashing `a + b` resumes from the hash of `a`. |
| Fingerprint.TestVectorA | public/script/detect.js:53-57 | The hash of `"a"` is the published FNV-1a value `0xe40c292c`. This shows the basis 2166136261 and prime 16777619 act as 32-bit FNV-1a. |
| Fingerprint.FallbackNumber | public/script/detect.js:60 | The fallback number is in [0, 100000). |
| Fingerprint.GenerateFingerprint | public/script/detect.js:45-62 | The loop yields `fp_` + the base-36 FNV-1a hash of `ua\|WxH\|tz\|plugins\|cores`. When the browser reads throw, the result is `fp_unknown_` + a number from the draw. |
| Fingerprint.FingerprintRoundTrip | public/script/detect.js:58 | A fingerprint starts with `fp_`, and its digits read back as the hash. |
| Fingerprint.FingerprintNotFallback | public/script/detect.js:58-60 | A computed fingerprint never equals a fallback one. |
| Fingerprint.PrefixedNotFallback | public/script/detect.js:58-60 | `fp_` + base-36 digits never equals `fp_unknown_` + a decimal. |
| Fingerprint.FingerprintDistinguishesHashes | public/script/detect.js:58 | Different hashes give different fingerprints. |
| Fingerprint.PrefixedInjective | public/script/detect.js:58 | Prefixing base-36 digits with `fp_` keeps different numbers apart. |
| Telemetry.FlattenSnoc | public/script/detect.js:102 | Flattening one more batch appends its events. |
| Detect.MergeLaws | public/script/detect.js:217 | Merging options with no fields set keeps the configuration. Merging the same options twice is merging once. The default batch limit is 50. |
| Detect.Merge | public/script/detect.js:217 | `Object.assign`: with no option set the configuration is unchanged, and each set option (consent, batch limit, sample rate) overrides the default. |
| Detect.Deliver | public/script/detect.js:64-106 | One `pushEvent` on the queue side: the handled batches and the sent beacons only grow, by at most one each. A beacon is sent only when a batch was drained and the draw passed sampling, and it carries exactly that batch. |
| Detect.DeliverKeepsEvents | public/script/detect.js:64-106 | A delivered event is neither lost nor duplicated: handled batches followed by the queue grow by exactly that event. A timer is pending exactly when events are queued. |
| Detect.SubmitEvents | public/script/detect.js:197-205 | A submit emits `form_submit`. It then emits `fast_form_submit_flag` exactly when the elapsed time is below 700 ms. |
| Detect.Push | public/script/detect.js:64-79 | A push drains the whole queue plus the new event exactly when the size limit is reached, and leaves the queue empty with no timer pending. Otherwise the event is appended and a timer is pending. |
| Detect.PushKeepsEvents | public/script/detect.js:64-79 | One push appends exactly its event to the drained batches followed by the queue. |
| Detect.PushAllKeepsEvents | public/script/detect.js:64-106 | Across any run of pushes, the drained batches followed by the queue are exactly the events pushed, in order: none lost, none duplicated. |
| Detect.PushAllCounts | public/script/detect.js:71-78 | From an empty queue, pushes produce only full batches of `maxBatchSize` and leave fewer than that many queued. A timer is pending exactly when some are. |
| Detect.PushAllDivMod | public/script/detect.js:71-78 | After n pushes, n % max events are queued, after n / max batches. |
| Detect.DivModUnique | public/script/detect.js:71 | Quotient and remainder are unique. This helper is used by the counting lemma. |
| Detect.OneBatchThenOne | public/script/detect.js:71-78 | With limit max, the max-th push sends all max events. The next one waits alone with a timer armed. |
| Detect.FiftyOnePushes | public/script/detect.js:64-79 | With the default limit of 50, the 50th push drains 50 events. The 51st is left queued with the timer armed. |
| Detect.SampleCount | public/script/detect.js:130 | Exactly `min(40, len)` points are sampled: never more than 40, never more than there are samples. |
| Detect.Stride | public/script/detect.js:131 | The stride is at least 1. |
| Detect.StrideFits | public/script/detect.js:130-133 | `n` strides fit within the buffer. |
| Detect.SampleIndicesValid | public/script/detect.js:133-135 | The selected indices start at the newest sample, stay in range and strictly descend. |
| Detect.SampledPoints | public/script/detect.js:130-135 | Exactly `min(40, len)` points are selected. |
| Detect.SamplePoints | public/script/detect.js:128-136 | The loop selects exactly `min(40, len)` points. Point j is sample `len-1-j*stride`, and every index is in range. |
| Detect.EnoughPoints | public/script/detect.js:129-136 | With at least six samples, at least six points are selected, so the `pts.length < 3` return is never taken. |
| Detect.Clamp | public/script/detect.js:153 | The clamped value lies in the bounds and equals the input when the input is already within them. |
| Detect.Hundredths | public/script/detect.js:154 | Rounding to hundredths keeps a value in [0, 1]. |
| Detect.LinearityRange | public/script/detect.js:128-155 | Linearity is in [0, 1]. It is 0 for fewer than six samples or a mean residual of 40 or more, and 1 for a perfect line. |
| Detect.Linearity | public/script/detect.js:128-155 | The linearity is in [0, 1], and 0 with fewer than six samples. |
| Detect.SummaryCountsSpec | public/script/detect.js:162-164 | Over n samples, summaries fire at counts 50, 100, …: n / 50 of them. |
| Detect.Last | public/script/detect.js:179 | `slice(-k)` has k elements, or the whole array when it is shorter. |
| Detect.CountBelow | public/script/detect.js:180 | The count of deltas under the bound never exceeds the number examined. It is 0 exactly when no delta is under the bound, and all of them exactly when every delta is. |
| Detect.LastOfLast | public/script/detect.js:178-179 | The last 8 of the 200-delta ring are the last 8 deltas ever recorded. |
| Detect.LastSnoc | public/script/detect.js:177-178 | A push followed by a shift past 200 keeps exactly the last 200 deltas. |
| Detect.RiskScoreRange | public/script/detect.js:236-246 | The risk score is in [0, 100]. For a linearity in [0, 1] it never exceeds 60. |
| Detect.RiskScore | public/script/detect.js:236-246 | The clamped score is in [0, 100]. |
| Detect.FewSamplesScore | public/script/detect.js:237-242 | With fewer than four mouse samples the score is at least 30. |
| Detect.BotTagger.constructor | public/script/detect.js:18-37 | The tagger starts with the defaults, enabled, with an empty queue, no timer and empty buffers. |
| Detect.BotTagger.Flush | public/script/detect.js:81-106 | Afterwards the queue is empty and no timer is pending. A non-empty queue is taken off whole, in order. It is sent as one batch with the session fields when the draw passes sampling, and dropped otherwise. Only the queue, timer, handled and sent fields may change. |
| Detect.BotTagger.PushEvent | public/script/detect.js:64-79 | A disabled tagger changes nothing. Otherwise the event is logged and the queue, timer, handled and sent batches become `Deliver` of the previous ones. Nothing outside the queue side and the log may change. |
| Detect.BotTagger.Enqueue | public/script/detect.js:66-67 | The event joins the end of the queue and of the log, and every queued or handled event stays accounted for. |
| Detect.BotTagger.Emit | public/script/detect.js:64-79 | An enabled tagger logs exactly the event and its queue side becomes `Deliver` of the previous one. A disabled one changes neither. |
| Detect.BotTagger.ComputeLinearity | public/script/detect.js:128-155 | Returns the linearity of the recorded samples, a value in [0, 1]. |
| Detect.BotTagger.OnMouseMove | public/script/detect.js:157-168 | The sample is appended. When the count becomes a multiple of 50 on an enabled tagger, exactly a `mouse_summary` with that count is logged and delivered. Otherwise the log and queue side are unchanged. Nothing outside the samples, the queue side and the log may change. |
| Detect.BotTagger.OnScroll | public/script/detect.js:170-188 | The first scroll records no delta. Later scrolls record the delta. On an enabled tagger, `fast_scroll` is logged and delivered exactly when at least 4 of the last 8 deltas are below 50 ms; otherwise the log and queue side are unchanged. The ring never holds more than 200 deltas. |
| Detect.BotTagger.ScrollDelta | public/script/detect.js:175-187 | The delta joins the history. Exactly when the last 8 deltas hold at least 4 under 50 ms, a `fast_scroll` with that count is logged and delivered; otherwise the log and queue side are unchanged. |
| Detect.BotTagger.RecordScrollDelta | public/script/detect.js:176-180 | The delta joins the history. The ring equals the last 200 deltas. The fast count is taken over the last 8. |
| Detect.BotTagger.OnInput | public/script/detect.js:208-213 | A form's start time is set by its first input only and never overwritten. |
| Detect.BotTagger.OnSubmit | public/script/detect.js:190-206 | The elapsed time runs from the form's first input, else from start-up. On an enabled tagger a form submit logs and delivers `form_submit`, followed at once by `fast_form_submit_flag` when under 700 ms. Anything else changes neither the log nor the queue side. |
| Detect.BotTagger.EmitSubmit | public/script/detect.js:197-205 | The submit events are logged in order, and each is delivered in turn. |
| Detect.BotTagger.Init | public/script/detect.js:216-234 | The options are merged, the step is set, `enabled` is the negation of `consentRequired`, and the fingerprint is taken. An enabled tagger then logs and delivers `page_load` and `fingerprint`, in that order. A disabled one leaves the log and queue side as they were. |
| Detect.BotTagger.Configure | public/script/detect.js:217-221 | Merged configuration, step, enabled flag and fingerprint. |
| Detect.BotTagger.QueueStartEvents | public/script/detect.js:229-230 | `page_load` then `fingerprint` join the log and are delivered in that order. |
| Detect.BotTagger.Enable | public/script/detect.js:252 | The tagger is enabled. |
| Detect.BotTagger.Disable | public/script/detect.js:253 | The tagger is disabled. |
| Detect.BotTagger.ComputeRiskScore | public/script/detect.js:236-246 | Returns the risk score of the current buffers, which is between 0 and 60. |
| FrontBlock.RequestUA | middleware/frontblock.js:54 | A missing or empty user agent becomes `unknown_ua`. |
| FrontBlock.Find | middleware/frontblock.js:56-58 | Returns the first entry recording the (address, user agent) pair. It returns none exactly when no entry does. |
| FrontBlock.CountPairPositive | middleware/frontblock.js:130-132 | A pair is counted at least once exactly when some entry records it. |
| FrontBlock.AnyQualifiesExists | middleware/frontblock.js:119-126 | The `some` scan finds a qualifying event exactly when one exists. |
| FrontBlock.Qualifies | middleware/frontblock.js:120-125 | Only `fast_form_submit_flag`, `fast_scroll` and `mouse_summary` events can qualify. The first two always do; a `mouse_summary` without a `linearityScore` never does. |
| FrontBlock.Suspicious | middleware/frontblock.js:119-126 | A batch is suspicious exactly when it is an array holding a qualifying event. |
| FrontBlock.AnyQualifiesConcat | middleware/frontblock.js:119-126 | A batch is suspicious exactly when one of its parts is. |
| FrontBlock.Without | middleware/frontblock.js:73 | Filtering never lengthens the list. |
| FrontBlock.WithoutMembers | middleware/frontblock.js:73 | Removal drops exactly the entries with that address. |
| FrontBlock.WithoutConcat | middleware/frontblock.js:73 | Removal acts on each part of a list separately, so the survivors keep their order. |
| FrontBlock.WithoutIdempotent | middleware/frontblock.js:70-79 | Removing an address twice is removing it once. |
| FrontBlock.WithoutAbsent | middleware/frontblock.js:73 | Removing an unlisted address changes nothing. |
| FrontBlock.CountPairWithout | middleware/frontblock.js:73 | Removal never raises the count of any pair. |
| FrontBlock.CountPairConcat | middleware/frontblock.js:130-143 | Pair counts add up over concatenation. |
| FrontBlock.WithoutKeepsUnique | middleware/frontblock.js:73 | Removal keeps every pair listed at most once. |
| FrontBlock.RecordSpec | middleware/frontblock.js:128-145 | After a detection the pair is listed. It is listed exactly once if it was listed at most once before. A repeat detection changes nothing. |
| FrontBlock.Record | middleware/frontblock.js:128-145 | The list only grows, by at most one entry, and it grows exactly when the pair was not listed. |
| FrontBlock.RecordKeepsUnique | middleware/frontblock.js:130-143 | The guarded insert keeps every pair listed at most once. |
| FrontBlock.ManualEntryNeverMatches | middleware/frontblock.js:95 | Adding an address-only entry does not change whether any request is denied. |
| FrontBlock.ManualKeepsUnique | middleware/frontblock.js:95 | An address-only entry keeps pairs unique. |
| FrontBlock.Loaded | middleware/frontblock.js:16-33 | A missing, blank or unparsable file loads as the empty list. |
| FrontBlock.LookupStatus | middleware/frontblock.js:232-250 | The reply is 200 exactly when the user row has a non-empty address and the update succeeds. It is 404 exactly when the row or its address is missing. Otherwise it is 500; no other status occurs. |
| FrontBlock.Blacklist.Load | middleware/frontblock.js:16-33 | The list is the stored one, or empty. An unusable file is reset to `[]` when the write succeeds. |
| FrontBlock.Blacklist.Save | middleware/frontblock.js:35-41 | A successful write stores the list. A failed one leaves the file as it was. |
| FrontBlock.Blacklist.Middleware | middleware/frontblock.js:47-66 | A non-GET request passes without a lookup. A GET is denied exactly when an entry records the request's address and user agent. |
| FrontBlock.Blacklist.AddToBlacklist | middleware/frontblock.js:86-106 | An already listed address returns false and changes nothing. Otherwise exactly one address-only entry is appended, the list is saved, and the call returns true. Either way the address is listed afterwards. |
| FrontBlock.Blacklist.RemoveFromBlacklist | middleware/frontblock.js:70-84 | Every entry with the address is removed, the others keep their order, and the list is saved. The call returns true. |
| FrontBlock.Blacklist.HandleBotEvents | middleware/frontblock.js:113-196 | For a body of event records: a suspicious batch lists the sender's pair (with the fingerprint or null) unless it is already listed, and saves. Any other batch changes nothing. The reply is 204. |
| FrontBlock.Blacklist.AdminRead | middleware/frontblock.js:199-204 | Without an admin session the reply is 401. Otherwise it is 200 with `count` equal to the list length. |
| FrontBlock.Blacklist.AdminClear | middleware/frontblock.js:206-223 | Without an admin session the reply is 401 and nothing changes. Otherwise the list is emptied and saved, and no request is denied afterwards. |
| FrontBlock.Blacklist.ChangeBlock | middleware/frontblock.js:225-279 | The reply follows `LookupStatus`. Only on 200 does the list change: unblock removes the user's address, and block adds it unless it is listed. The file is rewritten exactly when the list changed and the write succeeds. |
| Pipeline.MouseSummaryNeverQualifies | middleware/frontblock.js:124 | A `mouse_summary` as the tagger builds it never qualifies, whatever its linearity. |
| Pipeline.FastSubmitFlagsBatch | middleware/frontblock.js:122 | Any batch carrying the events of a submit under 700 ms is suspicious. |
| Pipeline.FastScrollFlagsBatch | middleware/frontblock.js:123 | Any batch carrying a `fast_scroll` event is suspicious. |
| Pipeline.StartEventsNotSuspicious | middleware/frontblock.js:119-126 | The `page_load` and `fingerprint` events of `init` do not flag a batch. |
| Pipeline.SlowSubmitNotSuspicious | middleware/frontblock.js:119-126 | A submit of 700 ms or more does not flag a batch on its own. |

## Left out

- Floating point: the least-squares regression in `computeLinearity` is the tagger's `regression` parameter. `Math.round` and `toFixed(2)` are computed on exact reals.
- Detect.Hundredths: rounds halves up on exact reals. Binary floating-point `toFixed` can round some halves down.
- Detect.BotTagger.Flush: assumes the page defines the `userId` binding the batch reads, and that `step` is bound. Without them, building the batch throws a ReferenceError, and the model does not capture that.
- Detect.BotTagger.Init: the options are given as the fields the logic reads. The `endpoint` option and options explicitly set to `undefined` are not modelled.
- Timers: `batchInterval` and the timer callback are not modelled. A pending timer is a flag, and its firing is a call to `Flush`.
- Listener registration, `beforeunload`/`pagehide` hooks and repeated `init` calls (which would register listeners twice) are not modelled.
- The `Blob`/`sendBeacon`/`fetch` transport is not modelled. A sent batch is appended to `sent`.
- `WeakMap` lifetime is not modelled: forms are numeric identities in a plain map.
- Fingerprint.GenerateFingerprint: which browser read throws is abstracted. `env` is `None` when any read throws.
- Each clock reading (`Date.now()`, the ISO timestamp) is one parameter per call, even where the source reads the clock twice.
- FrontBlock.Qualifies: a `linearityScore` held as a string is never compared numerically. JavaScript would coerce it.
- FrontBlock.Blacklist.Load: a file parsing to JSON that is not an array is not modelled. `Stored` holds a list of entries.
- FrontBlock: `null` and `undefined` addresses are both `None`. Equality between them is therefore not distinguished.
- The database updates and socket notifications in `/bot-events`, admin clear, block and unblock are not modelled. Only their success or failure, as it affects the reply, is kept.
- `routes/routes.js`, `public/script/emit.js` and the other helpers of `utils.js` (asset obfuscation, geo-IP lookup, Telegram messages, admin and autopilot checks) are not part of this model.
- JsStrings.ToLower: lower-cases ASCII letters only. Non-ASCII case mappings are not modelled.
- Utils.ResolveFrontendRoute: keys inherited from `Object.prototype` (such as `constructor`) are not modelled. Only `routeMap`'s own keys resolve.
- Utils.ReqClientIP: header values arriving as arrays are not modelled.
- FrontBlock.Blacklist.HandleBotEvents: an `events` array holding `null` or a non-object makes `ev.t` throw before any reply is sent. Events are modelled as records, so this path is not captured.
- FrontBlock.Blacklist.Middleware: a stored list holding `null` makes every GET throw inside the `some` scan. Stored entries are modelled as records, so this path is not captured; FrontBlock.Loaded has the same restriction.
- Detect.BotTagger.Init: the unused `sessionStorage.getItem("userId")` read could throw and abort `init`. Storage access is not modelled.
