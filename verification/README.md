# Verified model of the Solvela client

The Solvela client is a payment client: it sends chat requests to a gateway, answers HTTP 402 (section 15.5.3 of
RFC 9110) by signing a USDC transfer and resending, and wraps this in a response cache, sticky sessions, a detector for
degraded responses with paid retries, a balance monitor and a local proxy. This project models those engines in Dafny
and proves what they guarantee against any gateway, any signer and any interleaving of calls.

The gateway is an arbitrary function of everything sent to it so far, so it may be hostile and may adapt; the signer's
RPC is an arbitrary sequence of successes and failures. The world records every request sent and, in its ledger, every
transaction signed, whether or not the paid request then succeeds. Clock readings are parameters that never decrease.
The three hash functions, Unicode whitespace, alphanumerics and lower-casing, and what a body parses to are parameters
about which nothing is assumed, except that the space is whitespace. The protocol crate's network and mint constants are
parameters of the gate; solvela-protocol is not part of this model.

| module | content |
|---|---|
| `Prelude`, `Counting` | 64-bit integers, options and results; positions of a value in a sequence |
| `Quality` | the degraded-response detector |
| `Cache`, `CacheHistory`, `CacheInclusion` | the LRU cache, its behaviour over whole runs, and small against large caches |
| `Session`, `SessionHistory`, `SessionThreads` | the session store, whole runs of it, and many threads on it |
| `Payment`, `Exchange`, `Spend` | the signing gate, the handshake and retry loop, and what a chat can spend |
| `Client`, `ClientProperties` | the client's methods and properties of whole calls |
| `Pipeline`, `Refinement` | chats and streams interleaved on one client, and why that is the same client |
| `Streaming`, `Balance`, `Proxy` | reading a stream, the balance monitor, the proxy |

Imperative code is modelled by classes and loops (`LruCache`, `ResponseCache`, `SessionStore`, `SolvelaClient`,
`BalanceMonitor`, `ProxyState`, the counting loops); each method is proved equal to a specification function, and the
theorems are about those functions.

Three promises made in the source's comments are not what its code does. Each has its exact condition:

- The retry budget is said to keep a degraded model from draining the wallet by repeated payments (`client.rs:211-216`).
  It is compared after paying: the cap bounds what a chat signs for iff the cap is zero or no retry can happen
  (`Spend.CapIff`). Otherwise twice the cap is attained (`Spend.TwiceCapAttained`; the detector does report the empty
  responses used there, `Spend.EmptyIsDegraded`) and never exceeded (`Spend.SpendSafety`), except with the largest 64-bit
  integer as cap, for which the comparison never fires (`Spend.TwiceCapIff`).
- The low-balance callback is documented as fired whenever a poll is below the threshold (`balance.rs:112`). It is fired
  once per low stretch (`Balance.OneAlarmPerLowRun`), so for every low poll iff no two successive successful polls are
  low (`Balance.EveryLowPollAlarmsIff`); two low polls make one callback (`Balance.SecondLowPollIsSilent`).
- The proxy is said to pipe responses through unmodified (`proxy.rs:43`, `proxy.rs:204`). It keeps one value per header
  name, so the headers come through unmodified iff no name is repeated and none is hop-by-hop (`Proxy.UnmodifiedIff`);
  of two cookies set only the second arrives (`Proxy.SecondCookieWins`).

Two properties one would expect of a cache, though the source does not promise them, hold under exact conditions only:

- A larger cache hits whenever a smaller one does iff there is no dedup window or the capacities are equal
  (`CacheInclusion.HitsIncludedIff`).
- A `get` right after a `put` hits iff the dedup window is at most one clock tick longer than the time to live
  (`CacheHistory.PutThenGetHitsIff`).

## Model

| member | source | states |
|---|---|---|
| Spend.SpendSafety | crates/solvela-client/src/client.rs:146-155 | For every gateway and signer and every cap below 2^64-1, one chat signs for at most twice the cap, for at most the cap if it succeeds, and BudgetExceeded reports the cap and the exact total signed (cut off at 2^64-1), which exceeds the cap. |
| Spend.CapIff | crates/solvela-client/src/client.rs:211-272 | No gateway can make a chat sign for more than the cap iff the cap is zero, the quality check is off or no retry is allowed: the budget test does not enforce the cap. |
| Spend.TwiceCapAttained | crates/solvela-client/src/client.rs:259-270 | The factor two is attained: a gateway that asks for the cap at every probe and answers with empty responses makes the chat sign for exactly twice the cap and end in BudgetExceeded. |
| Spend.TwiceCapIff | crates/solvela-client/src/client.rs:224-272 | The twice-the-cap bound holds against every gateway iff the cap is below 2^64-1 or at most two attempts are made. |
| Spend.SaturationIsExactIff | crates/solvela-client/src/client.rs:262-264 | Comparing the saturating total with the cap gives the verdict of the unbounded total for every total iff the cap is below 2^64-1. |
| Spend.HeadFacts | crates/solvela-client/src/client.rs:224-272 | At every head of the retry loop the u64 total is the exact sum of the amounts signed in this chat cut off at 2^64-1, and n+1 attempts cost n+1 requests plus one per signature. |
| Spend.RetryOutcome | crates/solvela-client/src/client.rs:217-287 | With the quality check on a chat succeeds iff its loop stops at some head, and returns the response in hand there: the first good one, or the last allowed one. |
| Spend.HeadsAreDegraded | crates/solvela-client/src/client.rs:228-229 | Every response before the one in hand at a loop head was degraded. |
| Spend.ConverseReports | crates/solvela-client/src/client.rs:143-155 | What every chat exchange reports: an error other than the budget's iff the gateway's last reply means it; BudgetExceeded, with cap and exact total cut off at 2^64-1, iff the last reply is a chat response and that total exceeds the cap; and else that chat response. |
| Spend.ConverseSends | crates/solvela-client/src/client.rs:175-287 | Every request an exchange sends is the chat's own, and exactly the unpaid probes after the first carry the retry reason. |
| Spend.ConverseCounts | crates/solvela-client/src/client.rs:175-287 | For every gateway a chat signs at most R+1 times and sends at most 2(R+1) requests, R the allowed retries; the transactions signed are exactly those sent, in order, each gated and for the offers of the 402 the gateway gave just before to the unpaid request. |
| Exchange.AttemptFacts | crates/solvela-client/src/client.rs:585-620 | The handshake: one unpaid probe, then at most one gated signature, for the 402 the gateway gave to that probe, and one resend carrying that transaction; the reported amount is the one signed; the signature stays in the ledger if the resend fails. |
| Exchange.AttemptSignsIff | crates/solvela-client/src/client.rs:535-620 | An attempt signs iff its probe is answered with a readable 402 that some gated payment answers and the signer succeeds. |
| Exchange.AttemptReports | crates/solvela-client/src/client.rs:183-206 | An attempt returns the chat response in the gateway's last reply if there is one, and else exactly the error that reply means: Network, ParseError, Gateway with its status and text, PaymentRejected with its text, a refusal of the gate, or Signing; never another. |
| Exchange.StreamFacts | crates/solvela-client/src/client.rs:355-402 | A stream probes without streaming, then sends at most one streaming request, paid for with at most one gated signature for the 402 given to that probe. |
| Exchange.StreamOpensIff | crates/solvela-client/src/client.rs:359-402 | A stream opens iff its second request was sent and answered with a status from 200 to 299; otherwise the error is exactly the one the probe's reply, or the second reply with its status and text, means. |
| Exchange.StreamSendsIff | crates/solvela-client/src/client.rs:366-392 | The second request is sent iff the probe is answered with a 200, or with a readable 402 that some gated payment answers and the signer succeeds; it is paid for iff the answer was that 402. |
| Payment.ValidateExact | crates/solvela-client/src/client.rs:535-566 | The gate passes a payment for a 402 body iff it is for the first offer that is exact, on the expected network and mint, pays the expected recipient if one is set, equals the offer's parsed amount and is within the cap if one is set. |
| Payment.ValidateRefuses | crates/solvela-client/src/client.rs:539-566 | The gate refuses with an error iff that error names the first failing clause on the first compatible offer, with the recipients or the amounts concerned, or nothing is compatible. |
| Payment.PickSchemeIsFirst | crates/solvela-client/src/client.rs:722-734 | The offer picked is the first compatible one; none is picked iff none is compatible. |
| Payment.ParseExact | crates/solvela-client/src/client.rs:553-556 | An amount parses iff it is a nonempty digit string, after an optional plus sign, whose unbounded value fits in 64 bits, and parses to that value. |
| Payment.ParseOfDecimal | crates/solvela-client/src/client.rs:553-556 | Parsing the decimal numeral of any 64-bit amount gives that amount back. |
| Client.SolvelaClient.SignPayment | crates/solvela-client/src/client.rs:535-579 | The imperative signing method computes the specified outcome and world. |
| Client.SolvelaClient.PayAndResendWithAmount | crates/solvela-client/src/client.rs:585-620 | The paid resend computes the specified outcome, world and amount. |
| Client.SolvelaClient.SendChatRequest | crates/solvela-client/src/client.rs:175-207 | The first attempt computes the specified outcome and world on every reply. |
| Client.SolvelaClient.RetryIfDegraded | crates/solvela-client/src/client.rs:217-287 | The bounded loop with its early exits computes the recursive specification of the retries from any response and any amount already paid. |
| Client.SolvelaClient.BalanceAndSession | crates/solvela-client/src/client.rs:102-132 | The balance guard and session lookup shared by both entry points fix the final model and change the sessions as specified. |
| Client.SolvelaClient.Chat | crates/solvela-client/src/client.rs:97-168 | One chat changes world, cache and sessions and returns exactly as specified, on all paths: hit, error, success. |
| Client.SolvelaClient.ChatStream | crates/solvela-client/src/client.rs:315-402 | Opening a stream changes world and sessions as specified, recording the request before anything is sent and never touching the cache. |
| Streaming.ReadEvents | crates/solvela-client/src/client.rs:404-424 | One item for each event before the first [DONE], in order: the chunk parsed from the trimmed data, or an error item for a broken event or unparsable data, which does not end the stream. |
| Streaming.TrimExact | crates/solvela-client/src/client.rs:407-407 | Trimming takes off exactly the whitespace at both ends. |
| ClientProperties.ChatIsCapped | crates/solvela-client/src/client.rs:97-168 | Spend safety for a whole chat, whichever path it takes, and that it signs exactly what it sends, each transaction gated and for the 402 just received. |
| ClientProperties.StreamIsCapped | crates/solvela-client/src/client.rs:315-402 | A whole stream call signs at most one transaction, within the cap, gated and for the 402 just received, and sends at most twice. |
| ClientProperties.ChatReports | crates/solvela-client/src/client.rs:134-155 | A whole chat returns the cached answer for its final model and messages without sending or signing; or else sends only its final request and reports exactly what the last reply means, or the budget error, as for an exchange. |
| ClientProperties.ChatRetries | crates/solvela-client/src/client.rs:146-155 | With the quality check on an uncached success is the first response to which none of the detector's rules applies, or the last allowed one; the number of unpaid probes sent is the number of attempts. |
| ClientProperties.StreamOpens | crates/solvela-client/src/client.rs:315-402 | A whole stream call opens or fails as the replies to its probe and its streaming request say, and leaves the cache alone. |
| ClientProperties.PrepareFacts | crates/solvela-client/src/client.rs:99-132 | The first two steps change only the model: the free one on a known zero balance, else the session's; a session younger than the time to live is kept, any other replaced by a fresh one, other sessions untouched. |
| ClientProperties.ChatRecords | crates/solvela-client/src/client.rs:157-167 | A chat counts in its session, once and under its content hash, iff it was answered by the gateway: not on a hit and not on an error. |
| ClientProperties.StreamRecords | crates/solvela-client/src/client.rs:345-352 | A stream counts in its session whatever becomes of it. |
| ClientProperties.RepeatedChatIsFree | crates/solvela-client/src/client.rs:119-168 | Repeating a successful chat while its cache entry and its session live returns the same response with nothing sent and nothing signed, across the balance guard, session stickiness and cache key. |
| Pipeline.CacheCoherence | crates/solvela-client/src/client.rs:134-160 | In every reachable state of any interleaving, each cache entry has the cache key of the final model and messages of some chat, and is the response that chat got at a step of that run: with the gateway and signer it met there its exchange gave exactly what it sent, signed and returned, and the entry is what that gateway replied last. |
| Pipeline.HitsAreSilentAndFresh | crates/solvela-client/src/client.rs:135-141 | Under any interleaving a chat that hits has sent and signed nothing and every record in the session history is another call's; its answer was got by another chat from its own exchange in that run, for a final model and messages with the same cache key, and stored at most a time to live before the hit. |
| Pipeline.HitsAnswerTheSameRequest | crates/solvela-client/src/client.rs:134-160 | If no two calls of the run collide in their cache keys, a chat that hits gets what another chat got for the same final model and the same messages. |
| Pipeline.RecordsAreTheCalls | crates/solvela-client/src/client.rs:163-166 | The session history counts exactly the chats the gateway answered and the streams looked up, each once, under the session and content hashes of the caller's own messages. |
| Pipeline.EverySendIsTheCalls | crates/solvela-client/src/client.rs:97-155 | Whatever a call sends has its final model and the caller's messages; only a stream's second request streams. |
| Pipeline.ModelAffinity | crates/solvela-client/src/client.rs:102-132 | Under any schedule of calls and balance updates a fallback call carries the free model and every other the model offered by the call that created the session it fell into. |
| Pipeline.OneModelPerLifetime | crates/solvela-client/src/client.rs:119-132 | Calls looked up within one session lifetime that did not fall back all carry the creating call's offered model. |
| Pipeline.TotalSpend | crates/solvela-client/src/client.rs:535-579 | Over any run, any chats and streams together sign for at most one cap each and one more for each chat that failed, and each signs exactly what it sends, every transaction gated and for the 402 it just received. |
| Refinement.ExchangeIsLocal | crates/solvela-client/src/client.rs:175-287 | An exchange depends on the past only through the gateway's and signer's replies: it equals the exchange run from an empty world in the environment as seen from there. |
| Refinement.StreamIsLocal | crates/solvela-client/src/client.rs:355-402 | The same for the handshake of a stream. |
| Refinement.ChatIsARun | crates/solvela-client/src/client.rs:97-168 | The sequential chat is a run of the interleaving model, with the same cache, sessions, result, requests and signatures. |
| Refinement.StreamIsARun | crates/solvela-client/src/client.rs:315-402 | Opening a stream alone is a run of the interleaving model, with the same sessions, result, requests and signatures, and the cache untouched. |
| Cache.LruCache.Get | crates/solvela-client/src/cache.rs:66-66 | LRU lookup: a present key is returned and moved to the front, an absent one changes nothing. |
| Cache.LruCache.Put | crates/solvela-client/src/cache.rs:78-84 | LRU insertion: replaces and promotes a present key, otherwise evicts the least recent slot of a full cache; keys stay distinct and the size within capacity. |
| Cache.ResponseCache.Get | crates/solvela-client/src/cache.rs:59-67 | A live entry is returned and promoted, an expired one removed, and a miss changes nothing. |
| Cache.ResponseCache.Put | crates/solvela-client/src/cache.rs:69-85 | A put inside the dedup window of a present entry changes nothing; any other stores the value most recent with its own time stamp. |
| Cache.ResponseCache.WithConfig | crates/solvela-client/src/cache.rs:34-42 | The cache starts empty, with a capacity of zero read as one. |
| CacheHistory.RecentKeysHit | crates/solvela-client/src/cache.rs:59-85 | Completeness over history: if fewer than capacity distinct other keys were touched since a key's last touch and its last effective put is within the time to live, a get hits with that put's value, whatever expired in between. |
| CacheHistory.CachedIff | crates/solvela-client/src/cache.rs:34-42 | Exactness: in a run where no get found an expired entry, a key is cached iff it was put and fewer than capacity distinct other keys were touched since its last touch. |
| CacheHistory.HitIff | crates/solvela-client/src/cache.rs:59-85 | Exactness in every run: a get hits iff the key's last effective put is young enough and, since the key's last touch, it was not found expired and the other keys touched and not yet found expired were always fewer than capacity. |
| CacheHistory.ExpiryMakesRoom | crates/solvela-client/src/cache.rs:59-67 | Why expiry matters there: a run in which a key hits although as many other keys as the capacity were touched since its last touch, one of them having been found expired. |
| CacheHistory.PutReplacesIff | crates/solvela-client/src/cache.rs:69-85 | A put of a cached key is swallowed iff it comes before the end of the dedup window of the last one that was not; any other leaves its own value and time stamp. |
| CacheHistory.HitsAreFresh | crates/solvela-client/src/cache.rs:59-67 | Every hit returns the value of the key's last effective put, made at most the time to live ago; hits never extend its life. |
| CacheHistory.WritesAreSpaced | crates/solvela-client/src/cache.rs:73-77 | While a key stays cached, any two effective writes of it are at least the dedup window apart. |
| CacheHistory.PutThenGetHitsIff | crates/solvela-client/src/cache.rs:59-85 | A get right after any put hits, after every run, iff the dedup window is at most one tick longer than the time to live. |
| CacheInclusion.Inclusion | crates/solvela-client/src/cache.rs:59-85 | Without a dedup window the smaller of two caches run on the same operations keeps a subsequence of the larger one's recency list, slot for slot, with sizes no further apart than the capacities. |
| CacheInclusion.HitsIncludedIff | crates/solvela-client/src/cache.rs:59-85 | Every hit of the smaller cache is the same hit in the larger, for all runs, iff there is no dedup window or the capacities are equal. |
| Session.ThreeStrikes | crates/solvela-client/src/session.rs:95-105 | The early-exit counting loop reports a strike iff some hash occurs three or more times in the window. |
| Session.SessionStore.GetOrCreate | crates/solvela-client/src/session.rs:40-79 | Returns a live session unchanged, or looks again and creates one with the default model. |
| Session.SessionStore.ReadSection | crates/solvela-client/src/session.rs:42-52 | The read section finds the session iff it is present and younger than the time to live, and changes nothing. |
| Session.SessionStore.WriteSection | crates/solvela-client/src/session.rs:54-79 | The write section keeps and returns a session that is live by then, else replaces it by a fresh one with the default model. |
| Session.SessionStore.CleanupExpired | crates/solvela-client/src/session.rs:108-112 | Exactly the entries younger than the time to live remain, unchanged. |
| Session.SessionStore.RecordRequest | crates/solvela-client/src/session.rs:81-106 | Records into a present entry only, sliding the ten-slot window and setting the sticky flag on a strike. |
| Session.WindowRefinesHistory | crates/solvela-client/src/session.rs:81-106 | After any recorded sequence the window is its last ten hashes and the entry is escalated iff the whole sequence has three equal hashes within ten consecutive requests. |
| SessionHistory.EntryIsItsHistory | crates/solvela-client/src/session.rs:40-112 | In every run an entry is what its last creation and the hashes recorded since make of it. |
| SessionHistory.RecordedKeeps | crates/solvela-client/src/session.rs:94-105 | An escalated entry stays escalated whatever is recorded after. |
| SessionHistory.EveryCallHasCreation | crates/solvela-client/src/session.rs:40-79 | Every call returns the model of a creation in whose lifetime it falls, possibly its own, and reports escalation iff three equal hashes were recorded within ten requests since. |
| SessionHistory.OneSource | crates/solvela-client/src/session.rs:40-79 | No call has two sources: no two creations that are its own or hold it in their lifetime. |
| SessionHistory.CallsInLifetimeAgree | crates/solvela-client/src/session.rs:40-79 | Every call decided within the lifetime of a creation returns that creation's model. |
| SessionHistory.CreationsAreSpaced | crates/solvela-client/src/session.rs:54-73 | Two creations for one id are at least the time to live apart, with cleanups anywhere between. |
| SessionHistory.CleanupRemovesExpired | crates/solvela-client/src/session.rs:108-112 | A cleanup removes exactly the entries created at least the time to live ago and leaves the others as they are. |
| SessionHistory.CleanupUnobservable | crates/solvela-client/src/session.rs:108-112 | Runs that differ only in their cleanups return the same results from every call. |
| SessionThreads.Linearizable | crates/solvela-client/src/session.rs:40-79 | Under every interleaving of lock sections the two-phase call refines an atomic one: each returned call has one atomic operation of its own, between its start and its return, yielding its result. |
| SessionThreads.CallsFollowOneCreation | crates/solvela-client/src/session.rs:40-79 | Under every interleaving creations of an id are a lifetime apart, and each returned call has exactly one source, a creation of its own or one whose lifetime it falls in, and returns that creation's model. |
| SessionThreads.CleanupsInvisible | crates/solvela-client/src/session.rs:108-112 | Taking every cleanup out of a schedule of interleaved threads changes no call's result. |
| Quality.HasRepetitiveLoop | crates/solvela-client/src/quality.rs:66-83 | True iff some triple of consecutive words starts at five or more positions. |
| Quality.JoinInjective | crates/solvela-client/src/quality.rs:73-74 | Joining three words with a space is injective on nonempty whitespace-free words, so map keys stand for triples. |
| Quality.WordsOfAggregate | crates/solvela-client/src/quality.rs:56-63 | The words of the aggregate are the concatenation of the words of the choices. |
| Quality.AggregateExact | crates/solvela-client/src/quality.rs:56-63 | The aggregate is, character by character, the choices in order with one space between neighbours. |
| Quality.WordsSplit | crates/solvela-client/src/quality.rs:67-67 | Any whitespace character splits the word list of a string in two; with WordsOfWord this determines all words. |
| Quality.WordsOfWord | crates/solvela-client/src/quality.rs:67-67 | A string without whitespace is its own only word, the empty one has none. |
| Quality.ByteLenAppend | crates/solvela-client/src/quality.rs:44-44 | Byte lengths add up; with ByteLenOfChar this is the UTF-8 length. |
| Quality.ByteLenOfChar | crates/solvela-client/src/quality.rs:44-44 | One to four bytes for a character, by its scalar value. |
| Quality.EmptyIffAllBlank | crates/solvela-client/src/quality.rs:22-28 | EmptyContent is reported iff every choice is blank. |
| Quality.VerdictIff | crates/solvela-client/src/quality.rs:21-53 | Each verdict is given iff its rule is the first that applies: every choice blank; one of the three phrases somewhere in the lower-cased aggregate; a triple of the choices' words starting at five or more positions; more than 100 bytes over the choices and the spaces between them with an alphanumeric last character. None is given iff no rule applies. |
| Quality.VerdictDependsOnWords | crates/solvela-client/src/quality.rs:22-41 | Responses with the same words, however spaced or split into choices, get the same emptiness and repetition tests. |
| Quality.IsDegraded | crates/solvela-client/src/quality.rs:22-53 | The ordered rules: blank, known phrase, repetition, truncation, the first that applies giving the reason. |
| Balance.BalanceMonitor.Run | crates/solvela-client/src/balance.rs:118-168 | After any polls the shared state is the last successful balance in atomic units, or unchanged, and the callbacks made are the alarms of the successful polls; with an unparsable wallet address nothing happens. |
| Balance.OneAlarmPerLowRun | crates/solvela-client/src/balance.rs:149-160 | The number of alarms is the number of starts of low stretches among successful polls. |
| Balance.EveryLowPollAlarmsIff | crates/solvela-client/src/balance.rs:105-160 | The callbacks are all the low polls iff no two successive successful polls are low. |
| Balance.LowAgainIsSilent | crates/solvela-client/src/balance.rs:149-160 | A low poll right after a low successful poll makes no callback. |
| Balance.StartsAreRuns | crates/solvela-client/src/balance.rs:149-160 | A position is such a start iff exactly one maximal low stretch begins there. |
| Balance.SentinelIff | crates/solvela-client/src/balance.rs:143-146 | The state is the sentinel iff no poll has succeeded or the last balance reaches the sentinel's value. |
| Balance.FallbackIff | crates/solvela-client/src/client.rs:103-117 | The free model is used iff one is set and the last successful poll found less than one atomic unit. |
| Balance.KnownBalanceIsClose | crates/solvela-client/src/client.rs:694-701 | The reported balance is the last polled one to within one atomic unit. |
| Balance.NothingKnownIff | crates/solvela-client/src/client.rs:694-701 | No balance is reported iff no poll has succeeded or the last one reaches the sentinel's value. |
| Balance.SuccessesOf | crates/solvela-client/src/balance.rs:135-167 | Only successful polls count, in order; failed ones leave no trace. |
| Proxy.ProxyState.ForwardHeaders | crates/solvela-client-proxy/src/proxy.rs:182-202 | The header loop computes the filtered header list in order. |
| Proxy.ForwardedPerName | crates/solvela-client-proxy/src/proxy.rs:182-202 | Name by name all readable values are kept in order, and a stripped name keeps none. |
| Proxy.ProxyState.ProxyHandler | crates/solvela-client-proxy/src/proxy.rs:44-95 | For every request and gateway: first one send with the caller's method, URL, filtered headers and, for POST, PUT and PATCH, body; then a 402 has its paid turn, any other reply is passed on with its status, body and last header values, and a failed send gives 502 or, on a timeout, 504. |
| Proxy.ProxyState.Handle402 | crates/solvela-client-proxy/src/proxy.rs:98-179 | After a 402 one signing attempt and, if it succeeds, one resend with the caller's method, URL, filtered headers and body plus the gated payment for that 402; the reply is passed on, another 402 is payment_rejected; a refusal tells which clause of the gate failed. |
| Proxy.ProxyState.BuildPassthroughResponse | crates/solvela-client-proxy/src/proxy.rs:206-233 | The response has the reply's status and body and the headers the header loop inserts. |
| Proxy.LastValueIsKept | crates/solvela-client-proxy/src/proxy.rs:223-230 | Name by name the caller gets the last value the gateway gave, and none under the two hop-by-hop names. |
| Proxy.UnmodifiedIff | crates/solvela-client-proxy/src/proxy.rs:204-233 | Every name keeps exactly its values iff no name occurs twice and none is hop-by-hop. |
| Proxy.OnlyOwnSignatureLeaves | crates/solvela-client-proxy/src/proxy.rs:182-202 | The paid request is the unpaid one plus one payment signature, the proxy's own; no caller-supplied one ever leaves, in any letter case. |
| Proxy.SignedOnceAndGated | crates/solvela-client-proxy/src/proxy.rs:137-143 | Signing for the proxy adds at most one transaction, gated, for the 402 body at hand. |
| Proxy.SigningErrorTells | crates/solvela-client-proxy/src/proxy.rs:236-268 | What the caller is told when a 402 is not paid for: the kind for the clause of the gate that fails first, or signing_error. |

## Left out

- HTTP, TLS, JSON, base64 and RPC transport: replaced by arbitrary replies and by what a body parses to.
- Transaction building, key handling and wallet files: signing succeeds and enters the ledger, or fails.
- Hash internals: nothing is said about collisions, so coherence is stated per key.
- Exchange.Attempt: error messages carry the gateway's body and status but not the parser's wording.
- Pipeline.Next: a whole paid exchange is one step with an environment of its own, which covers all interleavings of its
  requests since it touches no shared state of the client; the session lookup is one step by `SessionThreads.Linearizable`.
- CacheHistory.RecentKeysHit: one direction only, the other being false once something expired
  (`CacheHistory.ExpiryMakesRoom`); `CacheHistory.HitIff` gives the exact condition for every run.
- Quality.VerdictDependsOnWords: not stated for the phrase and truncation rules, which look at characters.
- Quality.IsDegraded: lower-casing and the alphanumeric test are parameters.
- Session.SessionStore.RecordRequest: the request counter is unbounded.
- Balance.BalanceMonitor.Run: balances are reals, without the source's floating-point rounding, and the endless loop is
  run on the polls made so far.
- Proxy.OnlyOwnSignatureLeaves: letter case is ASCII, as header names are.
- Proxy.ProxyState.ProxyHandler: error responses carry status and kind, not the message text; a body streamed to the
  caller is one value.
- Session.SessionStore.CleanupExpired: one clock reading for the whole pass, where the source reads the clock per entry.
- Lock poisoning, logging, request body limits and timeouts other than the proxy's first send.
- `models`, `estimate_cost`, `usdc_balance`, the configuration builder, and the command-line programs.
