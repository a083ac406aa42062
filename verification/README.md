# Grimlock, verified in Dafny

Grimlock attests and secures traffic between AI agents: two daemons prove their platforms to
each other over a TLS session, keep attested tunnels warm, and put policy enforcers on the
agents' requests. This project models its trusted logic and proves what it is for.

`dafny verify dfyconfig.toml` checks everything. The modules, bottom up:

| module | what it models |
|---|---|
| `Encoding`, `Strings` | big-endian words, 4-byte length prefixes and their decoder; sorting of strings |
| `Transcript` | the canonical transcript, its decoder, the gate's and the payment's field lists |
| `Session` | two endpoints exchanging values over byte channels of any capacity, one byte at a time, with a writer and a reader running at once and transports that may fail at any point |
| `Wire` | the read, write and exchange helpers over one connection |
| `Gate`, `GateBarrier`, `GateAgreement` | `Run` as a method and as a program, between two honest ends and against an arbitrary network |
| `Attest`, `Tunnel`, `ResumeAgreement` | the mode byte, resumption and the choice of branch, as programs and as methods, between two honest ends and against an arbitrary network |
| `ResumeCache`, `Lineage` | the cache of resumption secrets, and any number of concurrent setups among any number of daemons |
| `Simulation`, `Daemons` | that these setups are what the bytes do: one connection step by step, and whole histories of daemons, connections and caches |
| `Pool` | the warm tunnel pool: refills, gets, `Close`, cooldown, and the two clocks of freshness |
| `Spend`, `Digests` | the spend policy with its tumbling window, and the three digests |
| `Capability`, `Mcp`, `Manifests` | the capability order, attenuation, tools/call enforcement over JSON trees, and which attested manifest a tunnel's enforcer is given |
| `Guarded`, `GuardedProxy`, `GuardedWorld` | one guarded channel as steps, the same as methods over objects, and any number of channels sharing a budget and a log |
| `ReceiptLog` | the hash-chained log across failing disks and restarts |
| `Routing` | connect4, sock_ops and `Resolve` over the two eBPF maps |
| `Seccomp` | the filter generator, the kernel's checks and an interpreter |

Cryptography is abstract. Each lemma that needs an exporter, MAC or hash without collisions, or
an ideal quote verifier, says so in its `requires`, and only of the values that occur: the one
transcript, quote or tag of the run at hand, the secrets of the sessions of the history. Functions
with outputs of a fixed size can meet that, and for each such result a lemma exhibits a run that
does: `GateAgreement.AgreementHappens`, `ResumeAgreement.AgreementHappens` and
`ReflectionHappens`, `Attest.ResumptionHappens` and `GateHappens`, `Daemons.DaemonsResume` and
`LineageHappens`. Byte strings, lengths, clocks, 32-bit and 64-bit words are concrete. Times are
integers in nanoseconds, cache seeds in seconds.

Concurrent code is modelled as a state machine whose steps are the code's atomic operations:
a byte on the wire, a critical section, a map or channel operation. A theorem about every
run is one about every interleaving.

## What the code turns out to do

Where the code and its comments disagree the model follows the code, and these results say
exactly what holds:

- Resume cache: epochs grow across restarts if and only if no incarnation that attests did
  more full gates than whole seconds passed before the start of a later one that attests
  (`ResumeCache.EpochsAcrossRestarts`).
- Pool freshness: a tunnel handed out may rest on a gate as old as two intervals and one
  setup, because the stamp is taken at establishment; that bound is attained
  (`Pool.FreshnessBoundIsTight`).
- `Close` of the pool can leave a tunnel in the warm queue that nothing closes
  (`Pool.CloseCanLeak`). It is final if and only if, when it has drained, no refill that had
  passed its quit check can still push: it has yet to dial, which the cooldown check may still
  allow, or holds a tunnel, or is in time to establish one (`Pool.CloseIsFinalIff`).
- A `get` is refused, without dialling, if and only if it has not dropped a whole queue of
  stale tunnels, finds none warm, and some establish failed less than a cooldown ago
  (`Pool.GetEnds`, `Pool.MissDialsIff`).
- The receipt chain verifies if and only if no entry was written between a failed flush of a
  written entry and the next restart (`ReceiptLog.IntactIff`).
- Allowlist entries set to false do not show in the policy digest
  (`Digests.FalseEntriesAreInvisible`); policies with one digest decide alike if and only if
  the entries agree where they can matter (`Digests.DecidesIff`).
- The policy of an attenuated grant grants what every hop's policy does if and only if the
  attenuation is not empty: disjoint hops leave a policy that is not enforced
  (`Capability.AttenuatedGrantsIff`).
- A tools/call without a usable name, whatever its parameters look like, passes on its own if
  and only if the attested manifest's first tool with the empty name is granted
  (`Mcp.NamelessCall`).
- The manifest given to a tunnel's enforcer is that of the last client gate to have stored for
  the peer's address, which need not be the gate the tunnel rests on (`Manifests.AppliedIff`). A
  gate run as server caches its secret and drops its manifest, so a resumption on it goes without
  one (`Manifests.ServerGateDropped`) or with an older one (`Manifests.OlderManifest`), and so may
  a resumption that overtakes the storing of a client's gate (`Manifests.ResumedTooSoon`). Where
  every address is one daemon's and every daemon attests one manifest, the right one is applied
  if and only if it is empty or some client gate to the address has stored
  (`Manifests.StableIff`); until then the enforcer blocks every tools/call
  (`Manifests.StableEnforces`).
- Routing entries are right at every moment if and only if the run is clean
  (`Routing.AlwaysRightIff`): sock_ops never finds a destination left over from an earlier,
  failed dial of the same socket (`Routing.LeftoverDestination`), and no source port with an
  entry is shared by two live redirected connections, as sockets bound to different source
  addresses can (`Routing.SharedPort`). Clean or not, a look-up that hits takes its own
  connection's entry if and only if no other connection's was made on the port since
  (`Routing.HitIsOwnIffLast`, `Routing.AnswersOwnIff`); in a clean run that is as long as the
  connection is live (`Routing.HitIsOwnIffLive`, `Routing.StaleResolver`).
- If just one end's platform can produce a quote, the other end waits in the gate until the
  connection is gone (`GateBarrier.ReturnsOnlyIfSettled`).

## Model

| member | source | states |
|---|---|---|
| Encoding.U32RoundTrip | grimlock/internal/authz/transcript.go:58-63 | reading back a 4-byte big-endian length gives the length exactly when it is below 2^32 |
| Encoding.BigEndian | grimlock/internal/authz/transcript.go:49-63 | the 4-byte and 8-byte words stand for the number truncated to their width, most significant byte first |
| Encoding.TakeLPOfLP | grimlock/internal/authz/transcript.go:58-63 | a length-prefixed value is recovered from any byte string that starts with it, with the rest |
| Encoding.LPOfTakeLP | grimlock/internal/authz/transcript.go:58-63 | only the encoding of a value decodes to it |
| Transcript.Builder.New | grimlock/internal/authz/transcript.go:31-34 | the buffer is the version byte 1 and the domain field: it encodes the domain and no field |
| Transcript.Builder.Field | grimlock/internal/authz/transcript.go:37-41 | appending keeps the buffer the encoding of the domain and all fields so far, in order |
| Transcript.Builder.Str | grimlock/internal/authz/transcript.go:44-46 | as a field |
| Transcript.Builder.U64 | grimlock/internal/authz/transcript.go:49-53 | as a field of eight big-endian bytes |
| Transcript.RequestFields | grimlock/cmd/grimlock/payment.go:189-193 | the transcript starts with the epoch and the HTTP request, in the source's order |
| Transcript.RoundTripIff | grimlock/internal/authz/transcript.go:31-63 | the decoder recovers exactly the domain and the fields if and only if every length is below 2^32 |
| Transcript.DecodeIsExact | grimlock/internal/authz/transcript.go:31-63 | no byte string but the encoding decodes to a given transcript |
| Transcript.Injective | grimlock/internal/authz/transcript.go:31-63 | equal encodings have equal domains and fields |
| Transcript.GateTranscriptInjective | grimlock/internal/attest/gate.go:140-159 | a gate transcript determines the fresh flag and every nonce, key and digest |
| Transcript.GateTranscriptSays | grimlock/internal/attest/gate.go:140-159 | read back with the decoder, a gate transcript holds each role's key, manifest and agent digest under that role's tag, and the nonces exactly if fresh |
| Transcript.PaymentContext | grimlock/cmd/grimlock/payment.go:183-201 | the context built for the exporter is the payment transcript of its inputs |
| Transcript.PaymentTranscriptInjective | grimlock/cmd/grimlock/payment.go:189-200 | a payment transcript determines epoch, request, payment, policy, and whether and which challenge |
| Transcript.PaymentTranscriptSays | grimlock/cmd/grimlock/payment.go:189-200 | read back, a payment transcript holds each field under its own tag, the epoch as a number, and the challenge exactly if there is one |
| Transcript.GateNeverPayment | grimlock/cmd/grimlock/payment.go:189-200 | no gate transcript is a payment transcript |
| Session.RunRefinesScript | grimlock/internal/attest/gate.go:275-374 | in every interleaving, at every channel capacity and under any transport failures, two ends that follow a synchronous script have parsed a prefix of it, return only at its end and with its results, and two returned ends leave both channels empty |
| Session.Progress | grimlock/internal/attest/gate.go:275-374 | no deadlock: unless a transport failed or the script ends in a failing exchange, some step is enabled until both ends have returned |
| Session.RunIsBounded | grimlock/internal/attest/gate.go:275-374 | every run without failures is at most as long as twice the bytes to move plus twice the rounds |
| Session.Completes | grimlock/internal/attest/gate.go:275-374 | whatever has happened so far, as long as no transport has failed the run can be completed |
| Wire.Conn.WriteBlob | grimlock/internal/attest/gate.go:318-329 | writes the length-prefixed value, or as much as the transport takes |
| Wire.Conn.ReadBlob | grimlock/internal/attest/gate.go:331-348 | takes off the stream what the blob parser says of it: the value, or an error on a short stream or a length above the limit |
| Wire.Conn.WriteFrame | grimlock/internal/attest/gate.go:350-358 | writes the length-prefixed value, or as much as the transport takes |
| Wire.Conn.ReadFrame | grimlock/internal/attest/gate.go:360-374 | as a blob, with length zero an error |
| Wire.TakeIff | grimlock/internal/attest/gate.go:331-374 | a value is read off a stream exactly if the stream is that value behind its length prefix and a rest, within the limit, and not empty for a frame |
| Wire.TakeFixedIff | grimlock/internal/attest/gate.go:275-287 | and for a fixed size exactly if the stream starts with so many bytes |
| Wire.Conn.ExchangeFixed | grimlock/internal/attest/gate.go:275-287 | sends and reads; a value only if both succeeded, the stream consumed either way |
| Wire.Conn.ExchangeFrame | grimlock/internal/attest/gate.go:290-301 | the same for frames |
| Wire.Conn.ExchangeBlob | grimlock/internal/attest/gate.go:305-316 | the same for blobs |
| Wire.SoloEnding | grimlock/internal/attest/gate.go:100-219 | whatever a stream holds, a program ends with its own result on the values taken or with the failure of the exchange it was in |
| Gate.Run | grimlock/internal/attest/gate.go:100-219 | on any incoming bytes and any transport it returns, sends and consumes exactly what the gate program does |
| Gate.Advertise | grimlock/internal/attest/gate.go:119-129 | the same from the attachment exchange on |
| Gate.AdvertiseAgent | grimlock/internal/attest/gate.go:130-138 | the same from the agent exchange on |
| Gate.ViewCommits | grimlock/internal/attest/gate.go:144-159 | in either role, the transcript's fields are each end's own key and the digests of what that end advertised as attachment and as agent, with the nonces where fresh |
| Gate.BindingTranscript | grimlock/internal/attest/gate.go:140-159 | the transcript commits, role by role, to both keys, the digests of both attachments and both agents, and both nonces if fresh, whichever end builds it |
| Gate.BuildTranscript | grimlock/internal/attest/gate.go:140-159 | the transcript of a view, with the nonces exactly if fresh |
| Gate.ObjectionIs | grimlock/internal/attest/gate.go:171-212 | which failure is reported when several checks fail, and none exactly if all pass |
| Gate.Quote | grimlock/internal/attest/gate.go:140-169 | the same from the quote on |
| Gate.SwapQuotes | grimlock/internal/attest/gate.go:161-169 | the same from the quote exchange on |
| Gate.Appraise | grimlock/internal/attest/gate.go:171-218 | the same from the appraisal on; its own objection wins over a failed verdict exchange |
| GateBarrier.GateScripted | grimlock/internal/attest/gate.go:100-219 | two honest ends parse each other's messages in lockstep: shapes, sizes and order match round by round |
| GateBarrier.OneTranscript | grimlock/internal/attest/gate.go:140-159 | in every run what an end parsed is a prefix of what its peer sends, and both build one transcript |
| GateBarrier.Barrier | grimlock/internal/attest/gate.go:191-218 | in every run an end returns nil only if all four appraisals passed at both ends and with the peer's real attachment; without transport failure both return nil or neither, and nothing is left on the wire |
| GateBarrier.AllPassMeans | grimlock/internal/attest/gate.go:171-190 | all appraisals pass if and only if, at both ends, both export one value from the transcript of what both really advertise, the peer quotes it, that quote verifies, and the checks of attachment, key and agent pass |
| GateBarrier.NilAppraises | grimlock/internal/attest/gate.go:191-218 | in every run an end that returns nil has had all of that happen at both ends |
| GateBarrier.GateProgress | grimlock/internal/attest/gate.go:275-374 | where both ends can quote, or neither, the gate never hangs: unless a transport fails a step is possible until both ends returned, after a bounded number of steps |
| GateBarrier.ReturnsOnlyIfSettled | grimlock/internal/attest/gate.go:161-169 | and only there: without a transport failure both ends return only if both can quote or neither |
| GateAgreement.Agreement | grimlock/internal/attest/gate.go:144-190 | against an arbitrary network, if the one quote verified is genuine and no quote that was made was made for the same keying material by collision, then `Run` accepts only if some genuine platform quoted this session with, in role order, these two keys, these nonces, and the digests of both attachments and both agents |
| GateAgreement.SameTranscriptSameHeard | grimlock/internal/attest/gate.go:137-159 | rounds of one end with equal transcripts heard the same nonce, attachment and agent, if the digest tells those apart |
| GateAgreement.AgreementHappens | grimlock/internal/attest/gate.go:100-219 | for every exporter and session an end, quotes and a stream that meet those hypotheses and on which the gate accepts |
| Attest.SetupScripted | grimlock/cmd/grimlock/tunnel.go:552-571 | whatever the two caches hold, honest client and server setups follow one script, mode bytes included |
| Attest.SameBranch | grimlock/cmd/grimlock/tunnel.go:694-721 | in every interleaving the ends never stand in different branches, resume exactly when both hold a secret, and leave no stray byte |
| Attest.ResumeShares | grimlock/internal/attest/gate.go:236-271 | where the tags of this session tell the two cached secrets apart, a resumption that succeeds at either end does so on one shared secret, and without transport failure at both ends or neither |
| Attest.SetupOutcome | grimlock/cmd/grimlock/tunnel.go:552-571 | what each returned end came to: resumed exactly on a matching tag, else accepted exactly when all appraisals pass |
| Attest.SetupProgress | grimlock/cmd/grimlock/tunnel.go:552-571 | a setup does not hang, mode bytes included, unless only one end's platform can bind or quote |
| Attest.SetupCompletes | grimlock/cmd/grimlock/tunnel.go:694-721 | it can be completed from wherever it stands, with the outcome both ends are due |
| Attest.ResumptionHappens | grimlock/internal/attest/gate.go:236-262 | for every 32-byte secret two ends and a whole run, at any capacity, in which both resume on it; the hypotheses of `ResumeShares` hold there |
| Attest.GateHappens | grimlock/internal/attest/gate.go:100-219 | two ends and a whole run in which both accept |
| Tunnel.Resume | grimlock/internal/attest/gate.go:236-262 | returns, sends and consumes exactly what the resumption program does: it sends the tag of its own role under this secret, and resumes exactly if the stream starts with that of the other |
| Tunnel.RunGate | grimlock/cmd/grimlock/tunnel.go:417-449 | does what the gate program does; exactly on success the session's secret is stored under the peer's key, with the generation it returns, and no other entry changes |
| Tunnel.ClientAttest | grimlock/cmd/grimlock/tunnel.go:694-721 | announces resumption exactly if the cache returned a secret, and does what the client program does with it; its epoch is the generation of the entry resumed on or of the gate run |
| Tunnel.ClientFull | grimlock/cmd/grimlock/tunnel.go:709-720 | without a secret: announces a full gate and does what the client program then does |
| Tunnel.ClientFollows | grimlock/cmd/grimlock/tunnel.go:699-718 | the same once resumption has been proposed |
| Tunnel.ServerAttest | grimlock/cmd/grimlock/tunnel.go:552-571 | does what the server program does; the cache is asked only on a proposal, which is accepted exactly if it returns a secret |
| Tunnel.SoloAfter | grimlock/cmd/grimlock/tunnel.go:694-721 | a program that continues as another after a preamble ends as the other does on the remaining stream |
| Tunnel.GateIsNoResumption | grimlock/cmd/grimlock/tunnel.go:417-449 | whatever the stream holds, a full gate never ends as a resumption |
| ResumeAgreement.ResumedIff | grimlock/internal/attest/gate.go:236-271 | on any stream and transport `Resume` succeeds if and only if its tag could be written and the bytes read are the tag under this secret, the peer's role and this session |
| ResumeAgreement.Agreement | grimlock/internal/attest/gate.go:236-271 | against an arbitrary network, if the one tag this end expects is in the stream only when somebody made it, then `Resume` succeeds only if a holder of this secret made the tag of the other role for this session |
| ResumeAgreement.ClientAgreement | grimlock/cmd/grimlock/tunnel.go:694-721 | the same of the whole client setup, mode bytes included |
| ResumeAgreement.ServerAgreement | grimlock/cmd/grimlock/tunnel.go:552-571 | the same of the whole server setup |
| ResumeAgreement.NoReflectionNoReplay | grimlock/internal/attest/gate.go:245-271 | if only this end's own role, or nobody, has made tags under this secret for this session, resumption fails at either end |
| ResumeAgreement.AgreementHappens | grimlock/internal/attest/gate.go:236-262 | a stream that meets the hypotheses and on which resumption succeeds |
| ResumeAgreement.ReflectionHappens | grimlock/internal/attest/gate.go:245-271 | the hypotheses hold of a stream that reflects the end's own tag behind the mode byte, at every room; there the client setup does not resume |
| ResumeCache.Store.Put | grimlock/cmd/grimlock/tunnel.go:147-157 | the generation goes up by one and the entry is stored under it with its expiry |
| ResumeCache.Store.Get | grimlock/cmd/grimlock/tunnel.go:160-172 | a live entry is returned and nothing changes; else the key's entry is gone |
| ResumeCache.GetReturnsLatest | grimlock/cmd/grimlock/tunnel.go:126-172 | under a monotone clock a look-up returns the secret and generation of the latest put if and only if there is no time to live or at most that much time has passed since, whatever was looked up before |
| ResumeCache.GenerationsIncrease | grimlock/cmd/grimlock/tunnel.go:147-157 | every put gets a larger generation than all before it |
| ResumeCache.EpochsAcrossRestarts | grimlock/cmd/grimlock/tunnel.go:139-157 | all epochs over all incarnations strictly increase if and only if none overran the clock its successors are seeded from |
| ResumeCache.SharedEpoch | grimlock/cmd/grimlock/tunnel.go:139-157 | an overrun: two gates, a restart one second later and one more gate, and two attestations share an epoch |
| Lineage.ResumptionLineage | grimlock/cmd/grimlock/tunnel.go:552-571 | in every history of concurrent setups among daemons in which the sessions' secrets differ and their tags tell them apart in every session, a setup resumed at either end rests on one gate between the same two daemons that returned nil at both, whose secret both hold, and the client's epoch is that gate's generation |
| Lineage.HistoryInv | grimlock/cmd/grimlock/tunnel.go:694-721 | at every moment every cached entry comes from a completed gate of its owner with its peer |
| Simulation.StepSimulated | grimlock/cmd/grimlock/tunnel.go:552-571 | every step of two byte-level endpoints is no step or one step of their setup in `Lineage`, given that the server's look-up returns what its endpoint holds |
| Simulation.OthersKeep | grimlock/cmd/grimlock/tunnel.go:694-721 | no event of another setup or of the clock disturbs that |
| Simulation.StartSimulated | grimlock/cmd/grimlock/tunnel.go:694-698 | a setup just opened, after its client's look-up, stands where two endpoints start |
| Simulation.CachesSimulated | grimlock/cmd/grimlock/tunnel.go:147-172 | the look-up and gate events of client and server change the caches as `ClientAttest` and `ServerAttest` do, the server's not at all unless it is asked, with the epoch the client returns |
| Simulation.ResumedOnOneGate | grimlock/cmd/grimlock/tunnel.go:694-721 | if either endpoint that stands as setup `t` of a history has resumed, both hold the secret of one completed gate of the history between the same daemons; `Daemons` supplies the history and the correspondence |
| Daemons.StepMatches | grimlock/cmd/grimlock/tunnel.go:552-571 | every step of any daemons, a clock tick, a new connection, a look-up or one connection's next byte, with the caches as the code leaves them, is no event or one event of `Lineage`, with the same caches |
| Daemons.HistorySimulated | grimlock/cmd/grimlock/tunnel.go:694-721 | every byte-level history of any daemons and connections ends where a history of `Lineage` ends: same clock, same caches, every setup where its two ends are |
| Daemons.ResumedRestsOnGate | grimlock/cmd/grimlock/tunnel.go:552-571 | in every such history a connection resumed at either end rests on one connection between the same two daemons whose gate returned nil at both ends and exported the secret both had cached |
| Daemons.Unasked | grimlock/cmd/grimlock/tunnel.go:552-561 | what the server's cache would return plays no part in a run until the server has read a proposal |
| Daemons.DaemonsResume | grimlock/cmd/grimlock/tunnel.go:694-721 | a byte-level history, at any channel capacity, in which two daemons attest in full and then resume, and in which those hypotheses hold |
| Daemons.LineageHappens | grimlock/cmd/grimlock/tunnel.go:552-571 | the history of `Lineage` it matches, which meets the hypotheses of `ResumptionLineage` |
| Pool.EachTunnelHasOneOwner | grimlock/cmd/grimlock/pool.go:68-168 | in every reachable state each tunnel ever made is in exactly one of in flight, warm, handed out or closed, once, and the warm queue is within its size |
| Pool.FreshnessBound | grimlock/cmd/grimlock/pool.go:103-156 | every tunnel handed out rests on a gate at most two intervals and one setup old, one interval less when dialled directly, and is served at most one interval after its header |
| Pool.FreshnessBoundIsTight | grimlock/cmd/grimlock/pool.go:133-156 | some history attains that bound, for any interval and setup time |
| Pool.CoolingIff | grimlock/cmd/grimlock/pool.go:61-64 | the pool is cooling at exactly the moments less than a cooldown after a failed establish |
| Pool.GetEnds | grimlock/cmd/grimlock/pool.go:103-131 | in every history a `get` ends by handing out a tunnel, by its own failed establish, or refused, and then with an empty queue and a failure less than a cooldown ago |
| Pool.MissDialsIff | grimlock/cmd/grimlock/pool.go:114-123 | a `get` that finds no warm tunnel dials if and only if there was no recent failure or it has dropped a whole queue of stale ones |
| Pool.RefillDialsIff | grimlock/cmd/grimlock/pool.go:133-141 | a refill past its quit check dials exactly if there was no recent failure |
| Pool.GetServes | grimlock/cmd/grimlock/pool.go:103-124 | while nothing has failed of late every `get` under way, in any state, can go on to hand out a tunnel that is not stale |
| Pool.EmptyQueueDials | grimlock/cmd/grimlock/pool.go:114-119 | on an empty queue that tunnel is dialled directly and rests on a gate of that moment |
| Pool.WarmIsServed | grimlock/cmd/grimlock/pool.go:105-113 | a tunnel at the front of the queue within its idle time is the one handed out |
| Pool.NeverStuck | grimlock/cmd/grimlock/pool.go:103-156 | every goroutine that has not ended has a step to take, whatever the queue, the cooldown and `Close` do |
| Pool.CloseCanLeak | grimlock/cmd/grimlock/pool.go:158-168 | some history leaves a tunnel warm after `Close` with no goroutine left |
| Pool.CloseIsFinalIff | grimlock/cmd/grimlock/pool.go:133-168 | once `Close` has quit and drained, nothing enters the warm queue again if and only if no refill past its quit check has yet to dial, holds a tunnel, or is still in time to establish one |
| Spend.Enforcer.Evaluate | grimlock/internal/x402/policy.go:57-95 | the decision and the new budget are those of the window rules |
| Spend.ObjectionIff | grimlock/internal/x402/policy.go:60-83 | there is no objection if and only if the amount parses and is not negative, is within the per-payment cap, and network and lowered recipient are listed, where there is such a cap or list |
| Spend.AllowedIff | grimlock/internal/x402/policy.go:60-95 | a payment is allowed if and only if it is acceptable in that sense and, with an epoch cap, what was spent since the roll, nothing if an epoch has passed, plus the amount is within it; only acceptable payments roll the epoch and only allowed ones spend |
| Spend.DenialIsTrue | grimlock/internal/x402/policy.go:60-95 | the reason a denial gives is one that holds |
| Spend.MatchesIff | grimlock/internal/x402/policy.go:100-115 | a challenge is matched exactly by a payment to the same recipient up to case, on the same network, whose amount is a number within its maximum, if that is one |
| Spend.ParseIntAppend | grimlock/internal/x402/policy.go:61-64 | a further digit is one more decimal place and anything else at the end is no number |
| Spend.ParseIntFront | grimlock/internal/x402/policy.go:61-64 | a digit stands for itself, a sign alone is no number, one sign may stand in front |
| Spend.SpentIsSinceRoll | grimlock/internal/x402/policy.go:57-95 | after every run `spent` is the sum allowed since the last roll, and within the cap |
| Spend.WindowBound | grimlock/internal/x402/policy.go:76-93 | with a clock that never goes back, any half-open window of k epochs' length is allowed at most k + 1 caps |
| Spend.SumBound | grimlock/internal/x402/policy.go:76-93 | the same bound on the sum over a span, which the guarded channels are charged by |
| Spend.LifetimeBound | grimlock/internal/x402/policy.go:76-93 | without an epoch duration the lifetime total is what was spent and at most the cap |
| Digests.Hasher.WriteField | grimlock/internal/x402/binding.go:52-61 | appends the length-prefixed field |
| Digests.SortedKeys | grimlock/internal/x402/policy.go:143-150 | exactly the keys of the map, sorted and distinct |
| Digests.ParseOfDecimal | grimlock/internal/x402/policy.go:136-141 | parsing a printed amount gives it back |
| Digests.InputInjective | grimlock/internal/x402/binding.go:52-61 | equal hasher inputs have equal field lists |
| Digests.PolicyDigestInput | grimlock/internal/x402/policy.go:119-134 | what the policy digest hashes, with both allowlists in their one sorted order |
| Digests.BindingHashInput | grimlock/internal/x402/binding.go:17-32 | what the binding hash hashes |
| Digests.ChallengeDigestInput | grimlock/internal/x402/binding.go:37-49 | what the challenge digest hashes |
| Digests.PolicyInputSays | grimlock/internal/x402/policy.go:119-134 | read back part by part: the kind, the per-payment cap, the epoch cap, the duration, then recipients and networks under their tags |
| Digests.BindingInputSays | grimlock/internal/x402/binding.go:17-32 | read back part by part: the kind, network, scheme, and of an authorization payer, payee, value and nonce |
| Digests.ChallengeInputSays | grimlock/internal/x402/binding.go:37-49 | read back part by part: the kind and the six terms in order |
| Digests.PolicyDigestDetermines | grimlock/internal/x402/policy.go:117-134 | equal policy inputs, over allowlists of true entries, have equal decisions on every payment sequence |
| Digests.FalseEntriesAreInvisible | grimlock/internal/x402/policy.go:143-150 | two policies with one digest input, of which one denies what the other allows |
| Digests.EqualInputsShowTheSame | grimlock/internal/x402/policy.go:117-134 | equal policy inputs have equal caps, durations and allowlist keys, whatever the entries |
| Digests.DecidesIff | grimlock/internal/x402/policy.go:57-150 | policies that show the same decide every payment alike if and only if their entries agree on every network and, unless no network is allowed, on every non-empty recipient |
| Digests.BindingHashDetermines | grimlock/internal/x402/binding.go:17-32 | equal binding inputs have equal outcomes under every policy, budget, time and challenge |
| Digests.ChallengeDigestDetermines | grimlock/internal/x402/binding.go:37-49 | equal challenge inputs are matched by the same payments |
| Digests.KindsAreDisjoint | grimlock/internal/x402/binding.go:17-49 | no input of one kind of digest is one of another |
| Capability.CapCoversIsPrefix | grimlock/internal/capability/capability.go:130-132 | the string test is the prefix order on dot-separated segments, empty ones included |
| Capability.Attenuate | grimlock/internal/capability/capability.go:151-172 | the result is sorted and distinct, and covers a request if and only if both grants do |
| Capability.MeetCovers | grimlock/internal/capability/capability.go:151-172 | the pairwise more specific names cover exactly the intersection |
| Capability.AttenuateChain | grimlock/internal/capability/capability.go:178-187 | a non-empty chain covers a request if and only if every hop does; an empty one grants nothing |
| Capability.HopOrderIsIrrelevant | grimlock/internal/capability/capability.go:178-187 | chains with the same hops in any order authorize the same requests |
| Capability.CheckToolIsGranted | grimlock/internal/capability/capability.go:95-115 | no objection if and only if capability and scope, where enforced, are present and granted |
| Capability.GrantedIff | grimlock/internal/capability/capability.go:95-142 | a tool is granted if and only if, where capabilities are enforced, the segments of some grant are a prefix of its own, and where scopes are, its scope is granted |
| Capability.AttenuatedGrantsIff | grimlock/internal/capability/capability.go:144-187 | the policy of a non-empty attenuation along any chain of enforced hops grants a tool if and only if every hop's policy does; if the attenuation is empty no tool is granted by every hop, yet its policy grants every tool within scope |
| Capability.Check | grimlock/internal/capability/capability.go:78-90 | the offending tools are exactly those of the manifest the policy does not grant |
| Capability.CheckManifest | grimlock/internal/capability/capability.go:64-73 | passes exactly a manifest that parses, is not empty under an enforced policy, and whose every tool is granted |
| Capability.FindTool | grimlock/internal/capability/capability.go:118-125 | the first tool of the name, with none of that name before it; missing exactly if none has it |
| Mcp.ToolCallsIn | grimlock/cmd/grimlock/mcp.go:102-134 | every tools/call of a message or batch, in order; not ok exactly if some message does not decode |
| Mcp.Authorize | grimlock/cmd/grimlock/mcp.go:79-88 | permits exactly the tools of the attested manifest that the policy grants |
| Mcp.AuthorizeAll | grimlock/cmd/grimlock/mcp.go:53-75 | no denial if and only if every call is authorized |
| Mcp.Enforce | grimlock/cmd/grimlock/mcp.go:53-75 | permits exactly the bodies in which every tools/call is authorized; one denial or one undecodable message blocks the batch |
| Mcp.CallsInComplete | grimlock/cmd/grimlock/mcp.go:102-134 | the extracted calls are all authorized if and only if every call in the messages is |
| Mcp.CallNames | grimlock/cmd/grimlock/mcp.go:113-134 | the tool and the id of a tools/call are the last values under `name` in the last `params`, and under `id`, by the library's key matching |
| Mcp.CallPassesIff | grimlock/cmd/grimlock/mcp.go:53-134 | a message that calls a tool passes on its own if and only if the attested manifest lists the tool and the policy grants the first of that name |
| Mcp.OtherMethodPasses | grimlock/cmd/grimlock/mcp.go:121-126 | a message with another method, or none, passes whatever its parameters |
| Mcp.FailsClosed | grimlock/cmd/grimlock/mcp.go:102-122 | a body that is not JSON, or holds a message that is neither object nor null or whose method is no string, is blocked; a blank one passes |
| Mcp.AcceptedManifest | grimlock/cmd/grimlock/mcp.go:79-88 | a manifest the gate's check accepts authorizes exactly the tools it lists |
| Mcp.NotAnObjectIsNameless | grimlock/cmd/grimlock/mcp.go:99-134 | a tools/call whose parameters are absent or not an object names the empty tool |
| Mcp.NamelessCall | grimlock/cmd/grimlock/mcp.go:79-134 | every tools/call whose parameters are absent, malformed or without a name passes, on its own, if and only if the manifest's first tool with the empty name is granted |
| Mcp.NamelessInBatch | grimlock/cmd/grimlock/mcp.go:53-134 | in a batch it blocks the whole batch whenever that condition fails |
| Manifests.Table.StoreManifest | grimlock/cmd/grimlock/tunnel.go:97-105 | the parsed manifest replaces the one stored for the address |
| Manifests.Table.ManifestFor | grimlock/cmd/grimlock/tunnel.go:108-112 | the manifest stored for the address, or none |
| Manifests.TableStep | grimlock/cmd/grimlock/tunnel.go:694-721 | only a client's gate, once stored, changes the table, at its address; gates run as server, resumptions and expiries leave it |
| Manifests.TableApplied | grimlock/cmd/grimlock/main.go:561-566 | the manifest applied on a tunnel is what the table holds for its address |
| Manifests.AppliedIff | grimlock/cmd/grimlock/main.go:561-566 | in every run the manifest applied is the one attested in the gate the tunnel rests on if and only if the last client gate to have stored for the address attested the same tools, or none has stored and it is empty |
| Manifests.StableIff | grimlock/cmd/grimlock/tunnel.go:552-571 | where each address is one daemon's and each daemon attests one manifest, the manifest applied is the right one if and only if that is empty or some client gate to the address has stored |
| Manifests.NoManifestPermits | grimlock/cmd/grimlock/mcp.go:79-88 | without a manifest exactly the classifiable bodies that call no tool pass |
| Manifests.StableEnforces | grimlock/cmd/grimlock/main.go:561-566 | there the enforcer permits what the right manifest permits, less every tools/call as long as no client gate to the address has stored |
| Manifests.ServerGateDropped | grimlock/cmd/grimlock/tunnel.go:569-570 | for any attachment: a gate run as server and a resumption on it as client, and no manifest is applied |
| Manifests.ResumedTooSoon | grimlock/cmd/grimlock/tunnel.go:713-720 | a resumption between a client gate's `put` and its storing goes without the manifest until it is stored |
| Manifests.OlderManifest | grimlock/cmd/grimlock/tunnel.go:569-570 | a client gate, a later gate as server with another manifest, and a resumption: the older manifest is applied |
| Guarded.ForwardStep | grimlock/cmd/grimlock/guard.go:140-174 | every step of every goroutine keeps: forwarded is a prefix of read, and each element is permitted by every enforcer |
| Guarded.DebitStep | grimlock/cmd/grimlock/payment.go:80-115 | a step debits a connection exactly what the shared enforcer allowed in it |
| Guarded.MoneyStep | grimlock/cmd/grimlock/payment.go:80-105 | every step keeps: what an enforcer allowed for the requests forwarded is exactly what they pay |
| Guarded.ReceiptStep | grimlock/cmd/grimlock/payment.go:149-248 | every step keeps: the allowed decisions are, in order, those finalized, at most one being logged, those being flushed and those pending; denied ones are all logged |
| Guarded.ChallengeStep | grimlock/cmd/grimlock/payment.go:203-215 | every step keeps each challenge in one place: waiting, taken, or behind one decision |
| Guarded.LatestStep | grimlock/cmd/grimlock/payment.go:203-215 | every step keeps: the latest challenge is waiting, taken or consumed, and no decision passed one by |
| Guarded.VerdictStep | grimlock/cmd/grimlock/payment.go:80-115 | every step keeps each decision sound and no request decided on twice by one enforcer |
| Guarded.StepInv | grimlock/cmd/grimlock/guard.go:118-138 | all of these together |
| GuardedProxy.PaymentConn.SetChallenge | grimlock/cmd/grimlock/payment.go:203-207 | the new challenge replaces an unconsumed one |
| GuardedProxy.PaymentConn.TakeChallenge | grimlock/cmd/grimlock/payment.go:209-215 | returns the challenge and leaves none |
| GuardedProxy.PaymentConn.Record | grimlock/cmd/grimlock/payment.go:149-176 | one more decision; an allowed one's receipt joins the end of the queue, a denied one's goes to the log |
| GuardedProxy.PaymentConn.FinalizePending | grimlock/cmd/grimlock/payment.go:223-236 | takes the oldest pending receipt, if any |
| GuardedProxy.PaymentConn.TakePending | grimlock/cmd/grimlock/payment.go:240-248 | takes all pending receipts in order |
| GuardedProxy.Evaluate | grimlock/cmd/grimlock/payment.go:108-115 | a mismatched challenge denies without touching the budget; else the shared policy decides |
| GuardedProxy.Channel.EnforcePayment | grimlock/cmd/grimlock/payment.go:80-105 | goes only where the steps of `Guarded` go, and blocks or passes to the next enforcer |
| GuardedProxy.Channel.EnforceOne | grimlock/cmd/grimlock/guard.go:151-165 | an enforcer blocks a request unless it lets it pass: MCP by its manifest, x402 no payment, or one that answers the waiting challenge and the shared policy allows |
| GuardedProxy.Channel.PumpOne | grimlock/cmd/grimlock/guard.go:141-172 | one request is forwarded if and only if every enforcer in turn lets it pass and sending works; else the pump ends |
| GuardedProxy.Channel.PumpRequests | grimlock/cmd/grimlock/guard.go:140-174 | the whole pump takes only those steps, forwards a prefix of what arrives, and stops before the end only at a request that was refused or could not be sent |
| GuardedProxy.Channel.HandleResponses | grimlock/cmd/grimlock/payment.go:121-145 | every 402 challenge is kept and the last is waiting; each settlement finalizes the oldest receipt pending, in order |
| GuardedProxy.Channel.Finish | grimlock/cmd/grimlock/guard.go:133-137 | the finishers take only those steps and leave the connection finished |
| GuardedProxy.InvKept | grimlock/cmd/grimlock/guard.go:118-138 | the invariants of `Guarded` are a property every step keeps, so they hold of the code's state |
| GuardedProxy.BuildPipeline | grimlock/cmd/grimlock/guard.go:101-112 | the last x402 enforcer of the chain owns the responses, none exactly if there is none |
| GuardedWorld.AlwaysInv | grimlock/cmd/grimlock/guard.go:118-138 | in every interleaving of any connections: every invariant of each, the budget is the history of the shared enforcer, and all debits add up to its total |
| GuardedWorld.ForwardedIsPermitted | grimlock/cmd/grimlock/guard.go:140-174 | forwarded is a prefix of read; each forwarded body is permitted by every MCP enforcer, each forwarded payment has an allowing decision of every x402 enforcer |
| GuardedWorld.ForwardedWithinBudget | grimlock/cmd/grimlock/payment.go:80-115 | the payments forwarded on all metered connections, counted over all time or over any window by when they were judged, are within what the shared enforcer debited in it |
| GuardedWorld.PaidIsForwarded | grimlock/cmd/grimlock/guard.go:140-174 | over all time what is counted of a connection is the price of everything it forwarded |
| GuardedWorld.ForwardedInWindow | grimlock/internal/x402/policy.go:57-95 | what all connections forward on decisions made in any half-open window of k epochs' length is at most k + 1 caps |
| GuardedWorld.ForwardedEver | grimlock/internal/x402/policy.go:57-95 | without an epoch duration, what they ever forward is at most the cap |
| GuardedWorld.ChallengeVetsOne | grimlock/cmd/grimlock/payment.go:203-215 | no 402 challenge vets two payments |
| GuardedWorld.LastChallengeVets | grimlock/cmd/grimlock/payment.go:80-115 | the last challenge that had arrived when a payment was taken up vets it, unless it vetted an earlier one |
| GuardedWorld.AllowedIsVetted | grimlock/cmd/grimlock/payment.go:108-115 | each allowing decision is about a payment that was read, acceptable under the policy, of the amount on record, and that answers the challenge it consumed in recipient, network and amount; no request is charged twice by one enforcer |
| GuardedWorld.ForwardedIsAcceptable | grimlock/cmd/grimlock/guard.go:140-174 | every payment forwarded behind an x402 enforcer has a sound amount within the per-payment cap and goes to a listed recipient on a listed network; no malformed one is forwarded |
| GuardedWorld.ReceiptsInOrder | grimlock/cmd/grimlock/payment.go:217-248 | a connection's allowed receipts stand in the shared log in the order allowed; only those in flight, being flushed or pending are missing |
| GuardedWorld.OneReceiptEach | grimlock/cmd/grimlock/payment.go:149-248 | of a finished connection the log holds exactly one receipt for each decision, with its outcome, and no other |
| ReceiptLog.VerifyChain | grimlock/cmd/grimlock/receipt.go:129-141 | the first broken link, or -1 exactly if the chain is intact |
| ReceiptLog.Log.Open | grimlock/cmd/grimlock/receipt.go:68-100 | the head is recovered from the last entry |
| ReceiptLog.Log.Append | grimlock/cmd/grimlock/receipt.go:105-125 | links to the head; the head advances only after write and flush |
| ReceiptLog.SameHeadSameLog | grimlock/cmd/grimlock/receipt.go:42-48 | two intact logs ending in one hash are one log, if the hash is never empty and has no collision on their entries |
| ReceiptLog.FileHolds | grimlock/cmd/grimlock/receipt.go:105-125 | across all failures and restarts the file holds exactly the receipts that were written, in the order appended, each with the hash of its own content |
| ReceiptLog.IntactIff | grimlock/cmd/grimlock/receipt.go:105-125 | over all appends, failures and restarts the file verifies if and only if nothing was written on a stale head, given that no written entry hashes to the hash it points back to |
| ReceiptLog.AlwaysIntact | grimlock/cmd/grimlock/receipt.go:68-125 | with no failed flush after a write the file verifies and the head follows it |
| ReceiptLog.BrokenChain | grimlock/cmd/grimlock/receipt.go:105-125 | a flush that fails after the write, then an append: link 1 is broken |
| Routing.Maps.Connect4 | grimlock/src/bpf/grimlock.bpf.c:252-296 | redirects to the local listener, and records, exactly dials of a peer's address on an intercepted port, never SSH, tunnel, listener or localhost |
| Routing.Maps.Established | grimlock/src/bpf/grimlock.bpf.c:205-222 | re-keys a recorded destination by the source port and consumes it |
| Routing.Maps.Closed | grimlock/src/bpf/grimlock.bpf.c:231-240 | frees the entry of the port |
| Routing.Maps.Resolve | grimlock/cmd/grimlock/origdest.go:32-46 | undisturbed, finds the entry exactly if it is there and consumes it |
| Routing.StepsAreThePrograms | grimlock/src/bpf/grimlock.bpf.c:205-296 | the steps of the interleaved model change the two maps exactly as the programs do |
| Routing.TenTries | grimlock/cmd/grimlock/origdest.go:32-46 | a resolver looks at most ten times, gives up exactly after ten misses, and looks no more after a hit |
| Routing.TokensStep | grimlock/src/bpf/grimlock.bpf.c:205-240 | from a right state a step leads to a right one if and only if it is clean |
| Routing.AlwaysRightIff | grimlock/src/bpf/grimlock.bpf.c:205-296 | over all interleavings every entry is at every moment the destination dialled by the one live connection owning the port, a peer and an intercepted port, if and only if every event is clean: no destination left over from a failed dial, and no port with an entry shared by two live redirected connections |
| Routing.LeftoverDestination | grimlock/src/bpf/grimlock.bpf.c:210-221 | a run that is not clean and leaves a wrong entry |
| Routing.SharedPort | grimlock/src/bpf/grimlock.bpf.c:210-221 | a run in which two connections from different source addresses share a port and the first, though live, takes the second's entry |
| Routing.HitIsOwnIffLive | grimlock/cmd/grimlock/origdest.go:26-41 | in a clean run, a look-up that hits takes its own connection's entry if and only if that connection is live |
| Routing.HitIsOwnIffLast | grimlock/cmd/grimlock/origdest.go:26-41 | in every run a look-up that hits takes its own connection's entry if and only if that connection's was the last entry made on the port, and then the answer is the destination it dialled |
| Routing.AnswersOwnIff | grimlock/cmd/grimlock/origdest.go:32-46 | over all interleavings every resolver's answer is its own connection's entry if and only if no look-up hit an entry made on its port after its own connection's |
| Routing.ResolvesOwnOnce | grimlock/cmd/grimlock/origdest.go:32-46 | in those runs whatever a resolver returns is what its own connection dialled, a peer and an intercepted port; no entry goes to two, and a consumed one is gone |
| Routing.StaleResolver | grimlock/cmd/grimlock/origdest.go:26-41 | a run in which a resolver that outlived its connection takes the next one's entry |
| Seccomp.DenylistProgram | grimlock/cmd/grimlock/seccomp.go:54-65 | generates the program for the list |
| Seccomp.AcceptedIff | grimlock/cmd/grimlock/seccomp.go:45-65 | every generated program is well-formed, and within the kernel's length limit if and only if the list has at most 2047 entries |
| Seccomp.FilterDecides | grimlock/cmd/grimlock/seccomp.go:54-65 | for every list and every system call, interpreting the program stays in bounds, ends, and returns EPERM exactly if the number, the first word of its data, is listed, else ALLOW |

## Left out

- The TLS handshake and exporter, kTLS, HMAC, SHA-256, quote generation and verification: functions and predicates with stated hypotheses.
- HTTP, JSON text and base64: requests, JSON trees and decoded payloads are inputs. Unicode case mapping and the printing of durations are parameters.
- Limits on reading a request: one that is too large or comes too slowly ends the pump, as `PumpEnds` does.
- Deadlines and timeouts inside one gate: a timeout is a transport failure, which may strike at any step.
- `tunnelPool` and the concurrency of the guarded proxy are modelled on values, one step for each atomic operation; aliasing of the connections they hold is not captured. The proxy's methods in `GuardedProxy` run without interruption; interleavings are those of `Guarded` and `GuardedWorld`.
- Setup semaphore, listener, splice and header parsing of the tunnel, which are wiring.
- Concurrent access to the manifest table beyond its two critical sections, and the time a tunnel waits in the pool: `Manifests` says what is applied at any moment of a run.
- A failing export of the resumption secret after a gate has passed is in `Tunnel` but not in `Daemons`: the same session has just exported the quote's report data.
- `classify` and `buildEgressPolicy`: a look-up by port; every chain of enforcers is covered.
- `NewPolicy`, which trims names and drops empty ones: policies are given by their sets.
- That every `get` starts a refill: refills start at any time in `Pool`, so every result holds of the code's too.
- Success of a later resumption: a failed one does not evict the cached secret, and nothing is proved about how soon a full gate follows.
- Reason texts of denials, which are enumerations here, and the order of the offending tools in the message of `Check`.
- Receipts that are torn by a partial write: writes are all or nothing, and appends are taken to reach the log in `GuardedWorld`.
- Ring-buffer events, IPv6, and switching the programs off at run time; a failed update of a full eBPF map.
- Installing the seccomp filter, and how often a failing peer is dialled during the pool's cooldown.
