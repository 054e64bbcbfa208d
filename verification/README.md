# Room provisioning and room sessions, verified

A Dafny model of the two sagas of this repository and of the machinery around them, with proofs
about every run: any interleaving, any failure, any crash.

- **Server.** `rooms.Service` provisions a room in two SQLite tables and on a NetBird server, undoes
  what it can when a step fails, and repairs the rest at the next start.
- **Client.** `session.Service` enrolls the device in a room, leaves it and switches rooms over a
  local NetBird daemon and two files, and compensates when a step fails.
- Around them: the recovery monitor, the session state machine, the peer list, the request loop of
  the Room API client, the one-shot setup key, the rate limiter and the room codes.

## How it is laid out

`Outcomes` holds the one idea everything shares: a call to somebody else is `Done`, `Refused` (no
effect, an error) or `Lost` (it took effect, and the caller sees an error).

Server:

- `RoomTables`, `NetBirdState`: the rows and statements, the groups, keys and policies.
- `Provisioning`: the saga as a state machine. One store or NetBird call is one step; any number of
  Create and Disable calls interleave; a crash drops them all; Reconcile runs alone before serving.
- `ProvisioningInvariant`: the inductive invariant and its proof, step by step.
- `ProvisioningSafety`, `ProvisioningIdempotence`, `ProvisioningStuck`, `ProvisioningResources`,
  `ProvisioningLosses`, `ProvisioningRepair`, `ProvisioningLiving`, `ProvisioningForeign`: the theorems
  about runs. `ProvisioningRetries` and `ProvisioningWitnesses`: runs that show where they end.
- `RoomStore`, `RoomService`: the code itself, as classes that update the tables and the server call
  by call. What the others do to both before each call of a request, and how that call is answered,
  are inputs (`Move`); the `ensures` say which database and which result those inputs lead to.
- `CallTraces`, `SoloRuns`: the link. `Amid` is what the machine makes of those inputs. If the others
  do what other callers of the machine do, the whole is a run of it (`WovenIsRun`,
  `WovenDisableIsRun`, `BootIsRun`), and every course a Create takes in a run of the machine is one
  that the code takes (`EveryCourseIsCode`).
- `CreateAnswers`, `DisableAnswers`, `ReconcileAnswers`: what each of the three tells its caller, and
  what that means, from the answers it got and without the machine's steps.
- `RateLimiter`.

Client:

- `LocalDaemon`, `LocalStores`: the daemon's profiles, the two files.
- `ManagedProfiles`: the one profile this application owns, and the adapter's operations; what
  Ensure, Enroll, Connect, Deregister and Remove do is a function of the daemon's answers.
- `SetupKeys`: the key and who may have it. `RoomApiClient`: retries and the create intent.
- `SessionCommands`: what each command does; an enrollment and a Leave are functions of the answers
  they get. `SessionService`: the code, proved to do that. `SessionRuns`: whole histories of commands.
- `RecoveryMonitor`: the loop; `RecoveryAnswers`: what it does about each thing it is told, and when it
  gives up, as a function of what it was told.
- `DaemonStatus`, `SessionState`, `PeerRefresher`, `RoomCodes`, `Text`.

## What the proofs turned up

- The comment at `room-api/internal/rooms/service.go:204-206` says Reconcile never modifies active
  rooms. It does: a crash between lines 173 and 183 leaves an active room whose record is still
  creating (`ActiveRoomUnderRepair`), and Reconcile takes it down. The exact condition is
  `ReconcileSparesExactly`; rooms whose code was returned are never touched (`ReconcileSparesReturnedRooms`).
- Two retries of a failed key whose lookups overlap both create a room (`TwoRetriesTwoRooms`). That
  is the only way: as long as no two calls of a key are about to reset its record at the same time,
  they may overlap as they like (`OneRoomPerKey`), and from any state in which two are, both can
  return (`TwoResetsTwoRooms`).
- Two such retries and a crash leave a row that records a valid setup key while no record names its
  room. Reconcile looks at rooms through records only, so it never takes that key back
  (`OrphanedByCrash`). A Create without an idempotency key has no record at all, and needs no race for
  the same (`UnkeyedOrphan`, `UnkeyedNeverRepaired`). Exactly when Reconcile clears a row:
  `ReconcileClearsExactly`. Of a Create with a key, a Reconcile that meets no error always does, but
  for that race (`InterruptedFreshKey`, `InterruptedRetry`).
- Reconcile ignores a failed delete and finishes the record all the same. Nothing tries that delete
  again (`RefusedDeletesStay`).
- A Create with a key that fails before the gate with its claim already made, or fails at lines 119,
  123, 173, 181 or 183, or cannot record its own failure, leaves the key "in progress"
  (`AbandonedIff`): every retry is turned away until a restart repairs the record
  (`AbandonedStaysStuck`).
- If the reply of a creation is lost, Create does not learn the identifier, and no Create, Disable or
  Reconcile ever takes the group, key or policy back (`LostForever`, `LostKeyStays`), although every
  compensating delete succeeds. Otherwise nothing stays (`UnwoundLeavesNothingIff`).
- `room-api/internal/rooms/service.go:170` deletes the group without asking whether this call created
  it, unlike lines 139, 147, 154 and 162. Reconcile does so too, at line 231: the row does not say who
  made the group it names. These two, and nothing else, delete a group that somebody else gave the
  name of a room (`ForeignGroupDiesIff`, `ForeignGroupSwept`).
- A Reconcile that stops at a failed statement is only logged. Between its deletes and its status
  update it can leave a room active whose group, key and policy are gone (`HalfRepairHollows`,
  `HollowRoomServed`). Such a room was never returned to anybody, and a record still creating names
  it; every other active room that no Disable got hold of has all three (`JoinableLives`).
- On the client a lost reply of RemoveProfile leaves a saved room whose profile is gone, and no command
  ever succeeds again (`StrandedForever`). Without a reported cleanup failure and without a crash it is
  the only way to get there; a crash between the removal and the clearing of the files is another
  (`CrashStrands`). The exact condition for every command, crashed or not: `StrandsIff`.
- A lost reply of AddProfile, or an answer with an empty identifier, leaves a profile that blocks
  every later enrollment until somebody removes it (`BlockedUntilRemoved`). Without a reported cleanup
  failure and without a crash it is again the only way; a crash after AddProfile is another
  (`CrashBlocks`). The exact condition: `BlocksIff`.
- A `Retry-After` of more than about 292 years wraps around in `client/internal/roomapi/client.go:469`
  and may be ignored; the wait still stays in its range (`SecondsHonouredIff`, `DelayInRange`).

## Model

| member | source | states |
|---|---|---|
| RoomStore.Store.BeginOperation | room-api/internal/store/store.go:86-93 | inserts the record unless the key has one, and tells which; atomic, and may be refused or lost |
| RoomStore.Store.GetOperation | room-api/internal/store/store.go:95-102 | the record of the key or none |
| RoomStore.Store.SaveOperation | room-api/internal/store/store.go:104-110 | writes response and status of an existing record, and no other |
| RoomStore.Store.ResetOperation | room-api/internal/store/store.go:112-115 | an existing record points at the new room and is creating again |
| RoomStore.Store.CreateRoom | room-api/internal/store/store.go:117-120 | inserts the row unless its id or its code hash is taken, which is an error |
| RoomStore.Store.UpdateExternalIDs | room-api/internal/store/store.go:122-125 | overwrites the three identifiers and the sealed key of one row |
| RoomStore.Store.SetStatus | room-api/internal/store/store.go:127-135 | overwrites the status of one row; also stands for Disable |
| RoomStore.Store.GetRoomByCodeHash | room-api/internal/store/store.go:137-139 | a row with that hash, or none if there is none |
| RoomStore.Store.ListCreating | room-api/internal/store/store.go:162-177 | every creating record exactly once, in some order |
| RoomStore.NetBird.CreateGroup | room-api/internal/netbird/client.go:171-175 | a new live group with an identifier of its own |
| RoomStore.NetBird.RevokeSetupKey | room-api/internal/netbird/client.go:198-201 | a valid key is revoked, nothing else changes |
| RoomService.Service.Create | room-api/internal/rooms/service.go:71-189 | given what others do before each call and how each call is answered, the database it leaves and the result it returns are those the machine ends with for this caller |
| RoomService.Service.PassGate | room-api/internal/rooms/service.go:72-118 | the idempotency gate: answers, or goes on with the record claimed, in the database the machine leaves |
| RoomService.Service.FindOwnGroup | room-api/internal/rooms/service.go:191-202 | the first group of that name in the listing, or none |
| RoomService.Service.TakeGroup | room-api/internal/rooms/service.go:127-136 | finds the group or creates it, remembering which; the database is the machine's after those calls |
| RoomService.Service.Provision | room-api/internal/rooms/service.go:127-172 | from group to recorded policy: database and answer are the machine's after those steps |
| RoomService.Service.Record | room-api/internal/rooms/service.go:152-166 | the key is recorded before the policy exists, each failure unwound |
| RoomService.Service.RecordIt | room-api/internal/rooms/service.go:167-172 | the policy is recorded, or policy, key and group are taken back |
| RoomService.Service.LookForGroup | room-api/internal/rooms/service.go:128-128 | the group found, none, or an error, and where each leads |
| RoomService.Service.MakeOwnGroup | room-api/internal/rooms/service.go:130-133 | a group made is remembered as made |
| RoomService.Service.Unwind | room-api/internal/rooms/service.go:146-165 | the key revoked, the group deleted if it is to go, room and record marked in error |
| RoomService.Service.Fail | room-api/internal/rooms/service.go:244-251 | room and record in error, whatever becomes of the statements |
| RoomService.Service.Finish | room-api/internal/rooms/service.go:173-188 | active first, response saved second, two error exits without compensation |
| RoomService.Service.Reconcile | room-api/internal/rooms/service.go:207-242 | given how its calls are answered, the database and the error are those of the machine's repair of the listing, ended by the first failing lookup or statement |
| RoomService.Service.RepairOne | room-api/internal/rooms/service.go:213-239 | one record: fetch, delete what the row names, mark room and record |
| RoomService.Service.RemoveRecorded | room-api/internal/rooms/service.go:223-232 | policy, key and group of the row are asked for in this order, failures ignored |
| RoomService.Service.Join | room-api/internal/rooms/service.go:253-264 | answers exactly for an active room whose key opens |
| RoomService.Service.Disable | room-api/internal/rooms/service.go:291-312 | given what others do and the answers: revoke, policy, status, stopping at the first error; the database and the outcome are the machine's |
| CallTraces.WovenIsRun | room-api/internal/rooms/service.go:71-189 | the calls of one Create, with stretches of runs of everybody else in between, are a run of the server that ends in the database and the result of Amid |
| CallTraces.WovenDisableIsRun | room-api/internal/rooms/service.go:291-312 | the same for the calls of one Disable |
| CallTraces.EveryCourseIsCode | room-api/internal/rooms/service.go:71-189 | every state a Create reaches in any run of the server without crashing is one the code reaches for some inputs |
| CallTraces.OneEnd | room-api/internal/rooms/service.go:71-189 | how a Create ends is determined by its inputs |
| CallTraces.BootIsRun | room-api/internal/rooms/service.go:207-242 | a Reconcile is a run of the whole server in which nobody else moves |
| CreateAnswers.FirstRefusalDecides | room-api/internal/rooms/service.go:71-189 | whatever others do, the first call not answered decides how a Create fails: before its row, through the compensation, or in its tail |
| CreateAnswers.UnrefusedAnswers | room-api/internal/rooms/service.go:71-189 | with every call answered it succeeds with its own room or the recorded response, or finds its key in progress; it fails only for a taken code or a record that does not open |
| CreateAnswers.TailIff | room-api/internal/rooms/service.go:173-188 | it fails in its tail if and only if the first call refused is the activation or, with a key, the saving of the response |
| CreateAnswers.EndsWithin | room-api/internal/rooms/service.go:71-189 | every Create returns after fifteen calls at most |
| CreateAnswers.CreateAlone | room-api/internal/rooms/service.go:71-189 | with no key or an unknown one, a free code, every call answered and nobody in its way: success with its own response, an active room, and the response on record |
| CreateAnswers.AllTried | room-api/internal/rooms/service.go:138-172 | on its way out every call of the compensation is tried in order, whatever becomes of the others |
| CreateAnswers.UnwindsAlone | room-api/internal/rooms/service.go:244-251 | a Create that gives up and is refused nothing more leaves room and record in error |
| DisableAnswers.DisableSucceeds | room-api/internal/rooms/service.go:291-312 | on every run, a Disable told ok found its room disabled, or the room is now, the key its row named is not valid and the policy is gone |
| DisableAnswers.DisableOkIff | room-api/internal/rooms/service.go:291-312 | whatever others do, a Disable ends after four calls at most and is told ok if and only if its code names a room and each call it made was answered |
| DisableAnswers.AlreadyDisabled | room-api/internal/rooms/service.go:296-298 | of a room already disabled nothing is asked |
| DisableAnswers.JoinableUntilDisabled | room-api/internal/rooms/service.go:253-312 | a returned room is joinable later if and only if it was and no Disable of its code was told ok since, nor wrote its row unheard |
| ReconcileAnswers.ReconcileEnds | room-api/internal/rooms/service.go:207-242 | whatever is answered: ends; no error if and only if every lookup and statement made was answered; then every listed record is in error, otherwise those before the one it stopped at are and those after it are untouched |
| ReconcileAnswers.DeletesAllTried | room-api/internal/rooms/service.go:223-232 | once a row is found, policy, key twice and group that it names are asked for in this order, whatever is answered |
| ReconcileAnswers.DeletesLast | room-api/internal/rooms/service.go:223-232 | every delete or revocation that takes effect holds to the end, whatever becomes of the others |
| SoloRuns.SoloIsRun | room-api/internal/rooms/service.go:71-189 | one Create with nobody else moving is a run of the whole server |
| ProvisioningInvariant.NextInv | room-api/internal/rooms/service.go:71-312 | every step of every caller, crash and repair keeps the invariant |
| ProvisioningInvariant.RunInv | room-api/internal/rooms/service.go:71-312 | the invariant holds in every reachable state |
| ProvisioningInvariant.StepCallLocal | room-api/internal/rooms/service.go:119-186 | a step of Create touches its own room's row and resources and its own key's record only |
| ProvisioningSafety.ReconcileSpares | room-api/internal/rooms/service.go:207-242 | no step of Reconcile changes a room whose final save took effect |
| ProvisioningSafety.ReconcileSparesReturnedRooms | room-api/internal/rooms/service.go:204-242 | on every run Reconcile leaves every room alone whose code was ever returned |
| ProvisioningSafety.ReturnedRoomStays | room-api/internal/rooms/service.go:173-188 | a returned room is active later if and only if it was and no Disable wrote its row since; its row and resources stay complete (by the outcome of Disable: `JoinableUntilDisabled`) |
| ProvisioningSafety.JoinableOnce | room-api/internal/rooms/service.go:253-312 | a room that stopped being joinable never is again |
| ProvisioningSafety.ActiveRoomAdmits | room-api/internal/rooms/service.go:253-264 | the code of any active room finds that room and its key opens |
| ProvisioningSafety.JoinAnswersIff | room-api/internal/rooms/service.go:253-264 | Join with a heard lookup answers if and only if there is an active room with that code |
| ProvisioningSafety.CreateThenJoin | room-api/internal/rooms/service.go:119-264 | Join of a returned code gives the same room, URL and key as long as the room is active |
| ProvisioningSafety.ReplayOpens | room-api/internal/rooms/service.go:82-90 | a finished record always opens, and holds the response of a call with that key whose save took effect |
| ProvisioningIdempotence.OneCallPerFreshKey | room-api/internal/rooms/service.go:74-118 | however calls overlap, one call at most passes the gate of a key never in error; the others say in progress, fail before the gate or return its very response |
| ProvisioningIdempotence.SuccessOnFreshKey | room-api/internal/rooms/service.go:82-118 | every success on a key never in error is the response of a call that passed the gate and saved it |
| ProvisioningIdempotence.OneRoomPerKey | room-api/internal/rooms/service.go:72-118 | unless two calls of a key are about to reset its record at once, all its responses are equal and at most one of its rooms is active, whatever fails, crashes or overlaps |
| ProvisioningStuck.ExactlyOnePasses | room-api/internal/rooms/service.go:105-118 | of a key never in error exactly the call its record names passes the gate, unless that call's insertion was reported as an error, and then none |
| ProvisioningStuck.InProgressAnswers | room-api/internal/rooms/service.go:76-118 | a call that finds its record creating is told in progress, and fails early if and only if its statement is not answered |
| ProvisioningStuck.AbandonedIff | room-api/internal/rooms/service.go:105-251 | a keyed call leaves its key in progress if and only if it dies after its claim, its claim took effect unheard, a retry's insertion fails, its row or status or response cannot be written, or its error cannot be recorded; otherwise, past the gate, the record holds its error or its response |
| ProvisioningStuck.AbandonedStaysStuck | room-api/internal/rooms/service.go:74-118 | from then on every call with the key is told in progress or fails before the gate, until Reconcile's last statement for the record takes effect, which puts it in error |
| ProvisioningStuck.StuckNext | room-api/internal/rooms/service.go:207-242 | a stuck key stays stuck under every action but that one |
| ProvisioningRetries.RetryAlone | room-api/internal/rooms/service.go:105-188 | a retry with a code of its own that is refused nothing ends with a new active room and touches no other |
| ProvisioningRetries.TwoResetsTwoRooms | room-api/internal/rooms/service.go:79-117 | any run that reaches two calls about to reset one record, with codes nobody has, can go on to two active rooms of that key |
| ProvisioningWitnesses.TwoRetriesTwoRooms | room-api/internal/rooms/service.go:79-117 | a run in which two overlapping retries of one key return two active rooms |
| ProvisioningWitnesses.ActiveRoomUnderRepair | room-api/internal/rooms/service.go:173-206 | a run after which Reconcile finds an active room that a creating record names |
| ProvisioningWitnesses.HollowRoomServed | room-api/internal/rooms/service.go:223-235 | a run after which the server serves with an active room whose group, key and policy are deleted |
| ProvisioningWitnesses.OrphanedByCrash | room-api/internal/rooms/service.go:79-214 | a run after which a row records a valid key and no record names its room |
| ProvisioningWitnesses.UnkeyedOrphan | room-api/internal/rooms/service.go:73-156 | a run of one Create without a key after which a row records a valid key and no record names its room |
| ProvisioningWitnesses.LostKeyStays | room-api/internal/rooms/service.go:137-143 | a run in which the reply of CreateSetupKey is lost, every delete succeeds and a valid key stays |
| ProvisioningWitnesses.ForeignGroupSwept | room-api/internal/rooms/service.go:167-171 | a run in which a Create deletes a live group that it found and somebody else made |
| ProvisioningResources.UnrecordedResources | room-api/internal/rooms/service.go:127-172 | at every moment: one group, key and policy at most per room; unrecorded are at most group and key, later at most the policy, in the end nothing |
| ProvisioningResources.FailedCreateLeaves | room-api/internal/rooms/service.go:134-186 | a Create failed through fail() with no creation lost and no delete refused leaves no live policy or group of its own and no valid key; a tail exit leaves every identifier in the row |
| ProvisioningLosses.LostForever | room-api/internal/rooms/service.go:131-166 | once a creation reply was lost, something of that room lives for ever |
| ProvisioningLosses.UnwoundLeavesNothingIff | room-api/internal/rooms/service.go:134-172 | a Create failed through fail() with no delete refused leaves nothing if and only if no creation reply was lost |
| ProvisioningRepair.ReconcileCleansUp | room-api/internal/rooms/service.go:207-242 | after an error-free Reconcile every record that was creating is in error and nothing its room's row names is left |
| ProvisioningRepair.ReconcileClearsExactly | room-api/internal/rooms/service.go:207-242 | an error-free Reconcile leaves nothing that a row names if and only if a creating record names the room or nothing was left before |
| ProvisioningRepair.InterruptedFreshKey | room-api/internal/rooms/service.go:74-242 | a keyed Create that ended past the gate without saving, crashed or failed, on a key never in error, is repaired by the next error-free Reconcile |
| ProvisioningRepair.InterruptedRetry | room-api/internal/rooms/service.go:74-242 | so is one on any key that left its record in progress, by the first Reconcile to reach that record if it is error-free, whatever happened in between, unless two calls of the key were about to reset the record at once |
| ProvisioningRepair.UnkeyedNeverRepaired | room-api/internal/rooms/service.go:204-214 | what the row of a room created without a key names is gone after an error-free Reconcile if and only if it was gone before |
| ProvisioningRepair.ReconcileSparesExactly | room-api/internal/rooms/service.go:204-242 | an error-free Reconcile leaves an active room alone if and only if no creating record names it |
| ProvisioningLiving.JoinableLives | room-api/internal/rooms/service.go:173-264 | on every run an active room that no Disable got hold of and no creating record names has a live group, a valid key and a live policy |
| ProvisioningLiving.HalfRepairHollows | room-api/internal/rooms/service.go:223-235 | any run ending before a Reconcile with an active room that a creating record names can go on to serve that room with all three deleted |
| ProvisioningLiving.RefusedDeletesStay | room-api/internal/rooms/service.go:223-238 | any run ending before a Reconcile with a creating record can go on so that the deletes are refused, everything its row names stays, and no record names the room any more |
| ProvisioningForeign.ForeignGroupDiesIff | room-api/internal/rooms/service.go:127-231 | on every run a live group made by somebody else is deleted by a step if and only if that is the sweep of a call that found it, or Reconcile deleting what its row names |
| RateLimiter.Limiter.Allow | room-api/internal/httpapi/server.go:248-263 | the verdict and the new counter of this client, every other counter unchanged |
| RateLimiter.SlidingBound | room-api/internal/httpapi/server.go:248-263 | any half-open interval of one window admits at most 2 * limit - 1 requests |
| RateLimiter.BoundAttained | room-api/internal/httpapi/server.go:253-262 | for every limit some run admits exactly that many |
| RateLimiter.StartsApart | room-api/internal/httpapi/server.go:253-256 | two windows of a client start at least one window apart |
| RateLimiter.StartsIff | room-api/internal/httpapi/server.go:253-256 | a request opens a window if and only if every window opened before it is over |
| RateLimiter.DeniedIff | room-api/internal/httpapi/server.go:253-262 | a request is denied if and only if the window last opened is not over and has let its limit through |
| RateLimiter.ClientsApart | room-api/internal/httpapi/server.go:252-262 | a client's counter is a function of its own requests |
| RateLimiter.BoundPerClient | room-api/internal/httpapi/server.go:241-263 | the bound for every client among all clients' requests |
| LocalDaemon.Daemon.AddProfile | client/internal/netbird/profile.go:55-64 | a profile under an identifier never used before, answered with that identifier or none |
| ManagedProfiles.RPCAdapter.Ensure | client/internal/netbird/profile.go:36-66 | does what EnsureRun says for the answers it gets; without an error it succeeds if and only if nobody has the name |
| ManagedProfiles.RPCAdapter.Validate | client/internal/netbird/profile.go:68-73 | without an error, valid if and only if the profile exists; changes nothing |
| ManagedProfiles.RPCAdapter.SelectProfile | client/internal/netbird/profile.go:75-90 | success means selected and existing |
| ManagedProfiles.RPCAdapter.RemoveProfile | client/internal/netbird/profile.go:92-123 | does what RemoveRun says for the answers it gets: only this profile goes, an unrelated selection stays, the removed one gives way to default |
| ManagedProfiles.RPCAdapter.Enroll | client/internal/netbird/rpc_adapter.go:128-153 | does what LoginRun says for the answers it gets, with a key; success means registered; the key is wiped on every way out |
| ManagedProfiles.RPCAdapter.Connect | client/internal/netbird/rpc_adapter.go:155-164 | does what UpRun says for the answers it gets; without an error succeeds if and only if the profile exists |
| ManagedProfiles.RPCAdapter.Disconnect | client/internal/netbird/rpc_adapter.go:166-172 | success means selected and down |
| ManagedProfiles.RPCAdapter.Deregister | client/internal/netbird/rpc_adapter.go:174-182 | does what DeregisterRun says for the answers it gets; success means no longer registered, and the profile stays |
| SetupKeys.SetupKey.constructor | client/internal/netbird/adapter.go:38-42 | a copy in an array of its own |
| SetupKeys.SetupKey.Clear | client/internal/netbird/adapter.go:58-66 | every byte zero and the array detached; nothing the second time |
| SetupKeys.EnrollmentSecret.Take | client/internal/roomapi/client.go:113-126 | the key for the first caller, nothing for any other |
| SetupKeys.EnrollmentSecret.Discard | client/internal/roomapi/client.go:106-111 | wipes a key nobody has taken and leaves a taken one alone |
| SetupKeys.OneConsumerThenWiped | client/internal/roomapi/client.go:94-126 | over all interleavings: one holder, the consumer runs at most once, and wiped and detached once all callers returned |
| RoomApiClient.Client.Do | client/internal/roomapi/client.go:317-337 | given the answers and how each wait ends: at most one attempt more than delays, all with the key; every retry after a retryable error and its delay waited out; gives up no sooner |
| RoomApiClient.Client.Create | client/internal/roomapi/client.go:244-265 | no attempt on a complete or busy intent; otherwise all attempts carry its key, and it succeeds and is complete exactly if the last is answered with a complete enrollment |
| RoomApiClient.CreateIntent.Begin | client/internal/roomapi/client.go:185-199 | refuses complete before in flight, hands out the one key otherwise |
| RoomApiClient.CreateIntent.Finish | client/internal/roomapi/client.go:201-209 | no longer in flight; complete and without a key exactly on success |
| RoomApiClient.DelayInRange | client/internal/roomapi/client.go:325-332 | every delay lies between its base and five seconds, however the header wraps |
| RoomApiClient.WaitsInRange | client/internal/roomapi/client.go:320-336 | so does every wait of an exchange |
| RoomApiClient.SecondsHonouredIff | client/internal/roomapi/client.go:466-475 | delay-seconds are honoured if and only if the product fits an int64, wraps to five seconds or more, or the base is five seconds |
| RoomApiClient.OtherHeaders | client/internal/roomapi/client.go:325-332 | a date is honoured up to five seconds; a negative number, any other header and none get the base delay |
| RoomApiClient.RetryableIff | client/internal/roomapi/client.go:57-69 | worth a retry are transport errors, 408, 429 and 500 to 504 without 501, and nothing else |
| RoomApiClient.ShortestWrapIgnored | client/internal/roomapi/client.go:468-470 | the shortest number of seconds that wraps, which is not honoured |
| SessionService.Service.RequireEmptyStorage | client/internal/session/service.go:384-397 | passes exactly when both files are read and absent; a room already saved exactly when both are read and there |
| SessionService.Service.LoadSavedRoom | client/internal/session/service.go:399-410 | the metadata exactly when both files are there |
| SessionService.Service.Compensate | client/internal/session/service.go:426-451 | does nothing the second time; the first time every step is tried, as UndoRun says for the answers it gets, and the failures counted are the failed steps |
| SessionService.Service.RollBack | client/internal/session/service.go:296-300 | on every failing exit one compensation, UndoRun, and the error carries the number of its failed steps |
| SessionService.Service.ConsumeSetupKey | client/internal/roomapi/client.go:94-104 | the key is taken once, used as LoginRun says and wiped afterwards |
| SessionService.Service.ConnectAndSave | client/internal/session/service.go:314-333 | connected, then code, then metadata, as ConnectRun says; metadata is never there without the code |
| SessionService.Service.Commit | client/internal/session/service.go:295-334 | all of it or compensated, as CommitRun says; a single error anywhere is always compensated without a failure |
| SessionService.Service.EnrollUnlocked | client/internal/session/service.go:270-342 | does what EnrollRun says for the answers it gets; without an error succeeds if and only if nothing is saved and nobody has our profile name; a single error after the profile exists is compensated without a failure; an obtained key is wiped on every exit; a success shows the daemon's status |
| SessionService.Service.LeaveUnlocked | client/internal/session/service.go:344-366 | does what LeaveRun says for the answers it gets; without an error succeeds if and only if a room is saved and its profile exists |
| SessionService.Service.GiveUp | client/internal/session/service.go:349-354 | the profile goes only after its device is deregistered, request by request as GiveUpRun says |
| SessionService.Service.Enroll | client/internal/session/service.go:198-268 | Create and Join: the right refusal and nothing else when busy or when the trimmed host name has not 1 to 63 bytes, else EnrollRun; every error but busy shows |
| Text.TrimSpaceBlank | client/internal/session/service.go:222-225 | trimming leaves nothing exactly of text that is all white space |
| Text.CasesPair | client/internal/roomapi/client.go:491-493 | the two alphabets are each other's upper and lower case, letter by letter |
| Text.NoOtherCase | client/internal/roomapi/client.go:491-493 | no other character has one, but for two in either direction |
| SessionService.Service.Leave | client/internal/session/service.go:188-194 | refused when busy, else LeaveRun; success shows no room, every error but busy shows |
| SessionService.Service.Switch | client/internal/session/service.go:215-250 | each refusal with its error and nothing else; leaves the saved room completely before it enrolls; what it ends with shows |
| SessionService.Service.Disconnect | client/internal/session/service.go:146-159 | files and profiles as before; success means down and shows so |
| SessionService.Service.Reconnect | client/internal/session/service.go:162-186 | files and profiles as before; success means up and shows the daemon's status |
| SessionRuns.OneManagedProfile | client/internal/session/service.go:198-366 | on every history at most one profile of our name, and no command touches anybody else's |
| SessionRuns.BothOrNeither | client/internal/session/service.go:318-364 | metadata and code are both there or both absent unless an earlier command reported cleanup failures or crashed |
| SessionRuns.SplitForever | client/internal/session/service.go:384-410 | a split pair stays split; every command fails without a single request |
| SessionRuns.StrandedForever | client/internal/session/service.go:344-366 | once the profile of a saved room is gone no command ever succeeds |
| SessionCommands.LeaveRunLeaves | client/internal/session/service.go:344-366 | what every Leave keeps, whatever the answers |
| SessionCommands.EnrollRunEnrolls | client/internal/session/service.go:270-342 | what every enrollment keeps, whatever the answers: all of it, or only its own leftovers, and none if no cleanup step failed |
| SessionRuns.EnrollAnswers | client/internal/session/service.go:270-342 | which error an enrollment reports, or success, as a condition on the state and the answers |
| SessionRuns.FailuresCounted | client/internal/session/service.go:426-456 | the cleanup failures reported are the number of steps among deregistration, removal and the two files that were tried and failed |
| SessionRuns.StaysRegisteredIff | client/internal/session/service.go:303-437 | the device of a failed enrollment stays registered if and only if Login took effect and the Logout of the compensation did not |
| SessionRuns.LeaveAnswers | client/internal/session/service.go:344-410 | which error a Leave reports, the number of uncleared files included, or success |
| SessionRuns.CanLeaveIff | client/internal/session/service.go:344-366 | some answers let a saved room be left if and only if its profile exists |
| SessionRuns.LeaveStrandsIff | client/internal/session/service.go:349-361 | a Leave strands its room if and only if the removal took effect and was not confirmed, or neither file could be cleared after it |
| SessionRuns.StrandsIff | client/internal/session/service.go:215-366 | a command, crashed or not, strands a room if and only if its Leave does, or its enrollment saved the metadata unheard, removed the profile and cleared neither file; with no cleanup failure, if and only if its RemoveProfile took effect and was not confirmed |
| SessionRuns.LostRemovalStrands | client/internal/session/service.go:352-354 | from any saved room with its profile: the lost answer that strands it |
| SessionRuns.CrashStrands | client/internal/session/service.go:352-361 | from any saved room with its profile: a crash after a confirmed removal strands it |
| SessionRuns.BlocksIff | client/internal/session/service.go:281-284 | a command, crashed or not, blocks later enrollments if and only if its AddProfile took effect and was not confirmed, or its attempt failed, the profile was not removed and neither file is left; with no cleanup failure only the former |
| SessionRuns.LostProfileBlocks | client/internal/netbird/profile.go:55-64 | a lost and a blank answer of AddProfile that do |
| SessionRuns.CrashBlocks | client/internal/session/service.go:281-301 | from any empty state without our profile: a crash after a confirmed AddProfile blocks |
| SessionRuns.BlockedUntilRemoved | client/internal/session/service.go:281-284 | nothing saved but a profile of our name: every command fails until others remove it |
| SessionRuns.AllOrNothing | client/internal/session/service.go:270-342 | success exactly when every answer is right, and then everything is there; a failure with no cleanup failure leaves nothing and the old selection or default, and neither check refuses a retry |
| SessionRuns.AnyCommands | client/internal/session/service.go:146-268 | any commands called on the service in any order make such a history |
| DaemonStatus.NormalizeStatus | client/internal/netbird/normalize.go:9-62 | version, state, links, local addresses and peers as the reply has them, empty where it has none |
| DaemonStatus.NormalizePeers | client/internal/netbird/normalize.go:32-60 | the raw peers in order without the nil ones |
| DaemonStatus.NormalPeersAre | client/internal/netbird/normalize.go:33-60 | the normalized peers are exactly the images of the raw ones |
| DaemonStatus.PeerStateIff | client/internal/netbird/normalize.go:113-124 | a peer is in a state if and only if the text is its name in some case, else unknown |
| DaemonStatus.DaemonStateIff | client/internal/netbird/normalize.go:94-111 | the same for the daemon's own state |
| SessionState.PreferredConnectedPath | client/internal/session/state.go:116-130 | P2P if any connected peer has it, else Relay if any has it |
| SessionState.Derived | client/internal/session/state.go:80-114 | the precedence among facts |
| SessionState.ConnectedIff | client/internal/session/state.go:80-104 | P2P if and only if the peers decide and a raw peer is connected and not relayed; Relay likewise |
| SessionState.ShownExactlyWhen | client/internal/session/state.go:80-114 | every other state if and only if its facts hold and none of higher precedence does |
| SessionState.StatusShows | client/internal/session/service.go:172-185 | after a status: P2P, Relay, connected exactly if management and signal both are, or reconnecting |
| SessionState.OrderNeverShows | client/internal/session/state.go:97-103 | permuting the daemon's peers changes nothing |
| SessionState.Machine.Apply | client/internal/session/state.go:62-72 | a uint64 revision that moves exactly when the view does |
| SessionState.RevisionCounts | client/internal/session/state.go:66-70 | over any run the revision is the number of changes, modulo 2^64 |
| SessionState.SameRevisionSameView | client/internal/session/state.go:62-78 | equal revisions mean equal views unless 2^64 changes lie between |
| RecoveryMonitor.Monitor.Run | client/internal/netbird/monitor.go:96-212 | the loop makes the steps of Step, which `RecoveryAnswers` characterizes; nothing is live after it returns |
| RecoveryMonitor.Monitor.EmitStatusNow | client/internal/netbird/monitor.go:131-151 | reports a failure once, restarts an exhausted stream on recovery |
| RecoveryMonitor.Monitor.ScheduleStreamRecovery | client/internal/netbird/monitor.go:153-171 | cancels, counts, then gives up or starts the right timer |
| RecoveryMonitor.Monitor.Resume | client/internal/netbird/monitor.go:71-94 | at most one attempt more than delays, exactly that many when it gives up, one when nothing fails; the snapshot is the daemon's last status |
| RecoveryMonitor.OneOfThree | client/internal/netbird/monitor.go:153-212 | at every round one of live, retry pending, exhausted; exhausted exactly after more failures than delays; the delay index in range |
| RecoveryMonitor.BoundedRetries | client/internal/netbird/monitor.go:114-171 | at most one subscription more than delays in any stretch without event or restart |
| RecoveryMonitor.ResubscribesOnRecovery | client/internal/netbird/monitor.go:131-150 | after giving up, a subscription needs a status success directly after a failure |
| RecoveryMonitor.ReportsSeparated | client/internal/netbird/monitor.go:131-141 | between two failure reports lies a successful status |
| RecoveryAnswers.EveryInputActsOn | client/internal/netbird/monitor.go:96-212 | a stream that ends is cancelled and leads to the next retry or to giving up; a timer subscribes; an event resets the count and is followed by a Status call; each Status call is noted; an exhausted stream restarts on recovery |
| RecoveryAnswers.GivesUpIff | client/internal/netbird/monitor.go:153-171 | the stream is given up exactly when it ends once more than there are delays with no event and no restart between |
| PeerRefresher.Refresher.Refresh | client/internal/session/peers.go:57-76 | the list is copied in and copied out; an error leaves it and marks it stale |
| PeerRefresher.Refresher.MarkStale | client/internal/session/peers.go:118-124 | stale with the latest error, the list untouched |
| PeerRefresher.LastSuccessShown | client/internal/session/peers.go:57-130 | the last successful list and its time are shown, stale exactly if a refresh failed since |
| RoomCodes.CheckRoomCode | client/internal/roomapi/client.go:491-508 | the trimmed upper-case code if it has three groups of four code characters |
| RoomCodes.CheckedAgrees | client/internal/roomapi/client.go:491-508 | what it accepts is well formed, accepted again unchanged, and what the form makes of it |
| RoomCodes.CleanedTwice | client/frontend/src/roomCode.ts:3-10 | cleaning up is idempotent, and valid in the form means accepted unchanged by the client |
| RoomCodes.RandomRoomCode | room-api/internal/rooms/service.go:339-349 | every code drawn is well formed and a fixed point of both normalizers |
| RoomCodes.EvenlyDrawn | room-api/internal/rooms/service.go:339-349 | every code character but I, O, 0 and 1 is drawn for eight of the 256 bytes, no other for any |
| RoomCodes.MaskRoomCode | client/internal/session/service.go:464-476 | hyphens and the last four characters stay, the rest is starred |
| RoomCodes.MaskHidesTheRest | client/internal/session/service.go:464-476 | codes that agree in length, hyphens and last four look the same |
| RoomCodes.MaskOfACode | client/internal/session/service.go:464-476 | a well-formed code shows as eight stars, two hyphens and its last group |

## Left out

- HTTP, TLS, SQL text, AES-GCM, SHA-256 and DPAPI: taken as the axioms `Open(Seal(x)) = x`, an
  injective hash, atomic statements and atomic file replacement.
- Room ids are the number of the call that drew them (drawn ids never collide); NetBird identifiers
  are positions (never reused); daemon profile identifiers are never reused.
- A failed Seal or a failed draw of random bytes in Create leaves as a refused call at the same place
  does, and is not a step of its own.
- The columns `created_at`, `disabled_at`, `last_error` and `code_ciphertext`, audit events, and
  trimming of the code in Join and Disable.
- ListGroups yields groups in creation order, deleted ones skipped.
- RoomStore.Store.SetStatus: also stands for `Store.Disable`, since `disabled_at` is not modelled.
- ProvisioningIdempotence.OneCallPerFreshKey: at most one call passes, not exactly one, because the
  insertion itself may be lost or refused; `ProvisioningStuck.ExactlyOnePasses` says when one does.
- Nobody but this server deletes or revokes what it made on NetBird: creating a group that has the
  name of a room (`ForeignGroup`) is the only thing outsiders do there.
- ProvisioningRetries.TwoResetsTwoRooms: asks for two codes no other room has; a drawn code that
  clashes makes its call fail.
- RoomService.Service.Create, RoomService.Service.Disable: what others do between two calls is an
  arbitrary input; that it is what other callers of the machine do is a hypothesis of
  `CallTraces.WovenIsRun` and `CallTraces.WovenDisableIsRun`.
- ProvisioningStuck.AbandonedIff: asks, as `OneRoomPerKey` does, that no two calls of the key were
  about to reset its record at once.
- A crash of the client in the middle of a command is a command all of whose later requests are
  refused and whose outcome nobody saw; there is no separate crash step.
- Other users of the daemon act between commands, not during one, and never create a profile with our
  name or give that name to one of theirs (`OthersAct`).
- LocalDaemon.Daemon.AddProfile: a daemon that answers with the identifier of another profile is not
  modelled; client/internal/netbird/profile.go:62-65 would believe it.
- SessionService.Service.EnrollWith: the branches at client/internal/session/service.go:289-294 are
  not modelled, because ManagedProfileStore never reports success with an empty identifier or another name.
- SessionService.Service.EnrollUnlocked: an obtained setup key is never empty, as
  client/internal/roomapi/client.go:417 sees to.
- TransactionError keeps the number of cleanup failures but not its cause.
- Wiping of room-code copies (`clearBytes`), and View and RevealRoomCode, which only read.
- Contexts and timeouts are calls that fail; timers and tickers are inputs in whatever order.
- RecoveryMonitor.Monitor.Run: the inputs a select can deliver are given as a sequence; a report
  counts as made even if the buffered channel is full and drops it.
- RateLimiter.SlidingBound: needs clock reads that do not go back in lock order.
- Text is a sequence of Unicode characters; bytes that are not UTF-8 are not modelled. Upper and
  lower case are modelled for the characters whose other case is or contains an ASCII letter.
- Peers, DisableDefaultPolicy, PeerRefresher.Watch, NormalizeProfiles, redaction, diagnostics,
  installers, the UI and the tray.
