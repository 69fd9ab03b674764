# Hob credential lifecycle

A Dafny model of how the hub keeps secrets, configuration and ownership records in step, and
proofs of what that protocol guarantees.

The running product changes its model and voice credentials by updating four durable parties
one after another, with no common transaction: the configuration file (compare-and-swap on a
generation that both settings owners share), an ownership ledger per owner, the secret vault,
and the runtime generations that lease the secrets. Start-up recovery has to repair whatever
prefix of those updates a crash left behind. That protocol is the core of the model. Around it
stand the setup draft, in which the first credentials are collected, and a few smaller pieces
whose contracts are exact: activation, the private voice limiter and WAVE writer, the bridge
conformance checks and the two clones of a bridge's JSON configuration.

## How the model is built

`CredentialProtocol.dfy` is a transition system with one action per durable effect: adopt,
reserve, vault write, commit, mark, fall back, abandon, attempt, delete, acknowledge, retire. The
two settings owners, their background maintenance, cancellation, runtime swaps, retries, drains,
unrelated commits, crashes at any point and start-up recovery take turns in any order. Every
write may succeed, be refused, or land although its call throws. `Step` is total; a run is a
sequence of actions.

`ProtocolInvariant.dfy` holds the inductive invariant. The files from `ProtocolSteps.dfy` to
`ProtocolRecovery.dfy` show that each kind of action keeps it, `ProtocolRuns.dfy` lifts that to
runs, and `ProtocolHistory.dfy` shows that the history the invariant talks about is the real past
of the configuration. What a reader wants to know is in `ProtocolGuarantees.dfy` (every reachable
state), `ProtocolQuiescence.dfy` (after closing) and `ProtocolLimits.dfy` with
`ProtocolRetry.dfy` and `ProtocolRetryExample.dfy` (where the guarantees end). Proof bodies start with `hide *` where
they only combine the contracts of other lemmas.

The parts that the source writes as loops and field updates are classes and methods here:
`ConfigStore`, `LedgerStore`, `Vault`, the start-up pass (`RecoveryPass.dfy`), retirement after a
drain (`Retirement.dfy`), the calls of the model settings (`ModelSettings.dfy`) and of the voice
settings (`VoiceSettings.dfy`), the setup store and controller, the limiter, the WAVE writer, the
conformance checks and the activation controller. The start-up pass, the retirement and the
settings calls are proved to be runs of the transition system, effect by effect
(`SettingsRuns.dfy` holds what the two settings owners share), so that everything proved about
runs holds of them. Their contracts also say exactly what they leave in the ledger and the vault
when nothing fails underneath, and when they go through.

The setup draft is `SetupDraft.dfy` (the draft, its operations, its reload check) and
`SetupRuns.dfy` (its store over whole runs); `SetupProgress.dfy` says from which drafts setup can
be finished, and `SetupContents.dfy` when each operation is accepted, every field it stores and
hence what a draft holds after any run. The controller (`SetupController.dfy`) is proved against
functions of the draft and the vault, and says what a sweep and a discard leave without naming
them; `SetupSecrets.dfy` proves what a probe leaves and when it loses a secret.

## Hypotheses

A *sound* run makes one assumption, a *strict* one two; the code discharges neither.

* No commit is lost. A configuration write can throw after its rename
  (`packages/hub/src/product-bootstrap-config-store.ts:155-175`); the change then abandons a
  credential that the configuration names by now. `CommitHypothesisIsExact` shows that this is the
  exact condition: from a state that satisfies the invariant, an action leads only to states that
  keep the configured secrets if and only if it does not lose a commit that has staged credentials.
* No retry overlaps (strict runs). A retry mounts the configured credential again while an older
  generation may still lease it, and the drain receipt of the next swap covers one generation only
  (`packages/agent-layer/src/model/model-provider-resolver.ts:197-215`). `RetryHypothesisIsExact`
  shows that this condition is exact too: wherever the model can be replaced at all, a retry leads
  only to states that keep every leased secret if and only if it does not overlap.
* Staged locators are fresh and well formed, and the locator of the first configuration is either
  one the settings code can parse or is never deleted (`managed` in `Locator`).

The setup draft has its own: reserved locators are fresh, and the guards of `Safe`, which are
exactly what the reload needs (`WriteReloadsExactly`).

## What the proofs say against the code

* A lost commit deletes the configured credential (`LostCommitLosesSecret`).
* A retry over an undrained generation breaks drain-before-delete (`RetryHypothesisIsExact`; a
  concrete run is `OverlapDeletesLeasedSecret`).
* `saveIdentity` has no stage guard. Over a handed-out bridge lease or over voice evidence it
  writes a draft that no load accepts (`IdentityOverLeaseIsRefused`), and nothing can repair such a
  draft (`RefusedForever`). Over model evidence, at whatever step, the draft stays readable but can
  never be finished; from every other draft that setup can reach, it can
  (`SavingAgainEndsSetupExactly`, `SetupFinishesExactly`).
* A voice lease whose delete failed stays handed out; completing both tracks with it left over
  writes a draft that no load accepts (`LeftoverLeaseIsRefused`).
* The store records a model stage after a looser check than the one a reload makes of the
  evidence: a model id with white space inside is admitted, and no load accepts the draft that its
  record writes (`SpacedModelIdIsRefused`). What the controller stages meets both checks
  (`PreparedIsEvident`).
* A probe leaves recorded evidence without its secret if and only if the record lands although its
  call throws and the discard's delete lands (`ProbeCallKeepsSecretsExactly`,
  `VoiceProbeCallKeepsSecretsExactly`).
* An activation whose commit lands and throws answers `unavailable` while the configuration has
  changed; it is the only case in which answer and store disagree
  (`Activations.ActivationController.Activate`).
* A model change that the input check refuses leaves the status at `switching`: that one return
  does not settle it, and a reader is shown `switching` until the next change or retry
  (`OperationalModelSettings.ConfigureCandidate`, `OperationalModelSettings.Project`).
* A voice change whose gateway activation fails after the commit answers `unavailable` although
  the configuration has changed (`OperationalVoiceSettings.ConfigureCandidate`).
* A bridge configuration loses a field named `__proto__` when it is cloned; every other field of an
  accepted configuration survives (`StrippedExactly`, `ValueAgrees`).
* The sweep's check that a pending entry is not the configured one never fires: pending entries
  never name a configured locator (`PendingIsUnused`).

## Model

| member | source | states |
|---|---|---|
| Configurations.GenerationCountsCommits | packages/hub/src/product-bootstrap-config-store.ts:93-142 | over any sequence of requests the generation never decreases, and each committed request raises it by exactly one from the value it expected |
| Configurations.OneCommitPerGeneration | packages/hub/src/product-bootstrap-config-store.ts:93-142 | two committed requests of one sequence never expected the same generation |
| Configurations.NoLostUpdate | packages/hub/src/product-bootstrap-config-store.ts:109-142 | whatever model, voice and whole-draft requests are interleaved, from a stored configuration or from none, the stored model is that of the last committed change of the model, the stored voice that of the last committed change of the voice, and household, agent, bridges and activation time are those of the last committed whole draft |
| Configurations.CommitFrames | packages/hub/src/product-bootstrap-config-store.ts:109-142 | a whole draft is stored as it was given, a voice or model commit stores what it was given and keeps every other field, and a valid configuration stays valid |
| Configurations.AnswersExactly | packages/hub/src/product-bootstrap-config-store.ts:93-142 | a request is invalid if and only if its own fields are, and committed if and only if they are not and it expects the stored generation, which only a whole draft may expect to be none |
| Configurations.WholeDraftIsStored | packages/hub/src/product-bootstrap-config-store.ts:99-104 | a committed whole draft is stored field by field as it was given, one generation on, also when nothing was stored |
| Configurations.ConfigStore.Commit | packages/hub/src/product-bootstrap-config-store.ts:93-108 | the stored configuration after a whole-draft commit is what the served request says, unless the write was refused; what that is, `WholeDraftIsStored` says |
| Configurations.ConfigStore.CommitVoiceChange | packages/hub/src/product-bootstrap-config-store.ts:109-126 | the same for a voice commit |
| Configurations.ConfigStore.CommitModelChange | packages/hub/src/product-bootstrap-config-store.ts:127-142 | the same for a model commit |
| CleanupLedgers.Validate | packages/hub/src/product-model-cleanup-ledger.ts:226-255 | the reader's loop with its two sets accepts exactly the ledgers with at most sixteen well-formed entries, unique locators and one active owner per track and generation |
| CleanupLedgers.ReserveEffect | packages/hub/src/product-voice-cleanup-ledger.ts:83-104 | an accepted reservation adds one staged entry for an unknown locator and changes no other |
| CleanupLedgers.MarkCommittedEffect | packages/hub/src/product-voice-cleanup-ledger.ts:107-133 | an accepted mark turns one staged entry active under the generation after the expected one and changes no other |
| CleanupLedgers.AdoptCommittedEffect | packages/hub/src/product-model-cleanup-ledger.ts:95-118 | an accepted adoption leaves an active owner in place, promotes the staged entry of the same generation, or adds an active entry, and changes no other |
| CleanupLedgers.RetireEffect | packages/hub/src/product-model-cleanup-ledger.ts:120-129 | an accepted retirement turns exactly one active entry pending |
| CleanupLedgers.AbandonStagedEffect | packages/hub/src/product-model-cleanup-ledger.ts:131-139 | an accepted abandonment turns exactly one staged entry pending |
| CleanupLedgers.AttemptEffect | packages/hub/src/product-model-cleanup-ledger.ts:147-155 | an accepted attempt raises the count of exactly one pending entry that is below the cap |
| CleanupLedgers.AcknowledgeEffect | packages/hub/src/product-model-cleanup-ledger.ts:157-164 | an accepted acknowledgement removes exactly one pending entry |
| CleanupLedgers.ReservesExactly | packages/hub/src/product-model-cleanup-ledger.ts:71-79 | a reservation is accepted if and only if its locator is the owner's, its generation is not negative, the ledger does not know the locator and holds fewer than sixteen entries |
| CleanupLedgers.MarksExactly | packages/hub/src/product-model-cleanup-ledger.ts:81-93 | a mark is accepted if and only if it names the next generation of a staged entry of that expectation and no other active owner of the track has that generation |
| CleanupLedgers.AdoptsExactly | packages/hub/src/product-model-cleanup-ledger.ts:95-118 | an adoption is accepted if and only if the entry is active, is staged for that generation (models only), or is unknown with room and no entry in its way; each refusal but one told apart |
| CleanupLedgers.RetiresExactly | packages/hub/src/product-model-cleanup-ledger.ts:120-129 | a retirement is accepted if and only if it names an active entry with its committed generation |
| CleanupLedgers.AbandonsExactly | packages/hub/src/product-model-cleanup-ledger.ts:131-139 | an abandonment is accepted if and only if it names a staged entry |
| CleanupLedgers.CleansUpExactly | packages/hub/src/product-model-cleanup-ledger.ts:147-164 | an attempt is accepted if and only if it names a pending entry with fewer than a million attempts, an acknowledgement if and only if it names a pending entry |
| CredentialStores.LedgerStore.ListPending | packages/hub/src/product-model-cleanup-ledger.ts:141-145 | lists the first pending entries in ledger order, at most the limit, and refuses a limit outside one to sixteen |
| CredentialStores.LedgerStore.Mutate | packages/hub/src/product-model-cleanup-ledger.ts:166-175 | a refused operation or write changes nothing, an accepted one stores exactly the result that the operation computed from the stored entries |
| ProtocolRuns.StepKeeps | packages/hub/src/product-operational-model-settings.ts:121-318 | every action of anybody keeps the protocol invariant, under the hypotheses of the run |
| ProtocolRuns.RunKeeps | packages/hub/src/product-operational-voice-settings.ts:153-446 | every state of every sound run, with crashes and faults anywhere, satisfies the invariant |
| ProtocolRecovery.CrashKeeps | packages/hub/src/product-runtime-supervisor.ts:266-300 | a crash between any two durable effects leaves a state from which start-up can work |
| ProtocolRecovery.ReconcileEntryKeeps | packages/hub/src/product-runtime-supervisor.ts:550-574 | promoting, abandoning or retiring one ledger entry at start-up keeps the invariant under every fault |
| ProtocolHistory.HistoryIsThePast | packages/hub/src/product-bootstrap-config-store.ts:93-142 | the generation history in the state is exactly the set of configurations that were durable at some moment of the run |
| ProtocolHistory.ChangeIsAllOrNothing | packages/hub/src/product-operational-voice-settings.ts:153-330 | from the moment a change begins, every configuration that is ever durable names all its new credentials or none, and each of them that is in the vault is configured or ledgered, through failing writes, cancellation, conflicts, crashes and a failed mount after the commit |
| ProtocolGuarantees.ConfiguredSecretsAreStored | packages/hub/src/product-operational-model-settings.ts:188-285 | in every reachable state the vault holds every credential the durable configuration names |
| ProtocolGuarantees.NoOrphanSecret | packages/hub/src/product-operational-model-settings.ts:121-285 | in every reachable state each secret in the vault is named by the configuration, ledgered by the owner of its track, or has a locator the settings code cannot parse |
| ProtocolGuarantees.PendingIsUnused | packages/hub/src/product-operational-model-settings.ts:243-285 | in every reachable state no pending entry names a configured locator or a candidate of a change under way and, in strict runs, none that an undrained generation leases |
| ProtocolGuarantees.SwapReceipt | packages/agent-layer/src/model/model-provider-resolver.ts:197-215 | in every state a strict run reaches, a swap hands out the receipt of the generation it replaces, and no other generation uses any of what the swap replaced |
| ProtocolGuarantees.DrainedIsUnused | packages/hub/src/product-operational-model-settings.ts:255-272 | in every reachable state, once the generation of a receipt is gone, what was replaced under it is not configured, no candidate of a change under way and, in strict runs, leased by no generation |
| ProtocolGuarantees.LeasedSecretsAreStored | packages/hub/src/product-operational-voice-settings.ts:375-407 | in strict runs the vault holds every credential that a generation which still has leases was mounted with |
| ProtocolGuarantees.LedgersReload | packages/hub/src/product-voice-cleanup-ledger.ts:344-392 | in every reachable state both ledgers pass the reload check |
| ProtocolGuarantees.EntriesNameTheirGeneration | packages/hub/src/product-model-cleanup-ledger.ts:81-118 | every entry with a committed generation names what the configuration named while that generation was durable, although the other owner's commits share the counter |
| ProtocolGuarantees.OwnersNeverCollide | packages/hub/src/product-model-cleanup-ledger.ts:88-90 | a locator may always be recorded under a generation that named it: neither ledger operation refuses it as a duplicate owner |
| ProtocolGuarantees.NoDuplicateOwner | packages/hub/src/product-voice-cleanup-ledger.ts:121-124 | in every reachable state neither a change that adopts or marks nor start-up recovery can meet the duplicate-owner refusal |
| ProtocolQuiescence.DrainedOwnerIsQuiet | packages/hub/src/product-operational-voice-settings.ts:409-425 | once an owner is closed, idle and without tasks, no further run without a crash changes its ledger, its section of the configuration or its secrets, and it stays so |
| ProtocolQuiescence.ClosingStays | packages/hub/src/product-operational-model-settings.ts:288-295 | a closed owner whose change has settled stays idle and gets no new task, whatever anybody does short of a crash |
| ProtocolQuiescence.CloseAndDrainIsQuiet | packages/hub/src/product-operational-voice-settings.ts:410-425 | in every run without a crash that closes the owner, later finds its change settled and later still finds it without a task, nothing of it changes from then on |
| ProtocolQuiescence.DrainingFirstIsNotEnough | packages/hub/src/product-operational-voice-settings.ts:410-418 | awaiting the tasks before the change would not do: a removal closed in flight adds a task when it settles |
| ProtocolLimits.LostCommitLosesSecret | packages/hub/src/product-operational-model-settings.ts:188-198 | after a lost commit the change's own failure path deletes a credential that the configuration names |
| ProtocolLimits.CommitHypothesisIsExact | packages/hub/src/product-bootstrap-config-store.ts:155-175 | in every state that satisfies the invariant, an action leads only to states that keep the configured credentials if and only if it does not lose a commit |
| ProtocolLimits.RetrySharesExactly | packages/hub/src/product-operational-model-settings.ts:92-115 | a retry makes two undrained generations share a credential if and only if it overlaps one that uses the configured credential |
| ProtocolRetry.RetryHypothesisIsExact | packages/hub/src/product-operational-model-settings.ts:92-115 | in every reachable state in which the model can be replaced, every undrained generation keeps its secrets after a retry, over every further strict run, if and only if the retry does not overlap |
| ProtocolRetryExample.OverlapDeletesLeasedSecret | packages/hub/src/product-operational-model-settings.ts:92-115 | a concrete run without a lost commit that ends with a leased credential deleted |
| RecoveryPass.AdoptConfigured | packages/hub/src/product-runtime-supervisor.ts:544-549 | adoption at start-up is a run of the protocol; it loses no entry and adds only configured ones; without faults it adds every configured one that the ledger does not know, as far as there is room |
| RecoveryPass.ReconcileEntries | packages/hub/src/product-runtime-supervisor.ts:550-574 | the reconciliation loop is a run of the protocol; without faults every entry it visited is active if configured and pending otherwise |
| CredentialStores.CleanOne | packages/hub/src/product-operational-model-settings.ts:279-283 | attempt, delete, acknowledge: the first failure ends it, with the ledger and the vault as the specification function says |
| CredentialStores.SweepListed | packages/hub/src/product-operational-voice-settings.ts:394-407 | the loop over the listed entries that skips configured ones |
| RecoveryPass.SweepClears | packages/hub/src/product-operational-voice-settings.ts:394-407 | without faults a sweep removes exactly the listed entries that are not configured, and their secrets, and keeps every other entry |
| RecoveryPass.SweepPending | packages/hub/src/product-operational-model-settings.ts:274-285 | a cleanup pass is a run of the protocol; without faults it removes exactly the pending entries that are not configured, and their secrets |
| RecoveryPass.RecoverOperationalCleanup | packages/hub/src/product-runtime-supervisor.ts:544-626 | one start-up pass of one owner is a run of the protocol under any faults; without faults and with attempts left it converges: only active configured entries, at most one per track, every other ledgered secret deleted and nothing else; and every configured credential is recorded if and only if the ledger had room |
| RecoveryPass.RecoverAtStart | packages/hub/src/product-runtime-supervisor.ts:275-277 | start-up of both owners in turn, from any state a crash left, keeps the invariant and, without faults, makes both ledgers converge |
| Retirements.RetireReplaced | packages/hub/src/product-operational-voice-settings.ts:375-390 | once the receipt has resolved, every replaced locator that still owns a generation becomes pending, in a run of the background task; the first failure ends the task |
| Retirements.RetireAfterDrain | packages/hub/src/product-operational-model-settings.ts:255-285 | the whole task is a run of the protocol, what it retires is never configured, and without faults exactly the pending and the replaced credentials that are not configured are gone from ledger and vault |
| SettingsRuns.ReserveMoves | packages/hub/src/product-model-cleanup-ledger.ts:71-79 | a fresh candidate is refused by the ledger only when it is full |
| SettingsRuns.MarkMoves | packages/hub/src/product-operational-voice-settings.ts:241-254 | recording a committed candidate cannot be refused, whatever the change adopted and marked before |
| SettingsRuns.AbandonOne | packages/hub/src/product-operational-voice-settings.ts:317-330 | abandon, attempt, delete, acknowledge is a run of the protocol; without faults it removes exactly that staged entry and that secret |
| SettingsRuns.CarefulCallIsSound | packages/hub/src/product-operational-model-settings.ts:121-215 | a call without a lost write is a sound run, and every secret of its owner in the vault is configured or ledgered afterwards |
| ModelSettings.OperationalModelSettings.Abandon | packages/hub/src/product-operational-model-settings.ts:243-253 | the failure path is a run of the protocol that ends idle and deletes at most the candidate's secret |
| ModelSettings.OperationalModelSettings.StageAndCommit | packages/hub/src/product-operational-model-settings.ts:145-214 | reserve, write, probe, commit, record, swap is a run of the protocol; without faults the candidate is recorded with its secret stored if the call goes through, and no trace of it is left otherwise |
| ModelSettings.OperationalModelSettings.ConfigureCandidate | packages/hub/src/product-operational-model-settings.ts:121-215 | the whole call is a run of the protocol; the exact answer from the inputs, the ledger and the faults; configured means that this candidate was committed one generation on; the exact condition under which the call goes through without faults; which status each answer leaves |
| ModelSettings.OperationalModelSettings.Configure | packages/hub/src/product-operational-model-settings.ts:78-89 | closed, cancelled and overlapping calls have no effect; every other call gets the exact answer and leaves the status that belongs to it, conflict if and only if the generation is stale and nobody cancelled before; a call without a lost write is a sound run after which a candidate secret in the vault is configured or ledgered |
| ModelSettings.AnswersExplained | packages/hub/src/product-operational-model-settings.ts:121-215 | what each answer means under any faults: conflict exactly a stale generation before any cancellation, cancelled only if a look at the signal was, a probe failure only with the reason of the preparation, the probe or the failed write, configured only one generation on |
| ModelSettings.OperationalModelSettings.Retry | packages/hub/src/product-operational-model-settings.ts:92-115 | a retry changes no store and mounts a generation exactly when it is not refused, cancelled or failed |
| ModelSettings.OperationalModelSettings.Project | packages/hub/src/product-operational-model-settings.ts:64-76 | the shown status settles unless a change or a retry has set it |
| VoiceSettings.OperationalVoiceSettings.AdoptCurrent | packages/hub/src/product-operational-voice-settings.ts:332-336 | the loop adopts every configured credential and touches no other entry; the first refusal ends the change |
| VoiceSettings.OperationalVoiceSettings.StageTracks | packages/hub/src/product-operational-voice-settings.ts:178-206 | both tracks are reserved, written and probed, or the ones already reserved are left to be abandoned; the exact condition for both |
| VoiceSettings.OperationalVoiceSettings.AbandonCandidate | packages/hub/src/product-operational-voice-settings.ts:317-330 | without faults every staged credential is gone from ledger and vault, and nothing else is |
| VoiceSettings.OperationalVoiceSettings.CommitCandidate | packages/hub/src/product-operational-voice-settings.ts:208-277 | commit, record and activate; the commit happens exactly when the runtime starts and nobody cancels, and a failed activation does not undo it |
| VoiceSettings.OperationalVoiceSettings.StageAndCommit | packages/hub/src/product-operational-voice-settings.ts:178-277 | staging and commit together: the exact answer without faults, no trace of a candidate that was not committed, and when it is |
| VoiceSettings.OperationalVoiceSettings.ConfigureCandidate | packages/hub/src/product-operational-voice-settings.ts:153-277 | both tracks are committed or neither, on every exit; without faults the exact answer, and both are recorded with their secrets stored or no trace of either is left; under any faults conflict exactly for a stale generation, and what a cancelled or failed answer means |
| VoiceSettings.OperationalVoiceSettings.Configure | packages/hub/src/product-operational-voice-settings.ts:141-151 | closed, cancelled and overlapping calls have no effect; every other call gets the answer of the candidate, exact without faults; a call without a lost write is a sound run after which every voice secret in the vault is configured or ledgered |
| VoiceSettings.OperationalVoiceSettings.DisableCurrent | packages/hub/src/product-operational-voice-settings.ts:285-315 | removing the capability is a run of the protocol that commits its absence or nothing; conflict exactly for a stale generation; without faults it commits if and only if neither look was cancelled, the generation is current, a voice is configured and every adoption is taken, and answers disabled if and only if it then could switch off or no voice was configured |
| VoiceSettings.OperationalVoiceSettings.Disable | packages/hub/src/product-operational-voice-settings.ts:279-283 | a closed owner is unavailable, an overlapping call busy, neither with an effect; every other call has the exact answer and effect of the removal; a call without a lost write is a sound run |
| SetupDrafts.AppendedCleanup | packages/hub/src/product-setup-draft-store.ts:959-973 | the append loop with its list and locator set computes the specification function |
| SetupDrafts.AppendCleanupEffect | packages/hub/src/product-setup-draft-store.ts:1384-1399 | appending queues exactly the removed locators that are not active, forgets none, keeps the queue distinct and bounded, and succeeds whenever there is room |
| SetupDrafts.RetireExact | packages/hub/src/product-setup-draft-store.ts:211-309 | on a sound draft retiring a lease and cold-start recovery never fail and keep the draft sound |
| SetupDrafts.WriteReloadsExactly | packages/hub/src/product-setup-draft-store.ts:774-894 | for every operation on a sound draft, what it writes is accepted by the next reload if and only if its guard holds, and then the draft is sound again |
| SetupDrafts.StrictIsStronger | packages/hub/src/product-setup-draft-store.ts:1191-1204 | the evidence check of a reload implies the check that admits a model stage, and not the other way round |
| SetupDrafts.PreparedIsEvident | packages/hub/src/product-model-setup.ts:202-244 | whatever the input check and the staging of setup produce is what was entered, meets the evidence check and is what the next load returns |
| SetupDrafts.TrimCutsBlanks | packages/hub/src/product-setup-draft-store.ts:1426-1429 | the trimmed text that the store keeps is what it was given without blanks at its two ends, and nothing else is taken |
| SetupRuns.OwnedOnce | packages/hub/src/product-setup-draft-store.ts:818-852 | each owned locator is in exactly one of staging, cleanup and evidence of one owner, and the two voice tracks share none |
| SetupRuns.LocatorsAreConserved | packages/hub/src/product-setup-draft-store.ts:211-641 | an operation adds to the owned locators exactly what it reserves and removes exactly what it acknowledges |
| SetupRuns.CarefulRunReloads | packages/hub/src/product-setup-draft-store.ts:643-682 | over every sequence of calls that keeps the guards, whatever faults the writes meet, every stored draft is accepted by the next load |
| SetupRuns.RefusedForever | packages/hub/src/product-setup-draft-store.ts:649-659 | a stored draft that the reload refuses is never changed by any sequence of calls |
| SetupProgress.StuckForever | packages/hub/src/product-setup-draft-store.ts:323-327 | a draft at the model step with model evidence never leaves that step, over every run of calls |
| SetupProgress.SetupFinishesExactly | packages/hub/src/product-setup-draft-store.ts:459-641 | from whatever a careful run has left, under any faults, some careful calls without a fault lead to the map step if and only if the draft is not at the model step with model evidence |
| SetupProgress.SavedAgainIsStuck | packages/hub/src/product-setup-draft-store.ts:479-487 | saving good names strands a sound draft if and only if it has model evidence, whatever its step, and no other operation strands one |
| SetupProgress.SavingAgainEndsSetupExactly | packages/hub/src/product-setup-draft-store.ts:459-490 | an identity saved under its guard over any reachable draft leaves setup able to finish if and only if there was no model evidence |
| SetupProgress.MapKeepsEvidence | packages/hub/src/product-setup-draft-store.ts:896-924 | over every run of calls from a sound map draft, either no load accepts it any more or its evidence is what it was and none of it is queued for deletion |
| SetupContents.PerformsExactly | packages/hub/src/product-setup-draft-store.ts:211-641 | the exact condition under which each of the sixteen operations on a sound draft is accepted |
| SetupContents.StoresExactly | packages/hub/src/product-setup-draft-store.ts:459-641 | every field of the draft that each accepted operation leaves: what it was given in its own field, the queues it moves leases between, everything else as it was |
| SetupContents.CallsExactly | packages/hub/src/product-setup-draft-store.ts:643-682 | when a call of the store is accepted, which session and revision it needs, the refusals for an ended session and a stale revision told apart, and the whole of what it writes |
| SetupContents.HoldsWhatWasGiven | packages/hub/src/product-setup-draft-store.ts:459-641 | after every run of calls, from any draft and under any faults, the trimmed names, the model, the bridge and each track are exactly what the last accepted call for them was given, or what they were if there was none |
| SetupContents.MapHoldsWhatWasGiven | packages/hub/src/product-setup-draft-store.ts:896-924 | on the map after any careful run, names, model and bridge, and the two tracks or the skip, are what the last accepted calls for them were given |
| SetupRuns.IdentityOverLeaseIsRefused | packages/hub/src/product-setup-draft-store.ts:459-490 | a concrete run in which saving the identity writes a draft that no load accepts |
| SetupRuns.LeftoverLeaseIsRefused | packages/hub/src/product-setup-draft-store.ts:571-610 | a concrete run in which recording the second voice track writes a draft that no load accepts |
| SetupRuns.SpacedModelIdIsRefused | packages/hub/src/product-setup-draft-store.ts:492-530 | a concrete run in which recording an admitted model stage writes a draft that no load accepts |
| SetupControllers.SetupDraftStore.Serve | packages/hub/src/product-setup-draft-store.ts:643-682 | load, check the session and the revision, compute, write: the stored draft afterwards is the one the specification gives; what that is, `CallsExactly` says |
| SetupControllers.SetupController.DiscardStaged | packages/hub/src/product-setup-controller.ts:451-479 | delete and acknowledge; a model or bridge lease that this fails for goes to the cleanup queue, a voice lease stays handed out |
| SetupControllers.DiscardsExactly | packages/hub/src/product-setup-controller.ts:451-479 | under any faults on a sound draft: the lease is gone, queued for cleanup or still handed out, as delete, acknowledgement and retirement decide, its secret goes as the delete does, and nothing else of draft and vault changes |
| SetupSecrets.DiscardGuards | packages/hub/src/product-setup-controller.ts:451-479 | under any faults a discard keeps every secret owned and the evidence as it was, and deletes at most the secret of its lease |
| SetupControllers.SetupController.SweepCleanup | packages/hub/src/product-setup-controller.ts:352-388 | under any faults one pass over a sound draft tries the first four queued leases; those whose delete or acknowledgement fails stay queued in order with the untried ones, exactly the secrets that the deletes reach are gone, and nothing else changes; without faults the first four are gone; an unreadable draft is left alone |
| SetupControllers.SweepsExactly | packages/hub/src/product-setup-controller.ts:352-388 | the same about the specification function that the probes are proved against |
| SetupSecrets.SweepGuards | packages/hub/src/product-setup-controller.ts:352-388 | under any faults a sweep of any owner keeps every secret owned and deletes no secret of any recorded evidence |
| SetupControllers.SetupController.Probe | packages/hub/src/product-setup-controller.ts:210-282 | the effects of a model or bridge probe in their order, with the sweeps that follow, and the exact condition of each of its five answers |
| SetupControllers.SetupController.ProbeModel | packages/hub/src/product-setup-controller.ts:131-208 | the same from what a user enters: a model that the input check rejects has no effect but the sweeps, and is told apart from a session that is over, a draft that cannot be read and a probe that fails |
| SetupControllers.SetupController.ProbeVoice | packages/hub/src/product-setup-controller.ts:284-330 | the effects of a voice probe, with and without a credential, and the exact condition of each of its five answers |
| SetupSecrets.ProbesExactly | packages/hub/src/product-setup-controller.ts:131-282 | what a model or bridge probe leaves: recorded, the draft of the next step with the lease as evidence and its secret in the vault; failed without faults, draft and vault as they were; failed with faults, the lease queued for cleanup or still handed out |
| SetupSecrets.VoiceProbesExactly | packages/hub/src/product-setup-controller.ts:284-330 | what a voice probe leaves: recorded, its own track exactly as it was probed, the replaced one queued, the other one as it was; failed without faults, draft and vault as they were |
| SetupSecrets.ProbeCallKeepsSecretsExactly | packages/hub/src/product-setup-controller.ts:210-282 | every setup secret stays owned, and the recorded credential loses its secret if and only if the record lands and throws and the delete lands; no other owner's evidence is touched |
| SetupSecrets.ModelProbeKeepsSecretsExactly | packages/hub/src/product-setup-controller.ts:131-208 | the same for the model probe from its input |
| SetupSecrets.VoiceProbeCallKeepsSecretsExactly | packages/hub/src/product-setup-controller.ts:284-330 | the draft stays readable if and only if the record did not land without its guard, and then the evidence loses a secret if and only if the record lands and throws and the delete lands |
| SetupSecrets.LostRecordLosesSecret | packages/hub/src/product-setup-controller.ts:191-202 | from every guarded state that admits the probe, a lost record ends in a model that the draft names and whose secret is gone |
| VoiceLimiter.SixPerWindow | packages/inbox-web/src/private-voice-http-controller.ts:1032-1051 | in every run with a clock that never goes back, the seventh admitted attempt is at least thirty seconds after the first |
| VoiceLimiter.WaitIsExact | packages/inbox-web/src/private-voice-http-controller.ts:1660-1662 | after any run, waiting the seconds that a window refusal names, with no other attempt and none in flight, is enough to be admitted, one second less is not, and it never names more than thirty |
| VoiceLimiter.AdmitsExactly | packages/inbox-web/src/private-voice-http-controller.ts:1032-1051 | after any run an attempt is admitted if and only if none is in flight and fewer than six were admitted in the thirty seconds before; one in flight means one second and no effect |
| VoiceLimiter.InFlightExactly | packages/inbox-web/src/private-voice-http-controller.ts:1032-1054 | over every run an attempt is in flight if and only if one at a time is allowed and no release has followed the last admitted one |
| VoiceLimiter.AttemptWindow.Trim | packages/inbox-web/src/private-voice-http-controller.ts:1656-1659 | the in-place loop computes the trimmed list of the specification |
| VoiceLimiter.AttemptWindow.TryReserve | packages/inbox-web/src/private-voice-http-controller.ts:1133-1143 | the new fields and the answer are those of the specification |
| BridgeConformance.CheckReplay | contracts/bridge-adapter-conformance.ts:328-377 | the check succeeds if and only if some prefix within the limit is a complete replay: numbered from one in the expected epoch, one matching sync-start at the front, its first sync-complete at the end, manifest counts equal to the observed and the expected ones |
| BridgeConformance.FreshName | contracts/bridge-adapter-conformance.ts:403-404 | the growing name stops at the first one that is not declared, after at most one step per declared name |
| BridgeConformance.CheckCredentialScope | contracts/bridge-adapter-conformance.ts:297-326 | the check succeeds if and only if the required aliases are distinct, each one's material is absent or of its kind, and the first alias nobody requires is neither configured nor present |
| BridgeConformance.CheckExtensionHandles | contracts/bridge-adapter-conformance.ts:385-409 | the check succeeds if and only if the declared keys are the expected ones, each available exactly when expected, and the first undeclared name is not available |
| PcmWav.WaveRoundTrip | packages/inbox-web/src/private-voice-http-controller.ts:1560-1600 | for whole frames up to five mebibytes and every allowed rate and channel count, no field overflows and a reader of the container recovers the format and exactly the bytes |
| PcmWav.WritePcmWav | packages/inbox-web/src/private-voice-http-controller.ts:1582-1604 | the in-place writer produces exactly that container |
| BridgeConfigs.StrippedExactly | packages/hub/src/product-setup-draft-store.ts:1250-1258 | cloning gives a tree back unchanged if and only if no field named `__proto__` stands in it |
| BridgeConfigs.ValueAgrees | packages/hub/src/product-setup-draft-store.ts:1250-1271 | the draft's clone accepts exactly what the configuration store's clone accepts and no secret-shaped key spoils, at any depth, and both return the value they were given without fields named `__proto__` |
| BridgeConfigs.ClonesExactly | packages/hub/src/product-bootstrap-config-store.ts:409-430 | a clone accepts exactly the trees with at most 256 fields and 1000 items each, keys of one to 128 characters, plain objects and JSON values only, nested at most thirteen deep |
| BridgeConfigs.RejectedIsSecretive | packages/hub/src/product-bootstrap-config-store.ts:401-407 | whatever the secret-field pass refuses has a secret-shaped key somewhere |
| BridgeConfigs.RejectsExactly | packages/hub/src/product-bootstrap-config-store.ts:401-407 | the secret-field pass refuses if and only if a trail of objects, each in a field or directly in an array in a field, leads to a secret-shaped key |
| BridgeConfigs.DraftConfigIsAccepted | packages/hub/src/product-bootstrap-config-store.ts:401-430 | a configuration that the setup draft stores passes both checks of the configuration store and comes out equal |
| Activations.ActivationController.Activate | packages/hub/src/product-activation-controller.ts:73-108 | activated exactly when mount, session and commit all succeed, and then the given draft is stored; conflict exactly for a valid draft with another generation; one bundle and one session are kept, otherwise both are given back; answer and store agree if and only if the commit was not lost; overlapping calls get busy |

## Left out

- ModelSettings.OperationalModelSettings.Configure: one call is modelled without other parties acting during its awaits; those interleavings are in the transition system, of which the call is a run.
- VoiceSettings.OperationalVoiceSettings.Configure: as for the model settings, other parties do not act during the call; in the transition system they do, and the tracks may go in either order.
- Retirements.RetireAfterDrain: starts when the drain receipt has resolved; waiting for it, and other parties in between, are in the transition system.
- CredentialStores.LedgerStore.Mutate: is given the operation's result; a load that fails under the lock has the effect of a refused write.
- ModelSettings.OperationalModelSettings.Project: speaks of the status only; the rest of the projection copies the configuration.
- ProtocolRetry.RetryHypothesisIsExact: speaks of the model, whose settings have the retry; the voice gateway's retry is an action of the transition system only.
- SetupProgress.StuckForever: speaks of the draft store; nothing is said about what a user interface offers.
- BridgeConfigs.ValueAgrees: speaks of what is stored of a clone; the prototype of the object in memory is not modelled.
- That the product was closed and a call cancelled by the time its commit was recorded is an answer of the collaborators.
- Credential locators with blanks around them and the check of a model's endpoint.
- File-system mechanics, lock files and their takeover, file size limits, timestamps, the safe-integer bound of generations and the exact patterns of identifiers.
- The order in which a sweep visits pending entries in the transition system; the imperative pass follows ledger order.
- Lease objects that may be consumed once; the steps of a change fix the order in the model.
- SetupContents.HoldsWhatWasGiven: names are text that is already in its normal form; the Unicode normalisation before the trim is not modelled.
- SetupControllers.SetupController.ProbeModel: the provider is one of the six known ones; an unknown name is rejected like a bad model id, and so is a key or an endpoint that the preparation does not take.
- The setup draft's session digest (compared as a token), latency bounds, bridge summary and review, legacy version and the projection sent to the browser; evidence fields that the store only ever writes together are one optional value.
- Model and voice providers, gateways and transports beyond whether they succeed.
- Errors thrown by an adapter while its extensions are read.
- The recipe validator, view registry, sessions and shutdown, which would add only easy members.
