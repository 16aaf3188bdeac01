# ARA: proofs about never running above a measured context

ARA runs local models on a machine with limited memory. Its promise is that it never runs a model at a context that it
has not measured to be safe. This project models the code that carries that promise and proves what it promises, for
every input, every run and every crash point.

The model has four parts.

1. **Measuring and governing on Ollama.** The daemon is an adversary: any call may answer anything or raise, and the
   trace of a run records every answer and every request in order (`Daemon`, `Events`). Against it stand the admission
   arithmetic and the live gates (`Evidence`, `AdmissionProofs`, `CacheBound`), the doubling ramp (`RampSchedule`, `RampEvidence`,
   `Characterize`), the life of the throwaway probe model (`ProbeLifecycle`, `WatchedProbe`, `ProbeRamp`), the stored
   evidence and its strict reading (`Characterization`, `Agreement`, `Acceptance`), names (`GovernedNames`), the guarded request
   (`GovernedRequest`), and whole histories of all of these (`History`, with
   one run and one history spelled out in `OneRun` and `OneHistory`).
2. **The evidence store.** Upserts and lookups (`Store`), machine and engine identities (`MachineKey`, `Engines`), the
   upsert, insert and in-place rekey of keyed tables (`Tables`), and the chain of migrations (`Schema`, `Migrations`,
   `MigrationMeaning`).
3. **Locks, serving, files.** The advisory locks as a state machine over the steps of many processes (`Locking`), the
   governed request, the characterization and the serve setup inside their lock among them (`LockedRequest`), the serve setup with a fault possible in every call (`ServeLifecycle`, `ServeSetup`), and atomic record files
   (`AtomicWrite`).
4. **Scoring.** The pruned search for parseable code (`Parseable`), SQuAD normalisation and F1 (`Squad`), and the
   benchmark's result-validation loop (`Benchmark`).

How to read it. Pure code of the source is a function here; code that updates state is a method or a class whose
contract ties the new state to a specification, and the lemmas are about that specification. Where a method talks to the
daemon, its contract speaks about the trace, so a claim such as "only straight after the digest was seen" is about what
was observed, never about the daemon at one instant. The world counts the calls that raise, so a contract can also say why
a method refused: either a call raised, or what it saw last was itself bad. `ProbeLifecycle` and `ServeLifecycle` are monitors: automata that
read a trace and stop at the first event that breaks the protocol. The methods prove that their monitor never stops,
whatever the daemon answers and wherever a call raises; the lemmas prove what a trace that the monitor accepts looks
like. Every prefix of an accepted trace is accepted, which covers a crash at any point.

The central result is `History.EveryGovernedRunWasProbed`: in every history of migrations, characterizations, other
saves, rekeys and daemon changes, each governed request runs at a context no larger than a rung of an earlier
characterization of the same model and manifest, for the same endpoint, server instance, inputs and build; that rung saw
this manifest, created its probe from it, bound the probe's manifest to the run, loaded it, read exactly it as the only
resident, and found it to fit; and the one runner resident straight before the request is the governed model or the probe
that this ramp created last. A characterization here is any run that the probe monitor accepts to the saved row, with all
that `Characterize.CharacterizeOllama` guarantees of it (`History.Genuine`).

## What the proofs found

Eight things that a reader of the source might believe are not so. In each case the model keeps the code as it is, and
the members named give the exact condition under which the belief holds, a failing input, or what happens instead.

- `_largest_parseable` promises the longest parseable run of lines, but answers with the empty string for every blank
  text. A blank text that itself parses is answered rightly exactly when it is empty (`Parseable.LargestParseable`,
  `Parseable.ParsingBlankText`, with two empty lines in `Parseable.BlankCounterexample`); for a parser that reads blanks
  line by line, any blank text is answered rightly exactly when none of its lines and no two neighbouring empty lines
  could have been returned (`Parseable.BlankTextMayMissARun`).
- A row saved by a successful ramp is reusable except when the placement is offloaded and the accelerator could not be
  read before the load (`Agreement.ProducedRowIsReusable`, with such a ramp in `Agreement.LateAcceleratorIsRefused`); an
  unchanged topology rules that out.
- The probe is named after the model's maximum context but recorded with the last context tried, so later requests
  recognise it only when the two are equal (`Characterize.ProbeKnownAgainOnlyAtMaximum`).
- `connect` does not migrate to version 2 in one step: the rekeyed rows are committed before the version number, so a fault
  between leaves rekeyed rows at version 1. Such a store is sound, and the next `connect` goes on as if nothing had happened
  (`Migrations.Database.UpgradeKeys`, `Migrations.InterruptedRekeyResumes`, `Migrations.InterruptedChainResumes`).
- Migration 5 refuses rows of two models that share an artifact, engine and configuration
  (`Schema.SharedArtifactCollides`), and calibrations of two engines without a name (`Schema.CalibrationsClashOnlyUnnamed`),
  which in these tables are the texts "" and "unknown" (`Schema.UnnamedCalibrationsCollide`).
- Migration 7 forgets that a row had no safe context when its points do have one (`Schema.ContextSurvivesExactly`,
  `Schema.ContextLost`).
- The report of a failed cleanup after a good ramp is never made: a ramp that does not raise has always deleted its
  probe (`Characterize.CharacterizeOllama`). And a creation that was never identified is not always left alone: when an
  earlier rung's manifest is still in the record, it is deleted if it is listed under that very manifest
  (`Characterize.FinishProbe`).
- Not all that these commands do is inside the endpoint's lock: the last re-attestations and the save of a characterization
  come after it (`LockedRequest.CharacterizeUnderLock`), and so does the cleanup of an interrupted serve setup, with its
  delete (`LockedRequest.ServeUnderLock`).

## Model

| member | source | states |
|---|---|---|
| History.EveryGovernedRunWasProbed | ara/cli.py:3426-3462 | In every history, each governed request that passed assessment, the context gate and admission runs at the requested context, at most that of a rung of an earlier accepted characterization of the same model name and manifest, endpoint, server instance, configured inputs and runtime build; that rung saw this very manifest, created the probe from it, bound the manifest first listed after that, loaded it, read exactly it resident at that context, and fitted; straight before the request exactly one runner was resident, the governed model under its manifest or the probe last created by that run under its own, at the request's context, in the measured placement, with every applicable margin intact |
| History.CharacterizeModel | ara/cli.py:4353-4482 | A characterization that records a row is a genuine measurement: its trace, table, observations and probe are all that the histories assume of one |
| History.RecordedProbeIsLastCreated | ara/cli.py:4471-4475 | The probe stored with a row is the last one that its run created, under the manifest first listed after that creation and with its context |
| OneHistory.SomeRequestIsGoverned | ara/cli.py:3426-3462 | A whole history from a new store: all eight migrations, a characterization whose full trace the probe monitor accepts to the saved row with no probe left, and a request governed by that row |
| OneRun.StraightRunIsAccepted | ara/cli.py:4413-4482 | The monitor accepts the intended course: nothing resident, readings, create, identify, own, load, read, expire, delete, re-attest, save |
| OneRun.StraightRunIsObserved | ara/cli.py:4166-4250 | Its rung is observed as the ramp requires |
| History.RequestsPassedTheirChecks | ara/cli.py:2619-2633 | Every request step of a history passed its checks against the store of that moment, so the central result covers it |
| History.ReusableRowsHaveOrigins | ara/db.py:1259-1314 | The invariant of every history: a reusable Ollama row is the record of an earlier characterization, at most under a rewritten machine key |
| History.RecordedRung | ara/cli.py:4439-4482 | The safe context, cell and identities of a recorded row are those of one rung of its ramp that fitted and is in its trace |
| History.AssessedRowIsListed | ara/ollama_evidence.py:266-300 | An assessment hands back only a row of the listed history, and only one without any complaint |
| History.NoFaultMeans | ara/ollama_evidence.py:301-388 | What a row without a complaint shares with the model and daemon it was judged against, as the central result uses it; `Acceptance.AcceptedExactly` has all of it |
| Acceptance.AcceptedExactly | ara/ollama_evidence.py:301-388 | A row is accepted exactly when it is of this model and manifest and marked reusable, its configuration is that of this daemon in every field, and its ceiling is proven: the first point that proves it carries the configuration's walls and admission, and both are sound |
| Acceptance.AdmissionIsBelieved | ara/ollama_evidence.py:168-213 | A stored admission is believed exactly when configuration and point share it and it is of the present method, without a reason, for this context, its total the sum of positive weights, positive cache and one GiB, and any split of any allocation within that total leaves every named wall its margin on the recorded readings |
| Acceptance.AcceptedAdmissionIsSound | ara/ollama_evidence.py:168-213 | So an accepted row's admission is sound for its safe context, and a row whose admission is not is refused |
| Acceptance.WallsAreBelieved | ara/ollama_evidence.py:216-263 | Stored walls are believed exactly when configuration and point share them, the resident bytes lie as the placement says, and deltas, walls and margins are those of that placement |
| Acceptance.FitsExactly | ara/ollama_evidence.py:482-541 | A measurement fits exactly when the runner's placement on this topology is known, every wall it touches keeps its margin, and the runner has the requested context |
| Acceptance.LiveResidencyExactly | ara/ollama_evidence.py:755-772 | The live gate passes exactly when the runner is placed as recorded, within its margins and at this context |
| Acceptance.FingerprintsEqualExactly | ara/ollama_evidence.py:58-88 | A runtime has a fingerprint exactly when it is local, without an issue, fully described and serves one request at a time; two share it exactly when they agree in all of that |
| History.RekeyIsMaintenance | ara/db.py:975-999 | Every row after a rekey is an old row with at most a new machine key, and neither its reusable mark nor its groundedness changes |
| History.RekeyRows | ara/db.py:975-999 | The rekey of the present table keeps its reusable rows as they are, up to the machine key, makes no others, and returns the number of legacy rows |
| History.EveryStoreIsHealthy | ara/db.py:1276-1277 | Every store that a history of migrations (also interrupted ones), characterizations, other saves and rekeys reaches is sound for its version, and every row marked reusable has a known method, a known engine build and a strong identity |
| History.LookupsAgreeInEveryStore | ara/db.py:1392-1446 | In every such store at version 7 or later, with no assumption on its rows, the exact lookup finds a row exactly when the simple list is not empty, and then a newest row of it |
| AdmissionProofs.AdmissionLeavesEveryMargin | ara/ollama_evidence.py:594-689 | After an admission without refusal, any split of any allocation up to the bound over system and accelerator memory leaves every wall that applies its full margin |
| AdmissionProofs.ResidencyBoundIsLeast | ara/ollama_evidence.py:627-632 | The weight term is the least integer that is at least five quarters of the model's size |
| AdmissionProofs.AdmittedExactlyUpToLargest | ara/ollama_evidence.py:568-689 | The admitted contexts are exactly 1 up to a closed-form largest one, so admission is monotone in the context |
| CacheBound.BoundCountsStoredBytes | ara/ollama_evidence.py:568-590 | The cache bound is the number of bytes stored for the requested tokens, counted over tokens, layers, key/value heads, the key and the value vector, and four bytes per position; it is missing exactly when one of the three metadata fields is not a positive integer |
| CacheBound.AdmittedExactly | ara/ollama_evidence.py:594-689 | A load is admitted exactly when the walls of the topology are known and weights (five quarters of the size, rounded up), stored bytes and one GiB leave two GiB of system memory and, beside a single NVIDIA device, one GiB there |
| CacheBound.NothingElseIsAdmitted | ara/ollama_evidence.py:594-689 | Nothing is admitted without a positive context, a known size and the model's shape |
| CacheBound.LargestFits | ara/ollama_evidence.py:594-689 | The closed-form largest context is the largest whose stored bytes fit beside weights, runtime and margins |
| AdmissionProofs.WallRefusalIsDeserved | ara/ollama_evidence.py:638-676 | A wall refusal means that the bound placed wholly on that wall would break its margin |
| RampSchedule.RampContexts | ara/cli.py:4137-4146 | The set-and-sort loop yields the doubling schedule |
| RampSchedule.RungsShape | ara/cli.py:4137-4146 | Rungs ascend, at most double from one to the next, start at the smaller of the floor and the maximum, and end at the maximum |
| RampSchedule.RungCountIsLogarithmic | ara/cli.py:4137-4146 | The number of rungs is one more than the number of doublings that reach the maximum |
| RampSchedule.StoppingEarlyLosesNothing | ara/cli.py:4175-4180 | For a downward-closed admission, stopping at the first refusal finds the largest admitted rung of all |
| RampSchedule.CeilingExceedsHalfOfLargest | ara/cli.py:4165-4258 | On a fixed snapshot the early stop finds the largest admitted rung, and for a largest admissible context of at least 2048 (capped at the maximum) that ceiling is more than half of it |
| RampEvidence.RampReturnsPrefix | ara/cli.py:4165-4258 | A returned ramp has points on a prefix of the rungs, all fitting except possibly the last, and its ceiling is the context of the last fitting point |
| RampEvidence.PointRecords | ara/ollama_evidence.py:482-562 | What every observation stores: nothing for a rung that was not created, one reason for a refused or unproven one, and for a measured one the runner's bytes, the bytes by which each touched reading fell, and the margins, each with the admission on the rung's own reading |
| RampEvidence.RampFindsEarlyStop | ara/cli.py:4167-4180 | A real ramp judged on one snapshot and refused only by admission finds exactly the early-stop ceiling |
| Characterize.MeasureCeiling | ara/cli.py:4149-4258 | The managed ramp returns the ceiling and points of what its rungs observed, every observation is shown by the trace, no probe is left on a normal return, and the record names the last probe tried and created; it raises only when a call did or when, after rungs that all fitted, the trace shows what stopped the next one |
| Characterize.AdmitRung | ara/cli.py:4168-4185 | Before a probe is created: walls read, admission computed on that reading, and authority and base manifest seen unchanged, in this order |
| Characterize.ObserveRung | ara/cli.py:4166-4258 | One loop body: exactly one observation, decided by admission on the rung's own reading and shown by the trace: refused; not created, exactly for an unconfirmed create; unproven, exactly for an unconfirmed load or for nothing, or the previous rung's runner, resident after it; measured, exactly for the probe itself resident. It raises only for a call that raised or for what the trace shows: another authority or base, an unlisted probe, another resident, a refused cleanup |
| Characterize.PrepareProbe | ara/cli.py:4415-4438 | Each end is explained by what was seen: the ramp starts exactly after the name was free, or its proven leftover was deleted straight after it was listed and nothing answered to it, and the daemon was then seen with nothing resident; an unproven leftover is refused untouched, and a proven one only for a store that could not be read or a cleanup that refused |
| Characterize.FinishProbe | ara/cli.py:4448-4454 | It succeeds exactly when no probe is left; a clean record touches nothing, an identified leftover is deleted straight after it was listed under the recorded manifest and nothing answered to it, a creation with no manifest in the record is refused untouched, and any other failure is a refused cleanup that the trace shows |
| Characterize.Commit | ara/cli.py:4464-4482 | A row is saved exactly when the base manifest and then the authority were seen unchanged, straight before it; every other end shows the observation that stopped it |
| Characterize.CommitRamp | ara/cli.py:4464-4482 | After a complete ramp the stored probe is the last one tried and the last one created, under its own manifest; the row is the one its observations determine, and nothing but observations and the save happens |
| Characterize.CharacterizeOllama | ara/cli.py:4413-4482 | The whole characterization never breaks the probe protocol and, however it ends, its trace shows why: the preparation that stopped it; a failed ramp, because a call raised or a rung was stopped, with the probe left exactly when it was never identified or its cleanup was refused; or a complete ramp with no probe left followed by a moved manifest, a moved authority, or both unchanged and the saved row, which the ramp's observations and the last created probe determine. It raises only when a call does |
| Characterize.ProbeKnownAgainOnlyAtMaximum | ara/cli.py:4471-4475 | The recorded probe is recognised later exactly when the last rung tried was the maximum and that manifest is still installed |
| ProbeLifecycle.CreatesFollowIdle | ara/cli.py:4436-4438 | No probe is created before the daemon was seen with nothing resident |
| ProbeLifecycle.LoadsFollowOwnership | ara/cli.py:4201-4213 | Every load of a probe follows its durable ownership row for that context, with no create, delete or other load in between |
| ProbeLifecycle.DeletesOnlyItsOwn | ara/cli.py:4343-4350 | A delete names only the probe and comes straight after an inventory that listed it under a manifest which is the first one seen after a confirmed creation of this run, or is proven by a durable row |
| ProbeLifecycle.NothingLeftUndeleted | ara/cli.py:4251-4258 | When a run ends with no probe left, every confirmed creation was followed by a confirmed delete |
| ProbeLifecycle.CrashLeavesProof | ara/cli.py:3963-3995 | Wherever a run is cut off with an owned probe, the durable table holds a row by which the next run of the same job recognises that exact manifest |
| ProbeLifecycle.ProofIsExactlyOwnRecord | ara/cli.py:3998-4041 | A row proves ownership exactly when this job would have written it for one of its own contexts |
| ProbeLifecycle.LastCreation | ara/cli.py:4194-4201 | What the run holds as its last creation is so: the last confirmed create of the trace, with its context and the manifest first listed under the name after it |
| ProbeLifecycle.SavedIsLast | ara/cli.py:4439-4482 | A row is saved at most once, as the last event, with no probe left |
| ProbeLifecycle.AcceptedAtEveryCrash | ara/cli.py:4187-4258 | Every crash point of an accepted run is accepted |
| ProbeRamp.CleanupProbe | ara/cli.py:4317-4340 | A confirmed cleanup deletes straight after the expected manifest was listed again, and that after nothing resident answered to the probe's name; a refusal is shown by what was seen last, a raise is a call's, and the probe stays accounted for |
| ProbeRamp.ExpireProbe | ara/cli.py:4321-4338 | An expiry is requested only after the exact probe was seen as the sole resident, success means that no resident answers to its name, and each refusal is shown by what was seen last |
| ProbeRamp.ProbeIsOwned | ara/cli.py:3998-4041 | Ownership is recognised exactly when the name matches and a readable row proves this job's ownership of that manifest |
| ProbeRamp.RecoverProbe | ara/cli.py:4044-4067 | Without durable proof nothing is touched and the answer says which; a proven leftover is refused as unproven only when reading the store raised, otherwise only for what the cleanup saw; a successful recovery has deleted that very manifest |
| ProbeRamp.ProvenByRows | ara/cli.py:3963-3995 | At any cut a manifest is proven exactly when the table proved it at the start or the run bound it |
| ProbeRamp.RecoverAfterCrash | ara/cli.py:4044-4067 | Over two runs of one job, the first cut off anywhere: a probe it owned, used or recognised is proven to the second, which refuses it as unproven only for an unreadable table; one it had created and listed but not bound is refused untouched, unless a row for that manifest was there before |
| ProbeRamp.TryRung | ara/cli.py:4187-4250 | How a rung ends is decided by its events: not created for an unconfirmed create; otherwise made (created from the base, listed, durably owned, the base unchanged) and then loaded, unproven or raised by what the load showed |
| ProbeRamp.LoadAndRead | ara/cli.py:4214-4240 | A load that is not confirmed is a failed generation; after a confirmed one and the same authority, exactly the probe resident is a measurement, nothing or the previous runner an unproven residency, and anybody else an error |
| ProbeRamp.RungEndIsDecided | ara/cli.py:4187-4250 | The events of a rung admit one end only, and never both an end and an error |
| ProbeRamp.GoodLoadIsLoaded | ara/cli.py:4214-4250 | A made probe, a confirmed load, the same authority and exactly the probe resident always end as loaded |
| ProbeRamp.RungWithCleanup | ara/cli.py:4187-4257 | Whatever a rung did, its probe is gone when it returns, or the record says what is left; it ends as its events decide, and raises only for a call that raised, for what its events show, or for a refused cleanup |
| ProbeRamp.MakeProbe | ara/cli.py:4187-4209 | Creation, identification and ownership of the probe, with the caller's record right after each step, also when one raises |
| ProbeRamp.ProbedIsTheProbe | ara/cli.py:4214-4224 | The measured process of a rung is the probe under the manifest first listed after this rung created it, and bound by its ownership row |
| Daemon.World.DeleteExact | ara/cli.py:4343-4350 | A delete is requested only straight after the expected identity was observed |
| Agreement.ProducedRowIsReusable | ara/ollama_evidence.py:301-388 | Producer and validator agree on every field: the row of any successful ramp draws no complaint, except incomplete wall evidence exactly when an offloaded placement had no accelerator reading before the load |
| Agreement.LateAcceleratorIsRefused | ara/ollama_evidence.py:216-263 | A concrete ramp that meets the exception: the query of the accelerator failed before the load, the runner was split over both memories, the ramp found a ceiling, and the row it saved as reusable is refused on the same daemon |
| Agreement.NewestRampIsReusable | ara/ollama_evidence.py:266-388 | With an unchanged topology, the newest row of any successful ramp is the one assessed, and is reusable with the ramp's ceiling |
| Agreement.CeilingPoint | ara/cli.py:4269-4314 | The configuration is built from exactly the point that set the ceiling, and that point is the one the validator looks up |
| Agreement.AdmittedEvidenceComplete | ara/ollama_evidence.py:168-213 | The admission stored with a loaded rung passes every test of the admission validator |
| Agreement.MeasuredWallsComplete | ara/ollama_evidence.py:216-263 | The walls of a fitting measurement are complete evidence exactly when an offloaded placement had its accelerator reading before the load |
| Agreement.SameTopologyKeepsEvidence | ara/ollama_evidence.py:482-541 | With an unchanged topology an admitted offloaded rung always had that reading |
| Agreement.NewestExactRowIsAssessed | ara/ollama_evidence.py:281-300 | Among any history, the newest row of this artifact, runtime and method is the one assessed |
| Agreement.PreferredIsMaximal | ara/ollama_evidence.py:292-300 | The preference picks a row that no other row outranks |
| Agreement.MeasuredStatePassesLiveGates | ara/ollama_evidence.py:709-772 | The very snapshot and process that were measured pass both live gates for the stored cell |
| Agreement.AcceptedEvidenceSufficesForHeadroom | ara/ollama_evidence.py:709-752 | Accepted evidence is never called incomplete by the headroom gate, the peaks charged to the two memories sum to the recorded total, and passing leaves both margins after adding them |
| Agreement.HeadroomRefusalIsDeserved | ara/ollama_evidence.py:709-752 | On readable walls of the recorded topology the headroom gate passes exactly when the recorded peaks fit beside the margins |
| GovernedRequest.GovernedOllamaRequest | ara/cli.py:3261-3365 | Inside its lock, the body runs at most once and exactly after a complete good admission, the request succeeds exactly after a complete good second attestation, and a failure means that a call raised or that what was seen last is bad |
| GovernedRequest.GoodAnswersSucceed | ara/cli.py:3261-3365 | When no call raises and the answers are those of a good reading, of a good warm-up where nothing is resident, and of a good reading after the body, the body runs and the request succeeds |
| GovernedRequest.GoodAnswersAreAdmitted | ara/cli.py:3261-3329 | Such answers are admitted; in particular an idle daemon is asked to warm the model |
| GovernedRequest.SoleMeans | ara/cli.py:4826-4868 | Residents pass exactly when there are none and none is demanded, or there is one: the model under its digest or the recorded probe under its own, loaded at the governed context |
| LockedRequest.GovernedUnderLock | ara/cli.py:3246-3365 | With the lock around it, among any steps of other processes: all that the request saw and asked, in order, is done inside the lock of its endpoint; it gets in exactly when the lock call did not fail and no other descriptor held the lock, and otherwise sees and asks nothing; nothing of the block is left afterwards |
| LockedRequest.CharacterizeUnderLock | ara/cli.py:4413-4482 | The same for a characterization: preparation, ramp and cleanup are inside the lock, and after it come only the last re-attestations and the save |
| LockedRequest.ServeUnderLock | ara/cli.py:5238-5336 | The same for the serve setup, its ownership record included; only the cleanup after an interrupt, at most two inventories and the delete of the model that this run made, comes after the lock |
| LockedRequest.HoldersAreExclusive | ara/locking.py:97-118 | From the first to the last act of a governed request, a ramp or a serve setup inside the lock, no other holder of the lock of that endpoint sees or asks anything of the daemon |
| GovernedRequest.Admit | ara/cli.py:3261-3329 | The admission succeeds exactly when authority, digest, residency and walls were all observed good, with a confirmed and re-checked warm-up when nothing was resident; otherwise a call raised, or what was seen last is bad |
| GovernedRequest.Reattest | ara/cli.py:3333-3365 | The second attestation succeeds exactly when all four were observed good again; otherwise a call raised, or what was seen last is bad |
| GovernedRequest.ReadAll | ara/cli.py:3261-3296 | Each reading is refused before the next is made; it raises only when a call does or when the last reading is itself bad: another authority, a manifest missing or changed, or residents that are neither allowed to be none nor exactly one governed target |
| GovernedRequest.WarmUp | ara/cli.py:3304-3329 | A warm-up is accepted exactly when it was confirmed and the target then seen resident and within its walls; otherwise a call raised, it was not confirmed, or what was seen last is bad |
| GovernedRequest.AdmittedKeepsMargins | ara/ollama_evidence.py:709-772 | An admission on accepted evidence means one resident runner of the right identity, context and placement with every margin intact, and room for the recorded peaks before a warm-up |
| GovernedRequest.GovernedContext | ara/cli.py:1242-1256 | The gate refuses exactly a request above the ceiling; an admissible request is kept as it is, and without one the ceiling is used |
| GovernedNames.DerivedNamesAreRecognised | ara/cli.py:4506-4511 | Every governed and probe name, tagged or not, is recognised as ARA's own |
| GovernedNames.OnlyDerivedNamesAreRecognised | ara/cli.py:4506-4511 | Nothing else is recognised: such a name is an ARA prefix with a context mark, a dash, 24 hexadecimal digits, and possibly the probe mark and the tag |
| GovernedNames.SomeNameHash | ara/cli.py:4794-4808 | A hash of the assumed shape exists, so the lemmas about derived names speak about something |
| GovernedNames.NamesEqualExactly | ara/cli.py:4794-4808 | Two derived names are equal exactly when their slugs, contexts and hashes are, whatever the hash; one model's names at different contexts always differ |
| GovernedNames.ProbeRecognisedOnlyAtMaximum | ara/cli.py:4871-4897 | A probe named for one context and stored with another is recognised exactly when the two are equal and the manifest is installed |
| Engines.CanonicalIsIdempotent | ara/engine_identity.py:10-13 | A canonical name is its own canonical name |
| Engines.TargetsAreInjective | ara/targets.py:51-56 | Two engines share a runtime and backend exactly when they are the same canonical engine or both have no name |
| Engines.CanonicalNames | ara/engine_identity.py:10-13 | Two engines have older names, and every other text is its own canonical name |
| Engines.BackendsBelong | ara/targets.py:51-56 | For every engine text: each known backend belongs to exactly the engines listed |
| Engines.RuntimesBelong | ara/targets.py:51-56 | For every engine text: the known engines run on four runtimes, and any other engine is its own |
| Store.Save | ara/db.py:1276-1314 | An upsert replaces the row of its primary key or adds one |
| Store.UpsertReplacesOnlyItsKey | ara/db.py:1278-1300 | After an upsert the table holds exactly the new row and every other row that was there under another key, and keys are unique |
| Store.SavesAreGrounded | ara/db.py:1276-1277 | A saved row is reusable exactly when its method, engine build and artifact identity are all good, so saves keep the store invariant |
| Store.SavedColumns | ara/db.py:1259-1314 | What a save writes, column by column, with the backend of an Ollama row named by its placement |
| Store.StrongExactly | ara/db.py:611-627 | An artifact identity is strong exactly when it is a full manifest digest, a Hugging Face revision or a local file's hash |
| Store.KeysAgreeExactly | ara/db.py:1278-1300 | Rows share the primary key exactly when its eight columns agree |
| Store.GetReusable | ara/db.py:1410-1446 | The exact lookup takes a newest candidate and only then its confidence |
| Store.ExactQueryIsAKey | ara/db.py:1410-1446 | A lookup with all identities matches exactly the rows of one primary key |
| Store.MissingIdentitiesMatchAny | ara/db.py:1410-1446 | An identity that a lookup leaves out may be any, and nothing else may |
| Store.LookupsAgree | ara/db.py:1392-1446 | The step from groundedness to agreement: on a grounded store, which every reachable store is (`History.EveryStoreIsHealthy`), the exact answer is a newest row of the simple list, and there is one exactly when the list is not empty |
| Store.WeakRowHidesStrongOne | ara/db.py:1434-1446 | Without the invariant a newer weak row hides an older strong one |
| MachineKey.LegacyKeyBecomesPresentKey | ara/profile.py:38-54 | The byte-exact key of a machine becomes exactly its present key, unless its chip is named like the version tag |
| MachineKey.RekeyIsIdempotent | ara/profile.py:38-54 | A rewritten key is never rewritten again |
| MachineKey.KeyIgnoresSmallDrift | ara/profile.py:24-35 | Two memory readings of a machine share its key exactly when they round to the same GiB |
| MachineKey.KeyFieldsReadBack | ara/profile.py:24-35 | A key reads back as the tag, chip, accelerator, memory in GiB within half a GiB of the reading, and system, in this order |
| MachineKey.KeysEqualExactly | ara/profile.py:24-35 | Two machines share a key exactly when chip, accelerator, system and rounded memory are the same |
| MachineKey.RoundHalfEvenIsNearest | ara/profile.py:50-51 | The rounded size is nearest, and even among two equally near |
| MachineKey.ParseIntRoundTrip | ara/profile.py:50-54 | A written integer reads back as itself |
| Tables.Table.MergeRekey | ara/db.py:975-999 | In place and without ever meeting a taken key, every group with a legacy key becomes its newest row under the new key, every other row stays, and the number of legacy rows is returned |
| Tables.Table.Insert | ara/db.py:995-997 | An insert raises exactly when the primary key is taken, and otherwise adds one row |
| Tables.OneNewestRowPerKey | ara/db.py:975-999 | Exactly one row per merged key: the newest by timestamp and rowid with its other columns intact; groups without a legacy key are untouched |
| Tables.RepeatingChangesNothing | ara/db.py:1002-1033 | No legacy key is left, and repeating a rekey changes nothing |
| Tables.SkipGuardsCoincide | ara/db.py:935-938 | Skipping single canonical rows and skipping groups without a legacy key is the same thing |
| Schema.MachineRulesAreLawful | ara/db.py:394-399 | The machine-key rekey of all three keyed tables is an instance of the merge |
| Schema.EngineRulesAreLawful | ara/db.py:401-404 | So is the canonicalization of engines |
| Schema.CalibrationsClashOnlyUnnamed | ara/db.py:676-686 | Calibrations of canonical engines collide at version 5 exactly when both engines on one machine have no name |
| Schema.UnnamedCalibrationsCollide | ara/db.py:676-686 | Such a pair: the engines "" and "unknown" on one machine |
| Schema.UnidentifiedClashOnlyUnnamed | ara/db.py:629-654 | Characterizations without an artifact identity collide at version 5 only in the same way |
| Schema.SharedArtifactCollides | ara/db.py:687-710 | Two models with one artifact, engine and configuration do collide |
| Schema.GreatestContext | ara/db.py:834-848 | The legacy direct context is the greatest valid context of the points, and missing exactly when there is none |
| Schema.ContextSurvivesExactly | ara/db.py:866-881 | The old safe context stays readable after version 7 exactly when it was not missing beside points that have one |
| Schema.ContextLost | ara/db.py:866-881 | Otherwise two different rows become the same |
| Migrations.Database.Connect | ara/db.py:291-391 | The store reaches version 8 through whole committed steps, or stops at the last committed version, at version 1 possibly with its rows already rekeyed; only version 5 can refuse the rows, and a store at version 8 is left alone |
| Migrations.Database.Upgrade | ara/db.py:341-354 | One migration commits whole, or a raise leaves version and rows as they were, except that version 2 may leave its rows rekeyed at version 1 |
| Migrations.Database.UpgradeKeys | ara/db.py:299-302 | Version 2 commits its rows before its number, with a fault possible before and between; either way the store is sound |
| Migrations.RekeyedIsSound | ara/db.py:1002-1033 | A rekeyed store is sound at version 1 as at version 2 |
| Migrations.InterruptedRekeyResumes | ara/db.py:1002-1033 | Repeating an interrupted rekey changes nothing more |
| Migrations.InterruptedChainResumes | ara/db.py:291-391 | Two runs of which the first stopped between the two commits make one uninterrupted chain of migrations |
| Migrations.RebuildTargets | ara/db.py:665-713 | Version 5 succeeds exactly when all target identities are distinct |
| Migrations.RebuildBenchmarks | ara/db.py:580-602 | Version 4 rebuilds without a clash and keeps keys unique |
| Migrations.RebuildAuthority | ara/db.py:770-822 | So does version 6 |
| Migrations.RebuildEvidence | ara/db.py:859-886 | So does version 7 |
| Migrations.RebuildFingerprints | ara/db.py:895-920 | So does version 8 |
| Migrations.RekeyMachines | ara/db.py:1002-1033 | Version 2 merges machine keys in all keyed tables |
| Migrations.CanonicalizeEngines | ara/db.py:948-959 | Version 3 merges engine names and renames the engines of benchmark results |
| Migrations.Rebuild | ara/db.py:580-602 | Copying rows into a new table raises exactly when two of them share the new key, and otherwise holds every row's image |
| Migrations.LaterStepsConserveRows | ara/db.py:580-920 | From version 4 on, a committed migration keeps exactly one row per row of every table |
| Migrations.CalibrationsRebuildExactly | ara/db.py:676-686 | After version 3, calibrations pass version 5 exactly when no machine has two unnamed engines |
| Migrations.MigrationsKeepReuseGrounded | ara/db.py:859-884 | Migrations make no row reusable, so they keep the store invariant |
| MigrationMeaning.FirstStepDropsDecimalWalls | ara/db.py:288-296 | Version 1 deletes exactly the calibrations of engine wmx and leaves every other row and table as it is |
| MigrationMeaning.SecondStepRewritesKeys | ara/db.py:1002-1033 | Version 2 leaves old rows, each at most under the rewritten form of its own machine key |
| MigrationMeaning.ThirdStepNamesEngines | ara/db.py:923-959 | Version 3 leaves old rows, each at most under the canonical name of its own engine, and every benchmark result |
| MigrationMeaning.FourthStepAddsEvidenceKeys | ara/db.py:580-602 | Version 4 keeps every benchmark result whole and adds its evidence key |
| MigrationMeaning.FifthStepNamesTargets | ara/db.py:665-713 | Version 5 keeps machine, model and measurements of every row, column by column, names its target by its engine and placement, and makes a characterization reusable exactly when its identity is strong and it has a configuration |
| MigrationMeaning.SixthStepScopesAuthority | ara/db.py:770-822 | Version 6 keeps every row whole, apart from withdrawing MLX characterizations, and marks the authority by that |
| MigrationMeaning.SeventhStepWithdraws | ara/db.py:859-886 | Version 7 keeps every column but the contexts and makes every characterization display-only |
| MigrationMeaning.EighthStepKeepsCalibrations | ara/db.py:895-920 | Version 8 keeps every calibration whole, under an unknown engine build |
| Locking.OneInsidePerPath | ara/locking.py:97-118 | At every moment of every run at most one descriptor is inside the guarded block of a lock file |
| Locking.BlocksDoNotInterleave | ara/locking.py:79-118 | Guarded blocks of different holders follow one another: a release or crash of the first separates any two of their actions |
| Locking.WholeBlocksAreOrdered | ara/locking.py:97-118 | Of two bodies behind one lock file, all actions of one come before all actions of the other, crashes included |
| Locking.BusyExactlyWhenHeld | ara/locking.py:51-67 | An attempt is refused exactly when the lock call fails or another descriptor holds the same lock |
| Locking.EndingFreesTheLock | ara/locking.py:70-94 | Closing the descriptor or a crash of its process frees the lock at once |
| Locking.System.WithLock | ara/locking.py:97-118 | Among any steps of other processes the whole body acts, in order, inside the lock, or not at all because the lock call failed or another descriptor held it; nothing of the block is left behind |
| ServeSetup.Serve | ara/cli.py:5238-5336 | With a fault or interrupt possible in every call, the setup never breaks the serve protocol, touches nothing after its record, and its end is explained by the trace: served, exactly all stages in order and then the record; refused, because a call raised or a stage stopped at what it saw; raised, because a call did |
| ServeSetup.Create | ara/cli.py:5241-5269 | The first stage goes through exactly as residency, free name, confirmed create, identity and base show, and stops at the first of them that is bad |
| ServeSetup.Load | ara/cli.py:5273-5286 | The load is asked straight after the identity was seen, and the stage goes through only with a confirmed load and exactly the served model resident; it stops at the first of these that is bad |
| ServeSetup.AfterLock | ara/cli.py:5325-5336 | After the lock a recorded handoff is left alone; otherwise at most the model that this run made is deleted, after two inventories |
| ServeSetup.SetupError | ara/cli.py:5215-5228 | An error path never touches an owned model, and deletes a model of this run only while its identity stands |
| ServeSetup.Attest | ara/cli.py:5292-5313 | The second attestation is complete before ownership is recorded, and stops at the first observation that is bad |
| ServeLifecycle.OwnershipFollowsAttestation | ara/cli.py:5289-5322 | Ownership is recorded only straight after the public probe, authority, base manifest, served manifest and sole residency were all seen again |
| ServeLifecycle.ServeDeletesOnlyItsOwn | ara/cli.py:5195-5228 | A delete names only the served model, only after this run confirmed creating it and before any recorded ownership, straight after observing the manifest first seen after that creation |
| ServeLifecycle.ServeAcceptedAtEveryFault | ara/cli.py:5238-5336 | Every point at which a fault may stop the setup is accepted |
| AtomicWrite.AtomicWrite | ara/activity.py:280-328 | For every reader at every moment the target is the old or the complete new record; no descriptor is left, the temporary file only when removing it failed, and the error raised is the one that stopped the write |
| AtomicWrite.ReplaceRecord | ara/activity.py:263-277 | One attempt, or up to five while permission is refused; the replacement is whole or has not happened |
| AtomicWrite.CloseGuards | ara/activity.py:206-220 | Every guard is closed whatever fails, and the first failure or the original one survives |
| AtomicWrite.Tracker.Enter | ara/activity.py:338-354 | The record is visible and the directory held, or everything is closed again |
| AtomicWrite.Tracker.Exit | ara/activity.py:356-377 | The record is removed unless that failed, the guard is closed, and the body's exception is never replaced |
| Parseable.LargestParseable | ara/_canonical_scoring.py:107-129 | For every text that is not blank, the answer is a parseable run of lines with the most characters, although the search stops at the first success for each first line; for a blank text that parses, exactly when the text is empty |
| Parseable.ParsingBlankText | ara/_canonical_scoring.py:109-110 | For a blank text that itself parses, the empty answer is largest exactly when the text is empty |
| Parseable.BlankTextMayMissARun | ara/_canonical_scoring.py:109-110 | For a parser that reads blanks line by line, the empty answer to a blank text is largest exactly when no line that parses has a character and no two neighbouring lines are empty |
| Parseable.BlankCounterexample | ara/_canonical_scoring.py:109-110 | A concrete blank text for which it is not |
| Squad.ArticlesAreWords | ara/_canonical_scoring.py:32-33 | On clean text the pattern removes exactly the words that are articles |
| Squad.NormalizeIsIdempotent | ara/_canonical_scoring.py:30-41 | Normalising printable ASCII twice is normalising once, and its words are exactly its tokens |
| Squad.TokensAreWords | ara/_canonical_scoring.py:30-41 | The tokens of a printable ASCII text are its words in order, each in lower case and without punctuation, leaving out articles and words of which nothing is left |
| Squad.F1IsDice | ara/_canonical_scoring.py:44-56 | Token F1 is twice the multiset overlap over the total number of tokens |
| Squad.F1IsASimilarity | ara/_canonical_scoring.py:44-56 | Token F1 is symmetric, lies in [0, 1], and is 1 exactly when the token multisets are equal |
| Squad.AnswersCompared | ara/_canonical_scoring.py:44-56 | F1 of two answers: 1 exactly when their normalised words are the same in any order, otherwise twice the common words over all words of both, and 0 without a common word |
| Squad.MaxF1IsMax | ara/_canonical_scoring.py:64-66 | The maximum over the accepted answers is reached by one of them and exceeded by none |
| Squad.ShortcutIsHarmless | ara/benchmark.py:302-319 | The exact-match shortcut never changes the score |
| Benchmark.Validate | ara/cli.py:2968-3012 | The loop accepts exactly the well-formed results without a repeated index, with valid usage metrics on every completion of the daemon's; these name every prompt once, and each completion lands at its own prompt |
| Benchmark.KindsAddUp | ara/cli.py:2981-3011 | Completions, refusals and errors add up to the number of results |
| Benchmark.AllSeen | ara/cli.py:2971-2980 | As many distinct indexes in range as there are prompts leave none out |
| Benchmark.RunAll | ara/cli.py:2951-3044 | A score is stored exactly when every run was accepted, a native engine's memory authority was unchanged after the runs, and something was completed; the counts add up to prompts times repeats, and the score is the mean of the run scores, between the lowest and the highest, in [0, 1] |
| Benchmark.ProbeScoreBounds | ara/benchmark.py:136-147 | The mean item score lies in [0, 1] |
| Benchmark.OneMoreItemScored | ara/benchmark.py:136-147 | Every item counts once and equally: one more item adds its own score to the total |

## Left out

- SHA-256 is taken to be injective in engine fingerprints and lock-file names; in derived model names only its shape is used, and equal hashes are allowed; `ast.parse` is an arbitrary predicate on strings.
- HTTP, psutil, nvidia-smi and subprocesses are answers of the daemon or faults; clocks are arbitrary strings.
- JSON fields are present, missing or malformed; Python's booleans that pass as integers are malformed here.
- Characters beyond ASCII: case folding, `isalnum` and integer parsing are modelled for ASCII only.
- The keys `config_key`, `authority_key` and benchmark cells are functions of the row or supplied by the caller.
- An interrupt between two Python statements is modelled as a raise of the call beside it.
- Name resolution, capability checks and the display-only preflight before the characterization lock, which change nothing.
- The unmanaged form of the ramp, which no command uses.
- `activity.track` around locked sections is modelled on its own in `AtomicWrite`, not inside the traces.
- `History.EveryGovernedRunWasProbed`: each characterization of a history starts with any artifact table; what one run leaves in the table for the next is stated for two runs by `ProbeRamp.RecoverAfterCrash`.
- `MachineKey.RekeyLegacyKey`: sizes too large for a Python float raise in the source; here every integer is rounded exactly.
- `Migrations.Database.Connect`: added columns, backups and the profiles table are not modelled; rowids of a rebuilt table keep their order, not their numbers; old-shaped tables belong to old versions and newly created ones are empty, which is kept as an invariant.
- `Benchmark.RunAll`: the sums of usage metrics of an Ollama run are not modelled.
- `Characterize.CharacterizeOllama`: a raise between the ramp and the save is one fault, whatever its Python class.
- The best-ceiling display, GSM8K extraction, the sandboxed coding score and the agentic score would add only easy members.
- Rendering, engine installation, downloads, hardware recon and the native engines' own ramp are not part of this model.
