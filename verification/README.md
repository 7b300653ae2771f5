# Verified models of the marketplace operations backend

Dafny models of five parts of the backend and proofs of what they promise. Each module follows one
source file or one group of files; `dafny verify dfyconfig.toml` checks the whole project.

| part | modules | source |
|---|---|---|
| portfolio posture: seven classifiers in sequence, capacity in front, path topology behind | `Insights`, `OperatorCapacity`, `OperationalRegime`, `DecisionEnergy`, `PhaseTransition`, `StabilityTopology`, `OperationalDoctrine`, `InstitutionalInertia`, `StructuralRecoveryCapacity`, `RecoveryPathTopology`, `PosturePipeline`, `PostureLimits`, `PostureEvidence`, `PostureReasons`, `CapacityProfile`, `PathProfile` | `backend/logic` |
| cabinet schema: tables, keys, CHECKs and ON DELETE actions | `Tables`, `Relational`, `CabinetSchema`, `CabinetGuarantees`, `CabinetColumns` | `backend/models` |
| execution claim, dispatch and recovery protocol | `ExecutionLog`, `ExecutionProtocol`, `ExecutionStore` | `backend/models/execution_log.py`, `backend/services/marketplace` |
| request limiter, client address, origin guard | `RateLimit`, `Strings`, `ClientAddress`, `Csrf` | `backend/rate_limit.py`, `backend/csrf.py` |
| sequencing, focus selection, canonical cognition form | `ExecutionSequencing`, `SequencingProfile`, `FocusEngine`, `FocusProfile`, `Sorting`, `Cognition` | `backend/logic`, `backend/cognition_binding` |

**How the source's form is kept.** Cascades of comparisons are functions. Loops, in-place tables and
buckets are methods and classes whose contracts equate the new state with a specification function,
and the theorems are about that function: `ExecutionStore.Store`, `Relational.Database`,
`RateLimit.SlidingWindow`, `OperatorCapacity.Compute`, `RecoveryPathTopology.Compute`,
`ExecutionSequencing.Build`, `FocusEngine.ComputeFocus`, `Cognition.Canonicalize`.

**Two readings.** What a part computes is also said a second time, on the raw columns, names and list
positions its inputs have, and both readings are proved to agree: `PostureReasons` and `PostureEvidence`
for the seven stages, `CapacityProfile`, `PathProfile`, `CabinetColumns` for the schema,
`SequencingProfile`, `FocusProfile`, and lemmas named `...Exactly` elsewhere. A class method states its
new rows column by column beside the step it makes.

**Posture.** Every stage reads the insight list only through counts, so a list is a `Tally` from
signals to numbers. "Adding insights" is multiset inclusion: any insights, in any positions. Ranks are
functions such as `Severity` or `Loss`, which give 0 to every rank below the ones the theorem names.

**Schema.** `Relational` is the theory of one schema value (keys held, keys referenced by ON DELETE
action, a CHECK, SET NULL); `CabinetSchema` is the schema the models declare. A key with a NULL part is
neither held nor referenced, which is MATCH SIMPLE and the distinctness of NULLs. RESTRICT and NO ACTION
coincide here, because a row that restricts is never reached by a cascade.

**Protocol.** Any interleaving of workers, sweeps, operator actions and crashes; a step is one committed
statement or one provider call. Times are integers supplied by each step, in no assumed order. The
histories `dispatches` and `transfers` record every provider call and every ownership transfer. A run
starts on any table whose rows no recovery touched, rows with legacy keys or from before the attempt
counter included. `ExecutionStore.Store` holds the tables and runs the statements in place: each method
is one step of the protocol on the state before it, so a store always holds what some run ends in, and
what a caller gains from winning a statement is stated beside it.

## What the proofs show to be false or conditional

- **A recorded success can be overwritten by a failure.** The write at
  `backend/services/marketplace/executor.py:519-523` names the row by id only, although its comment
  assumes an undispatched claim. An operator can resume the claim while its first worker is still
  resolving credentials; the provider call succeeds, then the first worker records `failed`.
  `StaleFailureOverwritesSuccess` is that run, and `SuccessIsReplacedExactly` says that, apart from the
  success of a revert, this is the only step that ever replaces a success. At most one provider call is made in all cases.
- **A cabinet with a connection cannot be deleted.** `backend/models/marketplace_store.py:35-37` says a
  cabinet deletion cascades; the connection and verification attempt tables reference the cabinet without
  ON DELETE, and the API always links a connection. `CabinetDeletionIsExact` says the delete is accepted
  exactly when no such row names the cabinet, `ConnectedCabinetIsKept` is a refused one.
- **Lower posture ranks are not monotone.** `restructuring_dependent`, `narrowing_support` and
  `defensive_patterning` can be left by adding a bad insight. `PostureLimits` says for any lists exactly
  when each is left, and gives a list for each: narrowing support when energy becomes structurally
  exhausting, defensive patterning when the regime becomes containment, restructuring dependence when
  inertia freezes, or doctrine turns rigid, or the topology moves on; each time only if no other reason
  for at least that rank holds.
- **Good news can improve the posture through capacity.** A first improved or stabilized outcome, even on
  a resolved insight, credits six points. For any additions `FullPostureImprovesExactly` says when some
  stage improves: exactly when that credit exceeds the added penalties enough to cross a capacity
  threshold, and one of the four stages that read capacity had no other reason for its rank.
- **An adaptive path is never dominant.** The branch for it at
  `backend/logic/recovery_path_topology.py:199-200` needs more adaptive than direct steps, and `EdgesExactly`
  shows that two steps are always direct while at most two are adaptive. `DominantExactly` gives the dominant
  type from the recovery state, inertia and energy alone.
- **The root cause of the advertising and margin chain depends on hash order**: both signals have tier 2
  and the source takes `min` over a frozenset. `RootCauseIsDeterminedExactly` shows it is the only such chain.
- **A promotion literally named `__none__`** shares the materialized key of the unknown promotion
  (`PromotionKeysCollideExactly`).
- **Canonical order** depends on input order exactly when two records tie on all four key parts and differ
  (`OrderIsForgottenExactly`, for every accepted list); a missing type and the text `None` tie.

Where documentation and code disagree the model follows the code: the docstring of
`ProtectionActionState` calls cooldown rows exempt from the active-action index, the index does not
exempt them; the comments of `execution_log.py` call the operator's resolution columns unwritten, the
recovery services write them; `stabilization_lock_state` is read by four stages and set by no
producer in the repository, so it is modelled like any other attribute.

## Model

| member | source | states |
|---|---|---|
| Insights.CountsOnlyGrow | backend/logic/operational_regime.py:247-286 | Adding insights, in any positions, lowers no count any stage takes. |
| Insights.TalliesAreCoherent | backend/logic/institutional_inertia.py:268-290 | Failed outcomes are counted among recurring signals, so they never outnumber them. |
| Insights.CountsReadActiveOnly | backend/logic/operational_regime.py:247-286 | The counts depend only on how often each active insight occurs. |
| OperatorCapacity.Penalized | backend/logic/operator_capacity.py:77-91 | The penalty loop takes one total over the active insights off the score. |
| OperatorCapacity.Compute | backend/logic/operator_capacity.py:61-158 | Penalties and credits yield the clamped bandwidth score over the whole list, its state, and exactly the categories to defer, in order. |
| OperatorCapacity.Deferred | backend/logic/operator_capacity.py:133-152 | The two passes list exactly the categories to defer: the deferrable ones in their order, then the others as their first low-value insight comes. |
| OperatorCapacity.CapacityLoadGrows | backend/logic/operator_capacity.py:77-131 | With the positive-outcome credit unchanged, added insights never relieve capacity. |
| OperatorCapacity.CapacityIsRelievedExactly | backend/logic/operator_capacity.py:111-131 | For any additions capacity is relieved exactly when they bring the first positive outcome and its credit less their penalties crosses a threshold of the score. |
| CapacityProfile.ScoreExactly | backend/logic/operator_capacity.py:76-123 | The raw score on columns: each penalty once for every place it stands at, the credits, and fatigue towards zero. |
| CapacityProfile.StateExactly | backend/logic/operator_capacity.py:123-131 | Clamped score and state from that raw score. |
| CapacityProfile.DeferralExactly | backend/logic/operator_capacity.py:134-152 | A name may be deferred exactly when a live insight of that name may wait and the name is none that never waits. |
| CapacityProfile.TurnExactly | backend/logic/operator_capacity.py:137-152 | Search, then growth, then the names as their first minor insight comes. |
| OperationalRegime.SeverityGrows | backend/logic/operational_regime.py:137-190 | The regime rank rises with the counts and with capacity load. |
| DecisionEnergy.CostGrows | backend/logic/decision_energy.py:82-126 | The energy rank rises with the counts, capacity load and regime rank. |
| PhaseTransition.StrainGrows | backend/logic/phase_transition.py:92-200 | The three severe phases rise with the counts and the earlier ranks. |
| StabilityTopology.ImbalanceGrows | backend/logic/stability_topology.py:94-189 | The three severe topologies rise with the counts and the earlier ranks. |
| OperationalDoctrine.HardnessGrows | backend/logic/operational_doctrine.py:85-186 | The three severe doctrines rise with the counts and the earlier ranks. |
| InstitutionalInertia.RigidDoctrineLocksBehavior | backend/logic/institutional_inertia.py:148-163 | Rigid doctrine on the same counts gives at least locked behaviour. |
| InstitutionalInertia.ResistanceGrows | backend/logic/institutional_inertia.py:104-219 | The three severe inertia ranks rise with the counts and the earlier ranks. |
| StructuralRecoveryCapacity.LossGrows | backend/logic/structural_recovery_capacity.py:114-230 | Exhausted and continuity without recovery rise with the counts and the earlier ranks. |
| PosturePipeline.AssessMonotone | backend/logic/structural_recovery_capacity.py:274-345 | The composition of all seven stages is monotone in counts and capacity. |
| PostureEvidence.CountsArePlaces | backend/logic/stability_topology.py:242-262 | Every count a stage takes is the number of list positions whose fields show the signal. |
| PostureReasons.RegimeExactly | backend/logic/operational_regime.py:137-190 | A regime is reported exactly when one of its reasons is shown and none of a worse one. |
| PostureReasons.EnergyExactly | backend/logic/decision_energy.py:94-126 | Likewise for energy. |
| PostureReasons.PhaseExactly | backend/logic/phase_transition.py:114-200 | Likewise for the phase. |
| PostureReasons.TopologyExactly | backend/logic/stability_topology.py:118-189 | Likewise for the topology. |
| PostureReasons.DoctrineExactly | backend/logic/operational_doctrine.py:107-182 | Likewise for the doctrine. |
| PostureReasons.InertiaExactly | backend/logic/institutional_inertia.py:126-219 | Likewise for inertia. |
| PostureReasons.RecoveryStateExactly | backend/logic/structural_recovery_capacity.py:137-230 | Likewise for the recovery state. |
| PostureReasons.PostureExactly | backend/logic/structural_recovery_capacity.py:274-345 | A posture is that of a list exactly when every rank of it is the one the list positions show, given its earlier ranks. |
| PostureReasons.StandaloneExactly | backend/tasks/intelligence_loop.py:625-773 | The same for the stages called on the insights alone. |
| PostureReasons.CollapsesExactly | backend/logic/stability_topology.py:118-130 | The topology collapses exactly when one of two patterns stands at positions of the list; for the stage alone, the first of them. |
| PosturePipeline.PostureNeverImproves | backend/logic/structural_recovery_capacity.py:138-174 | With capacity and commitment fixed, adding any insights never lowers energy and never leaves or drops within the severe ranks of any stage. |
| PosturePipeline.FullPostureNeverImproves | backend/logic/operator_capacity.py:77-131 | The same when capacity is computed from the same insights, unless the addition brings the first improved or stabilized outcome. |
| PosturePipeline.FullPostureImprovesExactly | backend/logic/operator_capacity.py:111-131 | For any additions some stage improves exactly when a first positive outcome relieves capacity and one of the four stages that read it had no other reason for its rank. |
| PosturePipeline.RelievedStagesKeptExactly | backend/logic/decision_energy.py:82-126 | When capacity is relieved, those four stages stay no better exactly when each has such a reason. |
| PosturePipeline.StandaloneNeverImproves | backend/tasks/intelligence_loop.py:625-773 | Called on the insights alone, as the loop does, every stage is monotone too. |
| PosturePipeline.StandaloneIsNoWorse | backend/tasks/intelligence_loop.py:625-773 | On the same insights the composed stages never report a better severe rank than the stages called alone. |
| PosturePipeline.PostureReadsActiveOnly | backend/logic/structural_recovery_capacity.py:289-330 | Under a given capacity, resolved and dismissed insights, and the order of the others, never change any stage's result. |
| PosturePipeline.RigidPostureIsLocked | backend/logic/operational_doctrine.py:108-119 | A rigid posture is always at least locked in its behaviour. |
| PosturePipeline.DegradingInsightForcesContainment | backend/logic/operational_regime.py:140-148 | One recurring structurally degrading insight anywhere forces containment, exhausting energy and an unbalanced or collapsing topology. |
| PosturePipeline.IrreversiblePathIsAbsorbing | backend/logic/recovery_path_topology.py:188-201 | Once the dominant path is irreversible, no added insight reopens it. |
| PostureLimits.NarrowingSupportKeptExactly | backend/logic/stability_topology.py:160-175 | For any additions a topology of at least narrowing support stays so exactly when energy is not structurally exhausting or another reason for that rank holds. |
| PostureLimits.DefensivePatterningKeptExactly | backend/logic/operational_doctrine.py:153-170 | For any additions a doctrine of at least defensive patterning stays so exactly when the regime is not containment or another reason for that rank holds. |
| PostureLimits.RestructuringDependentKeptExactly | backend/logic/structural_recovery_capacity.py:138-190 | For any additions, case by case of the reason a recovery state is at least restructuring dependent: one kind of reason lasts, a locked structure lasts exactly until inertia freezes, waiting on support exactly until doctrine turns rigid or the topology moves on, unless another reason holds. |
| PostureLimits.RestructuringDependentCanBeLeft | backend/logic/structural_recovery_capacity.py:176-190 | Such a list: one more exhausted insight takes recovery from restructuring dependent to recoverable while inertia freezes. |
| PostureLimits.NarrowingSupportCanBeLeft | backend/logic/stability_topology.py:160-175 | Such a list: one more locked insight takes the topology from narrowing support to balanced. |
| PostureLimits.DefensivePatterningCanBeLeft | backend/logic/operational_doctrine.py:153-170 | Such a list: one more exhausted insight dissolves defensive patterning. |
| PostureLimits.FirstPositiveOutcomeCanRelax | backend/logic/operator_capacity.py:111-116 | A list on which a first improved outcome on a resolved insight lowers energy. |
| RecoveryPathTopology.CompressByDoctrine | backend/logic/recovery_path_topology.py:105-114 | The in-place multiplications leave every score as the doctrine factor of that state says. |
| RecoveryPathTopology.CompressByInertia | backend/logic/recovery_path_topology.py:116-127 | Likewise for inertia. |
| RecoveryPathTopology.CompressByRecovery | backend/logic/recovery_path_topology.py:129-137 | Likewise for the current recovery state. |
| RecoveryPathTopology.CompressByEnergy | backend/logic/recovery_path_topology.py:139-145 | Likewise for energy, on all states. |
| RecoveryPathTopology.ModulateAccessibility | backend/logic/recovery_path_topology.py:97-147 | The four passes give each state its accessibility, clamped to 0.01 and 1. |
| RecoveryPathTopology.Weakest | backend/logic/recovery_path_topology.py:296-302 | The bottleneck is the first state of minimal accessibility on the path. |
| RecoveryPathTopology.CountEdges | backend/logic/recovery_path_topology.py:304-323 | The edge loop counts the open direct, open adaptive, blocked and irreversible edges. |
| RecoveryPathTopology.ComputeOver | backend/logic/recovery_path_topology.py:279-325 | Over any edges, modulation, bottleneck search and edge count together yield the specified report. |
| RecoveryPathTopology.Compute | backend/logic/recovery_path_topology.py:279-325 | In particular over the edges of the source. |
| RecoveryPathTopology.BetterStatesStayOpen | backend/logic/recovery_path_topology.py:97-147 | The four better states keep an accessibility above the irreversible threshold under all pressures together. |
| RecoveryPathTopology.ThinPathExactly | backend/logic/recovery_path_topology.py:294-302 | The density falls below the irreversible threshold exactly in the two worst recovery states. |
| RecoveryPathTopology.IrreversibleExactly | backend/logic/recovery_path_topology.py:188-201 | The dominant path is irreversible exactly when recovery is continuity without recovery or exhausted. |
| RecoveryPathTopology.RecoveryEdgesAreConserved | backend/logic/recovery_path_topology.py:310-319 | Every recovery edge is counted once: direct, adaptive and blocked add up to their number. |
| PathProfile.AccessibilityExactly | backend/logic/recovery_path_topology.py:97-147 | A state's score is its base scaled by doctrine, inertia, recovery state and energy in turn, clamped. |
| PathProfile.DoctrineScales | backend/logic/recovery_path_topology.py:105-114 | The doctrine factors by state. |
| PathProfile.InertiaScales | backend/logic/recovery_path_topology.py:117-127 | The inertia factors by state. |
| PathProfile.RecoveryScales | backend/logic/recovery_path_topology.py:130-137 | The recovery factors by state. |
| PathProfile.EnergyScales | backend/logic/recovery_path_topology.py:140-145 | The energy factor. |
| PathProfile.EdgesExactly | backend/logic/recovery_path_topology.py:310-323 | For all inputs: two direct steps, two adaptive ones less those inertia blocks, the rest of five blocked, and three irreversible ones or none. |
| PathProfile.BottleneckExactly | backend/logic/recovery_path_topology.py:294-302 | The bottleneck named is the first least accessible state down to the system's own. |
| PathProfile.DensityExactly | backend/logic/recovery_path_topology.py:294-302 | The density is its score, rounded to thousandths. |
| PathProfile.DominantExactly | backend/logic/recovery_path_topology.py:185-201 | The dominant type from recovery state, inertia and energy; never the adaptive one. |
| PathProfile.PosturePathExactly | backend/logic/recovery_path_topology.py:185-201 | The same for the path of a posture. |
| Relational.InsertExactly | backend/models/product_placement.py:42-66 | The checks an insert makes on its own row accept exactly the rows that leave the database consistent. |
| Relational.UpdateExactly | backend/models/marketplace_account.py:28-35 | The checks an update makes accept exactly the rows that leave the database consistent. |
| Relational.Doomed | backend/models/protection.py:276-285 | The cascade terminates in a set of rows closed under ON DELETE CASCADE. |
| Relational.DoomedIsLeast | backend/models/protection.py:276-285 | It reaches nothing it does not have to. |
| Relational.DeleteExactly | backend/models/execution_recovery_audit.py:45-46 | A delete is refused exactly when what it would leave is inconsistent. |
| Relational.Database.Insert | backend/models/product_placement.py:42-66 | Accepted exactly when the new database is consistent; refused inserts change nothing. |
| Relational.Database.Update | backend/models/marketplace_store.py:56-85 | Accepted exactly when the new database is consistent; refused updates change nothing. |
| Relational.Database.Delete | backend/models/marketplace_price_observation.py:129-138 | Deleting row by row in any order ends in the same database: the doomed rows gone, references to them nulled, or everything rolled back. |
| Relational.HistoriesStayConsistent | backend/models/marketplace_promotion_observation.py:97-114 | Every history of statements keeps every key, reference and CHECK. |
| Relational.HistoryGoesOn | backend/models/protection.py:89-112 | A history is its first statements followed by its last, each executed as the database executes it. |
| CabinetSchema.CabinetIsLawful | backend/models/protection.py:199-204 | SET NULL on the declared tables frees no key another row references and keeps every CHECK. |
| CabinetSchema.CabinetStaysConsistent | backend/models/protection.py:89-112 | Every history on an empty database leaves the declared constraints satisfied. |
| CabinetSchema.HolderIsOk | backend/models/marketplace_account.py:65-71 | A referenced key names one row of one table with the columns of the key. |
| CabinetSchema.PlacementTies | backend/models/product_placement.py:42-53 | A placement's product and store belong to the account it stores. |
| CabinetSchema.RowIsIsolated | backend/models/marketplace_price_observation.py:129-163 | In a consistent database no row mixes cabinets, stores or marketplaces. |
| CabinetSchema.CabinetsStayIsolated | backend/models/protection.py:274-285 | Over every history: actions, product policies and resolved observations name a store and a product of one cabinet, an action's store is its policy's, a store's marketplace is its cabinet's. |
| CabinetColumns.ConsistentExactly | backend/models/marketplace_account.py:48-71 | The declared CHECKs, keys and references admit exactly the databases whose columns are sound, whose rows have all the rows they name, and no two rows of which conflict. |
| CabinetColumns.HistoriesStayProper | backend/models/marketplace_account.py:52 | So after every history a cabinet's workspace, a connection's workspace and cabinet, an attempt's connection and cabinet, and every other row named is stored. |
| CabinetColumns.InsertAcceptedExactly | backend/models/product_placement.py:42-66 | An insert is accepted exactly when its row is sound, the rows it names are stored and no row conflicts with it. |
| CabinetColumns.SoundExactly | backend/models/marketplace_price_observation.py:139-163 | The CHECKs of one row, by marketplace, mode and kind. |
| CabinetColumns.ParentsExactly | backend/models/connection_verification_attempt.py:39-45 | Every reference of a row is met exactly when the rows its columns name are stored. |
| CabinetColumns.ConflictExactly | backend/models/protection.py:286-299 | Two rows share a unique key exactly when their columns conflict. |
| CabinetColumns.DragsExactly | backend/models/protection.py:276-285 | ON DELETE CASCADE, by the columns of the row that goes. |
| CabinetColumns.BlocksExactly | backend/models/marketplace_connection.py:64-65 | References without an action or ON DELETE RESTRICT, by the columns of the row that objects. |
| CabinetColumns.DeleteExactlyOnColumns | backend/models/protection.py:276-285 | A delete takes the least set of rows closed under those columns, and is accepted exactly when no row that stays keeps one of them. |
| CabinetColumns.WorkspaceDeletionIsExact | backend/models/marketplace_account.py:52 | A workspace goes alone, and exactly when no cabinet and no connection names it. |
| CabinetColumns.ConnectionDeletionIsExact | backend/models/connection_verification_attempt.py:41-42 | A connection goes alone, and exactly when no attempt names it. |
| CabinetGuarantees.AtMostOneActiveAction | backend/models/protection.py:286-299 | At most one non-terminal action per store, product and promotion, cooldown included, an unknown promotion counting as one value. |
| CabinetGuarantees.AtMostOnePricePerRun | backend/models/marketplace_price_observation.py:143-144 | At most one price row per series and run, an unknown promotion counting as one value. |
| CabinetGuarantees.NoTwoRowsConflict | backend/models/protection.py:97-106 | Over every history no two rows agree on the columns of any declared unique constraint or partial index, NULLs being distinct where the constraint says so. |
| CabinetGuarantees.OneStorePerSingleStoreCabinet | backend/models/marketplace_store.py:58-74 | A Wildberries or Ozon cabinet never has two stores. |
| CabinetGuarantees.PromotionKeysCollideExactly | backend/models/protection.py:288-293 | Two promotions share a materialized key exactly when equal, or when one is unknown and the other carries the sentinel as its name. |
| CabinetGuarantees.ClaimIsAcceptedExactly | backend/models/marketplace_account.py:21-35 | Filling in a verified external id is accepted exactly when no other account holds it on that marketplace. |
| CabinetGuarantees.CabinetDeletionIsExact | backend/models/marketplace_connection.py:61-65 | Deleting a cabinet is refused exactly when a connection or a verification attempt names it; it removes exactly the rows that belong to the cabinet. |
| CabinetGuarantees.ConnectedCabinetIsKept | backend/models/connection_verification_attempt.py:39-45 | A consistent database whose cabinet has one connection, where the delete is refused. |
| CabinetGuarantees.StoreDeletionIsExact | backend/models/marketplace_store.py:58-63 | Deleting a store is always allowed and removes exactly what it holds: its placements, policies with their settings and costs, evaluations, actions, price observations and the promotion evidence mapped to it. |
| CabinetGuarantees.ProductDeletionIsExact | backend/models/product_placement.py:42-47 | Deleting a product is always allowed and removes exactly it, its placements, its policies with their settings and costs, the actions on it or under those policies, and the observations resolved to it with their evidence. |
| CabinetGuarantees.PolicyDeletionIsExact | backend/models/protection.py:123-125 | Deleting a policy is always allowed and takes exactly its tax setting, costs and actions with it. |
| CabinetGuarantees.SurvivesExactly | backend/models/product_placement.py:42-53 | After a delete, another row is gone exactly when some row it references ON DELETE CASCADE is gone. |
| CabinetGuarantees.EvaluationOutlivesItsPolicy | backend/models/protection.py:181-204 | Under any delete an evaluation goes exactly with its store; when its policy goes it stays, with policy_id NULL and nothing else changed. |
| CabinetGuarantees.SurvivorsKeepTheirColumns | backend/models/protection.py:266-267 | Every other surviving row keeps its columns, but for an action's reference to a deleted execution log. |
| CabinetGuarantees.LogIsKeptByItsAudits | backend/models/execution_recovery_audit.py:45-46 | An execution log can be deleted exactly when no operator audit names it, and takes no row with it. |
| ExecutionLog.ValidKeysAreIndexed | backend/services/marketplace/operation_key.py:31-50 | Every well-formed operation key falls inside the partial unique index. |
| ExecutionLog.KeyExactly | backend/services/marketplace/operation_key.py:31-53 | A key is well formed exactly when it is a known namespace and a uuid, with at most a final newline; the length bound never decides. |
| ExecutionLog.UuidExactly | backend/services/marketplace/operation_key.py:34-34 | A uuid splits at its hyphens into groups of 8, 4, 4, 4 and 12 hexadecimal digits, and only a uuid does. |
| ExecutionLog.FingerprintExactly | backend/services/marketplace/request_fingerprint.py:104-111 | A fingerprint is the prefix and 64 hexadecimal digits. |
| ExecutionStore.StepStaysReachable | backend/models/execution_log.py:58-105 | Whatever statement is run on tables some run ends in, the tables it leaves are what a run ends in. |
| ExecutionStore.Store.Claim | backend/services/marketplace/executor.py:458-495 | One claim step: won exactly when the key is well formed and no row of the user has it; then the only new row is a pending, untouched one, else nothing changes. |
| ExecutionStore.Store.Reject | backend/models/execution_log.py:112-117 | One step: a refused request is recorded without a key, so it claims nothing. |
| ExecutionStore.Store.FailBeforeDispatch | backend/services/marketplace/executor.py:516-526 | One step: the claimed row ends as failed whatever its status was, a recorded success included, and stays started or not. |
| ExecutionStore.Store.Fence | backend/services/marketplace/executor.py:48-60 | One fence step: won exactly on an undispatched pending row of the owned generation; it starts one attempt, moves no other column or row, and makes the worker sole owner of a row nothing was ever sent for. |
| ExecutionStore.Store.Send | backend/services/marketplace/executor.py:586-588 | One provider call, differing from every earlier one in user or key. |
| ExecutionStore.Store.Finish | backend/services/marketplace/executor.py:586-628 | One terminal step: the row's status is the outcome; a successful revert links it and turns exactly the same user's successful original to reverted; nothing else moves, and the row is owned by nobody, so it is never sent again. |
| ExecutionStore.Store.Reown | backend/services/marketplace/recovery/reown_sweep.py:101-112 | One transfer step: done exactly on the stale pending row that was seen; only generation, count and time move, the row was never sent, and the old generation can no longer win the fence. |
| ExecutionStore.Store.Reconcile | backend/services/marketplace/recovery/recovery_sweep.py:102-106 | One reconciliation step: done exactly on unfinished rows; only the reconciliation columns move, and the last allowed attempt schedules no other. |
| ExecutionStore.Store.Resolve | backend/services/marketplace/recovery/operator_resolve.py:110-143 | One conclusion step: accepted exactly for a disputed row of the tenant, a fitting reason and a fresh correlation id; audit row and conclusion land together or not at all, and no other column moves. |
| ExecutionStore.Store.Resume | backend/services/marketplace/recovery/operator_resume.py:62-73 | One resume step: accepted exactly for an admitted, safe pending row of the tenant and a fresh correlation id; audit and fence land together or not at all, and the worker is sole owner of a row nothing was ever sent for. |
| ExecutionProtocol.StepKeepsInv | backend/models/execution_log.py:58-105 | Every step of every actor keeps claims unique, attempts at most one, one owner per dispatched row, and trail, transfers and rows in agreement. |
| ExecutionProtocol.RunKeepsInv | backend/models/execution_log.py:58-105 | So does every run. |
| ExecutionProtocol.FreshExactly | backend/models/execution_log.py:112-117 | Runs start on exactly the tables of rows no recovery touched, in which no user holds a v1 key twice. |
| ExecutionProtocol.AtMostOneDispatch | backend/models/execution_log.py:112-117 | From any fresh table and in every interleaving each user and operation key reaches the provider at most once. |
| ExecutionProtocol.SupersededNeverDispatches | backend/models/execution_log.py:68-73 | No provider call is ever made on a generation the row has moved past. |
| ExecutionProtocol.StartedIsNeverSentAgain | backend/services/marketplace/executor.py:530-533 | A row that has started while nobody is about to send, such as after a crash, is never sent by any continuation of the run. |
| ExecutionProtocol.RunFollows | backend/models/execution_log.py:68-96 | Over any run rows persist, keep user and key, generations and attempts never decrease, and the histories only grow. |
| ExecutionProtocol.TransfersAreBoundedAndSpaced | backend/config.py:164-186 | Transfers of one row number its generation and its re-own count, at most the bound, and lie more than the stale interval apart. |
| ExecutionProtocol.SweepsLeaveDispatchAlone | backend/config.py:141-169 | Neither sweep touches status, dispatch or attempts, calls a provider, or writes the other's columns. |
| ExecutionProtocol.ConclusionsLeaveFactsAlone | backend/models/execution_log.py:98-105 | An operator's conclusion changes the three resolution columns of one disputed row of that tenant, and nothing else. |
| ExecutionProtocol.TrailExplainsResolutions | backend/models/execution_recovery_audit.py:41-70 | A row's resolution is its last audit entry, correlation ids are used once, a retry is authorized at most once and never on a pending row. |
| ExecutionProtocol.SuccessIsRecordedExactly | backend/services/marketplace/executor.py:617-628 | A row becomes a success exactly when the worker whose provider call returned reports one. |
| ExecutionProtocol.SuccessWasReported | backend/services/marketplace/executor.py:617-628 | Over any run, a row that became a success was sent and some step is its sender's report. |
| ExecutionProtocol.SuccessWasSentOnce | backend/models/execution_log.py:112-117 | From a fresh table, a recorded success was sent to the provider exactly once. |
| ExecutionProtocol.CrashForgetsOnlyTheWorker | backend/services/marketplace/executor.py:530-533 | A crash loses what one worker held and nothing else. |
| ExecutionProtocol.SuccessIsReplacedExactly | backend/services/marketplace/executor.py:617-628 | A recorded success is replaced exactly by the success of its revert or by the unguarded failure write of its claiming worker. |
| ExecutionProtocol.StaleFailureOverwritesSuccess | backend/services/marketplace/executor.py:507-526 | A run with one provider call, which succeeds, whose row ends as failed. |
| RateLimit.SlidingWindow.Hit | backend/rate_limit.py:54-62 | A hit is admitted by the recent entries of its bucket alone; a rejected one leaves all entries. |
| RateLimit.LimiterRefinesLog | backend/rate_limit.py:54-62 | On a nondecreasing clock the pruning limiter decides every run like a log that forgets nothing. |
| RateLimit.HitIsAcceptedExactly | backend/rate_limit.py:54-62 | A hit is accepted exactly when fewer than limit of all previously accepted hits of its key are newer than its time less the window. |
| RateLimit.EveryWindowIsBounded | backend/rate_limit.py:49-62 | Every window-long interval holds at most limit accepted hits of a key. |
| RateLimit.RejectedHitsLeaveNoTrace | backend/rate_limit.py:59-60 | Removing a rejected hit from a run changes no other decision. |
| RateLimit.BucketsStayBounded | backend/rate_limit.py:58-62 | No bucket ever holds more entries than its limit. |
| RateLimit.EndpointsShareNoBucket | backend/rate_limit.py:88-105 | No two endpoints, and no two identities of one, share a bucket. |
| RateLimit.OnePolicyGovernsAllKeys | backend/rate_limit.py:88-105 | One policy gives every endpoint's key the limit and window of that endpoint, whatever the identity. |
| RateLimit.LimitsAreDeclared | backend/rate_limit.py:88-105 | The four key prefixes with their limits and windows. |
| RateLimit.EndpointsAreBounded | backend/rate_limit.py:88-105 | Under it every window-long interval holds at most an endpoint's own limit of accepted hits per identity, whatever the other endpoints do. |
| ClientAddress.PrefixCannotChangeTheAddress | backend/rate_limit.py:34-46 | Whatever is sent in front of n appended entries, the address is the first of them, trimmed. |
| ClientAddress.DirectPeerIsKept | backend/rate_limit.py:34-45 | Without a trusted proxy, a header or a long enough chain the address is the direct peer's, and unknown only when there is none. |
| ClientAddress.PeersShareNoBucket | backend/rate_limit.py:34-45 | Two such clients get the same key exactly for the same endpoint and address. |
| ClientAddress.EntriesExactly | backend/rate_limit.py:41-41 | The entries are the parts that are not blank, trimmed, in order. |
| ClientAddress.AddressComesFromTheChain | backend/rate_limit.py:41-46 | With a trusted chain the address has exactly n - 1 entries to its right. |
| Csrf.ResolutionPostExactly | backend/csrf.py:53-61 | The operator exemption is exactly a POST to the fixed prefix, a non-empty slash-free id and a listed action. |
| Csrf.RecoveryTreeStaysGuarded | backend/csrf.py:95-109 | Every other state-changing request inside the recovery tree is guarded. |
| Csrf.GuardedExactly | backend/csrf.py:33-109 | The guard on literal methods, paths and actions. |
| Strings.SplitOfJoin | backend/rate_limit.py:41-41 | Parts without the separator survive joining and splitting. |
| Strings.JoinOfSplit | backend/csrf.py:56-56 | Splitting loses nothing. |
| Strings.TrimExactly | backend/rate_limit.py:41-41 | Trimming takes white space off both ends, and all of it. |
| Strings.BeforeExactly | backend/logic/execution_sequencing.py:111-112 | A key has a name exactly when it is the name or starts with it and a colon. |
| ExecutionSequencing.Collect | backend/logic/execution_sequencing.py:163-235 | The loop with its seen set collects the first occurrences of known categories. |
| ExecutionSequencing.SortByStage | backend/logic/execution_sequencing.py:240-241 | The sort puts stage one before stage two and keeps input order within each. |
| ExecutionSequencing.Renumber | backend/logic/execution_sequencing.py:243-245 | The numbers become 1..n and nothing else changes. |
| ExecutionSequencing.Build | backend/logic/execution_sequencing.py:121-247 | Loop, sort and renumbering together yield the specified sequence. |
| ExecutionSequencing.SequenceIsOrdered | backend/logic/execution_sequencing.py:237-247 | Numbered 1..n, stages in order, input order within a stage, no category twice. |
| ExecutionSequencing.KnownCategoryAppears | backend/logic/execution_sequencing.py:163-235 | Every known category of an active warning appears, for its first active warning. |
| ExecutionSequencing.CausesComeFirst | backend/logic/execution_sequencing.py:183-190 | For every input order advertising precedes margin and stock precedes search. |
| ExecutionSequencing.SummaryLineExactly | backend/logic/execution_sequencing.py:250-267 | The summary line appears exactly when one active warning unlocks a stage and another waits for one. |
| SequencingProfile.AdvertisingStandsFirst | backend/logic/execution_sequencing.py:183-186 | When open warnings are named high_ad_spend and margin_crisis, both are listed, advertising in stage one and before margin in stage two. |
| SequencingProfile.StockStandsFirst | backend/logic/execution_sequencing.py:187-190 | Likewise low_stock before seo_opportunity. |
| SequencingProfile.ListedExactly | backend/logic/execution_sequencing.py:163-175 | Each of the five names is listed exactly when an open warning or info insight has it. |
| SequencingProfile.MadeForFirst | backend/logic/execution_sequencing.py:163-235 | Every action carries key, title and product of the first open warning of its name. |
| SequencingProfile.ActionIsProfiled | backend/logic/execution_sequencing.py:35-69 | Stage, role, window, unlocking and note of every action by its name and the names beside it. |
| SequencingProfile.ConfidenceIsSaid | backend/logic/execution_sequencing.py:153-220 | Its confidence: lowered by three margin warnings under fatigue, raised for advertising and margin by recurrence anywhere. |
| SequencingProfile.OthersNeverMatter | backend/logic/execution_sequencing.py:141-146 | A resolved or dismissed insight, or one of another kind, never changes the order. |
| SequencingProfile.SummaryLineByNames | backend/logic/execution_sequencing.py:250-267 | The summary line by the names of the open warnings. |
| FocusEngine.SelectChain | backend/logic/focus_engine.py:278-292 | The running optimum is the candidate chain of lowest tier, then strongest evidence, first on ties; none exactly when there is no candidate. |
| FocusEngine.SelectSignal | backend/logic/focus_engine.py:332-337 | The fallback is the first signal that none exceeds by weight, tier and confidence. |
| FocusEngine.ComputeFocus | backend/logic/focus_engine.py:235-374 | The focus reports the best chain, or else the strongest signal of a known category, or nothing. |
| FocusEngine.FocusIsDeterminedExceptForTies | backend/logic/focus_engine.py:294-330 | Two evaluations of one input differ at most in the root cause of the tied chain. |
| FocusEngine.RootCauseIsDeterminedExactly | backend/logic/focus_engine.py:299-299 | The root cause is determined exactly for the chains other than advertising and margin. |
| FocusEngine.ChainTierIsLowest | backend/logic/focus_engine.py:288-288 | A chain competes with the lowest tier among its signals. |
| FocusEngine.IneligibleNeverMatters | backend/logic/focus_engine.py:262-272 | An ineligible insight changes nothing, wherever it stands. |
| FocusEngine.WeightlessChainIsNoCandidate | backend/logic/focus_engine.py:176-183 | Insights without a weight pass eligibility but never carry a chain. |
| FocusProfile.FocusIsSaid | backend/logic/focus_engine.py:235-374 | Any computed focus is the one the names, statuses, weights, confidences, decays and lifecycles of the insights call for: which chain stands and is chosen, whom it blames, what it links and reports, and which insight pulls first when none stands. |
| FocusProfile.OnlyOneIsChosen | backend/logic/focus_engine.py:278-292 | At most one chain is chosen. |
| FocusProfile.StandsExactly | backend/logic/focus_engine.py:279-287 | A chain is a candidate exactly when both names are there and one of their insights pulls with 40 or more. |
| FocusProfile.MattersExactly | backend/logic/focus_engine.py:256-272 | Which insights are eligible, on their fields. |
| FocusProfile.PullIsWeight | backend/logic/focus_engine.py:176-183 | The effective weight as weight times decay and lifecycle factors. |
| FocusEngine.CompressScenarios | backend/logic/focus_engine.py:377-390 | The three paths in their fixed order, each with exactly the first of its most confident scenarios. |
| FocusEngine.BestOf | backend/logic/focus_engine.py:383-389 | A path has a scenario exactly when one was given, and none of that path is more confident. |
| FocusEngine.BestOfIsFirst | backend/logic/focus_engine.py:383-389 | Of the most confident scenarios of a path the first given is taken. |
| Sorting.SortForgetsOrder | backend/cognition_binding/cognition_canonicalizer.py:41-46 | Where ties are equal a stable sort forgets the input order. |
| Sorting.SortIsStable | backend/cognition_binding/cognition_canonicalizer.py:45-46 | Records that tie keep their input order. |
| Sorting.SwapOfTiesShows | backend/cognition_binding/cognition_canonicalizer.py:45-46 | Exchanging two unequal records that tie always changes the sorted list. |
| Sorting.StringLeqExactly | backend/cognition_binding/cognition_canonicalizer.py:45-46 | Strings compare at the first place they differ, or where the first ends. |
| Cognition.ProjectionExactly | backend/cognition_binding/cognition_projection.py:35-50 | Projection fails exactly on a missing key, and otherwise maps each insight to its fields, in order. |
| Cognition.Canonicalize | backend/cognition_binding/cognition_canonicalizer.py:21-47 | The loops yield the sorted canonical records, or the first violation in input order. |
| Cognition.FineExactly | backend/cognition_binding/cognition_canonicalizer.py:24-29 | Canonicalization succeeds exactly when every item has a key that stripping does not empty. |
| Cognition.FirstViolationExactly | backend/cognition_binding/cognition_canonicalizer.py:24-29 | The violation reported is that of the first item that has one. |
| Cognition.RecordOrderExactly | backend/cognition_binding/cognition_canonicalizer.py:45-46 | Records are ordered by category, entity, type and status. |
| Cognition.PipelineSucceedsExactly | backend/cognition_binding/cognition_projection.py:35-50 | The pipeline succeeds exactly when every insight has a key that stripping does not empty. |
| Cognition.RecordIsDescribed | backend/cognition_binding/cognition_canonicalizer.py:30-44 | The record of an insight, column by column. |
| Cognition.EventsAreOfInsights | backend/cognition_binding/cognition_canonicalizer.py:50-63 | The events are those of the insights, each as often as it occurs, column by column. |
| Cognition.OutputIsSortedAndOneToOne | backend/cognition_binding/cognition_canonicalizer.py:44-47 | The output is sorted and holds one record per input item. |
| Cognition.PatternOrderIsForgotten | backend/cognition_binding/cognition_canonicalizer.py:39-41 | The order of marketplace_patterns never shows. |
| Cognition.CanonicalFormForgetsOrder | backend/cognition_binding/cognition_canonicalizer.py:21-47 | Reordering items, and patterns inside them, is accepted alike and gives the same tuple whenever tied records are equal. |
| Cognition.OrderIsForgottenExactly | backend/cognition_binding/cognition_canonicalizer.py:45-46 | For every accepted list, all reorderings give the same form exactly when tied records are equal. |
| Cognition.EventsForgetOrder | backend/cognition_binding/cognition_canonicalizer.py:50-63 | Reordered insights give the same list of events, one per insight. |
| Cognition.PipelineForgetsOrder | backend/cognition_binding/cognition_projection.py:49-50 | Projection, canonical form and events together forget the order of the insights. |

## Left out

- Texts: notes, labels, titles, narratives, dependency lists and confidence scores of the posture stages are lookups and clamps with no effect on a state.
- Single-insight classifiers and simulation: finite branch tables.
- Floats: scores, weights and rates are reals; rounding error is not modelled, except the density's rounding to three places, which is.
- Clocks and identifiers: `now`, generated ids and claim times are parameters.
- ExecutionProtocol.StepKeepsInv: the live connection, credential, capability and guard checks before a resume, the recomputed fingerprint of a resolution, and the operation a resumed revert belongs to are parameters, because they read tables and services outside this model; a resume is allowed whenever these say so.
- ExecutionProtocol: candidate selection, batching, locks and dry-run switches of the sweeps only decide which steps are attempted, and every attempt is allowed; retries that return a stored result take no step; the lookup that stops a request whose identity has a row under a legacy key only removes claims, and every claim is allowed.
- Relational: users, credentials (which only keep their connection from being deleted), and the import, listing, operation, pricing, review and snapshot tables that also reference cabinets, stores or products; each of those cascades or is set NULL, so none changes which deletes of cabinets, stores, products and policies are accepted.
- CabinetSchema.RowIsIsolated: a store-evidence row's account against its parent observation's is not claimed, because no key ties them.
- CabinetSchema: CHECKs on money, currency, proof status and validity of observations, currency and name formats of costs, and column lengths; they read one row and no key.
- RateLimit: the identity taken from a token or an address is any string; the lock makes a hit one step.
- Csrf: normalization of origins and referers by the URL library.
- FocusEngine.ComputeFocus: the stable flag (which reads a clock), the focus id hash, and the linked scenarios and chains, which filter lists by category.
- Cognition: removal of uuid tokens is an arbitrary function; items that are not dictionaries.
- The durable authentication throttle, HTTP, scheduling, the frontend and the diagnosis engines' tables.
