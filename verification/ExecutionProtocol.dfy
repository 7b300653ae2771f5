/**
 The claim, dispatch and recovery protocol as a transition system: any interleaving of workers,
 the re-own sweep, the reconciliation sweep and operator actions on the shared tables.
 */
module ExecutionProtocol {
  import opened Common
  import opened ExecutionLog

  type WorkerId = nat

  /** What a worker holds between its own database statements. */
  datatype Phase =
    | Idle
    | Claimed(log: LogId, gen: int, revertOf: Option<LogId>)  // claim committed, owned generation captured
    | Ready(log: LogId, gen: int, revertOf: Option<LogId>)    // in_flight committed, provider not called
    | Sent(log: LogId, gen: int, revertOf: Option<LogId>)     // provider called, terminal write pending

  /** A provider call, with the operation it was made for and the generation its caller owned. */
  datatype Dispatch = Dispatch(log: LogId, user: UserId, key: Option<string>, gen: int)
  datatype Transfer = Transfer(log: LogId, at: int)

  /** dispatches and transfers are histories: everything that ever happened, in order. */
  datatype State = State(
    rows: Rows, audits: seq<Audit>, workers: map<WorkerId, Phase>,
    dispatches: seq<Dispatch>, transfers: seq<Transfer>)

  datatype Step =
    | Claim(w: WorkerId, id: LogId, user: UserId, key: string, fp: string, revertOf: Option<LogId>, now: int)
    | Reject(id: LogId, user: UserId, now: int)
    | FailBeforeDispatch(w: WorkerId)
    | Fence(w: WorkerId, now: int)
    | Send(w: WorkerId)
    | Finish(w: WorkerId, outcome: Status)
    | Crash(w: WorkerId)
    | Reown(id: LogId, user: UserId, gen: int, key: string, fp: string, now: int)
    | Reconcile(id: LogId, verdict: Verdict, seen: int, now: int)
    | Resolve(id: LogId, tenant: UserId, action: Action, actor: string, corr: string, reason: string,
              verified: bool, now: int)
    | Resume(w: WorkerId, id: LogId, tenant: UserId, actor: string, corr: string, admitted: bool,
             revertOf: Option<LogId>, now: int)

  const INITIAL := State(map[], [], map[], [], [])

  function PhaseOf(s: State, w: WorkerId): Phase {
    if w in s.workers then s.workers[w] else Idle
  }

  function WithRow(s: State, id: LogId, row: Row): State {
    s.(rows := s.rows[id := row])
  }

  function WithPhase(s: State, w: WorkerId, p: Phase): State {
    s.(workers := s.workers[w := p])
  }

  /** The terminal write of a worker whose provider call returned. */
  function Finished(rows: Rows, id: LogId, outcome: Status, revertOf: Option<LogId>): Rows
    requires id in rows
  {
    if outcome == Success && revertOf.Some? then
      var inverse := rows[id := rows[id].(status := Success, revertedFrom := revertOf)];
      var original := revertOf.value;
      if original in inverse && inverse[original].user == rows[id].user && inverse[original].status == Success
      then inverse[original := inverse[original].(status := Reverted)]
      else inverse
    else rows[id := rows[id].(status := outcome)]
  }

  // One function per step. A step whose guard fails, or whose statement hits no row, leaves the tables alone.

  function AfterClaim(s: State, w: WorkerId, id: LogId, user: UserId, key: string, fp: string,
                      revertOf: Option<LogId>, now: int): State {
    if PhaseOf(s, w) == Idle && id !in s.rows && IsV1Key(key) && ClaimFree(s.rows, user, key)
    then WithPhase(WithRow(s, id, NewRow(user, Some(key), Some(fp), Pending, now)), w, Claimed(id, 0, revertOf))
    else s
  }

  function AfterReject(s: State, id: LogId, user: UserId, now: int): State {
    if id !in s.rows then WithRow(s, id, NewRow(user, None, None, Rejected, now)) else s
  }

  /** A credential or token failure; the write names the row by id only. */
  function AfterFailure(s: State, w: WorkerId): State {
    var p := PhaseOf(s, w);
    if p.Claimed? && p.log in s.rows
    then WithPhase(WithRow(s, p.log, s.rows[p.log].(status := Failed)), w, Idle)
    else s
  }

  function AfterFence(s: State, w: WorkerId, now: int): State {
    var p := PhaseOf(s, w);
    if p.Claimed? && p.log in s.rows then
      if FenceHits(s.rows[p.log], p.gen)
      then WithPhase(WithRow(s, p.log, Fenced(s.rows[p.log], now)), w, Ready(p.log, p.gen, p.revertOf))
      else WithPhase(s, w, Idle)
    else s
  }

  function AfterSend(s: State, w: WorkerId): State {
    var p := PhaseOf(s, w);
    if p.Ready? && p.log in s.rows
    then WithPhase(
           s.(dispatches := s.dispatches + [Dispatch(p.log, s.rows[p.log].user, s.rows[p.log].key, p.gen)]),
           w, Sent(p.log, p.gen, p.revertOf))
    else s
  }

  function AfterFinish(s: State, w: WorkerId, outcome: Status): State {
    var p := PhaseOf(s, w);
    if p.Sent? && p.log in s.rows && (outcome == Success || outcome == Failed || outcome == Ambiguous)
    then WithPhase(s.(rows := Finished(s.rows, p.log, outcome, p.revertOf)), w, Idle)
    else s
  }

  /** The sweep validates key and fingerprint before it runs its update. */
  function AfterReown(cfg: Settings, s: State, id: LogId, user: UserId, gen: int, key: string, fp: string,
                      now: int): State {
    if IsV1Key(key) && IsFingerprint(fp) && id in s.rows && ReownHits(cfg, s.rows[id], user, gen, key, fp, now)
    then WithRow(s, id, Reowned(s.rows[id], now)).(transfers := s.transfers + [Transfer(id, now)])
    else s
  }

  function AfterReconcile(cfg: Settings, s: State, id: LogId, verdict: Verdict, seen: int, now: int): State {
    if id in s.rows && ReconcileHits(s.rows[id])
    then WithRow(s, id, Reconciled(cfg, s.rows[id], verdict, seen, now))
    else s
  }

  function AfterResolve(s: State, id: LogId, tenant: UserId, action: Action, actor: string, corr: string,
                        reason: string, verified: bool, now: int): State {
    if && id in s.rows && ResolveAllowed(s.rows[id], tenant, action, reason, verified)
       && !CorrelationUsed(s.audits, corr)
    then WithRow(s, id, WithResolution(s.rows[id], action, actor, now))
         .(audits := s.audits + [AuditOf(id, s.rows[id], action, actor, reason, corr, now)])
    else s
  }

  /** admitted: the live connection, credential, capability, guard and automation checks pass. */
  function AfterResume(cfg: Settings, s: State, w: WorkerId, id: LogId, tenant: UserId, actor: string, corr: string,
                       admitted: bool, revertOf: Option<LogId>, now: int): State {
    if && PhaseOf(s, w) == Idle && admitted && !CorrelationUsed(s.audits, corr)
       && id in s.rows && ResumeEligible(cfg, s.rows[id], tenant)
       && ResumeHits(cfg, s.rows[id], tenant, s.rows[id].generation, s.rows[id].key, s.rows[id].fingerprint)
    then WithPhase(
           WithRow(s, id, Resumed(s.rows[id], actor, now)).(audits := s.audits
             + [AuditOf(id, s.rows[id], AuthorizeRetry, actor, "operator_authorized_retry", corr, now)]),
           w, Ready(id, s.rows[id].generation, revertOf))
    else s
  }

  function Next(cfg: Settings, s: State, step: Step): State {
    match step
    case Claim(w, id, user, key, fp, revertOf, now) => AfterClaim(s, w, id, user, key, fp, revertOf, now)
    case Reject(id, user, now) => AfterReject(s, id, user, now)
    case FailBeforeDispatch(w) => AfterFailure(s, w)
    case Fence(w, now) => AfterFence(s, w, now)
    case Send(w) => AfterSend(s, w)
    case Finish(w, outcome) => AfterFinish(s, w, outcome)
    case Crash(w) => WithPhase(s, w, Idle)
    case Reown(id, user, gen, key, fp, now) => AfterReown(cfg, s, id, user, gen, key, fp, now)
    case Reconcile(id, verdict, seen, now) => AfterReconcile(cfg, s, id, verdict, seen, now)
    case Resolve(id, tenant, action, actor, corr, reason, verified, now) =>
      AfterResolve(s, id, tenant, action, actor, corr, reason, verified, now)
    case Resume(w, id, tenant, actor, corr, admitted, revertOf, now) =>
      AfterResume(cfg, s, w, id, tenant, actor, corr, admitted, revertOf, now)
  }

  function Run(cfg: Settings, s: State, steps: seq<Step>): State
    decreases |steps|
  {
    if steps == [] then s else Run(cfg, Next(cfg, s, steps[0]), steps[1..])
  }

  // ---- what every reachable state satisfies ---------------------------------------------

  /** The provider may have been called for this row. */
  predicate Started(row: Row) {
    row.dispatchStartedAt.Some?
  }

  /**
   Rows of legacy keys, and rows older than the attempt counter, are allowed: only rows inside the
   claim index are known to have started exactly when they left pending.
   */
  ghost predicate RowOk(cfg: Settings, row: Row) {
    && 0 <= row.attempts <= 1
    && (row.attempts == 1 ==> Started(row))
    && (IsIndexed(row) && row.status == Pending ==> !Started(row))
    && (IsIndexed(row) && row.status == InFlight ==> Started(row))
    && 0 <= row.generation == row.reowns <= cfg.maxReowns
    && (row.resolution == Some(RetryAuthorized) ==> IsIndexed(row) && Started(row))
  }

  ghost predicate RowsOk(cfg: Settings, rows: Rows) {
    forall id :: id in rows ==> RowOk(cfg, rows[id])
  }

  ghost predicate ClaimsUnique(rows: Rows) {
    forall a, b :: a in rows && b in rows && a != b ==> !SameClaim(rows[a], rows[b])
  }

  ghost predicate WorkerOk(rows: Rows, dispatches: seq<Dispatch>, p: Phase) {
    match p
    case Idle => true
    case Claimed(id, gen, _) => id in rows && IsIndexed(rows[id]) && gen <= rows[id].generation
    case Ready(id, gen, _) =>
      && id in rows && IsIndexed(rows[id]) && Started(rows[id]) && rows[id].generation == gen
      && IsOpen(rows[id].status)
      && forall k :: 0 <= k < |dispatches| ==> dispatches[k].log != id
    case Sent(id, _, _) => id in rows && Started(rows[id]) && IsOpen(rows[id].status)
  }

  /** No outcome is recorded yet; an unguarded failure write may still have landed on the row. */
  predicate IsOpen(status: Status) {
    status == InFlight || status == Failed
  }

  predicate Owns(p: Phase, id: LogId) {
    (p.Ready? || p.Sent?) && p.log == id
  }

  ghost predicate NobodyOwns(workers: map<WorkerId, Phase>, id: LogId) {
    forall w :: w in workers ==> !Owns(workers[w], id)
  }

  /** At most one worker is between winning the right to call the provider and recording the outcome. */
  ghost predicate WorkersOk(rows: Rows, dispatches: seq<Dispatch>, workers: map<WorkerId, Phase>) {
    && (forall w :: w in workers ==> WorkerOk(rows, dispatches, workers[w]))
    && (forall v, w :: v in workers && w in workers && v != w && !workers[v].Idle?
          ==> !(Owns(workers[v], workers[v].log) && Owns(workers[w], workers[v].log)))
  }

  ghost predicate DispatchOk(rows: Rows, d: Dispatch) {
    && d.log in rows && IsIndexed(rows[d.log]) && rows[d.log].key == d.key && rows[d.log].user == d.user
    && Started(rows[d.log]) && rows[d.log].generation == d.gen
  }

  ghost predicate DispatchesOk(rows: Rows, dispatches: seq<Dispatch>) {
    && (forall k :: 0 <= k < |dispatches| ==> DispatchOk(rows, dispatches[k]))
    && (forall i, j :: 0 <= i < j < |dispatches| ==> dispatches[i].log != dispatches[j].log)
  }

  function Of(id: LogId): Transfer -> nat {
    (t: Transfer) => if t.log == id then 1 else 0
  }

  ghost predicate TransfersOk(cfg: Settings, rows: Rows, transfers: seq<Transfer>) {
    && (forall k :: 0 <= k < |transfers| ==>
          var t := transfers[k];
          t.log in rows && rows[t.log].lastReownedAt.Some? && t.at <= rows[t.log].lastReownedAt.value)
    && (forall i, j :: 0 <= i < j < |transfers| && transfers[i].log == transfers[j].log
          ==> transfers[i].at + cfg.reownStale < transfers[j].at)
    && (forall id :: id in rows ==> Total(transfers, Of(id)) == rows[id].reowns)
  }

  /** The resolution an audit trail ends in, for one operation. */
  function LastResolution(audits: seq<Audit>, id: LogId): Option<Resolution> {
    if audits == [] then None
    else if audits[|audits| - 1].log == id then Some(audits[|audits| - 1].newResolution)
    else LastResolution(audits[..|audits| - 1], id)
  }

  ghost predicate AuditOk(rows: Rows, a: Audit) {
    && a.log in rows && a.newResolution == ResolutionOf(a.action)
    && (a.action == AuthorizeRetry ==> IsIndexed(rows[a.log]) && Started(rows[a.log]))
  }

  ghost predicate AuditsOk(rows: Rows, audits: seq<Audit>) {
    && (forall k :: 0 <= k < |audits| ==> AuditOk(rows, audits[k]))
    && (forall i, j :: 0 <= i < j < |audits| ==> audits[i].correlation != audits[j].correlation)
    && (forall i, j :: 0 <= i < j < |audits| && audits[i].action == AuthorizeRetry && audits[j].action == AuthorizeRetry
          ==> audits[i].log != audits[j].log)
    && (forall id :: id in rows ==> rows[id].resolution == LastResolution(audits, id))
  }

  ghost predicate Inv(cfg: Settings, s: State) {
    && RowsOk(cfg, s.rows) && ClaimsUnique(s.rows)
    && WorkersOk(s.rows, s.dispatches, s.workers)
    && DispatchesOk(s.rows, s.dispatches)
    && TransfersOk(cfg, s.rows, s.transfers)
    && AuditsOk(s.rows, s.audits)
  }

  // ---- each kind of change keeps the invariant ------------------------------------------

  /** Identity never changes, and a row that was dispatched keeps its attempt and generation. */
  ghost predicate Evolves(before: Row, after: Row) {
    && after.user == before.user && after.key == before.key
    && before.attempts <= after.attempts && before.generation <= after.generation
    && (Started(before) ==> Started(after) && after.generation == before.generation)
  }

  lemma EvolvingKeepsClaims(rows: Rows, id: LogId, row: Row)
    requires ClaimsUnique(rows) && id in rows && Evolves(rows[id], row)
    ensures ClaimsUnique(rows[id := row])
  {
    forall a, b | a in rows && b in rows && a != b ensures !SameClaim(rows[id := row][a], rows[id := row][b]) {
      assert !SameClaim(rows[a], rows[b]);
    }
  }

  lemma EvolvingKeepsDispatches(rows: Rows, dispatches: seq<Dispatch>, id: LogId, row: Row)
    requires DispatchesOk(rows, dispatches) && id in rows && Evolves(rows[id], row)
    ensures DispatchesOk(rows[id := row], dispatches)
  {
    forall k | 0 <= k < |dispatches| ensures DispatchOk(rows[id := row], dispatches[k]) {
      assert DispatchOk(rows, dispatches[k]);
    }
  }

  lemma EvolvingKeepsWorkers(rows: Rows, dispatches: seq<Dispatch>, workers: map<WorkerId, Phase>, id: LogId, row: Row)
    requires WorkersOk(rows, dispatches, workers) && id in rows && Evolves(rows[id], row)
    requires row.status == rows[id].status || IsOpen(row.status) || NobodyOwns(workers, id)
    ensures WorkersOk(rows[id := row], dispatches, workers)
  {
    forall w | w in workers ensures WorkerOk(rows[id := row], dispatches, workers[w]) {
      assert WorkerOk(rows, dispatches, workers[w]);
    }
  }

  lemma EvolvingKeepsAudits(rows: Rows, audits: seq<Audit>, id: LogId, row: Row)
    requires AuditsOk(rows, audits) && id in rows && Evolves(rows[id], row)
    requires row.resolution == rows[id].resolution
    ensures AuditsOk(rows[id := row], audits)
  {
    forall k | 0 <= k < |audits| ensures AuditOk(rows[id := row], audits[k]) {
      assert AuditOk(rows, audits[k]);
    }
  }

  lemma UpdateKeepsInv(cfg: Settings, s: State, id: LogId, row: Row)
    requires Inv(cfg, s) && id in s.rows
    requires Evolves(s.rows[id], row) && RowOk(cfg, row) && row.resolution == s.rows[id].resolution
    requires row.reowns == s.rows[id].reowns && row.lastReownedAt == s.rows[id].lastReownedAt
    requires row.status == s.rows[id].status || IsOpen(row.status) || NobodyOwns(s.workers, id)
    ensures Inv(cfg, WithRow(s, id, row))
  {
    EvolvingKeepsClaims(s.rows, id, row);
    EvolvingKeepsDispatches(s.rows, s.dispatches, id, row);
    EvolvingKeepsWorkers(s.rows, s.dispatches, s.workers, id, row);
    EvolvingKeepsAudits(s.rows, s.audits, id, row);
  }

  lemma RetiringKeepsInv(cfg: Settings, s: State, w: WorkerId)
    requires Inv(cfg, s)
    ensures Inv(cfg, WithPhase(s, w, Idle))
  {
  }

  lemma {:induction false} NoTransfers(transfers: seq<Transfer>, id: LogId)
    requires forall k :: 0 <= k < |transfers| ==> transfers[k].log != id
    ensures Total(transfers, Of(id)) == 0
  {
    if transfers != [] {
      NoTransfers(transfers[1..], id);
    }
  }

  lemma {:induction false} NoResolution(audits: seq<Audit>, id: LogId)
    requires forall k :: 0 <= k < |audits| ==> audits[k].log != id
    ensures LastResolution(audits, id) == None
  {
    if audits != [] {
      NoResolution(audits[..|audits| - 1], id);
    }
  }

  lemma InsertKeepsAudits(rows: Rows, audits: seq<Audit>, id: LogId, row: Row)
    requires AuditsOk(rows, audits) && id !in rows && row.resolution == None
    ensures AuditsOk(rows[id := row], audits)
  {
    forall k | 0 <= k < |audits| ensures AuditOk(rows[id := row], audits[k]) && audits[k].log != id {
      assert AuditOk(rows, audits[k]);
    }
    NoResolution(audits, id);
  }

  lemma InsertKeepsTransfers(cfg: Settings, rows: Rows, transfers: seq<Transfer>, id: LogId, row: Row)
    requires TransfersOk(cfg, rows, transfers) && id !in rows && row.reowns == 0
    ensures TransfersOk(cfg, rows[id := row], transfers)
  {
    NoTransfers(transfers, id);
  }

  lemma InsertKeepsWorkers(s: State, id: LogId, row: Row)
    requires WorkersOk(s.rows, s.dispatches, s.workers) && DispatchesOk(s.rows, s.dispatches) && id !in s.rows
    ensures WorkersOk(s.rows[id := row], s.dispatches, s.workers) && DispatchesOk(s.rows[id := row], s.dispatches)
  {
    forall w | w in s.workers ensures WorkerOk(s.rows[id := row], s.dispatches, s.workers[w]) {
      assert WorkerOk(s.rows, s.dispatches, s.workers[w]);
    }
    forall k | 0 <= k < |s.dispatches| ensures DispatchOk(s.rows[id := row], s.dispatches[k]) {
      assert DispatchOk(s.rows, s.dispatches[k]);
    }
  }

  lemma InsertKeepsInv(cfg: Settings, s: State, id: LogId, row: Row)
    requires Inv(cfg, s) && id !in s.rows
    requires RowOk(cfg, row) && row.reowns == 0 && row.resolution == None
    requires forall a :: a in s.rows ==> !SameClaim(s.rows[a], row)
    ensures Inv(cfg, WithRow(s, id, row))
  {
    InsertKeepsTransfers(cfg, s.rows, s.transfers, id, row);
    InsertKeepsAudits(s.rows, s.audits, id, row);
    InsertKeepsWorkers(s, id, row);
  }

  /** A row that has not started has no owner and was never sent. */
  lemma UnstartedIsUnowned(rows: Rows, dispatches: seq<Dispatch>, workers: map<WorkerId, Phase>, id: LogId)
    requires WorkersOk(rows, dispatches, workers) && DispatchesOk(rows, dispatches)
    requires id in rows && !Started(rows[id])
    ensures NobodyOwns(workers, id)
    ensures forall k :: 0 <= k < |dispatches| ==> dispatches[k].log != id
  {
    forall k | 0 <= k < |dispatches| ensures dispatches[k].log != id {
      assert DispatchOk(rows, dispatches[k]);
    }
    forall v | v in workers ensures !Owns(workers[v], id) {
      assert WorkerOk(rows, dispatches, workers[v]);
    }
  }

  lemma OwningKeepsInv(cfg: Settings, s: State, w: WorkerId, p: Phase)
    requires Inv(cfg, s) && p.Ready? && WorkerOk(s.rows, s.dispatches, p) && NobodyOwns(s.workers, p.log)
    ensures Inv(cfg, WithPhase(s, w, p))
  {
  }

  /** The one transition that gives a worker the right to call the provider. */
  lemma FencingKeepsInv(cfg: Settings, s: State, w: WorkerId, now: int, p: Phase)
    requires Inv(cfg, s)
    requires p.Ready? && p.log in s.rows && IsIndexed(s.rows[p.log])
    requires FenceHits(s.rows[p.log], p.gen)
    ensures Inv(cfg, WithPhase(WithRow(s, p.log, Fenced(s.rows[p.log], now)), w, p))
  {
    assert RowOk(cfg, s.rows[p.log]);
    UnstartedIsUnowned(s.rows, s.dispatches, s.workers, p.log);
    UpdateKeepsInv(cfg, s, p.log, Fenced(s.rows[p.log], now));
    OwningKeepsInv(cfg, WithRow(s, p.log, Fenced(s.rows[p.log], now)), w, p);
  }

  lemma SendingKeepsInv(cfg: Settings, s: State, w: WorkerId)
    requires Inv(cfg, s)
    ensures Inv(cfg, AfterSend(s, w))
  {
    var p, t := PhaseOf(s, w), AfterSend(s, w);
    if p.Ready? {
      assert WorkerOk(s.rows, s.dispatches, p);
      forall v | v in t.workers ensures WorkerOk(t.rows, t.dispatches, t.workers[v]) {
        if v != w {
          assert WorkerOk(s.rows, s.dispatches, s.workers[v]);
        }
      }
      assert DispatchOk(t.rows, t.dispatches[|s.dispatches|]);
    }
  }

  lemma ReowningKeepsInv(cfg: Settings, s: State, id: LogId, now: int)
    requires SettingsOk(cfg) && Inv(cfg, s) && id in s.rows
    requires s.rows[id].status == Pending && !Started(s.rows[id])
    requires s.rows[id].reowns < cfg.maxReowns && IsStale(cfg, s.rows[id], now)
    ensures Inv(cfg, WithRow(s, id, Reowned(s.rows[id], now)).(transfers := s.transfers + [Transfer(id, now)]))
  {
    var row := Reowned(s.rows[id], now);
    assert RowOk(cfg, s.rows[id]);
    EvolvingKeepsClaims(s.rows, id, row);
    EvolvingKeepsDispatches(s.rows, s.dispatches, id, row);
    EvolvingKeepsWorkers(s.rows, s.dispatches, s.workers, id, row);
    EvolvingKeepsAudits(s.rows, s.audits, id, row);
    TransferringKeepsSpacing(cfg, s.rows, s.transfers, id, now);
  }

  lemma TransferringKeepsSpacing(cfg: Settings, rows: Rows, transfers: seq<Transfer>, id: LogId, now: int)
    requires RowsOk(cfg, rows) && TransfersOk(cfg, rows, transfers)
    requires id in rows && IsStale(cfg, rows[id], now) && SettingsOk(cfg)
    ensures TransfersOk(cfg, rows[id := Reowned(rows[id], now)], transfers + [Transfer(id, now)])
  {
    var after, longer := rows[id := Reowned(rows[id], now)], transfers + [Transfer(id, now)];
    forall a | a in after ensures Total(longer, Of(a)) == after[a].reowns {
      TotalOfConcat(transfers, [Transfer(id, now)], Of(a));
      assert [Transfer(id, now)][1..] == [];
    }
  }

  predicate SameClaimAndStart(a: Row, b: Row) {
    a.user == b.user && a.key == b.key && a.dispatchStartedAt == b.dispatchStartedAt
  }

  lemma AuditingKeepsTrail(rows: Rows, audits: seq<Audit>, id: LogId, row: Row, audit: Audit)
    requires AuditsOk(rows, audits) && id in rows && SameClaimAndStart(row, rows[id])
    requires audit.log == id && audit.newResolution == ResolutionOf(audit.action)
    requires row.resolution == Some(audit.newResolution)
    requires !CorrelationUsed(audits, audit.correlation)
    requires audit.action == AuthorizeRetry ==> IsIndexed(row) && Started(row) && NotAuthorized(audits, id)
    ensures AuditsOk(rows[id := row], audits + [audit])
  {
    var after, longer := rows[id := row], audits + [audit];
    forall a | a in after ensures after[a].resolution == LastResolution(longer, a) {
      assert longer[..|longer| - 1] == audits;
    }
    forall k | 0 <= k < |longer| ensures AuditOk(after, longer[k]) {
      if k < |audits| {
        assert AuditOk(rows, audits[k]);
      }
    }
    forall k | 0 <= k < |audits| ensures audits[k].correlation != audit.correlation {
      assert audits[k] in audits;
    }
  }

  predicate NotAuthorized(audits: seq<Audit>, id: LogId) {
    forall k :: 0 <= k < |audits| && audits[k].action == AuthorizeRetry ==> audits[k].log != id
  }

  lemma AuditingKeepsInv(cfg: Settings, s: State, id: LogId, action: Action, audit: Audit, actor: string, now: int)
    requires Inv(cfg, s) && id in s.rows
    requires audit.log == id && audit.action == action && audit.newResolution == ResolutionOf(action)
    requires !CorrelationUsed(s.audits, audit.correlation)
    requires action == AuthorizeRetry ==>
      IsIndexed(s.rows[id]) && Started(s.rows[id]) && NotAuthorized(s.audits, id)
    ensures Inv(cfg, WithRow(s, id, WithResolution(s.rows[id], action, actor, now)).(audits := s.audits + [audit]))
  {
    var row := WithResolution(s.rows[id], action, actor, now);
    assert RowOk(cfg, s.rows[id]);
    EvolvingKeepsClaims(s.rows, id, row);
    EvolvingKeepsDispatches(s.rows, s.dispatches, id, row);
    EvolvingKeepsWorkers(s.rows, s.dispatches, s.workers, id, row);
    AuditingKeepsTrail(s.rows, s.audits, id, row, audit);
  }

  lemma OutcomeKeepsInv(cfg: Settings, s: State, id: LogId, row: Row)
    requires Inv(cfg, s) && id in s.rows && NobodyOwns(s.workers, id)
    requires Started(s.rows[id]) && row.status != Pending
    requires row == s.rows[id].(status := row.status, revertedFrom := row.revertedFrom)
    ensures Inv(cfg, WithRow(s, id, row))
  {
    assert RowOk(cfg, s.rows[id]);
    UpdateKeepsInv(cfg, s, id, row);
  }

  lemma FinishingKeepsInv(cfg: Settings, s: State, w: WorkerId, outcome: Status)
    requires Inv(cfg, s)
    ensures Inv(cfg, AfterFinish(s, w, outcome))
  {
    var p := PhaseOf(s, w);
    if p.Sent? && p.log in s.rows && (outcome == Success || outcome == Failed || outcome == Ambiguous) {
      assert WorkerOk(s.rows, s.dispatches, p);
      var r := WithPhase(s, w, Idle);
      RetiringKeepsInv(cfg, s, w);
      assert NobodyOwns(r.workers, p.log) by {
        assert Owns(s.workers[w], p.log);
      }
      if outcome == Success && p.revertOf.Some? {
        var inverse := s.rows[p.log].(status := Success, revertedFrom := p.revertOf);
        OutcomeKeepsInv(cfg, r, p.log, inverse);
        var t := WithRow(r, p.log, inverse);
        var original := p.revertOf.value;
        if original in t.rows && t.rows[original].user == s.rows[p.log].user && t.rows[original].status == Success {
          RevertingKeepsInv(cfg, t, original);
        }
      } else {
        OutcomeKeepsInv(cfg, r, p.log, s.rows[p.log].(status := outcome));
      }
    }
  }

  lemma RevertingKeepsInv(cfg: Settings, s: State, id: LogId)
    requires Inv(cfg, s) && id in s.rows && s.rows[id].status == Success
    ensures Inv(cfg, WithRow(s, id, s.rows[id].(status := Reverted)))
  {
    assert RowOk(cfg, s.rows[id]);
    forall w | w in s.workers ensures !Owns(s.workers[w], id) {
      assert WorkerOk(s.rows, s.dispatches, s.workers[w]);
    }
    UpdateKeepsInv(cfg, s, id, s.rows[id].(status := Reverted));
  }

  lemma ClaimKeepsInv(cfg: Settings, s: State, w: WorkerId, id: LogId, row: Row, p: Phase)
    requires SettingsOk(cfg) && Inv(cfg, s) && id !in s.rows
    requires RowOk(cfg, row) && row.reowns == 0 && row.resolution == None && IsIndexed(row)
    requires ClaimFree(s.rows, row.user, row.key.value)
    requires p.Claimed? && p.log == id && p.gen == row.generation
    ensures Inv(cfg, WithPhase(WithRow(s, id, row), w, p))
  {
    forall a | a in s.rows ensures !SameClaim(s.rows[a], row) {
    }
    InsertKeepsInv(cfg, s, id, row);
  }

  lemma NewClaimIsOk(cfg: Settings, user: UserId, key: string, fp: string, now: int)
    requires SettingsOk(cfg) && "v1:" <= key
    ensures RowOk(cfg, NewRow(user, Some(key), Some(fp), Pending, now))
  {
  }

  function WithAudit(s: State, id: LogId, action: Action, audit: Audit, actor: string, now: int): State
    requires id in s.rows
  {
    WithRow(s, id, WithResolution(s.rows[id], action, actor, now)).(audits := s.audits + [audit])
  }

  lemma ResumeIsFenceThenAudit(s: State, w: WorkerId, id: LogId, p: Phase, audit: Audit, actor: string, now: int)
    requires id in s.rows
    ensures WithPhase(WithRow(s, id, Resumed(s.rows[id], actor, now)).(audits := s.audits + [audit]), w, p)
      == WithAudit(WithPhase(WithRow(s, id, Fenced(s.rows[id], now)), w, p), id, AuthorizeRetry, audit, actor, now)
  {
    var row := s.rows[id];
    assert s.rows[id := Fenced(row, now)][id := Resumed(row, actor, now)] == s.rows[id := Resumed(row, actor, now)];
  }

  lemma AuditFencedKeepsInv(cfg: Settings, t: State, id: LogId, audit: Audit, actor: string, now: int)
    requires Inv(cfg, t) && id in t.rows && IsIndexed(t.rows[id]) && Started(t.rows[id]) && NotAuthorized(t.audits, id)
    requires audit.log == id && audit.action == AuthorizeRetry && audit.newResolution == RetryAuthorized
    requires !CorrelationUsed(t.audits, audit.correlation)
    ensures Inv(cfg, WithAudit(t, id, AuthorizeRetry, audit, actor, now))
  {
    AuditingKeepsInv(cfg, t, id, AuthorizeRetry, audit, actor, now);
  }

  /** A resume is a fencing followed by the authorization audit, in one step. */
  lemma ResumeKeepsInv(cfg: Settings, s: State, w: WorkerId, id: LogId, p: Phase, audit: Audit, actor: string, now: int)
    requires Inv(cfg, s) && id in s.rows && !CorrelationUsed(s.audits, audit.correlation)
    requires IsIndexed(s.rows[id]) && FenceHits(s.rows[id], s.rows[id].generation)
    requires p.Ready? && p.log == id && p.gen == s.rows[id].generation
    requires audit.log == id && audit.action == AuthorizeRetry && audit.newResolution == RetryAuthorized
    ensures Inv(cfg, WithPhase(WithRow(s, id, Resumed(s.rows[id], actor, now)).(audits := s.audits + [audit]), w, p))
  {
    FencingKeepsInv(cfg, s, w, now, p);
    NotYetAuthorized(cfg, s, id);
    AuditFencedKeepsInv(cfg, WithPhase(WithRow(s, id, Fenced(s.rows[id], now)), w, p), id, audit, actor, now);
    ResumeIsFenceThenAudit(s, w, id, p, audit, actor, now);
  }

  lemma NotYetAuthorized(cfg: Settings, s: State, id: LogId)
    requires Inv(cfg, s) && id in s.rows && !Started(s.rows[id])
    ensures NotAuthorized(s.audits, id)
  {
    assert RowOk(cfg, s.rows[id]);
    forall k | 0 <= k < |s.audits| && s.audits[k].action == AuthorizeRetry ensures s.audits[k].log != id {
      assert AuditOk(s.rows, s.audits[k]);
    }
  }

  lemma ClaimingKeepsInv(cfg: Settings, s: State, w: WorkerId, id: LogId, user: UserId, key: string, fp: string,
                         revertOf: Option<LogId>, now: int)
    requires SettingsOk(cfg) && Inv(cfg, s)
    ensures Inv(cfg, AfterClaim(s, w, id, user, key, fp, revertOf, now))
  {
    if AfterClaim(s, w, id, user, key, fp, revertOf, now) != s {
      ValidKeysAreIndexed(key);
      NewClaimIsOk(cfg, user, key, fp, now);
      ClaimKeepsInv(cfg, s, w, id, NewRow(user, Some(key), Some(fp), Pending, now), Claimed(id, 0, revertOf));
    }
  }

  lemma FailingKeepsInv(cfg: Settings, s: State, w: WorkerId)
    requires Inv(cfg, s)
    ensures Inv(cfg, AfterFailure(s, w))
  {
    var p := PhaseOf(s, w);
    if p.Claimed? && p.log in s.rows {
      assert RowOk(cfg, s.rows[p.log]);
      UpdateKeepsInv(cfg, s, p.log, s.rows[p.log].(status := Failed));
      RetiringKeepsInv(cfg, WithRow(s, p.log, s.rows[p.log].(status := Failed)), w);
    }
  }

  lemma FenceStepKeepsInv(cfg: Settings, s: State, w: WorkerId, now: int)
    requires Inv(cfg, s)
    ensures Inv(cfg, AfterFence(s, w, now))
  {
    var p := PhaseOf(s, w);
    if p.Claimed? && p.log in s.rows {
      assert WorkerOk(s.rows, s.dispatches, p);
      if FenceHits(s.rows[p.log], p.gen) {
        FencingKeepsInv(cfg, s, w, now, Ready(p.log, p.gen, p.revertOf));
      } else {
        RetiringKeepsInv(cfg, s, w);
      }
    }
  }

  lemma ReconcilingKeepsInv(cfg: Settings, s: State, id: LogId, verdict: Verdict, seen: int, now: int)
    requires Inv(cfg, s)
    ensures Inv(cfg, AfterReconcile(cfg, s, id, verdict, seen, now))
  {
    if id in s.rows && ReconcileHits(s.rows[id]) {
      assert RowOk(cfg, s.rows[id]);
      UpdateKeepsInv(cfg, s, id, Reconciled(cfg, s.rows[id], verdict, seen, now));
    }
  }

  lemma ReownStepKeepsInv(cfg: Settings, s: State, id: LogId, user: UserId, gen: int, key: string, fp: string, now: int)
    requires SettingsOk(cfg) && Inv(cfg, s)
    ensures Inv(cfg, AfterReown(cfg, s, id, user, gen, key, fp, now))
  {
    if AfterReown(cfg, s, id, user, gen, key, fp, now) != s {
      ReowningKeepsInv(cfg, s, id, now);
    }
  }

  lemma RejectingKeepsInv(cfg: Settings, s: State, id: LogId, user: UserId, now: int)
    requires SettingsOk(cfg) && Inv(cfg, s)
    ensures Inv(cfg, AfterReject(s, id, user, now))
  {
    if id !in s.rows {
      InsertKeepsInv(cfg, s, id, NewRow(user, None, None, Rejected, now));
    }
  }

  lemma ResumingKeepsInv(cfg: Settings, s: State, w: WorkerId, id: LogId, tenant: UserId, actor: string, corr: string,
                         admitted: bool, revertOf: Option<LogId>, now: int)
    requires Inv(cfg, s)
    ensures Inv(cfg, AfterResume(cfg, s, w, id, tenant, actor, corr, admitted, revertOf, now))
  {
    if AfterResume(cfg, s, w, id, tenant, actor, corr, admitted, revertOf, now) != s {
      var audit := AuditOf(id, s.rows[id], AuthorizeRetry, actor, "operator_authorized_retry", corr, now);
      ResumeKeepsInv(cfg, s, w, id, Ready(id, s.rows[id].generation, revertOf), audit, actor, now);
    }
  }

  lemma ResolvingKeepsInv(cfg: Settings, s: State, id: LogId, tenant: UserId, action: Action, actor: string,
                          corr: string, reason: string, verified: bool, now: int)
    requires Inv(cfg, s)
    ensures Inv(cfg, AfterResolve(s, id, tenant, action, actor, corr, reason, verified, now))
  {
    if id in s.rows && ResolveAllowed(s.rows[id], tenant, action, reason, verified)
       && !CorrelationUsed(s.audits, corr) {
      AuditingKeepsInv(cfg, s, id, action, AuditOf(id, s.rows[id], action, actor, reason, corr, now), actor, now);
    }
  }

  lemma WorkerStepKeepsInv(cfg: Settings, s: State, step: Step)
    requires SettingsOk(cfg) && Inv(cfg, s)
    requires step.Claim? || step.Reject? || step.FailBeforeDispatch? || step.Fence? || step.Send? || step.Finish?
             || step.Crash?
    ensures Inv(cfg, Next(cfg, s, step))
  {
    match step
    case Claim(w, id, user, key, fp, revertOf, now) => ClaimingKeepsInv(cfg, s, w, id, user, key, fp, revertOf, now);
    case Reject(id, user, now) => RejectingKeepsInv(cfg, s, id, user, now);
    case FailBeforeDispatch(w) => FailingKeepsInv(cfg, s, w);
    case Fence(w, now) => FenceStepKeepsInv(cfg, s, w, now);
    case Send(w) => SendingKeepsInv(cfg, s, w);
    case Finish(w, outcome) => FinishingKeepsInv(cfg, s, w, outcome);
    case Crash(w) => RetiringKeepsInv(cfg, s, w);
  }

  lemma RecoveryStepKeepsInv(cfg: Settings, s: State, step: Step)
    requires SettingsOk(cfg) && Inv(cfg, s)
    requires step.Reown? || step.Reconcile? || step.Resolve? || step.Resume?
    ensures Inv(cfg, Next(cfg, s, step))
  {
    match step
    case Reown(id, user, gen, key, fp, now) => ReownStepKeepsInv(cfg, s, id, user, gen, key, fp, now);
    case Reconcile(id, verdict, seen, now) => ReconcilingKeepsInv(cfg, s, id, verdict, seen, now);
    case Resolve(id, tenant, action, actor, corr, reason, verified, now) =>
      ResolvingKeepsInv(cfg, s, id, tenant, action, actor, corr, reason, verified, now);
    case Resume(w, id, tenant, actor, corr, admitted, revertOf, now) =>
      ResumingKeepsInv(cfg, s, w, id, tenant, actor, corr, admitted, revertOf, now);
  }

  /** Every step of every actor keeps the invariant. */
  lemma StepKeepsInv(cfg: Settings, s: State, step: Step)
    requires SettingsOk(cfg) && Inv(cfg, s)
    ensures Inv(cfg, Next(cfg, s, step))
  {
    if step.Reown? || step.Reconcile? || step.Resolve? || step.Resume? {
      RecoveryStepKeepsInv(cfg, s, step);
    } else {
      WorkerStepKeepsInv(cfg, s, step);
    }
  }

  lemma {:induction false} RunKeepsInv(cfg: Settings, s: State, steps: seq<Step>)
    requires SettingsOk(cfg) && Inv(cfg, s)
    ensures Inv(cfg, Run(cfg, s, steps))
    decreases |steps|
  {
    if steps != [] {
      StepKeepsInv(cfg, s, steps[0]);
      RunKeepsInv(cfg, Next(cfg, s, steps[0]), steps[1..]);
    }
  }

  /** Any table before recovery ran on it: whatever rows it holds, legacy ones too, and nobody at work. */
  ghost predicate IsFresh(cfg: Settings, s: State) {
    && RowsOk(cfg, s.rows) && ClaimsUnique(s.rows)
    && (forall id :: id in s.rows ==> s.rows[id].reowns == 0 && s.rows[id].resolution == None)
    && s.workers == map[] && s.audits == [] && s.dispatches == [] && s.transfers == []
  }

  predicate IsClaimed(row: Row) {
    row.key.Some? && "v1:" <= row.key.value
  }

  /** A row no recovery touched: legacy keys and uncounted attempts are fine, half-dispatched claims are not. */
  predicate IsOldRow(row: Row) {
    && row.generation == 0 && row.reowns == 0 && row.resolution == None
    && (row.attempts == 0 || (row.attempts == 1 && row.dispatchStartedAt.Some?))
    && (IsClaimed(row) && row.status == Pending ==> row.dispatchStartedAt == None)
    && (IsClaimed(row) && row.status == InFlight ==> row.dispatchStartedAt.Some?)
  }

  /** Runs start on every table of such rows in which no user holds a v1 key twice, and on no other. */
  lemma FreshExactly(cfg: Settings, rows: Rows)
    requires SettingsOk(cfg)
    ensures IsFresh(cfg, State(rows, [], map[], [], [])) <==>
      && (forall id :: id in rows ==> IsOldRow(rows[id]))
      && forall a, b :: a in rows && b in rows && a != b && IsClaimed(rows[a]) && rows[a].user == rows[b].user ==>
           rows[a].key != rows[b].key
  {
  }

  /** Settings are usable exactly when the stale interval and the transfer bound are positive. */
  lemma SettingsExactly(cfg: Settings)
    ensures SettingsOk(cfg) <==> cfg.reownStale >= 1 && cfg.maxReowns >= 1
  {
  }

  lemma FreshIsInv(cfg: Settings, s: State)
    requires IsFresh(cfg, s)
    ensures Inv(cfg, s)
  {
  }

  // ---- safety over whole runs -----------------------------------------------------------

  lemma DispatchesDiffer(cfg: Settings, s: State, i: nat, j: nat)
    requires Inv(cfg, s) && i < j < |s.dispatches|
    ensures s.dispatches[i].user != s.dispatches[j].user || s.dispatches[i].key != s.dispatches[j].key
  {
    var a, b := s.dispatches[i], s.dispatches[j];
    assert DispatchOk(s.rows, a) && DispatchOk(s.rows, b);
    assert !SameClaim(s.rows[a.log], s.rows[b.log]);
  }

  /**
   In every interleaving, at most one provider call is ever made for a user's operation key,
   counting workers, operator resumes and crashed and revived claims together.
   */
  lemma AtMostOneDispatch(cfg: Settings, start: State, steps: seq<Step>, i: nat, j: nat)
    requires SettingsOk(cfg) && IsFresh(cfg, start)
    requires var s := Run(cfg, start, steps); i < j < |s.dispatches|
    ensures var s := Run(cfg, start, steps);
      s.dispatches[i].user != s.dispatches[j].user || s.dispatches[i].key != s.dispatches[j].key
  {
    FreshIsInv(cfg, start);
    RunKeepsInv(cfg, start, steps);
    DispatchesDiffer(cfg, Run(cfg, start, steps), i, j);
  }

  /** Rows are never removed, keep their identity, and their generation never decreases. */
  ghost predicate Follows(before: Rows, after: Rows) {
    forall id :: id in before ==> id in after && Evolves(before[id], after[id])
  }

  lemma WorkerStepFollows(cfg: Settings, s: State, step: Step)
    requires RowsOk(cfg, s.rows)
    requires step.Claim? || step.Reject? || step.FailBeforeDispatch? || step.Fence? || step.Send? || step.Crash?
    ensures Follows(s.rows, Next(cfg, s, step).rows)
  {
    forall id | id in s.rows ensures id in Next(cfg, s, step).rows && Evolves(s.rows[id], Next(cfg, s, step).rows[id]) {
      assert RowOk(cfg, s.rows[id]);
    }
  }

  lemma FinishFollows(s: State, w: WorkerId, outcome: Status)
    ensures Follows(s.rows, AfterFinish(s, w, outcome).rows)
  {
  }

  lemma SweepFollows(cfg: Settings, s: State, step: Step)
    requires step.Reown? || step.Reconcile?
    ensures Follows(s.rows, Next(cfg, s, step).rows)
  {
  }

  lemma ResolveFollows(cfg: Settings, s: State, step: Step)
    requires step.Resolve?
    ensures Follows(s.rows, Next(cfg, s, step).rows)
  {
  }

  lemma ResumeFollows(cfg: Settings, s: State, step: Step)
    requires step.Resume?
    ensures Follows(s.rows, Next(cfg, s, step).rows)
  {
  }

  lemma StepFollows(cfg: Settings, s: State, step: Step)
    requires RowsOk(cfg, s.rows)
    ensures Follows(s.rows, Next(cfg, s, step).rows)
  {
    if step.Finish? {
      FinishFollows(s, step.w, step.outcome);
    } else if step.Reown? || step.Reconcile? {
      SweepFollows(cfg, s, step);
    } else if step.Resolve? {
      ResolveFollows(cfg, s, step);
    } else if step.Resume? {
      ResumeFollows(cfg, s, step);
    } else {
      WorkerStepFollows(cfg, s, step);
    }
  }

  lemma StepAppends(cfg: Settings, s: State, step: Step)
    ensures s.dispatches <= Next(cfg, s, step).dispatches
    ensures s.audits <= Next(cfg, s, step).audits
  {
  }

  /**
   Once a row's generation has moved past the one a worker owns, no later step of any run makes
   a provider call on that old ownership.
   */
  lemma {:induction false} SupersededNeverDispatches(
    cfg: Settings, s: State, steps: seq<Step>, id: LogId, gen: int, k: nat)
    requires SettingsOk(cfg) && Inv(cfg, s)
    requires id in s.rows && s.rows[id].generation > gen
    requires k < |Run(cfg, s, steps).dispatches|
    ensures !(Run(cfg, s, steps).dispatches[k].log == id && Run(cfg, s, steps).dispatches[k].gen == gen)
    decreases |steps|
  {
    var last := Run(cfg, s, steps);
    RunKeepsInv(cfg, s, steps);
    RunFollows(cfg, s, steps);
    assert DispatchOk(last.rows, last.dispatches[k]);
  }

  lemma {:induction false} RunFollows(cfg: Settings, s: State, steps: seq<Step>)
    requires SettingsOk(cfg) && Inv(cfg, s)
    ensures Follows(s.rows, Run(cfg, s, steps).rows)
    ensures s.dispatches <= Run(cfg, s, steps).dispatches
    ensures s.audits <= Run(cfg, s, steps).audits
    decreases |steps|
  {
    if steps != [] {
      var next := Next(cfg, s, steps[0]);
      StepKeepsInv(cfg, s, steps[0]);
      StepFollows(cfg, s, steps[0]);
      StepAppends(cfg, s, steps[0]);
      RunFollows(cfg, next, steps[1..]);
      var last := Run(cfg, s, steps);
      forall id | id in s.rows ensures id in last.rows && Evolves(s.rows[id], last.rows[id]) {
        assert Evolves(s.rows[id], next.rows[id]);
      }
    }
  }

  /** No worker is about to call the provider for the row. */
  ghost predicate NobodyReady(workers: map<WorkerId, Phase>, id: LogId) {
    forall w :: w in workers ==> !(workers[w].Ready? && workers[w].log == id)
  }

  lemma StepNeverSendsAgain(cfg: Settings, s: State, step: Step, id: LogId)
    requires id in s.rows && Started(s.rows[id]) && NobodyReady(s.workers, id)
    ensures var t := Next(cfg, s, step);
      && NobodyReady(t.workers, id)
      && forall k :: |s.dispatches| <= k < |t.dispatches| ==> t.dispatches[k].log != id
  {
  }

  /**
   A row that has started while no worker is about to send, such as one whose worker crashed, is
   never sent by any later step of any run.
   */
  lemma {:induction false} StartedIsNeverSentAgain(cfg: Settings, s: State, steps: seq<Step>, id: LogId)
    requires SettingsOk(cfg) && Inv(cfg, s) && id in s.rows && Started(s.rows[id]) && NobodyReady(s.workers, id)
    ensures var last := Run(cfg, s, steps);
      |s.dispatches| <= |last.dispatches|
      && forall k :: |s.dispatches| <= k < |last.dispatches| ==> last.dispatches[k].log != id
    decreases |steps|
  {
    if steps != [] {
      var next := Next(cfg, s, steps[0]);
      StepKeepsInv(cfg, s, steps[0]);
      StepFollows(cfg, s, steps[0]);
      StepAppends(cfg, s, steps[0]);
      StepNeverSendsAgain(cfg, s, steps[0], id);
      assert Evolves(s.rows[id], next.rows[id]);
      StartedIsNeverSentAgain(cfg, next, steps[1..], id);
      RunFollows(cfg, next, steps[1..]);
    }
  }

  /**
   Ownership transfers over all runs: of one row there are at most maxReowns, the generation
   counts them, and any two lie more than the stale interval apart.
   */
  lemma TransfersAreBoundedAndSpaced(cfg: Settings, start: State, steps: seq<Step>, id: LogId)
    requires SettingsOk(cfg) && IsFresh(cfg, start)
    requires id in Run(cfg, start, steps).rows
    ensures var s := Run(cfg, start, steps);
      && Total(s.transfers, Of(id)) == s.rows[id].generation == s.rows[id].reowns <= cfg.maxReowns
      && forall i, j :: 0 <= i < j < |s.transfers| && s.transfers[i].log == id && s.transfers[j].log == id
           ==> s.transfers[j].at - s.transfers[i].at > cfg.reownStale
  {
    FreshIsInv(cfg, start);
    RunKeepsInv(cfg, start, steps);
    var s := Run(cfg, start, steps);
    assert RowOk(cfg, s.rows[id]);
  }

  /** The columns dispatch safety rests on. */
  predicate SameDispatchColumns(a: Row, b: Row) {
    && a.status == b.status && a.dispatchStartedAt == b.dispatchStartedAt
    && a.attempts == b.attempts && a.lastAttemptAt == b.lastAttemptAt
  }

  predicate SameReconColumns(a: Row, b: Row) {
    && a.recon == b.recon && a.reconAttempts == b.reconAttempts
    && a.lastReconciledAt == b.lastReconciledAt && a.nextReconcileAt == b.nextReconcileAt
  }

  predicate SameIdentityColumns(a: Row, b: Row) {
    && a.user == b.user && a.key == b.key && a.fingerprint == b.fingerprint
    && a.createdAt == b.createdAt && a.revertedFrom == b.revertedFrom
  }

  predicate SameOwnerColumns(a: Row, b: Row) {
    a.generation == b.generation && a.reowns == b.reowns && a.lastReownedAt == b.lastReownedAt
  }

  predicate SameResolutionColumns(a: Row, b: Row) {
    a.resolution == b.resolution && a.resolvedBy == b.resolvedBy && a.resolvedAt == b.resolvedAt
  }

  /** The five groups are all the columns. */
  lemma ColumnsAreAll(a: Row, b: Row)
    requires SameDispatchColumns(a, b) && SameReconColumns(a, b) && SameIdentityColumns(a, b)
    requires SameOwnerColumns(a, b) && SameResolutionColumns(a, b)
    ensures a == b
  {
  }

  /** Neither sweep touches status, dispatch or attempt columns, calls a provider, or writes the other's columns. */
  lemma SweepsLeaveDispatchAlone(cfg: Settings, s: State, step: Step, id: LogId)
    requires step.Reown? || step.Reconcile?
    requires id in s.rows
    ensures var t := Next(cfg, s, step);
      && t.dispatches == s.dispatches && t.audits == s.audits && t.workers == s.workers
      && id in t.rows && SameDispatchColumns(s.rows[id], t.rows[id])
      && (step.Reown? ==> SameReconColumns(s.rows[id], t.rows[id]))
      && (step.Reconcile? ==> t.rows[id].generation == s.rows[id].generation && t.transfers == s.transfers)
  {
  }

  /**
   An operator's conclusion never rewrites what happened at the provider: it changes the three
   resolution columns of one disputed row of the operator's own tenant, and calls nobody.
   */
  lemma ConclusionsLeaveFactsAlone(cfg: Settings, s: State, step: Step)
    requires step.Resolve?
    ensures var t := Next(cfg, s, step);
      && t.dispatches == s.dispatches && t.workers == s.workers && t.transfers == s.transfers
      && t.rows.Keys == s.rows.Keys
      && forall id :: id in s.rows ==>
           && t.rows[id] == s.rows[id].(resolution := t.rows[id].resolution, resolvedBy := t.rows[id].resolvedBy,
                                        resolvedAt := t.rows[id].resolvedAt)
           && (t.rows[id] != s.rows[id] ==> id == step.id && s.rows[id].user == step.tenant && IsDisputed(s.rows[id]))
  {
  }

  /**
   The operator's conclusion on a row is always the last entry of the append-only trail; a
   correlation id is used once; a retry is authorized at most once per operation, and never
   while the operation is still undispatched.
   */
  lemma TrailExplainsResolutions(cfg: Settings, start: State, steps: seq<Step>, id: LogId)
    requires SettingsOk(cfg) && IsFresh(cfg, start)
    requires id in Run(cfg, start, steps).rows
    ensures var s := Run(cfg, start, steps);
      && s.rows[id].resolution == LastResolution(s.audits, id)
      && (forall i, j :: 0 <= i < j < |s.audits| ==> s.audits[i].correlation != s.audits[j].correlation)
      && (forall i, j :: 0 <= i < j < |s.audits| && s.audits[i].log == id && s.audits[j].log == id ==>
            !(s.audits[i].action == AuthorizeRetry && s.audits[j].action == AuthorizeRetry))
      && (s.rows[id].resolution == Some(RetryAuthorized) ==> s.rows[id].status != Pending)
  {
    FreshIsInv(cfg, start);
    RunKeepsInv(cfg, start, steps);
    assert RowOk(cfg, Run(cfg, start, steps).rows[id]);
  }

  // ---- how a success comes to be recorded -----------------------------------------------

  /** The worker whose provider call returned for this row reports a success. */
  predicate ReportsSuccess(s: State, step: Step, id: LogId) {
    && step.Finish? && step.outcome == Success
    && PhaseOf(s, step.w).Sent? && PhaseOf(s, step.w).log == id && PhaseOf(s, step.w).revertOf != Some(id)
  }

  lemma FinishRecordsExactly(s: State, w: WorkerId, outcome: Status, id: LogId)
    requires WorkersOk(s.rows, s.dispatches, s.workers) && id in s.rows && s.rows[id].status != Success
    ensures var t := AfterFinish(s, w, outcome);
      id in t.rows && (t.rows[id].status == Success <==> ReportsSuccess(s, Finish(w, outcome), id))
  {
    if PhaseOf(s, w).Sent? {
      assert WorkerOk(s.rows, s.dispatches, PhaseOf(s, w));
    }
  }

  lemma OtherStepRecordsNone(cfg: Settings, s: State, step: Step, id: LogId)
    requires !step.Finish? && id in Next(cfg, s, step).rows
    requires id in s.rows ==> s.rows[id].status != Success
    ensures Next(cfg, s, step).rows[id].status != Success
  {
  }

  /** A row becomes a success exactly when the worker that sent it reports one. */
  lemma {:induction false} SuccessIsRecordedExactly(cfg: Settings, s: State, step: Step, id: LogId)
    requires Inv(cfg, s) && id in Next(cfg, s, step).rows
    requires id in s.rows ==> s.rows[id].status != Success
    ensures Next(cfg, s, step).rows[id].status == Success <==> ReportsSuccess(s, step, id)
  {
    if step.Finish? {
      if id in s.rows { FinishRecordsExactly(s, step.w, step.outcome, id); }
    } else {
      OtherStepRecordsNone(cfg, s, step, id);
    }
  }

  /** The provider was called for this row. */
  predicate WasSent(dispatches: seq<Dispatch>, id: LogId) {
    exists k :: 0 <= k < |dispatches| && dispatches[k].log == id
  }

  ghost predicate SendersSent(s: State) {
    forall w :: w in s.workers && s.workers[w].Sent? ==> WasSent(s.dispatches, s.workers[w].log)
  }

  lemma StepKeepsSenders(cfg: Settings, s: State, step: Step)
    requires SendersSent(s)
    ensures SendersSent(Next(cfg, s, step))
  {
    var t := Next(cfg, s, step);
    StepAppends(cfg, s, step);
    forall w | w in t.workers && t.workers[w].Sent? ensures WasSent(t.dispatches, t.workers[w].log) {
      if w in s.workers && s.workers[w] == t.workers[w] {
        var k :| 0 <= k < |s.dispatches| && s.dispatches[k].log == s.workers[w].log;
        assert t.dispatches[k].log == t.workers[w].log;
      } else {
        SendIsRecorded(cfg, s, step, w);
      }
    }
  }

  lemma SendIsRecorded(cfg: Settings, s: State, step: Step, w: WorkerId)
    requires var t := Next(cfg, s, step);
      w in t.workers && t.workers[w].Sent? && (w in s.workers ==> s.workers[w] != t.workers[w])
    ensures WasSent(Next(cfg, s, step).dispatches, Next(cfg, s, step).workers[w].log)
  {
    var t := Next(cfg, s, step);
    assert step.Send?;
    assert t.dispatches[|s.dispatches|].log == t.workers[w].log;
  }

  /** Step n of the run is its worker's report of a success for this row. */
  predicate IsReport(cfg: Settings, start: State, steps: seq<Step>, id: LogId, n: nat) {
    n < |steps| && ReportsSuccess(Run(cfg, start, steps[..n]), steps[n], id)
  }

  /**
   Over any run: a row that is a success at the end and was none at the start was sent to the
   provider, and some step of the run is its sender's report of success.
   */
  lemma {:induction false} SuccessWasReported(cfg: Settings, start: State, steps: seq<Step>, id: LogId) returns (n: nat)
    requires SettingsOk(cfg) && Inv(cfg, start) && SendersSent(start)
    requires id in start.rows ==> start.rows[id].status != Success
    requires id in Run(cfg, start, steps).rows && Run(cfg, start, steps).rows[id].status == Success
    ensures IsReport(cfg, start, steps, id, n)
    ensures WasSent(Run(cfg, start, steps).dispatches, id)
    decreases |steps|
  {
    var next := Next(cfg, start, steps[0]);
    StepKeepsInv(cfg, start, steps[0]);
    StepKeepsSenders(cfg, start, steps[0]);
    if id in next.rows && next.rows[id].status == Success {
      SuccessIsRecordedExactly(cfg, start, steps[0], id);
      n := 0;
      assert Run(cfg, start, steps[..0]) == start;
      var k :| 0 <= k < |start.dispatches| && start.dispatches[k].log == id;
      RunFollows(cfg, start, steps);
      assert Run(cfg, start, steps).dispatches[k].log == id;
    } else {
      var m := SuccessWasReported(cfg, next, steps[1..], id);
      n := m + 1;
      assert steps[..n][1..] == steps[1..][..m];
      assert Run(cfg, start, steps[..n]) == Run(cfg, next, steps[1..][..m]);
    }
  }

  /** From a fresh table, a recorded success was sent, and sent once. */
  lemma {:induction false} SuccessWasSentOnce(cfg: Settings, start: State, steps: seq<Step>, id: LogId) returns (k: nat)
    requires SettingsOk(cfg) && IsFresh(cfg, start)
    requires id in start.rows ==> start.rows[id].status != Success
    requires id in Run(cfg, start, steps).rows && Run(cfg, start, steps).rows[id].status == Success
    ensures var sent := Run(cfg, start, steps).dispatches;
      && k < |sent| && sent[k].log == id
      && forall j :: 0 <= j < |sent| && sent[j].log == id ==> j == k
  {
    FreshIsInv(cfg, start);
    var n := SuccessWasReported(cfg, start, steps, id);
    var sent := Run(cfg, start, steps).dispatches;
    k :| 0 <= k < |sent| && sent[k].log == id;
    RunKeepsInv(cfg, start, steps);
  }

  /** A crash loses what the worker held and nothing else. */
  lemma CrashForgetsOnlyTheWorker(cfg: Settings, s: State, w: WorkerId)
    ensures var t := Next(cfg, s, Crash(w));
      && t.rows == s.rows && t.audits == s.audits && t.dispatches == s.dispatches && t.transfers == s.transfers
      && PhaseOf(t, w) == Idle && forall v :: v != w ==> PhaseOf(t, v) == PhaseOf(s, v)
  {
  }

  // ---- the unguarded pre-dispatch failure write -----------------------------------------

  /** The two ways a recorded success can be replaced. */
  predicate ReplacesSuccess(s: State, step: Step, id: LogId) {
    match step
    case FailBeforeDispatch(w) => PhaseOf(s, w).Claimed? && PhaseOf(s, w).log == id
    case Finish(w, outcome) =>
      var p := PhaseOf(s, w);
      p.Sent? && outcome == Success && p.revertOf == Some(id)
      && p.log in s.rows && id in s.rows && s.rows[p.log].user == s.rows[id].user
    case _ => false
  }

  lemma FinishReplacesExactly(s: State, w: WorkerId, outcome: Status, id: LogId)
    requires WorkersOk(s.rows, s.dispatches, s.workers) && id in s.rows && s.rows[id].status == Success
    ensures var t := AfterFinish(s, w, outcome);
      id in t.rows && (t.rows[id].status != Success <==> ReplacesSuccess(s, Finish(w, outcome), id))
  {
    if PhaseOf(s, w).Sent? {
      assert WorkerOk(s.rows, s.dispatches, PhaseOf(s, w));
    }
  }

  lemma OtherStepReplacesExactly(cfg: Settings, s: State, step: Step, id: LogId)
    requires !step.Finish? && id in s.rows && s.rows[id].status == Success
    ensures var t := Next(cfg, s, step);
      id in t.rows && (t.rows[id].status != Success <==> ReplacesSuccess(s, step, id))
  {
  }

  /**
   A recorded success stays, except that a revert of it succeeds, or the worker that made the
   original claim is still alive and fails to resolve its credentials.
   */
  lemma {:induction false} SuccessIsReplacedExactly(cfg: Settings, s: State, step: Step, id: LogId)
    requires Inv(cfg, s) && id in s.rows && s.rows[id].status == Success
    ensures var t := Next(cfg, s, step);
      id in t.rows && (t.rows[id].status != Success <==> ReplacesSuccess(s, step, id))
  {
    if step.Finish? {
      FinishReplacesExactly(s, step.w, step.outcome, id);
    } else {
      OtherStepReplacesExactly(cfg, s, step, id);
    }
  }

  /** A run in which the provider applied an operation and its row ends as failed. */
  function StaleFailureRun(user: UserId, key: string, fp: string): seq<Step> {
    [Claim(0, 0, user, key, fp, None, 0), Resume(1, 0, user, "operator", "c", true, None, 1), Send(1),
     Finish(1, Success), FailBeforeDispatch(0)]
  }

  lemma RunOfTwo(cfg: Settings, s: State, a: Step, b: Step)
    ensures Run(cfg, s, [a, b]) == Next(cfg, Next(cfg, s, a), b)
  {
    assert [a, b][1..] == [b] && [b][1..] == [];
    assert Run(cfg, Next(cfg, s, a), [b]) == Run(cfg, Next(cfg, Next(cfg, s, a), b), []);
  }

  lemma RunOfFive(cfg: Settings, s: State, a: Step, b: Step, c: Step, d: Step, e: Step)
    ensures Run(cfg, s, [a, b, c, d, e])
      == Next(cfg, Next(cfg, Next(cfg, Next(cfg, Next(cfg, s, a), b), c), d), e)
  {
    assert [a, b, c, d, e][1..] == [b, c, d, e] && [b, c, d, e][1..] == [c, d, e] && [c, d, e][1..] == [d, e];
    var t := Next(cfg, s, a);
    var u := Next(cfg, t, b);
    assert Run(cfg, s, [a, b, c, d, e]) == Run(cfg, t, [b, c, d, e]);
    assert Run(cfg, t, [b, c, d, e]) == Run(cfg, u, [c, d, e]);
    assert Run(cfg, u, [c, d, e]) == Run(cfg, Next(cfg, u, c), [d, e]);
    RunOfTwo(cfg, Next(cfg, u, c), d, e);
  }

  /** How that run starts: claimed by worker 0, resumed and sent by worker 1 for an operator. */
  lemma ResumedAndSent(cfg: Settings, user: UserId, key: string, fp: string)
    requires SettingsOk(cfg) && IsV1Key(key) && IsFingerprint(fp)
    ensures var steps := StaleFailureRun(user, key, fp);
      var s := Next(cfg, Next(cfg, Next(cfg, INITIAL, steps[0]), steps[1]), steps[2]);
      && PhaseOf(s, 0) == Claimed(0, 0, None) && PhaseOf(s, 1) == Sent(0, 0, None)
      && 0 in s.rows && s.dispatches == [Dispatch(0, user, Some(key), 0)]
  {
    var steps := StaleFailureRun(user, key, fp);
    var s := Next(cfg, INITIAL, steps[0]);
    assert s.rows[0] == NewRow(user, Some(key), Some(fp), Pending, 0) && PhaseOf(s, 0) == Claimed(0, 0, None);
    var t := Next(cfg, s, steps[1]);
    assert PhaseOf(t, 1) == Ready(0, 0, None) && PhaseOf(t, 0) == Claimed(0, 0, None);
  }

  lemma StaleFailureOverwritesSuccess(cfg: Settings, user: UserId, key: string, fp: string)
    requires SettingsOk(cfg) && IsV1Key(key) && IsFingerprint(fp)
    ensures var s := Run(cfg, INITIAL, StaleFailureRun(user, key, fp));
      0 in s.rows && s.rows[0].status == Failed && s.dispatches == [Dispatch(0, user, Some(key), 0)]
  {
    var steps := StaleFailureRun(user, key, fp);
    RunOfFive(cfg, INITIAL, steps[0], steps[1], steps[2], steps[3], steps[4]);
    ResumedAndSent(cfg, user, key, fp);
    var s := Next(cfg, Next(cfg, Next(cfg, INITIAL, steps[0]), steps[1]), steps[2]);
    var t := Next(cfg, s, steps[3]);
    assert t.rows[0].status == Success && PhaseOf(t, 0) == Claimed(0, 0, None);
  }
}
