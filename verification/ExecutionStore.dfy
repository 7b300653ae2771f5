/**
 The statements of the executor, the sweeps and the operator against stored tables, each proved to be
 one step of the protocol, so that the tables are always ones a run of the protocol ends in.
 */
module ExecutionStore {
  import opened Common
  import opened ExecutionLog
  import opened ExecutionProtocol

  /** What some run from some fresh table ends in. */
  ghost predicate Reachable(cfg: Settings, s: State) {
    exists start, steps :: IsFresh(cfg, start) && s == Run(cfg, start, steps)
  }

  lemma FreshIsReachable(cfg: Settings, s: State)
    requires IsFresh(cfg, s)
    ensures Reachable(cfg, s)
  {
    assert s == Run(cfg, s, []);
  }

  lemma {:induction false} RunThenStep(cfg: Settings, s: State, steps: seq<Step>, step: Step)
    ensures Run(cfg, s, steps + [step]) == Next(cfg, Run(cfg, s, steps), step)
    decreases |steps|
  {
    if steps == [] {
      assert Run(cfg, s, [step]) == Run(cfg, Next(cfg, s, step), []);
    } else {
      assert (steps + [step])[1..] == steps[1..] + [step];
      RunThenStep(cfg, Next(cfg, s, steps[0]), steps[1..], step);
    }
  }

  lemma StepStaysReachable(cfg: Settings, s: State, step: Step)
    requires Reachable(cfg, s)
    ensures Reachable(cfg, Next(cfg, s, step))
  {
    var start, steps :| IsFresh(cfg, start) && s == Run(cfg, start, steps);
    RunThenStep(cfg, start, steps, step);
  }

  lemma ReachableIsInv(cfg: Settings, s: State)
    requires SettingsOk(cfg) && Reachable(cfg, s)
    ensures Inv(cfg, s)
  {
    var start, steps :| IsFresh(cfg, start) && s == Run(cfg, start, steps);
    FreshIsInv(cfg, start);
    RunKeepsInv(cfg, start, steps);
  }

  /** A worker about to call the provider owns its row alone, and nothing was sent for it. */
  lemma WinnerStandsAlone(cfg: Settings, s: State, w: WorkerId)
    requires SettingsOk(cfg) && Reachable(cfg, s) && PhaseOf(s, w).Ready?
    ensures forall v :: v in s.workers && v != w ==> !Owns(s.workers[v], PhaseOf(s, w).log)
    ensures forall k :: 0 <= k < |s.dispatches| ==> s.dispatches[k].log != PhaseOf(s, w).log
  {
    ReachableIsInv(cfg, s);
    assert WorkerOk(s.rows, s.dispatches, PhaseOf(s, w));
    assert Owns(s.workers[w], s.workers[w].log);
  }

  /** The latest provider call differs from every earlier one in user or key. */
  lemma LatestIsNew(cfg: Settings, s: State)
    requires SettingsOk(cfg) && Reachable(cfg, s) && s.dispatches != []
    ensures var latest := s.dispatches[|s.dispatches| - 1];
      forall k :: 0 <= k < |s.dispatches| - 1
        ==> s.dispatches[k].user != latest.user || s.dispatches[k].key != latest.key
  {
    ReachableIsInv(cfg, s);
    var last := |s.dispatches| - 1;
    forall k | 0 <= k < last
      ensures s.dispatches[k].user != s.dispatches[last].user || s.dispatches[k].key != s.dispatches[last].key
    {
      DispatchesDiffer(cfg, s, k, last);
    }
  }

  /** The worker whose provider call returned is the row's only owner. */
  lemma SenderStandsAlone(cfg: Settings, s: State, w: WorkerId)
    requires SettingsOk(cfg) && Reachable(cfg, s) && PhaseOf(s, w).Sent?
    ensures PhaseOf(s, w).log in s.rows && Started(s.rows[PhaseOf(s, w).log])
    ensures forall v :: v in s.workers && v != w ==> !Owns(s.workers[v], PhaseOf(s, w).log)
  {
    ReachableIsInv(cfg, s);
    assert WorkerOk(s.rows, s.dispatches, PhaseOf(s, w));
    assert Owns(s.workers[w], s.workers[w].log);
  }

  /** Whatever the sweep may re-own was never sent. */
  lemma UnstartedIsUnsent(cfg: Settings, s: State, id: LogId)
    requires SettingsOk(cfg) && Reachable(cfg, s) && id in s.rows && !Started(s.rows[id])
    ensures forall k :: 0 <= k < |s.dispatches| ==> s.dispatches[k].log != id
  {
    ReachableIsInv(cfg, s);
    UnstartedIsUnowned(s.rows, s.dispatches, s.workers, id);
  }

  /** No row but this one differs. */
  predicate OnlyRow(before: Rows, after: Rows, id: LogId) {
    && (forall a :: a in after && a != id ==> a in before)
    && forall a :: a in before && a != id ==> a in after && after[a] == before[a]
  }

  /** Nothing happened to the row since it was claimed. */
  predicate IsUntouched(row: Row) {
    && row.dispatchStartedAt == None && row.attempts == 0 && row.lastAttemptAt == None
    && row.generation == 0 && row.reowns == 0 && row.lastReownedAt == None
    && row.recon == None && row.reconAttempts == 0 && row.lastReconciledAt == None && row.nextReconcileAt == None
    && row.resolution == None && row.resolvedBy == None && row.resolvedAt == None && row.revertedFrom == None
  }

  /** One attempt was started at this time, and nothing else about the dispatch or the row's owner moved. */
  predicate IsStarted(before: Row, after: Row, now: int) {
    && after.status == InFlight && after.dispatchStartedAt == Some(now)
    && after.attempts == before.attempts + 1 && after.lastAttemptAt == Some(now)
    && SameIdentityColumns(before, after) && SameOwnerColumns(before, after) && SameReconColumns(before, after)
  }

  predicate AllButResolution(before: Row, after: Row) {
    && SameIdentityColumns(before, after) && SameOwnerColumns(before, after)
    && SameDispatchColumns(before, after) && SameReconColumns(before, after)
  }

  /** What a conclusion is called. */
  predicate Concludes(action: ExecutionLog.Action, resolution: Resolution) {
    || (action == ConfirmApplied && resolution == ConfirmedApplied)
    || (action == ConfirmNotApplied && resolution == ConfirmedNotApplied)
    || (action == Close && resolution == ManualClosed)
    || (action == AuthorizeRetry && resolution == RetryAuthorized)
  }

  /** The operator's conclusion fits a row that is still open or needs attention. */
  predicate MayConclude(row: Row, action: ExecutionLog.Action, reason: string, verified: bool) {
    && (|| row.status in {Pending, InFlight, Ambiguous}
        || row.recon in {Some(Observed(TargetNotObserved)), Some(Observed(StillUnknown)), Some(ManualAttention)})
    && (|| (action == ConfirmApplied && reason == "operator_confirmed_applied" && verified)
        || (action == ConfirmNotApplied && reason == "operator_confirmed_not_applied" && verified)
        || (action == Close && reason == "operator_closed_no_action")
        || (action == Close && reason == "stale_pending_review")
        || (action == Close && reason == "ambiguous_needs_review"))
  }

  lemma MayConcludeExactly(row: Row, tenant: UserId, action: ExecutionLog.Action, reason: string, verified: bool)
    ensures MayConclude(row, action, reason, verified) && row.user == tenant <==>
      ResolveAllowed(row, tenant, action, reason, verified)
  {
  }

  /** A claim that can be resumed: never started, never reconciled, not already concluded as applied or retried. */
  predicate MayResume(cfg: Settings, row: Row) {
    && row.status == Pending && row.dispatchStartedAt == None && row.attempts == 0
    && row.key.Some? && IsV1Key(row.key.value) && row.fingerprint.Some? && IsFingerprint(row.fingerprint.value)
    && row.reowns < cfg.maxReowns && row.recon in {None, Some(PendingRecon)}
    && row.resolution in {None, Some(ConfirmedNotApplied), Some(ManualClosed)}
  }

  /** The tables, what each worker holds between statements, and the histories as ghost state. */
  class Store {
    const cfg: Settings
    var rows: Rows
    var audits: seq<Audit>
    var workers: map<WorkerId, Phase>
    ghost var dispatches: seq<Dispatch>
    ghost var transfers: seq<Transfer>

    ghost function View(): State
      reads this
    {
      State(rows, audits, workers, dispatches, transfers)
    }

    ghost predicate Valid()
      reads this
    {
      SettingsOk(cfg) && Reachable(cfg, View())
    }

    /** A process starts on the table an earlier one left, legacy rows included. */
    constructor (cfg: Settings, stored: Rows)
      requires SettingsOk(cfg) && IsFresh(cfg, State(stored, [], map[], [], []))
      ensures this.cfg == cfg && View() == State(stored, [], map[], [], []) && Valid()
    {
      this.cfg := cfg;
      rows, audits, workers := stored, [], map[];
      dispatches, transfers := [], [];
      new;
      FreshIsReachable(cfg, View());
    }

    function Held(w: WorkerId): Phase
      reads this
    {
      if w in workers then workers[w] else Idle
    }

    /** Claim before dispatch. Of all requests for a user's key, ever, at most one wins. */
    method Claim(w: WorkerId, id: LogId, user: UserId, key: string, fp: string, revertOf: Option<LogId>, now: int)
      returns (won: bool)
      requires Valid() && Held(w) == Idle && id !in rows
      modifies this
      ensures Valid() && View() == Next(cfg, old(View()), Step.Claim(w, id, user, key, fp, revertOf, now))
      ensures won <==>
        IsV1Key(key) && forall a :: a in old(rows) && old(rows)[a].user == user ==> old(rows)[a].key != Some(key)
      ensures !won ==> rows == old(rows) && Held(w) == Idle
      ensures won ==> OnlyRow(old(rows), rows, id) && Held(w) == Claimed(id, 0, revertOf)
      ensures won ==>
        id in rows && rows[id].user == user && rows[id].key == Some(key) && rows[id].fingerprint == Some(fp)
      ensures won ==> rows[id].status == Pending && rows[id].createdAt == now && IsUntouched(rows[id])
    {
      if IsV1Key(key) { ValidKeysAreIndexed(key); }
      StepStaysReachable(cfg, View(), Step.Claim(w, id, user, key, fp, revertOf, now));
      won := IsV1Key(key) && ClaimFree(rows, user, key);
      if won {
        rows := rows[id := NewRow(user, Some(key), Some(fp), Pending, now)];
        workers := workers[w := Claimed(id, 0, revertOf)];
      }
    }

    /** A request the guard refuses is recorded under no key, so it claims nothing. */
    method Reject(id: LogId, user: UserId, now: int)
      requires Valid() && id !in rows
      modifies this
      ensures Valid() && View() == Next(cfg, old(View()), Step.Reject(id, user, now))
      ensures OnlyRow(old(rows), rows, id) && id in rows && workers == old(workers)
      ensures rows[id].user == user && rows[id].key == None && rows[id].fingerprint == None
      ensures rows[id].status == Rejected && rows[id].createdAt == now && IsUntouched(rows[id])
    {
      StepStaysReachable(cfg, View(), Step.Reject(id, user, now));
      rows := rows[id := NewRow(user, None, None, Rejected, now)];
    }

    /** A credential or token failure before the fence; the write names the row by id only. */
    method FailBeforeDispatch(w: WorkerId)
      requires Valid() && Held(w).Claimed?
      modifies this
      ensures Valid() && View() == Next(cfg, old(View()), Step.FailBeforeDispatch(w))
      ensures var id := old(Held(w)).log;
        && id in old(rows) && OnlyRow(old(rows), rows, id)
        && id in rows && rows[id] == old(rows)[id].(status := Failed) && Held(w) == Idle
    {
      StepStaysReachable(cfg, View(), Step.FailBeforeDispatch(w));
      WorkerHolds(w);
      var id := workers[w].log;
      rows := rows[id := rows[id].(status := Failed)];
      workers := workers[w := Idle];
    }

    /** The fencing compare-and-set. Winning it means owning the row alone, with nothing sent yet. */
    method Fence(w: WorkerId, now: int) returns (hit: bool)
      requires Valid() && Held(w).Claimed?
      modifies this
      ensures Valid() && View() == Next(cfg, old(View()), Step.Fence(w, now))
      ensures var p := old(Held(w));
        && p.log in old(rows)
        && (hit <==> && old(rows)[p.log].status == Pending && old(rows)[p.log].dispatchStartedAt == None
                     && old(rows)[p.log].generation == p.gen)
        && Held(w) == (if hit then Ready(p.log, p.gen, p.revertOf) else Idle)
        && (if hit then && OnlyRow(old(rows), rows, p.log) && p.log in rows
                        && IsStarted(old(rows)[p.log], rows[p.log], now)
                        && SameResolutionColumns(old(rows)[p.log], rows[p.log])
            else rows == old(rows))
      ensures hit ==> forall v :: v in workers && v != w ==> !Owns(workers[v], workers[w].log)
      ensures hit ==> forall k :: 0 <= k < |dispatches| ==> dispatches[k].log != workers[w].log
    {
      StepStaysReachable(cfg, View(), Step.Fence(w, now));
      WorkerHolds(w);
      var p := workers[w];
      hit := rows[p.log].status == Pending && rows[p.log].dispatchStartedAt == None && rows[p.log].generation == p.gen;
      if hit {
        var row := rows[p.log];
        var fenced := row.(status := InFlight, dispatchStartedAt := Some(now), attempts := row.attempts + 1,
                           lastAttemptAt := Some(now));
        assert fenced == Fenced(row, now);
        rows := rows[p.log := fenced];
        workers := workers[w := Ready(p.log, p.gen, p.revertOf)];
        WinnerStandsAlone(cfg, View(), w);
      } else {
        workers := workers[w := Idle];
      }
    }

    /** The provider call: the first and only one ever made for this user and key. */
    method Send(w: WorkerId)
      requires Valid() && Held(w).Ready?
      modifies this
      ensures Valid() && View() == Next(cfg, old(View()), Step.Send(w))
      ensures rows == old(rows) && |dispatches| == |old(dispatches)| + 1 && old(dispatches) <= dispatches
      ensures var p, d := old(Held(w)), dispatches[|dispatches| - 1];
        && p.log in rows && d.log == p.log && d.gen == p.gen
        && d.user == rows[p.log].user && d.key == rows[p.log].key
        && Held(w) == Sent(p.log, p.gen, p.revertOf)
      ensures var d := dispatches[|dispatches| - 1];
        forall k :: 0 <= k < |dispatches| - 1 ==> dispatches[k].user != d.user || dispatches[k].key != d.key
    {
      StepStaysReachable(cfg, View(), Step.Send(w));
      WorkerHolds(w);
      var p := workers[w];
      dispatches := dispatches + [Dispatch(p.log, rows[p.log].user, rows[p.log].key, p.gen)];
      workers := workers[w := Sent(p.log, p.gen, p.revertOf)];
      LatestIsNew(cfg, View());
    }

    /** The terminal write; a successful revert also marks its original, in the same commit. */
    method Finish(w: WorkerId, outcome: Status)
      requires Valid() && Held(w).Sent? && (outcome == Success || outcome == Failed || outcome == Ambiguous)
      modifies this
      ensures Valid() && View() == Next(cfg, old(View()), Step.Finish(w, outcome))
      ensures var id := old(Held(w)).log;
        id in rows && Started(rows[id]) && NobodyOwns(workers, id)
      ensures var p := old(Held(w));
        var reverts := outcome == Success && p.revertOf.Some?;
        && p.log in old(rows) && rows.Keys == old(rows).Keys && Held(w) == Idle
        && rows[p.log].status == (if reverts && p.revertOf.value == p.log then Reverted else outcome)
        && rows[p.log].revertedFrom == (if reverts then p.revertOf else old(rows)[p.log].revertedFrom)
        && rows[p.log].(status := old(rows)[p.log].status, revertedFrom := old(rows)[p.log].revertedFrom)
           == old(rows)[p.log]
        && forall a :: a in rows && a != p.log ==>
             rows[a] == if && reverts && p.revertOf.value == a && old(rows)[a].user == old(rows)[p.log].user
                           && old(rows)[a].status == Success
                        then old(rows)[a].(status := Reverted) else old(rows)[a]
    {
      SenderStandsAlone(cfg, View(), w);
      StepStaysReachable(cfg, View(), Step.Finish(w, outcome));
      WorkerHolds(w);
      var p := workers[w];
      var user := rows[p.log].user;
      if outcome == Success && p.revertOf.Some? {
        rows := rows[p.log := rows[p.log].(status := Success, revertedFrom := p.revertOf)];
        var original := p.revertOf.value;
        if original in rows && rows[original].user == user && rows[original].status == Success {
          rows := rows[original := rows[original].(status := Reverted)];
        }
      } else {
        rows := rows[p.log := rows[p.log].(status := outcome)];
      }
      workers := workers[w := Idle];
    }

    /** The re-own sweep: a worker holding an older generation can no longer win the fence. */
    method Reown(id: LogId, user: UserId, gen: int, key: string, fp: string, now: int) returns (hit: bool)
      requires Valid()
      modifies this
      ensures Valid() && View() == Next(cfg, old(View()), Step.Reown(id, user, gen, key, fp, now))
      ensures hit <==>
        && IsV1Key(key) && IsFingerprint(fp) && id in old(rows)
        && var row := old(rows)[id];
           && row.user == user && row.status == Pending && row.dispatchStartedAt == None
           && row.generation == gen && row.reowns < cfg.maxReowns && row.key == Some(key) && row.fingerprint == Some(fp)
           && now - cfg.reownStale > if row.lastReownedAt.Some? then row.lastReownedAt.value else row.createdAt
      ensures !hit ==> rows == old(rows) && transfers == old(transfers)
      ensures hit ==> OnlyRow(old(rows), rows, id) && transfers == old(transfers) + [Transfer(id, now)]
      ensures hit ==>
        && id in rows && rows[id].generation == gen + 1 && rows[id].reowns == old(rows)[id].reowns + 1
        && rows[id].lastReownedAt == Some(now) && SameIdentityColumns(old(rows)[id], rows[id])
        && SameDispatchColumns(old(rows)[id], rows[id]) && SameReconColumns(old(rows)[id], rows[id])
        && SameResolutionColumns(old(rows)[id], rows[id])
      ensures hit ==> id in rows && !FenceHits(rows[id], gen)
      ensures hit ==> forall k :: 0 <= k < |dispatches| ==> dispatches[k].log != id
    {
      StepStaysReachable(cfg, View(), Step.Reown(id, user, gen, key, fp, now));
      hit := IsV1Key(key) && IsFingerprint(fp) && id in rows && ReownHits(cfg, rows[id], user, gen, key, fp, now);
      if hit {
        var row := rows[id];
        var reowned := row.(generation := row.generation + 1, reowns := row.reowns + 1, lastReownedAt := Some(now));
        assert reowned == Reowned(row, now);
        rows := rows[id := reowned];
        transfers := transfers + [Transfer(id, now)];
        UnstartedIsUnsent(cfg, View(), id);
      }
    }

    /** The reconciliation sweep's write, on rows the executor has not finished. */
    method Reconcile(id: LogId, verdict: Verdict, seen: int, now: int) returns (hit: bool)
      requires Valid()
      modifies this
      ensures Valid() && View() == Next(cfg, old(View()), Step.Reconcile(id, verdict, seen, now))
      ensures hit <==> id in old(rows) && old(rows)[id].status in {Pending, InFlight, Ambiguous}
      ensures !hit ==> rows == old(rows)
      ensures hit ==>
        && OnlyRow(old(rows), rows, id) && id in rows && rows[id].recon == Some(Observed(verdict))
        && rows[id].reconAttempts == old(rows)[id].reconAttempts + 1 && rows[id].lastReconciledAt == Some(now)
        && (if verdict == IntentObserved || seen + 1 >= cfg.maxReconciles then rows[id].nextReconcileAt == None
            else rows[id].nextReconcileAt == Some(now + cfg.backoff))
        && SameIdentityColumns(old(rows)[id], rows[id]) && SameOwnerColumns(old(rows)[id], rows[id])
        && SameResolutionColumns(old(rows)[id], rows[id]) && SameDispatchColumns(old(rows)[id], rows[id])
    {
      StepStaysReachable(cfg, View(), Step.Reconcile(id, verdict, seen, now));
      hit := id in rows && (rows[id].status == Pending || rows[id].status == InFlight || rows[id].status == Ambiguous);
      if hit {
        var row, next := rows[id], None;
        if verdict != IntentObserved && seen + 1 < cfg.maxReconciles { next := Some(now + cfg.backoff); }
        var seenAgain := row.(recon := Some(Observed(verdict)), reconAttempts := row.reconAttempts + 1,
                              lastReconciledAt := Some(now), nextReconcileAt := next);
        assert seenAgain == Reconciled(cfg, row, verdict, seen, now);
        rows := rows[id := seenAgain];
      }
    }

    /** An operator's conclusion and its audit row land together or not at all. */
    method Resolve(id: LogId, tenant: UserId, action: ExecutionLog.Action, actor: string, corr: string, reason: string,
                   verified: bool, now: int) returns (applied: bool)
      requires Valid()
      modifies this
      ensures Valid()
      ensures View() == Next(cfg, old(View()), Step.Resolve(id, tenant, action, actor, corr, reason, verified, now))
      ensures applied <==>
        && id in old(rows) && old(rows)[id].user == tenant && MayConclude(old(rows)[id], action, reason, verified)
        && forall k :: 0 <= k < |old(audits)| ==> old(audits)[k].correlation != corr
      ensures !applied ==> rows == old(rows) && audits == old(audits)
      ensures applied ==> |audits| == |old(audits)| + 1 && old(audits) <= audits && OnlyRow(old(rows), rows, id)
      ensures applied ==>
        var a := audits[|old(audits)|];
        && a.log == id && a.action == action && a.actor == actor && a.reason == reason && a.correlation == corr
        && a.at == now && a.previousStatus == old(rows)[id].status && a.previousResolution == old(rows)[id].resolution
        && Concludes(action, a.newResolution) && id in rows && rows[id].resolution == Some(a.newResolution)
        && rows[id].resolvedBy == Some(actor) && rows[id].resolvedAt == Some(now)
        && AllButResolution(old(rows)[id], rows[id])
      ensures applied ==> id in rows && rows[id].resolution == LastResolution(audits, id)
    {
      StepStaysReachable(cfg, View(), Step.Resolve(id, tenant, action, actor, corr, reason, verified, now));
      if id in rows { MayConcludeExactly(rows[id], tenant, action, reason, verified); }
      applied := && id in rows && ResolveAllowed(rows[id], tenant, action, reason, verified)
                 && !CorrelationUsed(audits, corr);
      if applied {
        var row := rows[id];
        var audit := Audit(id, action, row.status, row.resolution, ResolutionOf(action), actor, reason, corr, now);
        assert audit == AuditOf(id, row, action, actor, reason, corr, now);
        var concluded := row.(resolution := Some(ResolutionOf(action)), resolvedBy := Some(actor),
                              resolvedAt := Some(now));
        assert concluded == WithResolution(row, action, actor, now);
        audits := audits + [audit];
        rows := rows[id := concluded];
      }
    }

    /** An operator's resume: authorization audit and fence in one transaction. */
    method Resume(w: WorkerId, id: LogId, tenant: UserId, actor: string, corr: string, admitted: bool,
                  revertOf: Option<LogId>, now: int) returns (hit: bool)
      requires Valid() && Held(w) == Idle
      modifies this
      ensures Valid()
      ensures View() == Next(cfg, old(View()), Step.Resume(w, id, tenant, actor, corr, admitted, revertOf, now))
      ensures hit <==>
        && admitted && id in old(rows) && old(rows)[id].user == tenant && MayResume(cfg, old(rows)[id])
        && forall k :: 0 <= k < |old(audits)| ==> old(audits)[k].correlation != corr
      ensures !hit ==> rows == old(rows) && audits == old(audits) && Held(w) == Idle
      ensures hit ==> Held(w) == Ready(id, old(rows)[id].generation, revertOf)
      ensures hit ==> |audits| == |old(audits)| + 1 && old(audits) <= audits && OnlyRow(old(rows), rows, id)
      ensures hit ==>
        var a := audits[|old(audits)|];
        && a.log == id && a.action == AuthorizeRetry && a.newResolution == RetryAuthorized && a.actor == actor
        && a.reason == "operator_authorized_retry" && a.correlation == corr && a.at == now
        && a.previousStatus == Pending && a.previousResolution == old(rows)[id].resolution
      ensures hit ==>
        && id in rows && IsStarted(old(rows)[id], rows[id], now) && rows[id].resolution == Some(RetryAuthorized)
        && rows[id].resolvedBy == Some(actor) && rows[id].resolvedAt == Some(now)
      ensures hit ==> forall v :: v in workers && v != w ==> !Owns(workers[v], id)
      ensures hit ==> forall k :: 0 <= k < |dispatches| ==> dispatches[k].log != id
    {
      StepStaysReachable(cfg, View(), Step.Resume(w, id, tenant, actor, corr, admitted, revertOf, now));
      hit := && admitted && !CorrelationUsed(audits, corr) && id in rows && ResumeEligible(cfg, rows[id], tenant)
             && ResumeHits(cfg, rows[id], tenant, rows[id].generation, rows[id].key, rows[id].fingerprint);
      if hit {
        var row := rows[id];
        var audit := Audit(id, AuthorizeRetry, row.status, row.resolution, RetryAuthorized, actor,
                           "operator_authorized_retry", corr, now);
        assert audit == AuditOf(id, row, AuthorizeRetry, actor, "operator_authorized_retry", corr, now);
        var resumed := row.(status := InFlight, dispatchStartedAt := Some(now), attempts := row.attempts + 1,
                            lastAttemptAt := Some(now), resolution := Some(RetryAuthorized),
                            resolvedBy := Some(actor), resolvedAt := Some(now));
        assert resumed == Resumed(row, actor, now);
        audits := audits + [audit];
        rows := rows[id := resumed];
        workers := workers[w := Ready(id, row.generation, revertOf)];
        WinnerStandsAlone(cfg, View(), w);
      }
    }

    /** The row a working worker holds exists. */
    lemma WorkerHolds(w: WorkerId)
      requires Valid() && Held(w) != Idle
      ensures w in workers && workers[w].log in rows
    {
      ReachableIsInv(cfg, View());
      assert WorkerOk(rows, dispatches, workers[w]);
    }
  }
}
