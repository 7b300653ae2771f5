/**
 The execution_logs and execution_recovery_audit tables and the guarded updates that the executor,
 the two sweeps and the operator run against them. Times are integers (seconds).
 */
module ExecutionLog {
  import opened Common
  import opened Strings

  type LogId = nat
  type UserId = nat

  datatype Status = Pending | InFlight | Success | Failed | Ambiguous | Rejected | Reverted
  datatype Verdict = IntentObserved | TargetNotObserved | StillUnknown
  datatype Recon = PendingRecon | Reconciling | Observed(verdict: Verdict) | ManualAttention | ResolvedRecon
  datatype Resolution = ConfirmedApplied | ConfirmedNotApplied | RetryAuthorized | ManualClosed
  datatype Action = ConfirmApplied | ConfirmNotApplied | Close | AuthorizeRetry

  datatype Row = Row(
    user: UserId, key: Option<string>, fingerprint: Option<string>, status: Status,
    createdAt: int, dispatchStartedAt: Option<int>, attempts: int, lastAttemptAt: Option<int>,
    generation: int, reowns: int, lastReownedAt: Option<int>,
    recon: Option<Recon>, reconAttempts: int, lastReconciledAt: Option<int>, nextReconcileAt: Option<int>,
    resolution: Option<Resolution>, resolvedBy: Option<string>, resolvedAt: Option<int>,
    revertedFrom: Option<LogId>)

  datatype Audit = Audit(
    log: LogId, action: Action, previousStatus: Status, previousResolution: Option<Resolution>,
    newResolution: Resolution, actor: string, reason: string, correlation: string, at: int)

  datatype Settings = Settings(
    reownStale: int, maxReowns: int, maxReconciles: int, backoff: int)

  /** What the settings validators enforce. */
  predicate SettingsOk(cfg: Settings) {
    cfg.reownStale > 0 && cfg.maxReowns > 0
  }

  type Rows = map<LogId, Row>

  // ---- operation keys and fingerprints --------------------------------------------------

  predicate IsHex(c: char) {
    '0' <= c <= '9' || 'a' <= c <= 'f'
  }

  predicate IsUuid(s: string) {
    && |s| == 36
    && forall k :: 0 <= k < 36 ==> if k in {8, 13, 18, 23} then s[k] == '-' else IsHex(s[k])
  }

  const MAX_KEY_LENGTH := 120

  /** The length of the namespace part of a key, or 0 when it names no known namespace. */
  function NamespaceLength(key: string): nat {
    if "v1:client:" <= key || "v1:review:" <= key || "v1:revert:" <= key || "v1:intent:" <= key then 10
    else if "v1:decision:" <= key then 12
    else 0
  }

  /** The pattern ends in $, which also matches before one final newline. */
  predicate IsV1Key(key: string) {
    && |key| <= MAX_KEY_LENGTH
    && 0 < NamespaceLength(key) <= |key|
    && EndsInUuid(key[NamespaceLength(key)..])
  }

  predicate EndsInUuid(tail: string) {
    IsUuid(tail) || (tail != [] && tail[|tail| - 1] == '\n' && IsUuid(tail[..|tail| - 1]))
  }

  predicate IsFingerprint(fp: string) {
    |fp| == 68 && "fp1:" <= fp && forall k :: 4 <= k < 68 ==> IsHex(fp[k])
  }

  const HEX_DIGITS := "0123456789abcdef"

  predicate IsHexOf(s: string, length: nat) {
    |s| == length && forall c :: c in s ==> c in HEX_DIGITS
  }

  /** Five groups of hexadecimal digits between hyphens. */
  predicate IsGrouped(groups: seq<string>) {
    && |groups| == 5 && IsHexOf(groups[0], 8) && IsHexOf(groups[1], 4) && IsHexOf(groups[2], 4)
    && IsHexOf(groups[3], 4) && IsHexOf(groups[4], 12)
  }

  lemma HexExactly(c: char)
    ensures IsHex(c) <==> c in HEX_DIGITS
  {
  }

  lemma GroupsAreUuid(a: string, b: string, c: string, d: string, e: string, s: string)
    requires IsGrouped([a, b, c, d, e]) && s == a + "-" + b + "-" + c + "-" + d + "-" + e
    ensures IsUuid(s)
  {
    forall c: char ensures IsHex(c) <==> c in HEX_DIGITS { HexExactly(c); }
  }

  lemma GroupIsHex(s: string, i: nat, j: nat)
    requires i <= j <= |s| && forall k :: i <= k < j ==> IsHex(s[k])
    ensures IsHexOf(s[i..j], j - i)
  {
    forall k | 0 <= k < j - i ensures s[i..j][k] in HEX_DIGITS { HexExactly(s[i + k]); }
  }

  lemma UuidIsGroups(s: string)
    requires IsUuid(s)
    ensures IsGrouped([s[..8], s[9..13], s[14..18], s[19..23], s[24..]])
    ensures s == s[..8] + "-" + s[9..13] + "-" + s[14..18] + "-" + s[19..23] + "-" + s[24..]
  {
    GroupIsHex(s, 0, 8);
    GroupIsHex(s, 9, 13);
    GroupIsHex(s, 14, 18);
    GroupIsHex(s, 19, 23);
    GroupIsHex(s, 24, 36);
  }

  lemma GroupsHaveNoHyphen(groups: seq<string>)
    requires IsGrouped(groups)
    ensures forall g :: g in groups ==> '-' !in g
  {
  }

  /** A well-formed uuid splits at its hyphens into exactly those groups. */
  lemma UuidExactly(s: string)
    ensures IsUuid(s) <==> IsGrouped(Split(s, '-'))
  {
    if IsUuid(s) {
      var groups := [s[..8], s[9..13], s[14..18], s[19..23], s[24..]];
      UuidIsGroups(s);
      GroupsHaveNoHyphen(groups);
      JoinOfFive(groups[0], groups[1], groups[2], groups[3], groups[4], '-');
      SplitOfJoin(groups, '-');
    }
    if IsGrouped(Split(s, '-')) {
      var groups := Split(s, '-');
      JoinOfSplit(s, '-');
      JoinOfFive(groups[0], groups[1], groups[2], groups[3], groups[4], '-');
      assert groups == [groups[0], groups[1], groups[2], groups[3], groups[4]];
      GroupsAreUuid(groups[0], groups[1], groups[2], groups[3], groups[4], s);
    }
  }

  const NAMESPACES := {"v1:client:", "v1:decision:", "v1:review:", "v1:revert:", "v1:intent:"}

  predicate IsSpelled(key: string, namespace: string, uuid: string) {
    namespace in NAMESPACES && IsUuid(uuid) && (key == namespace + uuid || key == namespace + uuid + "\n")
  }

  lemma KeyIsSpelled(key: string) returns (namespace: string, uuid: string)
    requires IsV1Key(key)
    ensures IsSpelled(key, namespace, uuid)
  {
    namespace :=
      if "v1:client:" <= key then "v1:client:" else if "v1:review:" <= key then "v1:review:"
      else if "v1:revert:" <= key then "v1:revert:" else if "v1:intent:" <= key then "v1:intent:" else "v1:decision:";
    var tail := key[|namespace|..];
    assert NamespaceLength(key) == |namespace| && key[..|namespace|] == namespace;
    uuid := if IsUuid(tail) then tail else tail[..|tail| - 1];
    assert key == namespace + tail;
  }

  lemma SpelledNamespace(key: string, namespace: string, tail: string)
    requires namespace in NAMESPACES && key == namespace + tail
    ensures NamespaceLength(key) == |namespace| && 10 <= |namespace| <= 12
  {
    assert namespace <= key;
    if namespace == "v1:decision:" {
      assert key[3] == namespace[3] == 'd';
      assert "v1:client:"[3] == 'c' && "v1:review:"[3] == 'r' && "v1:revert:"[3] == 'r' && "v1:intent:"[3] == 'i';
    }
  }

  lemma UuidTail(uuid: string, tail: string)
    requires IsUuid(uuid) && (tail == uuid || tail == uuid + "\n")
    ensures EndsInUuid(tail) && 36 <= |tail| <= 37
  {
    assert tail == uuid || tail[..|tail| - 1] == uuid;
  }

  lemma SpelledIsKey(key: string, namespace: string, uuid: string)
    requires IsSpelled(key, namespace, uuid)
    ensures IsV1Key(key)
  {
    var tail := if key == namespace + uuid then uuid else uuid + "\n";
    UuidTail(uuid, tail);
    assert key == namespace + tail;
    SpelledNamespace(key, namespace, tail);
    assert key[|namespace|..] == tail;
  }

  /** A key is a known namespace and a uuid, with at most a final newline; its length is never at stake. */
  lemma KeyExactly(key: string)
    ensures IsV1Key(key) <==> exists namespace, uuid :: IsSpelled(key, namespace, uuid)
  {
    if IsV1Key(key) {
      var namespace, uuid := KeyIsSpelled(key);
    }
    if namespace, uuid :| IsSpelled(key, namespace, uuid) {
      SpelledIsKey(key, namespace, uuid);
    }
  }

  lemma FingerprintExactly(fp: string)
    ensures IsFingerprint(fp) <==> exists digest :: IsHexOf(digest, 64) && fp == "fp1:" + digest
  {
    forall c: char ensures IsHex(c) <==> c in HEX_DIGITS { HexExactly(c); }
    if IsFingerprint(fp) {
      assert fp == "fp1:" + fp[4..];
      assert IsHexOf(fp[4..], 64);
    }
  }

  /** Rows inside the partial unique index on (user_id, idempotency_key). */
  predicate IsIndexed(row: Row) {
    row.key.Some? && "v1:" <= row.key.value
  }

  /** Every claim the executor can make falls inside the index. */
  lemma ValidKeysAreIndexed(key: string)
    requires IsV1Key(key)
    ensures "v1:" <= key
  {
    assert "v1:" <= "v1:client:" && "v1:" <= "v1:review:" && "v1:" <= "v1:revert:";
    assert "v1:" <= "v1:intent:" && "v1:" <= "v1:decision:";
  }

  predicate SameClaim(a: Row, b: Row) {
    IsIndexed(a) && IsIndexed(b) && a.user == b.user && a.key == b.key
  }

  // ---- the guarded updates, one row at a time -------------------------------------------

  function NewRow(user: UserId, key: Option<string>, fp: Option<string>, status: Status, now: int): Row {
    Row(user, key, fp, status, now, None, 0, None, 0, 0, None, None, 0, None, None, None, None, None, None)
  }

  /** The executor's fencing compare-and-set. */
  predicate FenceHits(row: Row, gen: int) {
    row.status == Pending && row.dispatchStartedAt == None && row.generation == gen
  }

  function Fenced(row: Row, now: int): Row {
    row.(status := InFlight, dispatchStartedAt := Some(now), attempts := row.attempts + 1, lastAttemptAt := Some(now))
  }

  predicate IsStale(cfg: Settings, row: Row, now: int) {
    match row.lastReownedAt
    case None => row.createdAt < now - cfg.reownStale
    case Some(at) => at < now - cfg.reownStale
  }

  /** The re-own sweep's compare-and-set, on the values its earlier select saw. */
  predicate ReownHits(cfg: Settings, row: Row, user: UserId, gen: int, key: string, fp: string, now: int) {
    && row.user == user
    && row.status == Pending && row.dispatchStartedAt == None
    && row.generation == gen && row.reowns < cfg.maxReowns
    && row.key == Some(key) && row.fingerprint == Some(fp)
    && IsStale(cfg, row, now)
  }

  function Reowned(row: Row, now: int): Row {
    row.(generation := row.generation + 1, reowns := row.reowns + 1, lastReownedAt := Some(now))
  }

  predicate ReconcileHits(row: Row) {
    row.status == Pending || row.status == InFlight || row.status == Ambiguous
  }

  function NextReconcile(cfg: Settings, verdict: Verdict, attempts: int, now: int): Option<int> {
    if verdict == IntentObserved || attempts >= cfg.maxReconciles then None else Some(now + cfg.backoff)
  }

  /** seen is reconciliation_attempts as the sweep's read phase saw it. */
  function Reconciled(cfg: Settings, row: Row, verdict: Verdict, seen: int, now: int): Row {
    row.(recon := Some(Observed(verdict)), reconAttempts := row.reconAttempts + 1,
         lastReconciledAt := Some(now), nextReconcileAt := NextReconcile(cfg, verdict, seen + 1, now))
  }

  predicate IsDisputed(row: Row) {
    || row.status == Pending || row.status == InFlight || row.status == Ambiguous
    || row.recon == Some(Observed(TargetNotObserved)) || row.recon == Some(Observed(StillUnknown))
    || row.recon == Some(ManualAttention)
  }

  function ResolutionOf(action: Action): Resolution {
    match action
    case ConfirmApplied => ConfirmedApplied
    case ConfirmNotApplied => ConfirmedNotApplied
    case Close => ManualClosed
    case AuthorizeRetry => RetryAuthorized
  }

  predicate AllowedReason(action: Action, reason: string) {
    match action
    case ConfirmApplied => reason == "operator_confirmed_applied"
    case ConfirmNotApplied => reason == "operator_confirmed_not_applied"
    case Close => reason in {"operator_closed_no_action", "stale_pending_review", "ambiguous_needs_review"}
    case AuthorizeRetry => reason == "operator_authorized_retry"
  }

  function WithResolution(row: Row, action: Action, actor: string, now: int): Row {
    row.(resolution := Some(ResolutionOf(action)), resolvedBy := Some(actor), resolvedAt := Some(now))
  }

  /** verified: the stored key and fingerprint are well formed and the recomputed fingerprint matches. */
  predicate ResolveAllowed(row: Row, tenant: UserId, action: Action, reason: string, verified: bool) {
    && action != AuthorizeRetry
    && row.user == tenant
    && AllowedReason(action, reason)
    && IsDisputed(row)
    && (action == Close || verified)
  }

  /** The structural part of resume eligibility, checked on the locked row before the update. */
  predicate ResumeEligible(cfg: Settings, row: Row, tenant: UserId) {
    && row.user == tenant
    && row.status == Pending && row.dispatchStartedAt == None && row.attempts == 0
    && row.key.Some? && IsV1Key(row.key.value)
    && row.fingerprint.Some? && IsFingerprint(row.fingerprint.value)
    && row.reowns < cfg.maxReowns
    && (row.recon == None || row.recon == Some(PendingRecon))
    && row.resolution != Some(ConfirmedApplied) && row.resolution != Some(RetryAuthorized)
  }

  /** The resume compare-and-set. */
  predicate ResumeHits(cfg: Settings, row: Row, tenant: UserId, gen: int, key: Option<string>, fp: Option<string>) {
    && row.user == tenant
    && row.status == Pending && row.dispatchStartedAt == None && row.attempts == 0
    && row.generation == gen
    && row.key.Some? && row.key == key && row.fingerprint.Some? && row.fingerprint == fp
    && row.reowns < cfg.maxReowns
    && (row.resolution == None || row.resolution == Some(ConfirmedNotApplied) || row.resolution == Some(ManualClosed))
  }

  function Resumed(row: Row, actor: string, now: int): Row {
    WithResolution(Fenced(row, now), AuthorizeRetry, actor, now)
  }

  function AuditOf(log: LogId, row: Row, action: Action, actor: string, reason: string, corr: string, now: int): Audit {
    Audit(log, action, row.status, row.resolution, ResolutionOf(action), actor, reason, corr, now)
  }

  predicate CorrelationUsed(audits: seq<Audit>, corr: string) {
    exists a :: a in audits && a.correlation == corr
  }

  predicate ClaimFree(rows: Rows, user: UserId, key: string) {
    forall id :: id in rows ==> !(IsIndexed(rows[id]) && rows[id].user == user && rows[id].key == Some(key))
  }
}
