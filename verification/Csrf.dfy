/** The paths the origin guard lets through without an origin. */
module Csrf {
  import opened Strings

  const PREFIX := ["", "api", "internal", "recovery", "operations"]

  predicate IsAction(s: string) {
    s == "confirm-applied" || s == "confirm-not-applied" || s == "close" || s == "authorize-retry"
  }

  /** Exactly two more parts than the prefix: a non-empty one and an action. */
  predicate Extends(parts: seq<string>, prefix: seq<string>) {
    && |parts| == |prefix| + 2 && parts[..|prefix|] == prefix
    && parts[|prefix|] != [] && IsAction(parts[|prefix| + 1])
  }

  predicate IsRecoveryResolutionPost(verb: string, path: string) {
    verb == "POST" && Extends(Split(path, '/'), PREFIX)
  }

  predicate IsExempt(path: string) {
    path == "/api/payments/webhook" || path == "/api/decisions/measurements/close-due" || "/api/admin/promo" <= path
  }

  /** Whether the guard asks for an origin or a referer. */
  predicate IsGuarded(verb: string, path: string) {
    && (verb == "POST" || verb == "PUT" || verb == "PATCH" || verb == "DELETE")
    && "/api/" <= path && !IsExempt(path) && !IsRecoveryResolutionPost(verb, path)
  }

  predicate IsOperatorPath(base: string, path: string, id: string, action: string) {
    id != [] && '/' !in id && IsAction(action) && path == base + "/" + id + "/" + action
  }

  ghost predicate IsOperatorRequest(base: string, path: string) {
    exists id, action :: IsOperatorPath(base, path, id, action)
  }

  lemma PathOfParts(prefix: seq<string>, id: string, action: string)
    requires prefix != []
    ensures Join(prefix + [id, action], '/') == Join(prefix, '/') + "/" + id + "/" + action
  {
    JoinOfConcat(prefix, [id, action], '/');
    assert [id, action][1..] == [action];
  }

  lemma ActionsHaveNoSlash(s: string)
    requires IsAction(s)
    ensures '/' !in s
  {
  }

  lemma LastTwo(parts: seq<string>, n: nat)
    requires |parts| == n + 2
    ensures parts == parts[..n] + [parts[n], parts[n + 1]]
  {
  }

  lemma ExtendingPath(prefix: seq<string>, path: string) returns (id: string, action: string)
    requires prefix != [] && Extends(Split(path, '/'), prefix)
    ensures IsOperatorPath(Join(prefix, '/'), path, id, action)
  {
    var parts := Split(path, '/');
    id, action := parts[|prefix|], parts[|prefix| + 1];
    assert id in parts;
    LastTwo(parts, |prefix|);
    JoinOfSplit(path, '/');
    PathOfParts(prefix, id, action);
  }

  lemma OperatorPathExtends(prefix: seq<string>, path: string, id: string, action: string)
    requires prefix != [] && forall p :: p in prefix ==> '/' !in p
    requires IsOperatorPath(Join(prefix, '/'), path, id, action)
    ensures Extends(Split(path, '/'), prefix)
  {
    PathOfParts(prefix, id, action);
    ActionsHaveNoSlash(action);
    SplitOfJoin(prefix + [id, action], '/');
  }

  lemma ExtendsExactly(prefix: seq<string>, path: string)
    requires prefix != [] && forall p :: p in prefix ==> '/' !in p
    ensures Extends(Split(path, '/'), prefix) <==> IsOperatorRequest(Join(prefix, '/'), path)
  {
    if Extends(Split(path, '/'), prefix) {
      var id, action := ExtendingPath(prefix, path);
    } else if IsOperatorRequest(Join(prefix, '/'), path) {
      var id, action :| IsOperatorPath(Join(prefix, '/'), path, id, action);
      OperatorPathExtends(prefix, path, id, action);
    }
  }

  const BASE := "" + "/" + "api" + "/" + "internal" + "/" + "recovery" + "/" + "operations"

  lemma PrefixHasNoSlash()
    ensures forall p :: p in PREFIX ==> '/' !in p
  {
    assert PREFIX == ["", "api", "internal", "recovery", "operations"];
    assert '/' !in "api" && '/' !in "internal" && '/' !in "recovery" && '/' !in "operations";
  }

  /** The operator exemption accepts exactly a POST to the fixed prefix, one id and a listed action. */
  lemma ResolutionPostExactly(verb: string, path: string)
    ensures IsRecoveryResolutionPost(verb, path) <==>
      verb == "POST" && IsOperatorRequest(BASE, path)
  {
    JoinOfFive("", "api", "internal", "recovery", "operations", '/');
    PrefixHasNoSlash();
    ExtendsExactly(PREFIX, path);
  }

  lemma BasePathIsNotExempt(path: string)
    requires BASE <= path
    ensures !IsExempt(path) && "/api/" <= path
  {
    var a, b, c := "/api/payments/webhook", "/api/decisions/measurements/close-due", "/api/admin/promo";
    assert path[5] == BASE[5] == 'i' && a[5] == 'p' && b[5] == 'd' && c[5] == 'a';
    assert path[..5] == BASE[..5] == "/api/";
  }

  /** Inside the recovery tree every state-changing request is guarded, but for exactly those POSTs. */
  lemma RecoveryTreeStaysGuarded(verb: string, path: string)
    requires verb == "POST" || verb == "PUT" || verb == "PATCH" || verb == "DELETE"
    requires BASE <= path
    ensures IsGuarded(verb, path) <==>
      !(verb == "POST" && IsOperatorRequest(BASE, path))
  {
    BasePathIsNotExempt(path);
    ResolutionPostExactly(verb, path);
  }

  /** An operator's request, spelled out. */
  predicate IsSpelledOut(path: string, id: string, action: string) {
    && id != [] && '/' !in id
    && action in {"confirm-applied", "confirm-not-applied", "close", "authorize-retry"}
    && path == "/api/internal/recovery/operations/" + id + "/" + action
  }

  lemma BaseWithSlash()
    ensures BASE + "/" == "/api/internal/recovery/operations/"
  {
  }

  lemma BaseIsSpelled(id: string, action: string)
    ensures BASE + "/" + id + "/" + action == "/api/internal/recovery/operations/" + id + "/" + action
  {
    BaseWithSlash();
  }

  lemma OperatorRequestExactly(path: string)
    ensures IsOperatorRequest(BASE, path) <==> exists id, action :: IsSpelledOut(path, id, action)
  {
    forall id, action ensures IsOperatorPath(BASE, path, id, action) <==> IsSpelledOut(path, id, action) {
      BaseIsSpelled(id, action);
    }
  }

  /** The guard asks for an origin exactly for state-changing API requests outside the listed exemptions. */
  lemma GuardedExactly(verb: string, path: string)
    ensures IsGuarded(verb, path) <==>
      && verb in {"POST", "PUT", "PATCH", "DELETE"} && "/api/" <= path
      && path !in {"/api/payments/webhook", "/api/decisions/measurements/close-due"}
      && !("/api/admin/promo" <= path)
      && !(verb == "POST" && exists id, action :: IsSpelledOut(path, id, action))
  {
    ResolutionPostExactly(verb, path);
    OperatorRequestExactly(path);
  }
}
