/**
 The in-memory sliding-window limiter. Times are integers on one nondecreasing clock.
 */
module RateLimit {
  import opened Common

  type Times = seq<int>
  type Buckets = map<string, Times>

  datatype Request = Request(key: string, now: int)

  /** The limit and window of a key; every endpoint uses one pair for all its keys. */
  datatype Policy = Policy(limit: string -> int, window: string -> int)

  /** The entries newer than the cutoff, oldest first. */
  function Recent(ts: Times, cutoff: int): (r: Times)
    ensures |r| <= |ts| && forall t :: t in r <==> t in ts && t > cutoff
  {
    if ts == [] then []
    else Recent(ts[..|ts| - 1], cutoff) + if ts[|ts| - 1] > cutoff then [ts[|ts| - 1]] else []
  }

  /** A missing key is an empty bucket. */
  function Bucket(buckets: Buckets, key: string): Times {
    if key in buckets then buckets[key] else []
  }

  predicate Admits(p: Policy, ts: Times, hit: Request) {
    |Recent(ts, hit.now - p.window(hit.key))| < p.limit(hit.key)
  }

  /** An accepted hit prunes its bucket; a rejected one leaves the stored entries alone. */
  function AfterHit(p: Policy, buckets: Buckets, hit: Request): Buckets {
    var kept := Recent(Bucket(buckets, hit.key), hit.now - p.window(hit.key));
    if Admits(p, Bucket(buckets, hit.key), hit) then buckets[hit.key := kept + [hit.now]]
    else buckets[hit.key := Bucket(buckets, hit.key)]
  }

  class SlidingWindow {
    var ts: Buckets

    constructor ()
      ensures ts == map[]
    {
      ts := map[];
    }

    /** ok is false when the source answers 429. Looking a key up creates its empty bucket. */
    method Hit(key: string, limit: int, window: int, now: int) returns (ok: bool)
      modifies this
      ensures var p := Policy(_ => limit, _ => window);
        && ok == Admits(p, Bucket(old(ts), key), Request(key, now))
        && ts == AfterHit(p, old(ts), Request(key, now))
    {
      if key !in ts { ts := ts[key := []]; }
      var cutoff := now - window;
      var bucket := Recent(ts[key], cutoff);
      ok := |bucket| < limit;
      if ok { ts := ts[key := bucket + [now]]; }
    }
  }

  /** The decisions of a run of hits, oldest first. */
  function Decisions(p: Policy, buckets: Buckets, hits: seq<Request>): (r: seq<bool>)
    ensures |r| == |hits|
    decreases |hits|
  {
    if hits == [] then []
    else [Admits(p, Bucket(buckets, hits[0].key), hits[0])] + Decisions(p, AfterHit(p, buckets, hits[0]), hits[1..])
  }

  // ---- the log that forgets nothing -----------------------------------------------------

  /** Every accepted hit, kept forever. */
  function Logged(p: Policy, log: Buckets, hit: Request): Buckets {
    if Admits(p, Bucket(log, hit.key), hit) then log[hit.key := Bucket(log, hit.key) + [hit.now]] else log
  }

  function LogDecisions(p: Policy, log: Buckets, hits: seq<Request>): (r: seq<bool>)
    ensures |r| == |hits|
    decreases |hits|
  {
    if hits == [] then []
    else [Admits(p, Bucket(log, hits[0].key), hits[0])] + LogDecisions(p, Logged(p, log, hits[0]), hits[1..])
  }

  function LogAfter(p: Policy, log: Buckets, hits: seq<Request>): Buckets
    decreases |hits|
  {
    if hits == [] then log else LogAfter(p, Logged(p, log, hits[0]), hits[1..])
  }

  predicate Nondecreasing(hits: seq<Request>) {
    forall i, j :: 0 <= i < j < |hits| ==> hits[i].now <= hits[j].now
  }

  lemma {:induction false} RecentOfConcat(a: Times, b: Times, cutoff: int)
    ensures Recent(a + b, cutoff) == Recent(a, cutoff) + Recent(b, cutoff)
  {
    if b == [] {
      assert a + b == a;
    } else {
      assert (a + b)[..|a + b| - 1] == a + b[..|b| - 1];
      RecentOfConcat(a, b[..|b| - 1], cutoff);
    }
  }

  lemma {:induction false} RecentTwice(ts: Times, early: int, late: int)
    requires early <= late
    ensures Recent(Recent(ts, early), late) == Recent(ts, late)
  {
    if ts != [] {
      RecentTwice(ts[..|ts| - 1], early, late);
      var last := if ts[|ts| - 1] > early then [ts[|ts| - 1]] else [];
      RecentOfConcat(Recent(ts[..|ts| - 1], early), last, late);
    }
  }

  /** A bucket shows the same recent entries as the log, for every cutoff from now on. */
  ghost predicate Agrees(p: Policy, buckets: Buckets, log: Buckets, now: int) {
    forall key, late :: late >= now - p.window(key) ==>
      Recent(Bucket(buckets, key), late) == Recent(Bucket(log, key), late)
  }

  /** The accepted and the rejected case for the key that was hit. */
  lemma {:induction false} PruningKeepsRecent(p: Policy, bucket: Times, log: Times, hit: Request, late: int)
    requires forall c :: c >= hit.now - p.window(hit.key) ==> Recent(bucket, c) == Recent(log, c)
    requires late >= hit.now - p.window(hit.key)
    ensures Recent(Recent(bucket, hit.now - p.window(hit.key)) + [hit.now], late) == Recent(log + [hit.now], late)
  {
    var cutoff := hit.now - p.window(hit.key);
    assert Recent(bucket, late) == Recent(log, late);
    RecentTwice(bucket, cutoff, late);
    RecentOfConcat(Recent(bucket, cutoff), [hit.now], late);
    RecentOfConcat(log, [hit.now], late);
  }

  lemma {:induction false} AgreementDecidesAlike(p: Policy, buckets: Buckets, log: Buckets, hit: Request)
    requires Agrees(p, buckets, log, hit.now)
    ensures Admits(p, Bucket(buckets, hit.key), hit) == Admits(p, Bucket(log, hit.key), hit)
  {
    var cutoff := hit.now - p.window(hit.key);
    assert Recent(Bucket(buckets, hit.key), cutoff) == Recent(Bucket(log, hit.key), cutoff);
  }

  lemma {:induction false} HitKeepsAgreement(p: Policy, buckets: Buckets, log: Buckets, hit: Request)
    requires Agrees(p, buckets, log, hit.now)
    ensures Agrees(p, AfterHit(p, buckets, hit), Logged(p, log, hit), hit.now)
  {
    var b, l := AfterHit(p, buckets, hit), Logged(p, log, hit);
    AgreementDecidesAlike(p, buckets, log, hit);
    forall key, late | late >= hit.now - p.window(key)
      ensures Recent(Bucket(b, key), late) == Recent(Bucket(l, key), late)
    {
      assert Recent(Bucket(buckets, key), late) == Recent(Bucket(log, key), late);
      if key == hit.key && Admits(p, Bucket(log, key), hit) {
        PruningKeepsRecent(p, Bucket(buckets, key), Bucket(log, key), hit, late);
      }
    }
  }

  lemma {:induction false} RefinesLogFrom(p: Policy, buckets: Buckets, log: Buckets, hits: seq<Request>)
    requires Nondecreasing(hits)
    requires hits != [] ==> Agrees(p, buckets, log, hits[0].now)
    ensures Decisions(p, buckets, hits) == LogDecisions(p, log, hits)
    decreases |hits|
  {
    if hits != [] {
      AgreementDecidesAlike(p, buckets, log, hits[0]);
      HitKeepsAgreement(p, buckets, log, hits[0]);
      RefinesLogFrom(p, AfterHit(p, buckets, hits[0]), Logged(p, log, hits[0]), hits[1..]);
    }
  }

  /**
   The forgetful limiter decides every run like the log that forgets nothing: a hit is accepted
   exactly when fewer than limit of all previously accepted hits of its key are inside the window.
   */
  lemma {:induction false} LimiterRefinesLog(p: Policy, hits: seq<Request>)
    requires Nondecreasing(hits)
    ensures Decisions(p, map[], hits) == LogDecisions(p, map[], hits)
  {
    RefinesLogFrom(p, map[], map[], hits);
  }

  // ---- the bound ------------------------------------------------------------------------

  /** Accepted entries of one key in the half-open interval (from, to]. */
  function Within(ts: Times, from: int, to: int): nat {
    if ts == [] then 0
    else Within(ts[..|ts| - 1], from, to) + if from < ts[|ts| - 1] <= to then 1 else 0
  }

  lemma {:induction false} WithinRecent(ts: Times, from: int, to: int, cutoff: int)
    requires cutoff <= from
    ensures Within(ts, from, to) <= |Recent(ts, cutoff)|
  {
    if ts != [] {
      WithinRecent(ts[..|ts| - 1], from, to, cutoff);
    }
  }

  /** Each entry was admitted by the ones before it. */
  predicate Admitted(ts: Times, limit: int, window: int) {
    ts != [] ==>
      && Admitted(ts[..|ts| - 1], limit, window)
      && |Recent(ts[..|ts| - 1], ts[|ts| - 1] - window)| < limit
  }

  lemma {:induction false} AdmittedIsBounded(ts: Times, limit: int, window: int, t: int)
    requires Admitted(ts, limit, window)
    ensures Within(ts, t - window, t) <= if limit > 0 then limit else 0
  {
    if ts != [] {
      var earlier, last := ts[..|ts| - 1], ts[|ts| - 1];
      AdmittedIsBounded(earlier, limit, window, t);
      if last <= t {
        WithinRecent(earlier, t - window, t, last - window);
      }
    }
  }

  lemma {:induction false} LoggingKeepsAdmitted(p: Policy, log: Buckets, hit: Request, key: string)
    requires Admitted(Bucket(log, key), p.limit(key), p.window(key))
    ensures Admitted(Bucket(Logged(p, log, hit), key), p.limit(key), p.window(key))
  {
    var longer := Bucket(log, key) + [hit.now];
    assert longer[..|longer| - 1] == Bucket(log, key);
  }

  lemma {:induction false} LogIsAdmitted(p: Policy, log: Buckets, hits: seq<Request>, key: string)
    requires Admitted(Bucket(log, key), p.limit(key), p.window(key))
    ensures Admitted(Bucket(LogAfter(p, log, hits), key), p.limit(key), p.window(key))
    decreases |hits|
  {
    if hits != [] {
      LoggingKeepsAdmitted(p, log, hits[0], key);
      LogIsAdmitted(p, Logged(p, log, hits[0]), hits[1..], key);
    }
  }

  /** The accepted hits of one key, read off the decisions alone. */
  function AcceptedTimes(hits: seq<Request>, decisions: seq<bool>, key: string): Times
    requires |hits| == |decisions|
  {
    if hits == [] then []
    else (if decisions[0] && hits[0].key == key then [hits[0].now] else [])
         + AcceptedTimes(hits[1..], decisions[1..], key)
  }

  lemma {:induction false} LogHoldsAccepted(p: Policy, log: Buckets, hits: seq<Request>, key: string)
    ensures Bucket(LogAfter(p, log, hits), key)
      == Bucket(log, key) + AcceptedTimes(hits, LogDecisions(p, log, hits), key)
    decreases |hits|
  {
    if hits != [] {
      var next := Logged(p, log, hits[0]);
      LogHoldsAccepted(p, next, hits[1..], key);
      assert LogDecisions(p, log, hits)[1..] == LogDecisions(p, next, hits[1..]);
    }
  }

  /** Over any run of the limiter, every window-long interval holds at most limit accepted hits of a key. */
  lemma {:induction false} EveryWindowIsBounded(p: Policy, hits: seq<Request>, key: string, t: int)
    requires Nondecreasing(hits)
    ensures Within(AcceptedTimes(hits, Decisions(p, map[], hits), key), t - p.window(key), t)
      <= if p.limit(key) > 0 then p.limit(key) else 0
  {
    LimiterRefinesLog(p, hits);
    LogIsAdmitted(p, map[], hits, key);
    LogIsAccepted(p, hits, key);
    AdmittedIsBounded(AcceptedTimes(hits, Decisions(p, map[], hits), key), p.limit(key), p.window(key), t);
  }

  lemma {:induction false} LogDecisionsOfConcat(p: Policy, log: Buckets, before: seq<Request>, later: seq<Request>)
    ensures LogDecisions(p, log, before + later)
      == LogDecisions(p, log, before) + LogDecisions(p, LogAfter(p, log, before), later)
    decreases |before|
  {
    if before == [] {
      assert before + later == later;
    } else {
      assert (before + later)[1..] == before[1..] + later;
      LogDecisionsOfConcat(p, Logged(p, log, before[0]), before[1..], later);
    }
  }

  lemma {:induction false} RecentIsWithin(ts: Times, cutoff: int, now: int)
    requires forall i :: 0 <= i < |ts| ==> ts[i] <= now
    ensures |Recent(ts, cutoff)| == Within(ts, cutoff, now)
  {
    if ts != [] {
      RecentIsWithin(ts[..|ts| - 1], cutoff, now);
    }
  }

  lemma {:induction false} AcceptedAreHits(hits: seq<Request>, decisions: seq<bool>, key: string, now: int)
    requires |hits| == |decisions| && forall i :: 0 <= i < |hits| ==> hits[i].now <= now
    ensures forall i :: 0 <= i < |AcceptedTimes(hits, decisions, key)| ==> AcceptedTimes(hits, decisions, key)[i] <= now
  {
    if hits != [] {
      AcceptedAreHits(hits[1..], decisions[1..], key, now);
    }
  }

  /** The full log of a run from the start is the list of its accepted hits. */
  lemma {:induction false} LogIsAccepted(p: Policy, hits: seq<Request>, key: string)
    ensures Bucket(LogAfter(p, map[], hits), key) == AcceptedTimes(hits, LogDecisions(p, map[], hits), key)
  {
    LogHoldsAccepted(p, map[], hits, key);
  }

  lemma {:induction false} AdmittedExactly(p: Policy, ts: Times, hit: Request)
    requires forall i :: 0 <= i < |ts| ==> ts[i] <= hit.now
    ensures Admits(p, ts, hit) <==> Within(ts, hit.now - p.window(hit.key), hit.now) < p.limit(hit.key)
  {
    RecentIsWithin(ts, hit.now - p.window(hit.key), hit.now);
  }

  lemma {:induction false} DecisionAt(p: Policy, hits: seq<Request>, k: nat)
    requires k < |hits|
    ensures LogDecisions(p, map[], hits)[..k] == LogDecisions(p, map[], hits[..k])
    ensures LogDecisions(p, map[], hits)[k] == Admits(p, Bucket(LogAfter(p, map[], hits[..k]), hits[k].key), hits[k])
  {
    assert hits == hits[..k] + hits[k..];
    LogDecisionsOfConcat(p, map[], hits[..k], hits[k..]);
  }

  /**
   A hit is accepted exactly when fewer than limit of all previously accepted hits of its key lie
   in the window that ends with it.
   */
  lemma {:induction false} HitIsAcceptedExactly(p: Policy, hits: seq<Request>, k: nat)
    requires Nondecreasing(hits) && k < |hits|
    ensures var accepted := AcceptedTimes(hits[..k], Decisions(p, map[], hits)[..k], hits[k].key);
      Decisions(p, map[], hits)[k] <==>
        Within(accepted, hits[k].now - p.window(hits[k].key), hits[k].now) < p.limit(hits[k].key)
  {
    LimiterRefinesLog(p, hits);
    DecisionAt(p, hits, k);
    LogIsAccepted(p, hits[..k], hits[k].key);
    AcceptedAreHits(hits[..k], LogDecisions(p, map[], hits[..k]), hits[k].key, hits[k].now);
    AdmittedExactly(p, Bucket(LogAfter(p, map[], hits[..k]), hits[k].key), hits[k]);
  }

  // ---- rejected hits and memory ---------------------------------------------------------

  ghost predicate SameBuckets(a: Buckets, b: Buckets) {
    forall key :: Bucket(a, key) == Bucket(b, key)
  }

  lemma {:induction false} SameBucketsStaySame(p: Policy, a: Buckets, b: Buckets, hit: Request)
    requires SameBuckets(a, b)
    ensures SameBuckets(AfterHit(p, a, hit), AfterHit(p, b, hit))
  {
    forall key ensures Bucket(AfterHit(p, a, hit), key) == Bucket(AfterHit(p, b, hit), key) {
      assert Bucket(a, key) == Bucket(b, key) && Bucket(a, hit.key) == Bucket(b, hit.key);
    }
  }

  lemma {:induction false} SameBucketsDecideAlike(p: Policy, a: Buckets, b: Buckets, hits: seq<Request>)
    requires SameBuckets(a, b)
    ensures Decisions(p, a, hits) == Decisions(p, b, hits)
    decreases |hits|
  {
    if hits != [] {
      assert Bucket(a, hits[0].key) == Bucket(b, hits[0].key);
      SameBucketsStaySame(p, a, b, hits[0]);
      SameBucketsDecideAlike(p, AfterHit(p, a, hits[0]), AfterHit(p, b, hits[0]), hits[1..]);
    }
  }

  function Drop<T>(xs: seq<T>, k: nat): seq<T>
    requires k < |xs|
  {
    xs[..k] + xs[k + 1..]
  }

  lemma {:induction false} DropLater<T>(x: T, xs: seq<T>, k: nat)
    requires k < |xs|
    ensures Drop([x] + xs, k + 1) == [x] + Drop(xs, k)
  {
  }

  lemma {:induction false} DecideFirst(p: Policy, buckets: Buckets, hit: Request, later: seq<Request>)
    ensures Decisions(p, buckets, [hit] + later)
      == [Admits(p, Bucket(buckets, hit.key), hit)] + Decisions(p, AfterHit(p, buckets, hit), later)
  {
    assert ([hit] + later)[1..] == later;
  }

  lemma {:induction false} RejectedFirst(p: Policy, buckets: Buckets, hit: Request, later: seq<Request>)
    requires !Admits(p, Bucket(buckets, hit.key), hit)
    ensures Decisions(p, buckets, later) == Decisions(p, AfterHit(p, buckets, hit), later)
  {
    SameBucketsDecideAlike(p, buckets, AfterHit(p, buckets, hit), later);
  }

  lemma {:induction false} RejectedLater(p: Policy, buckets: Buckets, first: Request, later: seq<Request>, k: nat)
    requires k < |later|
    requires var next := AfterHit(p, buckets, first);
      Decisions(p, next, Drop(later, k)) == Drop(Decisions(p, next, later), k)
    ensures Decisions(p, buckets, Drop([first] + later, k + 1)) == Drop(Decisions(p, buckets, [first] + later), k + 1)
  {
    var next, admitted := AfterHit(p, buckets, first), Admits(p, Bucket(buckets, first.key), first);
    DropLater(first, later, k);
    DecideFirst(p, buckets, first, later);
    DecideFirst(p, buckets, first, Drop(later, k));
    DropLater(admitted, Decisions(p, next, later), k);
  }

  /** Taking a rejected hit out of a run changes no other decision, on any clock. */
  lemma {:induction false} RejectedHitsLeaveNoTrace(p: Policy, buckets: Buckets, hits: seq<Request>, k: nat)
    requires k < |hits| && !Decisions(p, buckets, hits)[k]
    ensures Decisions(p, buckets, Drop(hits, k)) == Drop(Decisions(p, buckets, hits), k)
    decreases k
  {
    assert hits == [hits[0]] + hits[1..];
    DecideFirst(p, buckets, hits[0], hits[1..]);
    if k == 0 {
      assert Drop(hits, 0) == hits[1..];
      RejectedFirst(p, buckets, hits[0], hits[1..]);
    } else {
      RejectedHitsLeaveNoTrace(p, AfterHit(p, buckets, hits[0]), hits[1..], k - 1);
      RejectedLater(p, buckets, hits[0], hits[1..], k - 1);
    }
  }

  ghost predicate Bounded(p: Policy, buckets: Buckets) {
    forall key :: |Bucket(buckets, key)| <= if p.limit(key) > 0 then p.limit(key) else 0
  }

  function BucketsAfter(p: Policy, buckets: Buckets, hits: seq<Request>): Buckets
    decreases |hits|
  {
    if hits == [] then buckets else BucketsAfter(p, AfterHit(p, buckets, hits[0]), hits[1..])
  }

  /** No bucket ever grows past its limit, on any clock. */
  lemma {:induction false} BucketsStayBounded(p: Policy, buckets: Buckets, hits: seq<Request>)
    requires Bounded(p, buckets)
    ensures Bounded(p, BucketsAfter(p, buckets, hits))
    decreases |hits|
  {
    if hits != [] {
      var next := AfterHit(p, buckets, hits[0]);
      forall key ensures |Bucket(next, key)| <= if p.limit(key) > 0 then p.limit(key) else 0 {
        assert |Bucket(buckets, key)| <= if p.limit(key) > 0 then p.limit(key) else 0;
      }
      BucketsStayBounded(p, next, hits[1..]);
    }
  }

  // ---- one pair per key -----------------------------------------------------------------

  datatype Endpoint = Auth | Ai | Rebuild | Import

  function Name(e: Endpoint): string {
    match e case Auth => "auth" case Ai => "ai" case Rebuild => "rebuild" case Import => "import"
  }

  function KeyFor(e: Endpoint, identity: string): string {
    Name(e) + ":" + identity
  }

  function LimitFor(e: Endpoint): int {
    match e case Auth => 5 case Ai => 10 case Rebuild => 3 case Import => 5
  }

  function WindowFor(e: Endpoint): int {
    match e case Auth => 60 case Ai => 60 case Rebuild => 60 case Import => 600
  }

  /** Whatever the identity contains, no two endpoints, and no two identities of one, share a bucket. */
  lemma {:induction false} EndpointsShareNoBucket(e: Endpoint, x: string, f: Endpoint, y: string)
    requires KeyFor(e, x) == KeyFor(f, y)
    ensures e == f && x == y
  {
    var k := KeyFor(e, x);
    assert k[|Name(e)|] == ':' && k[|Name(f)|] == ':';
    assert k[..|Name(e)|] == Name(e) && k[..|Name(f)|] == Name(f);
    assert |Name(e)| == |Name(f)|;
    assert x == k[|Name(e)| + 1..] && y == k[|Name(f)| + 1..];
  }

  /** The endpoint a key belongs to, by the part before its first colon. */
  function EndpointOf(key: string): Option<Endpoint> {
    var name := Before(key, ':');
    if name == Name(Auth) then Some(Auth)
    else if name == Name(Ai) then Some(Ai)
    else if name == Name(Rebuild) then Some(Rebuild)
    else if name == Name(Import) then Some(Import)
    else None
  }

  /** The limits of the four endpoints as one policy on keys. */
  function Limits(): Policy {
    Policy(key => if EndpointOf(key).Some? then LimitFor(EndpointOf(key).value) else 0,
           key => if EndpointOf(key).Some? then WindowFor(EndpointOf(key).value) else 0)
  }

  lemma {:induction false} BeforeColon(name: string, rest: string)
    requires ':' !in name
    ensures Before(name + ":" + rest, ':') == name
  {
    if name != [] {
      assert (name + ":" + rest)[1..] == name[1..] + ":" + rest;
      BeforeColon(name[1..], rest);
    }
  }

  lemma {:induction false} NamesDiffer(e: Endpoint, f: Endpoint)
    requires Name(e) == Name(f)
    ensures e == f && ':' !in Name(e)
  {
    assert |Name(e)| == |Name(f)|;
  }

  /** One limit and one window govern every key an endpoint makes, whatever the identity contains. */
  lemma {:induction false} OnePolicyGovernsAllKeys(e: Endpoint, identity: string)
    ensures Limits().limit(KeyFor(e, identity)) == LimitFor(e)
    ensures Limits().window(KeyFor(e, identity)) == WindowFor(e)
  {
    NamesDiffer(e, e);
    BeforeColon(Name(e), identity);
    assert EndpointOf(KeyFor(e, identity)) == Some(e) by {
      forall f | Name(f) == Name(e) ensures f == e { NamesDiffer(f, e); }
    }
  }

  /** The declared pairs, key by key. */
  lemma {:induction false} LimitsAreDeclared(identity: string)
    ensures Limits().limit("auth:" + identity) == 5 && Limits().window("auth:" + identity) == 60
    ensures Limits().limit("ai:" + identity) == 10 && Limits().window("ai:" + identity) == 60
    ensures Limits().limit("rebuild:" + identity) == 3 && Limits().window("rebuild:" + identity) == 60
    ensures Limits().limit("import:" + identity) == 5 && Limits().window("import:" + identity) == 600
    ensures KeyFor(Auth, identity) == "auth:" + identity && KeyFor(Ai, identity) == "ai:" + identity
    ensures KeyFor(Rebuild, identity) == "rebuild:" + identity && KeyFor(Import, identity) == "import:" + identity
  {
    assert "auth" + ":" == "auth:" && "ai" + ":" == "ai:";
    assert "rebuild" + ":" == "rebuild:" && "import" + ":" == "import:";
    OnePolicyGovernsAllKeys(Auth, identity);
    OnePolicyGovernsAllKeys(Ai, identity);
    OnePolicyGovernsAllKeys(Rebuild, identity);
    OnePolicyGovernsAllKeys(Import, identity);
  }

  /** So every identity gets at most its endpoint's limit in any of the endpoint's windows. */
  lemma {:induction false} EndpointsAreBounded(hits: seq<Request>, e: Endpoint, identity: string, t: int)
    requires Nondecreasing(hits)
    ensures Within(AcceptedTimes(hits, Decisions(Limits(), map[], hits), KeyFor(e, identity)), t - WindowFor(e), t)
      <= LimitFor(e)
  {
    OnePolicyGovernsAllKeys(e, identity);
    EveryWindowIsBounded(Limits(), hits, KeyFor(e, identity), t);
  }
}
