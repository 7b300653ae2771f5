/**
 What the cabinet constraints guarantee in every consistent database: NULL-proof uniqueness, and
 what exactly disappears with a cabinet, a store, a product or a policy.
 */
module CabinetGuarantees {
  import opened Common
  import opened Tables
  import opened Relational
  import opened CabinetSchema

  // ---- uniqueness -----------------------------------------------------------------------

  lemma SharedKeyMeansSameRow(db: Db, p: Pk, q: Pk, k: Key)
    requires Consistent(SCHEMA, db) && p in db && q in db
    requires k in Holds(p, db[p]) && k in Holds(q, db[q])
    ensures p == q
  {
    assert p != q ==> NoClash(SCHEMA, p, db[p], q, db[q]);
  }

  const TERMINAL := {VerifiedSuccess, Rejected, ManualAttention}

  /**
   At most one non-terminal action per store, product and promotion; an unknown promotion counts as
   one value, and a row in cooldown as non-terminal.
   */
  lemma AtMostOneActiveAction(db: Db, p: Pk, q: Pk)
    requires Consistent(SCHEMA, db) && p in db && q in db && db[p].Action? && db[q].Action?
    requires db[p].state !in TERMINAL && db[q].state !in TERMINAL
    requires db[p].store == db[q].store && db[p].product == db[q].product && db[p].promo == db[q].promo
    ensures p == q
  {
    assert SCHEMA.fits(p, db[p]) && SCHEMA.fits(q, db[q]);
    SharedKeyMeansSameRow(db, p, q, ActiveAction(db[p].store, db[p].product, db[p].promoKey));
  }

  /** One price row per store, external product, kind, promotion, source and run. */
  lemma AtMostOnePricePerRun(db: Db, p: Pk, q: Pk)
    requires Consistent(SCHEMA, db) && p in db && q in db && db[p].Price? && db[q].Price?
    requires db[p].store == db[q].store && db[p].external == db[q].external && db[p].kind == db[q].kind
    requires db[p].promo == db[q].promo && db[p].source == db[q].source && db[p].ingest == db[q].ingest
    ensures p == q
  {
    assert SCHEMA.fits(p, db[p]) && SCHEMA.fits(q, db[q]);
    var row := db[p];
    SharedKeyMeansSameRow(db, p, q, PriceRun(row.store, row.external, row.kind, row.promoKey, row.source, row.ingest));
  }

  /** A Wildberries or Ozon cabinet never has two stores. */
  lemma OneStorePerSingleStoreCabinet(db: Db, cabinet: Id, p: Pk, q: Pk)
    requires Consistent(SCHEMA, db) && (AccountOn(db, cabinet, Wildberries) || AccountOn(db, cabinet, Ozon))
    requires p in db && q in db && db[p].Store? && db[q].Store?
    requires db[p].account == cabinet && db[q].account == cabinet
    ensures p == q
  {
    RowIsIsolated(db, p);
    RowIsIsolated(db, q);
    assert SCHEMA.fits(p, db[p]) && SCHEMA.fits(q, db[q]);
    SharedKeyMeansSameRow(db, p, q, StoreKeyIn(cabinet, "primary"));
  }

  /**
   The materialized key separates promotions exactly when none of them is literally named like the
   sentinel: a promotion called __none__ shares its key with the unknown one.
   */
  lemma PromotionKeysCollideExactly(a: Option<string>, b: Option<string>)
    ensures KeyOf(a) == KeyOf(b) <==>
      a == b || (a == None && b == Some("__none__")) || (a == Some("__none__") && b == None)
  {
  }

  /** Two rows of one table that the declared unique constraints and partial indexes exclude. */
  predicate Conflict(a: Row, b: Row) {
    match a
    case Workspace(owner) => b.Workspace? && b.owner == owner
    case Account(_, mp, external) =>
      b.Account? && b.marketplace == mp && external.Some? && b.externalAccount == external
    case Store(account, _, key, external) =>
      b.Store? && b.account == account && (b.storeKey == key || (external.Some? && b.externalStore == external))
    case Product(cabinet, external) =>
      b.Product? && cabinet.Some? && b.cabinet == cabinet && external.Some? && b.externalProduct == external
    case Placement(product, store, _, offer) =>
      b.Placement? && b.store == store && (b.product == product || (offer.Some? && b.offer == offer))
    case Policy(store, scope, _, _) => b.Policy? && b.store == store && b.scope == scope
    case Tax(policy, _, _, _) => b.Tax? && b.policy == policy
    case Cost(_, _, _) => false
    case Evaluation(policy, _, subject, run) =>
      && b.Evaluation? && policy.Some? && b.policyRef == policy
      && subject.Some? && b.subject == subject && run.Some? && b.run == run
    case Action(_, store, product, _, promoKey, state, key, _, _) =>
      && b.Action?
      && (|| b.idempotencyKey == key
          || (&& state !in TERMINAL && b.state !in TERMINAL
              && b.store == store && b.product == product && b.promoKey == promoKey))
    case Price(_, store, _, _, external, kind, _, promoKey, _, _, source, run) =>
      && b.Price? && b.store == store && b.external == external && b.kind == kind
      && b.promoKey == promoKey && b.source == source && b.ingest == run
    case Promo(account, _, _, _, external, promotion, _, _, run) =>
      b.Promo? && b.account == account && b.external == external && b.promotion == promotion && b.ingest == run
    case Evidence(observation, _, external, _, _) =>
      b.Evidence? && b.observation == observation && b.externalId == external
    case Log(user, operation) =>
      b.Log? && b.user == user && operation.Some? && "v1:" <= operation.value && b.operation == operation
    case Audit(_, correlation) => b.Audit? && b.correlation == correlation
    case Connection(_, account, fingerprint) =>
      && b.Connection?
      && ((account.Some? && b.linkedAccount == account) || (fingerprint.Some? && b.fingerprint == fingerprint))
    case Attempt(_, _) => false
  }

  lemma ConflictSharesKey(p: Pk, a: Row, q: Pk, b: Row)
    requires Conflict(a, b)
    ensures exists k :: k in Holds(p, a) && k in Holds(q, b)
  {
    var k := match a
      case Workspace(owner) => WorkspaceOwner(owner)
      case Account(_, mp, external) => ExternalCabinet(mp, external.value)
      case Store(account, _, key, external) =>
        if b.storeKey == key then StoreKeyIn(account, key) else ExternalStoreIn(account, external.value)
      case Product(cabinet, external) => ExternalProductIn(cabinet.value, external.value)
      case Placement(product, store, _, offer) =>
        if b.product == product then PlacementOf(store, product) else OfferIn(store, offer.value)
      case Policy(store, scope, _, _) =>
        if scope.Some? then ProductPolicy(store, scope.value) else StoreWidePolicy(store)
      case Tax(policy, _, _, _) => TaxOf(policy)
      case Evaluation(policy, _, subject, run) => EvaluationRun(policy.value, subject.value, run.value)
      case Action(_, store, product, _, promoKey, _, key, _, _) =>
        if b.idempotencyKey == key then Idempotency(key) else ActiveAction(store, product, promoKey)
      case Price(_, store, _, _, external, kind, _, promoKey, _, _, source, run) =>
        PriceRun(store, external, kind, promoKey, source, run)
      case Promo(account, _, _, _, external, promotion, _, _, run) => PromoRun(account, external, promotion, run)
      case Evidence(observation, _, external, _, _) => EvidenceOf(observation, external)
      case Log(user, operation) => OperationClaim(user, operation.value)
      case Audit(_, correlation) => Correlation(correlation)
      case Connection(_, account, fingerprint) =>
        if account.Some? && b.linkedAccount == account then ConnectionOf(account.value)
        else Fingerprint(fingerprint.value);
    assert k in Holds(p, a) && k in Holds(q, b);
  }

  /** Over every history no two rows conflict. */
  lemma NoTwoRowsConflict(stmts: seq<Statement>, p: Pk, q: Pk)
    requires var db := ExecuteAll(SCHEMA, map[], stmts); p in db && q in db && p != q
    ensures var db := ExecuteAll(SCHEMA, map[], stmts); !Conflict(db[p], db[q])
  {
    var db := ExecuteAll(SCHEMA, map[], stmts);
    CabinetStaysConsistent(stmts);
    assert NoClash(SCHEMA, p, db[p], q, db[q]);
    if Conflict(db[p], db[q]) {
      ConflictSharesKey(p, db[p], q, db[q]);
      assert false;
    }
  }

  // ---- claiming a cabinet ---------------------------------------------------------------

  /**
   Filling in a verified external id is accepted exactly when no other account of any workspace
   holds it on that marketplace.
   */
  lemma ClaimIsAcceptedExactly(db: Db, cabinet: Id, external: string)
    requires Consistent(SCHEMA, db) && AccountPk(cabinet) in db && db[AccountPk(cabinet)].Account?
    requires db[AccountPk(cabinet)].externalAccount == None
    ensures Updatable(SCHEMA, db, AccountPk(cabinet), db[AccountPk(cabinet)].(externalAccount := Some(external))) <==>
      forall q :: q in db && db[q].Account? && q != AccountPk(cabinet) && db[q].externalAccount == Some(external)
        ==> db[q].marketplace != db[AccountPk(cabinet)].marketplace
  {
    var pk := AccountPk(cabinet);
    var mp, row := db[pk].marketplace, db[pk].(externalAccount := Some(external));
    assert SCHEMA.fits(pk, row) by { assert SCHEMA.fits(pk, db[pk]); }
    assert Holds(pk, row) == Holds(pk, db[pk]) + {ExternalCabinet(mp, external)};
    forall k | k in References(SCHEMA, row) ensures Provided(SCHEMA, db[pk := row], k) {
      assert k in References(SCHEMA, db[pk]) && Provided(SCHEMA, db, k);
      StillProvided(SCHEMA, db, pk, row, k);
    }
    forall q | q in db && q != pk
      ensures NoClash(SCHEMA, pk, row, q, db[q]) <==>
        !(db[q].Account? && db[q].marketplace == mp && db[q].externalAccount == Some(external))
    {
      assert NoClash(SCHEMA, pk, db[pk], q, db[q]);
      ExternalIdHolder(q, db[q], mp, external);
    }
  }

  lemma ExternalIdHolder(q: Pk, row: Row, mp: Marketplace, external: string)
    ensures ExternalCabinet(mp, external) in Holds(q, row) <==>
      row.Account? && row.marketplace == mp && row.externalAccount == Some(external)
  {
  }

  // ---- what a delete takes with it ------------------------------------------------------

  /** The rows of one cabinet. */
  predicate Belongs(db: Db, p: Pk, cabinet: Id)
    requires p in db
  {
    match db[p]
    case Account(_, _, _) => p.id == cabinet
    case Store(account, _, _, _) => account == cabinet
    case Product(owner, _) => owner == Some(cabinet)
    case Placement(_, _, account, _) => account == cabinet
    case Policy(store, _, _, _) => StoreIn(db, store, cabinet)
    case Tax(policy, _, _, _) => PolicyIn(db, policy, cabinet)
    case Cost(policy, _, _) => PolicyIn(db, policy, cabinet)
    case Evaluation(_, store, _, _) => StoreIn(db, store, cabinet)
    case Action(_, store, _, _, _, _, _, _, _) => StoreIn(db, store, cabinet)
    case Price(account, _, _, _, _, _, _, _, _, _, _, _) => account == cabinet
    case Promo(account, _, _, _, _, _, _, _, _) => account == cabinet
    case Evidence(observation, account, _, _, store) =>
      PromoIn(db, observation, cabinet) || (store.Some? && account == cabinet)
    case _ => false
  }

  predicate PolicyIn(db: Db, policy: Id, cabinet: Id) {
    PolicyPk(policy) in db && db[PolicyPk(policy)].Policy? && StoreIn(db, db[PolicyPk(policy)].store, cabinet)
  }

  predicate PromoIn(db: Db, observation: Id, cabinet: Id) {
    PromoPk(observation) in db && db[PromoPk(observation)].Promo? && db[PromoPk(observation)].account == cabinet
  }

  function RowsOf(db: Db, cabinet: Id): set<Pk> {
    set p | p in db.Keys && Belongs(db, p, cabinet)
  }

  lemma PlacementReferrerBelongs(db: Db, cabinet: Id, p: Pk, q: Pk, k: Key)
    requires Consistent(SCHEMA, db) && p in db && q in db && k.PlacementOf?
    requires Belongs(db, p, cabinet) && k in Cascades(db[q]) && HolderOk(p, db[p], k)
    ensures Belongs(db, q, cabinet)
  {
    PlacementTies(db, p);
    RowIsIsolated(db, q);
  }

  /** A row that references a row of the cabinet ON DELETE CASCADE is a row of the cabinet. */
  lemma ReferrerBelongs(db: Db, cabinet: Id, p: Pk, q: Pk, k: Key)
    requires Consistent(SCHEMA, db) && p in db && q in db
    requires Belongs(db, p, cabinet) && k in Cascades(db[q]) && HolderOk(p, db[p], k)
    ensures Belongs(db, q, cabinet)
  {
    if k.PlacementOf? {
      PlacementReferrerBelongs(db, cabinet, p, q, k);
    }
  }

  lemma BelongingIsClosed(db: Db, cabinet: Id, p: Pk, q: Pk)
    requires Consistent(SCHEMA, db) && p in db && q in db
    requires Belongs(db, p, cabinet) && Drags(SCHEMA, db, p, q)
    ensures Belongs(db, q, cabinet)
  {
    var k :| k in SCHEMA.cascades(db[q]) && k in Offers(SCHEMA, p, db[p]);
    assert SCHEMA.fits(p, db[p]);
    HolderIsOk(p, db[p], k);
    ReferrerBelongs(db, cabinet, p, q, k);
  }

  /** A cascade follows every reference a row declares ON DELETE CASCADE. */
  lemma Follows(db: Db, gone: set<Pk>, p: Pk, q: Pk, k: Key)
    requires IsClosed(SCHEMA, db, gone) && p in gone && p in db && q in db
    requires k in Cascades(db[q]) && k in SCHEMA.holds(p, db[p])
    ensures q in gone
  {
    CabinetIsLawful();
    assert k in References(SCHEMA, db[q]);
    assert Drags(SCHEMA, db, p, q);
  }

  lemma StoresFollow(db: Db, gone: set<Pk>, cabinet: Id, q: Pk)
    requires Consistent(SCHEMA, db) && IsClosed(SCHEMA, db, gone) && AccountPk(cabinet) in gone
    requires q in db && Belongs(db, q, cabinet) && (db[q].Store? || db[q].Product?)
    ensures q in gone
  {
    var k := if db[q].Store? then AccountMarketplace(cabinet, db[q].marketplace) else AccountId(cabinet);
    var p := Holder(db, q, k);
    Follows(db, gone, p, q, k);
  }

  lemma StoreIdFollows(db: Db, gone: set<Pk>, cabinet: Id, store: Id)
    requires Consistent(SCHEMA, db) && IsClosed(SCHEMA, db, gone) && AccountPk(cabinet) in gone
    requires StoreIn(db, store, cabinet)
    ensures StorePk(store) in gone
  {
    StoresFollow(db, gone, cabinet, StorePk(store));
  }

  lemma PoliciesFollow(db: Db, gone: set<Pk>, cabinet: Id, policy: Id)
    requires Consistent(SCHEMA, db) && IsClosed(SCHEMA, db, gone) && AccountPk(cabinet) in gone
    requires PolicyIn(db, policy, cabinet)
    ensures PolicyPk(policy) in gone
  {
    var q := PolicyPk(policy);
    StoreIdFollows(db, gone, cabinet, db[q].store);
    Follows(db, gone, StorePk(db[q].store), q, StoreId(db[q].store));
  }

  lemma PromosFollow(db: Db, gone: set<Pk>, cabinet: Id, observation: Id)
    requires Consistent(SCHEMA, db) && IsClosed(SCHEMA, db, gone) && AccountPk(cabinet) in gone
    requires PromoIn(db, observation, cabinet)
    ensures PromoPk(observation) in gone
  {
    var q := PromoPk(observation);
    var k := AccountMarketplace(cabinet, db[q].marketplace);
    var p := Holder(db, q, k);
    Follows(db, gone, p, q, k);
  }

  /** Each row of a cabinet is reached from its account. */
  lemma RowsFollowTheirCabinet(db: Db, gone: set<Pk>, cabinet: Id, q: Pk)
    requires Consistent(SCHEMA, db) && IsClosed(SCHEMA, db, gone) && AccountPk(cabinet) in gone
    requires q in db && Belongs(db, q, cabinet)
    ensures q in gone
  {
    assert SCHEMA.fits(q, db[q]);
    match db[q]
    case Account(_, _, _) =>
    case Store(_, _, _, _) => StoresFollow(db, gone, cabinet, q);
    case Product(_, _) => StoresFollow(db, gone, cabinet, q);
    case Placement(_, store, account, _) =>
      PlacementTies(db, q);
      StoreIdFollows(db, gone, cabinet, store);
      Follows(db, gone, StorePk(store), q, StoreAccount(store, account));
    case Policy(store, _, _, _) => PoliciesFollow(db, gone, cabinet, q.id);
    case Tax(policy, _, _, _) =>
      PoliciesFollow(db, gone, cabinet, policy);
      Follows(db, gone, PolicyPk(policy), q, PolicyId(policy));
    case Cost(policy, _, _) =>
      PoliciesFollow(db, gone, cabinet, policy);
      Follows(db, gone, PolicyPk(policy), q, PolicyId(policy));
    case Evaluation(_, store, _, _) =>
      StoreIdFollows(db, gone, cabinet, store);
      Follows(db, gone, StorePk(store), q, StoreId(store));
    case Action(policy, store, _, _, _, _, _, _, _) =>
      RowIsIsolated(db, q);
      PoliciesFollow(db, gone, cabinet, policy);
      Follows(db, gone, PolicyPk(policy), q, PolicyStore(policy, store));
    case Price(account, store, _, _, _, _, _, _, _, _, _, _) =>
      RowIsIsolated(db, q);
      StoreIdFollows(db, gone, cabinet, store);
      Follows(db, gone, StorePk(store), q, StoreAccount(store, account));
    case Promo(_, _, _, _, _, _, _, _, _) => PromosFollow(db, gone, cabinet, q.id);
    case Evidence(observation, account, _, _, store) =>
      if PromoIn(db, observation, cabinet) {
        PromosFollow(db, gone, cabinet, observation);
        Follows(db, gone, PromoPk(observation), q, PromoId(observation));
      } else {
        RowIsIsolated(db, q);
        StoreIdFollows(db, gone, cabinet, store.value);
        Follows(db, gone, StorePk(store.value), q, StoreAccount(store.value, account));
      }
  }

  /** The rows of these tables can be refused deletion; every other row goes without objection. */
  predicate CanBeRestricted(row: Row) {
    row.Workspace? || row.Account? || row.Log? || row.Connection?
  }

  lemma OthersAreNotRestricted(db: Db, p: Pk, q: Pk)
    requires Consistent(SCHEMA, db) && p in db && q in db && !CanBeRestricted(db[p])
    ensures !Blocks(SCHEMA, db, p, q)
  {
    assert SCHEMA.fits(p, db[p]);
    forall k | k in SCHEMA.restricts(db[q]) ensures k !in Offers(SCHEMA, p, db[p]) {
      if k in Holds(p, db[p]) { HolderIsOk(p, db[p], k); }
    }
  }

  /** A closed set that holds the deleted row, and that the cascade must reach, is what goes. */
  lemma DoomedIs(db: Db, pk: Pk, rows: set<Pk>)
    requires Consistent(SCHEMA, db) && pk in rows && rows <= db.Keys && IsClosed(SCHEMA, db, rows)
    requires rows <= Doomed(SCHEMA, db, {pk})
    ensures Doomed(SCHEMA, db, {pk}) == rows
    ensures Deleted(SCHEMA, db, pk).Keys == db.Keys - rows
  {
    DoomedIsLeast(SCHEMA, db, {pk}, rows);
  }

  /** And nothing objects when none of its rows can be restricted. */
  lemma GoesExactly(db: Db, pk: Pk, rows: set<Pk>)
    requires Consistent(SCHEMA, db) && pk in rows && rows <= db.Keys && IsClosed(SCHEMA, db, rows)
    requires rows <= Doomed(SCHEMA, db, {pk})
    requires forall p :: p in rows ==> !CanBeRestricted(db[p])
    ensures Deletable(SCHEMA, db, pk)
    ensures Deleted(SCHEMA, db, pk).Keys == db.Keys - rows
  {
    DoomedIs(db, pk, rows);
    forall p, q | p in rows && q in db.Keys - rows ensures !Blocks(SCHEMA, db, p, q) {
      OthersAreNotRestricted(db, p, q);
    }
  }

  // -- a cabinet --

  /** A connection or a verification attempt that names the cabinet; both reference it without ON DELETE. */
  predicate IsLinkedTo(row: Row, cabinet: Id) {
    (row.Connection? || row.Attempt?) && row.linkedAccount == Some(cabinet)
  }

  lemma OnlyLinksRestrictAnAccount(db: Db, cabinet: Id, q: Pk)
    requires Consistent(SCHEMA, db) && AccountPk(cabinet) in db && q in db
    ensures Blocks(SCHEMA, db, AccountPk(cabinet), q) <==> IsLinkedTo(db[q], cabinet)
  {
    var p := AccountPk(cabinet);
    assert SCHEMA.fits(p, db[p]);
    forall k | k in Restricts(db[q]) && k in Holds(p, db[p]) ensures k == AccountId(cabinet) {
      HolderIsOk(p, db[p], k);
    }
    assert AccountId(cabinet) in Offers(SCHEMA, p, db[p]);
    assert AccountId(cabinet) in Restricts(db[q]) <==> IsLinkedTo(db[q], cabinet);
  }

  /** The cascade from an account reaches exactly the rows of its cabinet. */
  lemma CabinetIsDoomed(db: Db, cabinet: Id)
    requires Consistent(SCHEMA, db) && AccountPk(cabinet) in db
    ensures Doomed(SCHEMA, db, {AccountPk(cabinet)}) == RowsOf(db, cabinet)
    ensures Deleted(SCHEMA, db, AccountPk(cabinet)).Keys == db.Keys - RowsOf(db, cabinet)
  {
    assert SCHEMA.fits(AccountPk(cabinet), db[AccountPk(cabinet)]);
    forall p, q | p in RowsOf(db, cabinet) && q in db && Drags(SCHEMA, db, p, q) ensures q in RowsOf(db, cabinet) {
      BelongingIsClosed(db, cabinet, p, q);
    }
    forall q | q in RowsOf(db, cabinet) ensures q in Doomed(SCHEMA, db, {AccountPk(cabinet)}) {
      RowsFollowTheirCabinet(db, Doomed(SCHEMA, db, {AccountPk(cabinet)}), cabinet, q);
    }
    DoomedIs(db, AccountPk(cabinet), RowsOf(db, cabinet));
  }

  /**
   Deleting a cabinet is refused exactly when a connection or a verification attempt still names it;
   when accepted it removes exactly the rows that belong to the cabinet.
   */
  lemma CabinetDeletionIsExact(db: Db, cabinet: Id)
    requires Consistent(SCHEMA, db) && AccountPk(cabinet) in db
    ensures Deletable(SCHEMA, db, AccountPk(cabinet)) <==> forall q :: q in db ==> !IsLinkedTo(db[q], cabinet)
    ensures Deleted(SCHEMA, db, AccountPk(cabinet)).Keys == db.Keys - RowsOf(db, cabinet)
  {
    var pk, gone := AccountPk(cabinet), RowsOf(db, cabinet);
    CabinetIsDoomed(db, cabinet);
    assert SCHEMA.fits(pk, db[pk]);
    forall p, q | p in gone && q in db && p != pk ensures !Blocks(SCHEMA, db, p, q) {
      RowsOfACabinetAreNotRestricted(db, cabinet, p);
      OthersAreNotRestricted(db, p, q);
    }
    forall q | q in db ensures Blocks(SCHEMA, db, pk, q) <==> IsLinkedTo(db[q], cabinet) {
      OnlyLinksRestrictAnAccount(db, cabinet, q);
    }
    assert forall q :: q in db && IsLinkedTo(db[q], cabinet) ==> q in db.Keys - gone;
  }

  lemma RowsOfACabinetAreNotRestricted(db: Db, cabinet: Id, p: Pk)
    requires Consistent(SCHEMA, db) && p in db && Belongs(db, p, cabinet) && p != AccountPk(cabinet)
    ensures !CanBeRestricted(db[p])
  {
    assert SCHEMA.fits(p, db[p]);
  }

  /** The ordinary case: a cabinet connected through the API, whose deletion is refused. */
  function ConnectedCabinet(): Db {
    map[WorkspacePk(0) := Workspace(0), AccountPk(0) := Account(0, Ozon, None),
        ConnectionPk(0) := Connection(Some(0), Some(0), None)]
  }

  lemma ConnectedCabinetIsProvided(p: Pk, k: Key)
    requires p in ConnectedCabinet() && k in References(SCHEMA, ConnectedCabinet()[p])
    ensures Provided(SCHEMA, ConnectedCabinet(), k)
  {
    var db := ConnectedCabinet();
    assert WorkspaceId(0) in SCHEMA.holds(WorkspacePk(0), db[WorkspacePk(0)]);
    assert AccountId(0) in SCHEMA.holds(AccountPk(0), db[AccountPk(0)]);
    assert k == WorkspaceId(0) || k == AccountId(0);
  }

  lemma ConnectedCabinetHasNoClash(p: Pk, q: Pk)
    requires p in ConnectedCabinet() && q in ConnectedCabinet() && p != q
    ensures NoClash(SCHEMA, p, ConnectedCabinet()[p], q, ConnectedCabinet()[q])
  {
  }

  lemma ConnectedCabinetFits(p: Pk)
    requires p in ConnectedCabinet()
    ensures SCHEMA.fits(p, ConnectedCabinet()[p])
  {
  }

  lemma ConnectedCabinetIsConsistent()
    ensures Consistent(SCHEMA, ConnectedCabinet())
  {
    var db := ConnectedCabinet();
    forall p | p in db ensures SCHEMA.fits(p, db[p]) { ConnectedCabinetFits(p); }
    forall p, k | p in db && k in References(SCHEMA, db[p]) ensures Provided(SCHEMA, db, k) {
      ConnectedCabinetIsProvided(p, k);
    }
    forall p, q | p in db && q in db && p != q ensures NoClash(SCHEMA, p, db[p], q, db[q]) {
      ConnectedCabinetHasNoClash(p, q);
    }
  }

  lemma ConnectedCabinetIsKept()
    ensures Consistent(SCHEMA, ConnectedCabinet()) && !Deletable(SCHEMA, ConnectedCabinet(), AccountPk(0))
  {
    ConnectedCabinetIsConsistent();
    CabinetDeletionIsExact(ConnectedCabinet(), 0);
    assert IsLinkedTo(ConnectedCabinet()[ConnectionPk(0)], 0);
  }

  /** Whether a row is still there, after any accepted delete, depends on its own references only. */
  lemma SurvivesExactly(db: Db, pk: Pk, q: Pk)
    requires Consistent(SCHEMA, db) && pk in db && q in db && q != pk
    ensures q !in Deleted(SCHEMA, db, pk) <==>
      exists p :: p in db && p !in Deleted(SCHEMA, db, pk) && Drags(SCHEMA, db, p, q)
  {
    var gone := Doomed(SCHEMA, db, {pk});
    if q in gone && forall p :: p in gone ==> !Drags(SCHEMA, db, p, q) {
      DoomedIsLeast(SCHEMA, db, {pk}, gone - {q});
    }
  }

  /** A single cascading reference: the row goes exactly when the row it references goes. */
  lemma FollowsItsOnlyParent(db: Db, pk: Pk, q: Pk, parent: Pk, k: Key)
    requires Consistent(SCHEMA, db) && pk in db && q in db && q != pk
    requires Cascades(db[q]) == {k} && parent in db && k in SCHEMA.holds(parent, db[parent])
    ensures q !in Deleted(SCHEMA, db, pk) <==> parent !in Deleted(SCHEMA, db, pk)
  {
    SurvivesExactly(db, pk, q);
    var gone := Doomed(SCHEMA, db, {pk});
    if parent in gone { Follows(db, gone, parent, q, k); }
    forall p | p in db && Drags(SCHEMA, db, p, q) ensures p == parent {
      SharedKeyMeansSameRow(db, p, parent, k);
    }
  }

  /**
   Evaluation evidence goes with its store and with nothing else; when its policy goes it stays,
   with policy_id NULL and every other column as it was.
   */
  lemma EvaluationOutlivesItsPolicy(db: Db, pk: Pk, q: Pk)
    requires Consistent(SCHEMA, db) && pk in db && q in db && q != pk && db[q].Evaluation?
    ensures var after := Deleted(SCHEMA, db, pk);
      && (q in after <==> StorePk(db[q].store) in after)
      && (q in after ==> after[q] == db[q].(policyRef :=
            if db[q].policyRef.Some? && PolicyPk(db[q].policyRef.value) in after then db[q].policyRef else None))
  {
    var store := Holder(db, q, StoreId(db[q].store));
    FollowsItsOnlyParent(db, pk, q, store, StoreId(db[q].store));
    var gone := Doomed(SCHEMA, db, {pk});
    if db[q].policyRef.Some? {
      var k := PolicyId(db[q].policyRef.value);
      var policy := Holder(db, q, k);
      assert k in Lost(SCHEMA, db, gone) <==> policy in gone by {
        forall p | p in gone && k in Offers(SCHEMA, p, db[p]) ensures p == policy {
          SharedKeyMeansSameRow(db, p, policy, k);
        }
        assert k in Offers(SCHEMA, policy, db[policy]);
      }
    }
  }

  // -- a store --

  /** Rows a store deletion takes: everything the store holds, in any table. */
  predicate IsOfStore(db: Db, p: Pk, store: Id)
    requires p in db
  {
    match db[p]
    case Store(_, _, _, _) => p.id == store
    case Placement(_, at, _, _) => at == store
    case Policy(at, _, _, _) => at == store
    case Tax(policy, _, _, _) => PolicyOf(db, policy, store)
    case Cost(policy, _, _) => PolicyOf(db, policy, store)
    case Evaluation(_, at, _, _) => at == store
    case Action(_, at, _, _, _, _, _, _, _) => at == store
    case Price(_, at, _, _, _, _, _, _, _, _, _, _) => at == store
    case Evidence(_, _, _, _, mapped) => mapped == Some(store)
    case _ => false
  }

  function StoreRows(db: Db, store: Id): set<Pk> {
    set p | p in db.Keys && IsOfStore(db, p, store)
  }

  lemma StoreReferrer(db: Db, store: Id, p: Pk, q: Pk, k: Key)
    requires Consistent(SCHEMA, db) && p in db && q in db
    requires IsOfStore(db, p, store) && k in Cascades(db[q]) && HolderOk(p, db[p], k)
    ensures IsOfStore(db, q, store)
  {
  }

  /** The key through which these rows reference their store. */
  function StoreKeyOf(row: Row, store: Id): Key {
    if row.Placement? || row.Price? || row.Evidence? then StoreAccount(store, row.account) else StoreId(store)
  }

  lemma DirectlyFollows(db: Db, gone: set<Pk>, store: Id, q: Pk)
    requires Consistent(SCHEMA, db) && IsClosed(SCHEMA, db, gone) && StorePk(store) in gone
    requires q in db && IsOfStore(db, q, store)
    requires db[q].Placement? || db[q].Price? || db[q].Evidence? || db[q].Policy? || db[q].Evaluation?
    ensures q in gone
  {
    var k := StoreKeyOf(db[q], store);
    var p := Holder(db, q, k);
    Follows(db, gone, p, q, k);
  }

  lemma StoreRowFollows(db: Db, gone: set<Pk>, store: Id, q: Pk)
    requires Consistent(SCHEMA, db) && IsClosed(SCHEMA, db, gone) && StorePk(store) in gone
    requires q in db && IsOfStore(db, q, store)
    ensures q in gone
  {
    assert SCHEMA.fits(q, db[q]);
    match db[q]
    case Store(_, _, _, _) =>
    case Tax(policy, _, _, _) =>
      DirectlyFollows(db, gone, store, PolicyPk(policy));
      PolicyRowFollows(db, gone, policy, q);
    case Cost(policy, _, _) =>
      DirectlyFollows(db, gone, store, PolicyPk(policy));
      PolicyRowFollows(db, gone, policy, q);
    case Action(policy, _, _, _, _, _, _, _, _) =>
      RowIsIsolated(db, q);
      DirectlyFollows(db, gone, store, PolicyPk(policy));
      PolicyRowFollows(db, gone, policy, q);
    case _ =>
      DirectlyFollows(db, gone, store, q);
  }

  lemma StoreRowsAreClosed(db: Db, store: Id, p: Pk, q: Pk)
    requires Consistent(SCHEMA, db) && p in StoreRows(db, store) && q in db && Drags(SCHEMA, db, p, q)
    ensures q in StoreRows(db, store)
  {
    var k :| k in SCHEMA.cascades(db[q]) && k in Offers(SCHEMA, p, db[p]);
    assert SCHEMA.fits(p, db[p]);
    HolderIsOk(p, db[p], k);
    StoreReferrer(db, store, p, q, k);
  }

  lemma StoreRowsAreUnrestricted(db: Db, store: Id)
    requires Consistent(SCHEMA, db) && StorePk(store) in db
    ensures StorePk(store) in StoreRows(db, store)
    ensures forall p :: p in StoreRows(db, store) ==> !CanBeRestricted(db[p])
  {
    assert SCHEMA.fits(StorePk(store), db[StorePk(store)]);
  }

  lemma StoreCascadeIsExact(db: Db, store: Id)
    requires Consistent(SCHEMA, db) && StorePk(store) in db
    ensures IsClosed(SCHEMA, db, StoreRows(db, store))
    ensures StoreRows(db, store) <= Doomed(SCHEMA, db, {StorePk(store)})
  {
    forall p, q | p in StoreRows(db, store) && q in db && Drags(SCHEMA, db, p, q)
      ensures q in StoreRows(db, store)
    {
      StoreRowsAreClosed(db, store, p, q);
    }
    forall q | q in StoreRows(db, store) ensures q in Doomed(SCHEMA, db, {StorePk(store)}) {
      StoreRowFollows(db, Doomed(SCHEMA, db, {StorePk(store)}), store, q);
    }
  }

  /** Deleting a store is always allowed and takes exactly the rows the store holds. */
  lemma StoreDeletionIsExact(db: Db, store: Id)
    requires Consistent(SCHEMA, db) && StorePk(store) in db
    ensures Deletable(SCHEMA, db, StorePk(store))
    ensures Deleted(SCHEMA, db, StorePk(store)).Keys == db.Keys - StoreRows(db, store)
  {
    StoreCascadeIsExact(db, store);
    StoreRowsAreUnrestricted(db, store);
    GoesExactly(db, StorePk(store), StoreRows(db, store));
  }

  // -- a product --

  /** A policy scoped to the product. */
  predicate IsScopedTo(db: Db, policy: Id, product: Id) {
    PolicyPk(policy) in db && db[PolicyPk(policy)].Policy? && db[PolicyPk(policy)].scope == Some(product)
  }

  predicate ObservesProduct(db: Db, observation: Id, product: Id) {
    PromoPk(observation) in db && db[PromoPk(observation)].Promo? && db[PromoPk(observation)].scope == Some(product)
  }

  /**
   Rows a product deletion takes. An action goes with its own product or with the product of its
   policy: no key ties the two. An evaluation keeps its soft reference and stays.
   */
  predicate IsOfProduct(db: Db, p: Pk, product: Id)
    requires p in db
  {
    match db[p]
    case Product(_, _) => p.id == product
    case Placement(of, _, _, _) => of == product
    case Policy(_, scope, _, _) => scope == Some(product)
    case Tax(policy, _, _, _) => IsScopedTo(db, policy, product)
    case Cost(policy, _, _) => IsScopedTo(db, policy, product)
    case Action(policy, _, of, _, _, _, _, _, _) => of == product || IsScopedTo(db, policy, product)
    case Price(_, _, _, scope, _, _, _, _, _, _, _, _) => scope == Some(product)
    case Promo(_, _, _, scope, _, _, _, _, _) => scope == Some(product)
    case Evidence(observation, _, _, _, _) => ObservesProduct(db, observation, product)
    case _ => false
  }

  function ProductRows(db: Db, product: Id): set<Pk> {
    set p | p in db.Keys && IsOfProduct(db, p, product)
  }

  lemma ProductReferrer(db: Db, product: Id, p: Pk, q: Pk, k: Key)
    requires Consistent(SCHEMA, db) && p in db && q in db
    requires IsOfProduct(db, p, product) && k in Cascades(db[q]) && HolderOk(p, db[p], k)
    ensures IsOfProduct(db, q, product)
  {
  }

  lemma ProductRowsAreClosed(db: Db, product: Id, p: Pk, q: Pk)
    requires Consistent(SCHEMA, db) && p in ProductRows(db, product) && q in db && Drags(SCHEMA, db, p, q)
    ensures q in ProductRows(db, product)
  {
    var k :| k in SCHEMA.cascades(db[q]) && k in Offers(SCHEMA, p, db[p]);
    assert SCHEMA.fits(p, db[p]);
    HolderIsOk(p, db[p], k);
    ProductReferrer(db, product, p, q, k);
  }

  lemma PlacementsFollowProduct(db: Db, gone: set<Pk>, product: Id, q: Pk)
    requires Consistent(SCHEMA, db) && IsClosed(SCHEMA, db, gone) && ProductPk(product) in gone
    requires q in db && IsOfProduct(db, q, product) && (db[q].Placement? || db[q].Promo?)
    ensures q in gone
  {
    var k := ProductAccount(product, db[q].account);
    var p := Holder(db, q, k);
    Follows(db, gone, p, q, k);
  }

  /** A row that names the product through a placement of it. */
  lemma PlacedRowsFollowProduct(db: Db, gone: set<Pk>, product: Id, q: Pk)
    requires Consistent(SCHEMA, db) && IsClosed(SCHEMA, db, gone) && ProductPk(product) in gone
    requires q in db && (db[q].Policy? || db[q].Action? || db[q].Price?)
    requires PlacementOf(db[q].store, product) in Cascades(db[q])
    ensures q in gone
  {
    var k := PlacementOf(db[q].store, product);
    var p := Holder(db, q, k);
    PlacementsFollowProduct(db, gone, product, p);
    Follows(db, gone, p, q, k);
  }

  lemma ProductRowFollows(db: Db, gone: set<Pk>, product: Id, q: Pk)
    requires Consistent(SCHEMA, db) && IsClosed(SCHEMA, db, gone) && ProductPk(product) in gone
    requires q in db && IsOfProduct(db, q, product)
    ensures q in gone
  {
    assert SCHEMA.fits(q, db[q]);
    match db[q]
    case Product(_, _) =>
    case Placement(_, _, _, _) => PlacementsFollowProduct(db, gone, product, q);
    case Promo(_, _, _, _, _, _, _, _, _) => PlacementsFollowProduct(db, gone, product, q);
    case Policy(_, _, _, _) => PlacedRowsFollowProduct(db, gone, product, q);
    case Price(_, _, _, _, _, _, _, _, _, _, _, _) => PlacedRowsFollowProduct(db, gone, product, q);
    case Action(policy, _, of, _, _, _, _, _, _) =>
      if of == product {
        PlacedRowsFollowProduct(db, gone, product, q);
      } else {
        PlacedRowsFollowProduct(db, gone, product, PolicyPk(policy));
        PolicyRowFollows(db, gone, policy, q);
      }
    case Tax(policy, _, _, _) =>
      PlacedRowsFollowProduct(db, gone, product, PolicyPk(policy));
      PolicyRowFollows(db, gone, policy, q);
    case Cost(policy, _, _) =>
      PlacedRowsFollowProduct(db, gone, product, PolicyPk(policy));
      PolicyRowFollows(db, gone, policy, q);
    case Evidence(observation, _, _, _, _) =>
      PlacementsFollowProduct(db, gone, product, PromoPk(observation));
      Follows(db, gone, PromoPk(observation), q, PromoId(observation));
  }

  lemma ProductRowsAreUnrestricted(db: Db, product: Id)
    requires Consistent(SCHEMA, db) && ProductPk(product) in db
    ensures ProductPk(product) in ProductRows(db, product)
    ensures forall p :: p in ProductRows(db, product) ==> !CanBeRestricted(db[p])
  {
    assert SCHEMA.fits(ProductPk(product), db[ProductPk(product)]);
  }

  lemma ProductCascadeIsExact(db: Db, product: Id)
    requires Consistent(SCHEMA, db) && ProductPk(product) in db
    ensures IsClosed(SCHEMA, db, ProductRows(db, product))
    ensures ProductRows(db, product) <= Doomed(SCHEMA, db, {ProductPk(product)})
  {
    forall p, q | p in ProductRows(db, product) && q in db && Drags(SCHEMA, db, p, q)
      ensures q in ProductRows(db, product)
    {
      ProductRowsAreClosed(db, product, p, q);
    }
    forall q | q in ProductRows(db, product) ensures q in Doomed(SCHEMA, db, {ProductPk(product)}) {
      ProductRowFollows(db, Doomed(SCHEMA, db, {ProductPk(product)}), product, q);
    }
  }

  /** Deleting a product is always allowed and takes exactly the rows that name it. */
  lemma ProductDeletionIsExact(db: Db, product: Id)
    requires Consistent(SCHEMA, db) && ProductPk(product) in db
    ensures Deletable(SCHEMA, db, ProductPk(product))
    ensures Deleted(SCHEMA, db, ProductPk(product)).Keys == db.Keys - ProductRows(db, product)
  {
    ProductCascadeIsExact(db, product);
    ProductRowsAreUnrestricted(db, product);
    GoesExactly(db, ProductPk(product), ProductRows(db, product));
  }

  // -- a policy and an execution log --

  lemma PolicyRowsAreUnrestricted(db: Db, policy: Id)
    requires Consistent(SCHEMA, db) && PolicyPk(policy) in db
    ensures PolicyPk(policy) in PolicyRows(db, policy)
    ensures forall p :: p in PolicyRows(db, policy) ==> !CanBeRestricted(db[p])
  {
    assert SCHEMA.fits(PolicyPk(policy), db[PolicyPk(policy)]);
  }

  lemma PolicyCascadeIsExact(db: Db, policy: Id)
    requires Consistent(SCHEMA, db) && PolicyPk(policy) in db
    ensures IsClosed(SCHEMA, db, PolicyRows(db, policy))
    ensures PolicyRows(db, policy) <= Doomed(SCHEMA, db, {PolicyPk(policy)})
  {
    forall p, q | p in PolicyRows(db, policy) && q in db && Drags(SCHEMA, db, p, q)
      ensures q in PolicyRows(db, policy)
    {
      PolicyRowsAreClosed(db, policy, p, q);
    }
    forall q | q in PolicyRows(db, policy) ensures q in Doomed(SCHEMA, db, {PolicyPk(policy)}) {
      PolicyRowFollows(db, Doomed(SCHEMA, db, {PolicyPk(policy)}), policy, q);
    }
  }

  /** Deleting a policy takes its tax setting, its costs and its actions, and nothing else. */
  lemma {:induction false} PolicyDeletionIsExact(db: Db, policy: Id)
    requires Consistent(SCHEMA, db) && PolicyPk(policy) in db
    ensures Deletable(SCHEMA, db, PolicyPk(policy))
    ensures Deleted(SCHEMA, db, PolicyPk(policy)).Keys == db.Keys - PolicyRows(db, policy)
  {
    PolicyCascadeIsExact(db, policy);
    PolicyRowsAreUnrestricted(db, policy);
    GoesExactly(db, PolicyPk(policy), PolicyRows(db, policy));
  }

  lemma PolicyRowsOffer(db: Db, policy: Id, p: Pk, k: Key)
    requires Consistent(SCHEMA, db) && p in PolicyRows(db, policy) && k in Offers(SCHEMA, p, db[p])
    ensures k == PolicyId(policy) || (k.PolicyStore? && k.id == policy)
  {
    assert SCHEMA.fits(p, db[p]);
  }

  lemma PolicyRowsAreClosed(db: Db, policy: Id, p: Pk, q: Pk)
    requires Consistent(SCHEMA, db) && p in PolicyRows(db, policy) && q in db && Drags(SCHEMA, db, p, q)
    ensures q in PolicyRows(db, policy)
  {
    var k :| k in SCHEMA.cascades(db[q]) && k in Offers(SCHEMA, p, db[p]);
    PolicyRowsOffer(db, policy, p, k);
    PolicyReference(db[q], policy, k);
  }

  lemma PolicyReference(row: Row, policy: Id, k: Key)
    requires k in Cascades(row) && (k == PolicyId(policy) || (k.PolicyStore? && k.id == policy))
    ensures (row.Tax? || row.Cost? || row.Action?) && row.policy == policy
  {
  }

  function PolicyRows(db: Db, policy: Id): set<Pk> {
    set p | p in db.Keys && match db[p]
      case Policy(_, _, _, _) => p.id == policy
      case Tax(owner, _, _, _) => owner == policy
      case Cost(owner, _, _) => owner == policy
      case Action(owner, _, _, _, _, _, _, _, _) => owner == policy
      case _ => false
  }

  lemma PolicyRowFollows(db: Db, gone: set<Pk>, policy: Id, q: Pk)
    requires Consistent(SCHEMA, db) && IsClosed(SCHEMA, db, gone) && PolicyPk(policy) in gone
    requires q in PolicyRows(db, policy)
    ensures q in gone
  {
    assert SCHEMA.fits(q, db[q]);
    if !db[q].Policy? {
      var k := if db[q].Action? then PolicyStore(policy, db[q].store) else PolicyId(policy);
      var p := Holder(db, q, k);
      Follows(db, gone, p, q, k);
    }
  }

  lemma LogReferences(db: Db, log: Id, q: Pk)
    requires Consistent(SCHEMA, db) && LogPk(log) in db && q in db
    ensures !Drags(SCHEMA, db, LogPk(log), q)
    ensures Blocks(SCHEMA, db, LogPk(log), q) <==> db[q].Audit? && db[q].logRef == log
  {
    var pk := LogPk(log);
    assert SCHEMA.fits(pk, db[pk]);
    assert forall k :: k in Offers(SCHEMA, pk, db[pk]) <==> k == LogId(log);
    assert Blocks(SCHEMA, db, pk, q) <==> LogId(log) in SCHEMA.restricts(db[q]);
    assert LogId(log) in Restricts(db[q]) <==> db[q].Audit? && db[q].logRef == log;
  }

  /** A row with audits of operator actions cannot be deleted; nothing else protects or follows it. */
  lemma {:induction false} LogIsKeptByItsAudits(db: Db, log: Id)
    requires Consistent(SCHEMA, db) && LogPk(log) in db
    ensures Deletable(SCHEMA, db, LogPk(log)) <==> forall q :: q in db && db[q].Audit? ==> db[q].logRef != log
    ensures Deleted(SCHEMA, db, LogPk(log)).Keys == db.Keys - {LogPk(log)}
  {
    forall q | q in db
      ensures !Drags(SCHEMA, db, LogPk(log), q)
      ensures Blocks(SCHEMA, db, LogPk(log), q) <==> db[q].Audit? && db[q].logRef == log
    {
      LogReferences(db, log, q);
    }
    assert SCHEMA.fits(LogPk(log), db[LogPk(log)]);
    DoomedIsLeast(SCHEMA, db, {LogPk(log)}, {LogPk(log)});
  }

  /** Apart from evaluations, the rows an accepted delete leaves keep every column but a lost execution log. */
  lemma SurvivorsKeepTheirColumns(db: Db, pk: Pk, q: Pk)
    requires Consistent(SCHEMA, db) && pk in db && q in Deleted(SCHEMA, db, pk) && !db[q].Evaluation?
    ensures var after := Deleted(SCHEMA, db, pk);
      after[q] == if db[q].Action? && db[q].log.Some? && LogPk(db[q].log.value) !in after
                  then db[q].(log := None) else db[q]
  {
    var gone := Doomed(SCHEMA, db, {pk});
    if db[q].Action? && db[q].log.Some? {
      var k := LogId(db[q].log.value);
      var log := Holder(db, q, k);
      assert k in Lost(SCHEMA, db, gone) <==> log in gone by {
        forall p | p in gone && k in Offers(SCHEMA, p, db[p]) ensures p == log {
          SharedKeyMeansSameRow(db, p, log, k);
        }
        assert k in Offers(SCHEMA, log, db[log]);
      }
    }
  }
}
