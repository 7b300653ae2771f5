/**
 The cabinet schema read off the columns: which rows a database may hold together, which rows go
 with a row and which keep it, without the keys the constraints are declared by.
 */
module CabinetColumns {
  import opened Common
  import opened Tables
  import opened Relational
  import opened CabinetSchema
  import opened CabinetGuarantees

  // ---- one row --------------------------------------------------------------------------

  predicate IsCode(s: string) {
    |s| > 0 && forall k :: 0 <= k < |s| ==> s[k] != ' '
  }

  predicate IsCodeOrNull(s: Option<string>) {
    s == None || IsCode(s.value)
  }

  /** The materialized promotion column, unknown promotions as the sentinel. */
  predicate IsKeyOf(promoKey: string, promo: Option<string>) {
    promo == Some(promoKey) || (promo == None && promoKey == "__none__")
  }

  predicate TaxIsSound(mode: TaxMode, rate: Option<real>, perUnit: Option<real>) {
    match mode
    case NoTax => rate == None && perUnit == None
    case Percent => rate.Some? && 0.0 <= rate.value <= 100.0 && perUnit == None
    case PerUnit => rate == None && perUnit.Some? && perUnit.value >= 0.0
  }

  predicate PriceIsSound(kind: Kind, promo: Option<string>, typed: bool, participation: Option<Participation>) {
    match kind
    case Catalog => promo == None && participation == None && !typed
    case Promotion => participation.Some? && typed && (participation.value == ActiveIn ==> promo != None)
  }

  /** What a row may hold by itself. */
  predicate Sound(row: Row) {
    match row
    case Store(_, mp, key, external) =>
      && ((mp in {Wildberries, Ozon} && key == "primary") || (mp == Yandex && IsCode(key) && key != "primary"))
      && IsCodeOrNull(external)
    case Placement(_, _, _, offer) => IsCodeOrNull(offer)
    case Policy(_, _, emergency, target) =>
      (emergency == None || -100.0 <= emergency.value <= 100.0) && 0.0 <= target <= 100.0
    case Tax(_, mode, rate, perUnit) => TaxIsSound(mode, rate, perUnit)
    case Cost(_, percent, amount) => 0.0 <= amount && (!percent || amount <= 100.0)
    case Action(_, _, _, promo, promoKey, _, _, _, reappearances) => IsKeyOf(promoKey, promo) && reappearances >= 0
    case Price(_, _, resolved, scope, _, kind, promo, promoKey, typed, participation, _, _) =>
      resolved == (scope != None) && IsKeyOf(promoKey, promo) && PriceIsSound(kind, promo, typed, participation)
    case Promo(_, mp, resolved, scope, _, _, status, attribution, _) =>
      && mp == Yandex && resolved == (scope != None)
      && 1 <= |status| <= 64 && status[0] != ' ' && status[|status| - 1] != ' '
      && (attribution == ExactStores ==> status == "PARTIALLY_AUTO")
    case Evidence(_, _, external, mapped, store) => mapped == (store != None) && IsCode(external)
    case Workspace(_) | Account(_, _, _) | Product(_, _) | Evaluation(_, _, _, _) | Log(_, _) | Audit(_, _)
       | Connection(_, _, _) | Attempt(_, _) => true
  }

  lemma CodeExactly(s: string)
    ensures Clean(s) <==> IsCode(s)
  {
  }

  lemma SoundExactly(row: Row)
    ensures RowOk(row) <==> Sound(row)
  {
    match row
    case Store(_, _, key, external) =>
      CodeExactly(key);
      if external.Some? { CodeExactly(external.value); }
      assert IsCode("primary");
    case Placement(_, _, _, offer) => if offer.Some? { CodeExactly(offer.value); }
    case Evidence(_, _, external, _, _) => CodeExactly(external);
    case _ =>
  }

  // ---- parents --------------------------------------------------------------------------

  predicate IsPlaced(db: Db, store: Id, product: Id) {
    exists q :: q in db && db[q].Placement? && db[q].store == store && db[q].product == product
  }

  /** Every row a row names is stored, and agrees with it on the columns both carry. */
  predicate HasParents(db: Db, row: Row) {
    match row
    case Workspace(_) => true
    case Account(workspace, _, _) => WorkspacePk(workspace) in db
    case Store(account, mp, _, _) => AccountOn(db, account, mp)
    case Product(cabinet, _) => cabinet == None || AccountPk(cabinet.value) in db
    case Placement(product, store, account, _) => ProductIn(db, product, account) && StoreIn(db, store, account)
    case Policy(store, scope, _, _) =>
      StorePk(store) in db && (scope == None || IsPlaced(db, store, scope.value))
    case Tax(policy, _, _, _) => PolicyPk(policy) in db
    case Cost(policy, _, _) => PolicyPk(policy) in db
    case Evaluation(policy, store, _, _) =>
      StorePk(store) in db && (policy == None || PolicyPk(policy.value) in db)
    case Action(policy, store, product, _, _, _, _, log, _) =>
      && PolicyOf(db, policy, store) && IsPlaced(db, store, product)
      && (log == None || LogPk(log.value) in db)
    case Price(account, store, _, scope, _, _, _, _, _, _, _, _) =>
      StoreIn(db, store, account) && (scope == None || IsPlaced(db, store, scope.value))
    case Promo(account, mp, _, scope, _, _, _, _, _) =>
      AccountOn(db, account, mp) && (scope == None || ProductIn(db, scope.value, account))
    case Evidence(observation, account, _, _, store) =>
      PromoPk(observation) in db && (store == None || StoreIn(db, store.value, account))
    case Log(_, _) => true
    case Audit(log, _) => LogPk(log) in db
    case Connection(workspace, account, _) =>
      && (workspace == None || WorkspacePk(workspace.value) in db)
      && (account == None || AccountPk(account.value) in db)
    case Attempt(connection, account) =>
      ConnectionPk(connection) in db && (account == None || AccountPk(account.value) in db)
  }

  ghost predicate AllFit(db: Db) {
    forall p :: p in db ==> Fits(p, db[p])
  }

  /** A stored row that holds the key, on its columns. */
  predicate Stands(db: Db, k: Key) {
    match k
    case WorkspaceId(id) => WorkspacePk(id) in db
    case AccountId(id) => AccountPk(id) in db
    case AccountMarketplace(id, mp) => AccountOn(db, id, mp)
    case StoreId(id) => StorePk(id) in db
    case StoreAccount(id, account) => StoreIn(db, id, account)
    case ProductAccount(id, account) => ProductIn(db, id, account)
    case PlacementOf(store, product) => IsPlaced(db, store, product)
    case PolicyId(id) => PolicyPk(id) in db
    case PolicyStore(id, store) => PolicyOf(db, id, store)
    case PromoId(id) => PromoPk(id) in db
    case LogId(id) => LogPk(id) in db
    case ConnectionId(id) => ConnectionPk(id) in db
    case _ => true
  }

  /** The row a referenced key other than a placement's names. */
  function Named(k: Key): Pk
    requires IsTarget(k) && !k.PlacementOf?
  {
    match k
    case WorkspaceId(id) => WorkspacePk(id)
    case AccountId(id) => AccountPk(id)
    case AccountMarketplace(id, _) => AccountPk(id)
    case StoreId(id) => StorePk(id)
    case StoreAccount(id, _) => StorePk(id)
    case ProductAccount(id, _) => ProductPk(id)
    case PolicyId(id) => PolicyPk(id)
    case PolicyStore(id, _) => PolicyPk(id)
    case PromoId(id) => PromoPk(id)
    case LogId(id) => LogPk(id)
    case ConnectionId(id) => ConnectionPk(id)
  }

  lemma HolderStands(db: Db, q: Pk, k: Key)
    requires AllFit(db) && q in db && k in Holds(q, db[q])
    ensures Stands(db, k)
  {
    assert Fits(q, db[q]);
    HolderIsOk(q, db[q], k);
  }

  lemma StandingIsHeld(db: Db, k: Key) returns (q: Pk)
    requires AllFit(db) && IsTarget(k) && Stands(db, k)
    ensures q in db && k in Holds(q, db[q])
  {
    if k.PlacementOf? {
      q :| q in db && db[q].Placement? && db[q].store == k.store && db[q].product == k.product;
    } else {
      q := Named(k);
    }
    assert Fits(q, db[q]);
  }

  lemma ProvidedExactly(db: Db, k: Key)
    requires AllFit(db) && IsTarget(k)
    ensures Provided(SCHEMA, db, k) <==> Stands(db, k)
  {
    if Provided(SCHEMA, db, k) {
      var q :| q in db && k in SCHEMA.holds(q, db[q]);
      HolderStands(db, q, k);
    }
    if Stands(db, k) {
      var q := StandingIsHeld(db, k);
    }
  }

  lemma ParentsStand(db: Db, row: Row)
    requires forall k :: k in References(SCHEMA, row) ==> Stands(db, k)
    ensures HasParents(db, row)
  {
    var named := References(SCHEMA, row);
    match row
    case Account(workspace, _, _) => assert WorkspaceId(workspace) in named;
    case Store(account, mp, _, _) => assert AccountMarketplace(account, mp) in named;
    case Product(cabinet, _) => assert cabinet == None || AccountId(cabinet.value) in named;
    case Placement(product, store, account, _) =>
      assert ProductAccount(product, account) in named && StoreAccount(store, account) in named;
    case Policy(store, scope, _, _) =>
      assert StoreId(store) in named && (scope == None || PlacementOf(store, scope.value) in named);
    case Tax(policy, _, _, _) => assert PolicyId(policy) in named;
    case Cost(policy, _, _) => assert PolicyId(policy) in named;
    case Evaluation(policy, store, _, _) =>
      assert StoreId(store) in named && (policy == None || PolicyId(policy.value) in named);
    case Action(policy, store, product, _, _, _, _, log, _) =>
      assert PolicyStore(policy, store) in named && PlacementOf(store, product) in named;
      assert log == None || LogId(log.value) in named;
    case Price(account, store, _, scope, _, _, _, _, _, _, _, _) =>
      assert StoreAccount(store, account) in named && (scope == None || PlacementOf(store, scope.value) in named);
    case Promo(account, mp, _, scope, _, _, _, _, _) =>
      assert AccountMarketplace(account, mp) in named;
      assert scope == None || ProductAccount(scope.value, account) in named;
    case Evidence(observation, account, _, _, store) =>
      assert PromoId(observation) in named && (store == None || StoreAccount(store.value, account) in named);
    case Audit(log, _) => assert LogId(log) in named;
    case Connection(workspace, account, _) =>
      assert workspace == None || WorkspaceId(workspace.value) in named;
      assert account == None || AccountId(account.value) in named;
    case Attempt(connection, account) =>
      assert ConnectionId(connection) in named && (account == None || AccountId(account.value) in named);
    case _ =>
  }

  lemma ParentsProvide(db: Db, row: Row, k: Key)
    requires HasParents(db, row) && k in References(SCHEMA, row)
    ensures Stands(db, k)
  {
  }

  lemma ParentsExactly(db: Db, row: Row)
    requires AllFit(db)
    ensures (forall k :: k in References(SCHEMA, row) ==> Provided(SCHEMA, db, k)) <==> HasParents(db, row)
  {
    forall k | k in References(SCHEMA, row) ensures Provided(SCHEMA, db, k) <==> Stands(db, k) {
      ReferencesAreTargets(row, k);
      ProvidedExactly(db, k);
    }
    if HasParents(db, row) {
      forall k | k in References(SCHEMA, row) ensures Stands(db, k) { ParentsProvide(db, row, k); }
    }
    if forall k :: k in References(SCHEMA, row) ==> Stands(db, k) {
      ParentsStand(db, row);
    }
  }

  // ---- pairs of rows --------------------------------------------------------------------

  /** The columns of the row behind a unique key. */
  predicate Carries(q: Pk, row: Row, k: Key) {
    match k
    case WorkspaceOwner(owner) => row.Workspace? && row.owner == owner
    case ExternalCabinet(mp, external) =>
      row.Account? && row.marketplace == mp && row.externalAccount == Some(external)
    case StoreKeyIn(account, key) => row.Store? && row.account == account && row.storeKey == key
    case ExternalStoreIn(account, external) =>
      row.Store? && row.account == account && row.externalStore == Some(external)
    case ExternalProductIn(account, external) =>
      row.Product? && row.cabinet == Some(account) && row.externalProduct == Some(external)
    case OfferIn(store, offer) => row.Placement? && row.store == store && row.offer == Some(offer)
    case ProductPolicy(store, product) => row.Policy? && row.store == store && row.scope == Some(product)
    case StoreWidePolicy(store) => row.Policy? && row.store == store && row.scope == None
    case TaxOf(policy) => row.Tax? && row.policy == policy
    case EvaluationRun(policy, product, run) =>
      row.Evaluation? && row.policyRef == Some(policy) && row.subject == Some(product) && row.run == Some(run)
    case ActiveAction(store, product, promoKey) =>
      && row.Action? && row.state !in TERMINAL
      && row.store == store && row.product == product && row.promoKey == promoKey
    case Idempotency(key) => row.Action? && row.idempotencyKey == key
    case PriceRun(store, external, kind, promoKey, source, run) =>
      && row.Price? && row.store == store && row.external == external && row.kind == kind
      && row.promoKey == promoKey && row.source == source && row.ingest == run
    case PromoRun(account, external, promotion, run) =>
      && row.Promo? && row.account == account && row.external == external
      && row.promotion == promotion && row.ingest == run
    case EvidenceOf(observation, external) =>
      row.Evidence? && row.observation == observation && row.externalId == external
    case OperationClaim(user, operation) =>
      row.Log? && row.user == user && row.operation == Some(operation) && "v1:" <= operation
    case Correlation(correlation) => row.Audit? && row.correlation == correlation
    case ConnectionOf(account) => row.Connection? && row.linkedAccount == Some(account)
    case Fingerprint(fingerprint) => row.Connection? && row.fingerprint == Some(fingerprint)
    case _ => HolderOk(q, row, k)
  }

  lemma HeldIsCarried(q: Pk, row: Row, k: Key)
    requires Fits(q, row) && k in Holds(q, row)
    ensures Carries(q, row, k)
  {
    HolderIsOk(q, row, k);
  }

  lemma TargetNamesItsRow(q: Pk, row: Row, k: Key)
    requires HolderOk(q, row, k) && IsTarget(k) && !k.PlacementOf?
    ensures q == Named(k)
  {
  }

  /** Keys of workspaces, cabinets, stores, products, placements, policies and taxes. */
  predicate IsCatalogKey(k: Key) {
    || k.WorkspaceOwner? || k.ExternalCabinet? || k.StoreKeyIn? || k.ExternalStoreIn? || k.ExternalProductIn?
    || k.OfferIn? || k.ProductPolicy? || k.StoreWidePolicy? || k.TaxOf?
  }

  lemma SharedCatalogKeyIsConflict(a: Row, b: Row, p: Pk, q: Pk, k: Key)
    requires Carries(p, a, k) && Carries(q, b, k) && IsCatalogKey(k)
    ensures Conflict(a, b)
  {
  }

  lemma SharedEventKeyIsConflict(a: Row, b: Row, p: Pk, q: Pk, k: Key)
    requires Carries(p, a, k) && Carries(q, b, k) && !IsTarget(k) && !IsCatalogKey(k)
    ensures Conflict(a, b)
  {
  }

  /** Rows that carry the same key conflict, unless they are the same row. */
  lemma SharedKeyIsConflict(p: Pk, a: Row, q: Pk, b: Row, k: Key)
    requires p != q && Carries(p, a, k) && Carries(q, b, k)
    ensures Conflict(a, b)
  {
    if IsTarget(k) {
      if !k.PlacementOf? {
        TargetNamesItsRow(p, a, k);
        TargetNamesItsRow(q, b, k);
      }
    } else if IsCatalogKey(k) {
      SharedCatalogKeyIsConflict(a, b, p, q, k);
    } else {
      SharedEventKeyIsConflict(a, b, p, q, k);
    }
  }

  lemma ConflictExactly(p: Pk, a: Row, q: Pk, b: Row)
    requires Fits(p, a) && Fits(q, b) && p != q
    ensures NoClash(SCHEMA, p, a, q, b) <==> !Conflict(a, b)
  {
    if Conflict(a, b) {
      ConflictSharesKey(p, a, q, b);
    }
    if !NoClash(SCHEMA, p, a, q, b) {
      var k :| k in Holds(p, a) && k in Holds(q, b);
      HeldIsCarried(p, a, k);
      HeldIsCarried(q, b, k);
      SharedKeyIsConflict(p, a, q, b, k);
    }
  }

  // ---- the whole database ---------------------------------------------------------------

  /** The constraints of the models, on columns. */
  ghost predicate Proper(db: Db) {
    && (forall p :: p in db ==> SameTable(p, db[p]) && Sound(db[p]))
    && (forall p :: p in db ==> HasParents(db, db[p]))
    && (forall p, q :: p in db && q in db && p != q ==> !Conflict(db[p], db[q]))
  }

  /** The declared keys and references admit exactly the databases whose columns agree. */
  lemma {:induction false} ConsistentExactly(db: Db)
    ensures Consistent(SCHEMA, db) <==> Proper(db)
  {
    forall p | p in db ensures Fits(p, db[p]) <==> SameTable(p, db[p]) && Sound(db[p]) {
      SoundExactly(db[p]);
    }
    if AllFit(db) {
      forall p | p in db
        ensures (forall k :: k in References(SCHEMA, db[p]) ==> Provided(SCHEMA, db, k)) <==> HasParents(db, db[p])
      {
        ParentsExactly(db, db[p]);
      }
      forall p, q | p in db && q in db && p != q
        ensures NoClash(SCHEMA, p, db[p], q, db[q]) <==> !Conflict(db[p], db[q])
      {
        assert Fits(p, db[p]) && Fits(q, db[q]);
        ConflictExactly(p, db[p], q, db[q]);
      }
    }
  }

  /** An insert is accepted exactly when the row is sound, its parents are stored and nothing conflicts. */
  lemma {:induction false} InsertAcceptedExactly(db: Db, pk: Pk, row: Row)
    requires Consistent(SCHEMA, db) && pk !in db
    ensures Insertable(SCHEMA, db, pk, row) <==>
      && SameTable(pk, row) && Sound(row) && HasParents(db[pk := row], row)
      && forall q :: q in db ==> !Conflict(row, db[q])
  {
    SoundExactly(row);
    if Fits(pk, row) {
      assert AllFit(db[pk := row]) by {
        assert forall p :: p in db ==> SCHEMA.fits(p, db[p]);
      }
      ParentsExactly(db[pk := row], row);
      forall q | q in db ensures NoClash(SCHEMA, pk, row, q, db[q]) <==> !Conflict(row, db[q]) {
        assert SCHEMA.fits(q, db[q]);
        ConflictExactly(pk, row, q, db[q]);
      }
    }
  }

  /** Over every history of accepted statements the columns agree. */
  lemma {:induction false} HistoriesStayProper(stmts: seq<Statement>)
    ensures Proper(ExecuteAll(SCHEMA, map[], stmts))
  {
    CabinetStaysConsistent(stmts);
    ConsistentExactly(ExecuteAll(SCHEMA, map[], stmts));
  }

  // ---- deletes --------------------------------------------------------------------------

  predicate PlacesIt(db: Db, p: Pk, store: Id, product: Id) {
    p in db && PlacedBy(p, db[p], store, product)
  }

  /** The row goes with p: one of the rows it names ON DELETE CASCADE is p. */
  predicate GoesWith(db: Db, p: Pk, row: Row) {
    match row
    case Store(account, _, _, _) => p == AccountPk(account)
    case Product(cabinet, _) => cabinet.Some? && p == AccountPk(cabinet.value)
    case Placement(product, store, _, _) => p == ProductPk(product) || p == StorePk(store)
    case Policy(store, scope, _, _) => p == StorePk(store) || (scope.Some? && PlacesIt(db, p, store, scope.value))
    case Tax(policy, _, _, _) => p == PolicyPk(policy)
    case Cost(policy, _, _) => p == PolicyPk(policy)
    case Evaluation(_, store, _, _) => p == StorePk(store)
    case Action(policy, store, product, _, _, _, _, _, _) => p == PolicyPk(policy) || PlacesIt(db, p, store, product)
    case Price(_, store, _, scope, _, _, _, _, _, _, _, _) =>
      p == StorePk(store) || (scope.Some? && PlacesIt(db, p, store, scope.value))
    case Promo(account, _, _, scope, _, _, _, _, _) =>
      p == AccountPk(account) || (scope.Some? && p == ProductPk(scope.value))
    case Evidence(observation, _, _, _, store) =>
      p == PromoPk(observation) || (store.Some? && p == StorePk(store.value))
    case _ => false
  }

  /** The row keeps p: it names p without an ON DELETE action, or ON DELETE RESTRICT. */
  predicate Keeps(p: Pk, row: Row) {
    match row
    case Account(workspace, _, _) => p == WorkspacePk(workspace)
    case Audit(log, _) => p == LogPk(log)
    case Connection(workspace, account, _) =>
      (workspace.Some? && p == WorkspacePk(workspace.value)) || (account.Some? && p == AccountPk(account.value))
    case Attempt(connection, account) =>
      p == ConnectionPk(connection) || (account.Some? && p == AccountPk(account.value))
    case _ => false
  }

  /** The key names this row. */
  predicate Names(k: Key, p: Pk, row: Row) {
    IsTarget(k) && if k.PlacementOf? then PlacedBy(p, row, k.store, k.product) else p == Named(k)
  }

  /** In a consistent database the row behind a referenced key is the one its columns name. */
  lemma OffersExactly(db: Db, p: Pk, q: Pk, k: Key)
    requires Consistent(SCHEMA, db) && p in db && q in db && k in References(SCHEMA, db[q])
    ensures k in Offers(SCHEMA, p, db[p]) <==> Names(k, p, db[p])
  {
    ReferencesAreTargets(db[q], k);
    var holder := Holder(db, q, k);
    assert SCHEMA.fits(p, db[p]);
    if k in Holds(p, db[p]) { HolderIsOk(p, db[p], k); }
    if !k.PlacementOf? {
      TargetNamesItsRow(holder, db[holder], k);
      if k in Holds(p, db[p]) { TargetNamesItsRow(p, db[p], k); }
    }
  }

  lemma CascadeNames(db: Db, p: Pk, row: Row, k: Key)
    requires p in db && k in Cascades(row) && Names(k, p, db[p])
    ensures GoesWith(db, p, row)
  {
  }

  lemma NamedByCascade(db: Db, p: Pk, row: Row) returns (k: Key)
    requires p in db && GoesWith(db, p, row)
    ensures k in Cascades(row) && Names(k, p, db[p])
  {
    k := match row
      case Store(account, mp, _, _) => AccountMarketplace(account, mp)
      case Product(cabinet, _) => AccountId(cabinet.value)
      case Placement(product, store, account, _) =>
        if p == ProductPk(product) then ProductAccount(product, account) else StoreAccount(store, account)
      case Policy(store, scope, _, _) => if p == StorePk(store) then StoreId(store) else PlacementOf(store, scope.value)
      case Tax(policy, _, _, _) => PolicyId(policy)
      case Cost(policy, _, _) => PolicyId(policy)
      case Evaluation(_, store, _, _) => StoreId(store)
      case Action(policy, store, product, _, _, _, _, _, _) =>
        if p == PolicyPk(policy) then PolicyStore(policy, store) else PlacementOf(store, product)
      case Price(account, store, _, scope, _, _, _, _, _, _, _, _) =>
        if p == StorePk(store) then StoreAccount(store, account) else PlacementOf(store, scope.value)
      case Promo(account, mp, _, scope, _, _, _, _, _) =>
        if p == AccountPk(account) then AccountMarketplace(account, mp) else ProductAccount(scope.value, account)
      case Evidence(observation, account, _, _, store) =>
        if p == PromoPk(observation) then PromoId(observation) else StoreAccount(store.value, account);
  }

  /** A cascade runs from p to q exactly when q's columns say so. */
  lemma {:induction false} DragsExactly(db: Db, p: Pk, q: Pk)
    requires Consistent(SCHEMA, db) && p in db && q in db
    ensures Drags(SCHEMA, db, p, q) <==> GoesWith(db, p, db[q])
  {
    if Drags(SCHEMA, db, p, q) {
      var k :| k in SCHEMA.cascades(db[q]) && k in Offers(SCHEMA, p, db[p]);
      OffersExactly(db, p, q, k);
      CascadeNames(db, p, db[q], k);
    }
    if GoesWith(db, p, db[q]) {
      var k := NamedByCascade(db, p, db[q]);
      OffersExactly(db, p, q, k);
    }
  }

  lemma RestrictNames(p: Pk, prow: Row, row: Row, k: Key)
    requires k in Restricts(row) && Names(k, p, prow)
    ensures Keeps(p, row)
  {
  }

  lemma NamedByRestrict(p: Pk, prow: Row, row: Row) returns (k: Key)
    requires Keeps(p, row)
    ensures k in Restricts(row) && Names(k, p, prow)
  {
    k := match row
      case Account(workspace, _, _) => WorkspaceId(workspace)
      case Audit(log, _) => LogId(log)
      case Connection(workspace, account, _) =>
        if workspace.Some? && p == WorkspacePk(workspace.value) then WorkspaceId(workspace.value)
        else AccountId(account.value)
      case Attempt(connection, account) =>
        if p == ConnectionPk(connection) then ConnectionId(connection) else AccountId(account.value);
  }

  /** And q refuses the deletion of p exactly when its columns say so. */
  lemma {:induction false} BlocksExactly(db: Db, p: Pk, q: Pk)
    requires Consistent(SCHEMA, db) && p in db && q in db
    ensures Blocks(SCHEMA, db, p, q) <==> Keeps(p, db[q])
  {
    if Blocks(SCHEMA, db, p, q) {
      var k :| k in SCHEMA.restricts(db[q]) && k in Offers(SCHEMA, p, db[p]);
      OffersExactly(db, p, q, k);
      RestrictNames(p, db[p], db[q], k);
    }
    if Keeps(p, db[q]) {
      var k := NamedByRestrict(p, db[p], db[q]);
      OffersExactly(db, p, q, k);
    }
  }

  // ---- every delete ---------------------------------------------------------------------

  /** Rows closed under what the columns say goes with a row. */
  ghost predicate IsWhole(db: Db, rows: set<Pk>) {
    forall p, q :: p in rows && p in db && q in db && GoesWith(db, p, db[q]) ==> q in rows
  }

  lemma {:induction false} WholeExactly(db: Db, rows: set<Pk>)
    requires Consistent(SCHEMA, db)
    ensures IsWhole(db, rows) <==> IsClosed(SCHEMA, db, rows)
  {
    forall p, q | p in db && q in db ensures Drags(SCHEMA, db, p, q) <==> GoesWith(db, p, db[q]) {
      DragsExactly(db, p, q);
    }
  }

  /** The least set of rows that holds the row and all that go with its rows. */
  ghost predicate IsTaken(db: Db, pk: Pk, rows: set<Pk>) {
    && pk in rows && rows <= db.Keys && IsWhole(db, rows)
    && forall fewer :: pk in fewer && fewer <= rows && IsWhole(db, fewer) ==> fewer == rows
  }

  lemma {:induction false} TakenExactly(db: Db, pk: Pk, rows: set<Pk>)
    requires Consistent(SCHEMA, db) && IsTaken(db, pk, rows)
    ensures Doomed(SCHEMA, db, {pk}) == rows
  {
    var gone := Doomed(SCHEMA, db, {pk});
    WholeExactly(db, rows);
    WholeExactly(db, gone);
    DoomedIsLeast(SCHEMA, db, {pk}, rows);
  }

  /** Some row that stays keeps one of these. */
  ghost predicate SomeoneKeeps(db: Db, rows: set<Pk>) {
    exists p, q :: p in rows && q in db.Keys - rows && Keeps(p, db[q])
  }

  lemma {:induction false} DeletableIsUnkept(db: Db, pk: Pk, gone: set<Pk>)
    requires Consistent(SCHEMA, db) && Deletable(SCHEMA, db, pk) && gone == Doomed(SCHEMA, db, {pk})
    ensures !SomeoneKeeps(db, gone)
  {
    forall p, q | p in gone && q in db.Keys - gone ensures !Keeps(p, db[q]) {
      BlocksExactly(db, p, q);
    }
  }

  lemma {:induction false} UnkeptIsDeletable(db: Db, pk: Pk, gone: set<Pk>)
    requires Consistent(SCHEMA, db) && pk in db && gone == Doomed(SCHEMA, db, {pk}) && !SomeoneKeeps(db, gone)
    ensures Deletable(SCHEMA, db, pk)
  {
    forall p, q | p in gone && q in db.Keys - gone ensures !Blocks(SCHEMA, db, p, q) {
      BlocksExactly(db, p, q);
      assert !Keeps(p, db[q]);
    }
  }

  /**
   What a delete does, on columns: the least set of rows that holds the deleted row and all that go
   with its rows is gone, and the delete is accepted exactly when no other row keeps one of them.
   */
  lemma {:induction false} DeleteExactlyOnColumns(db: Db, pk: Pk, rows: set<Pk>)
    requires Consistent(SCHEMA, db) && IsTaken(db, pk, rows)
    ensures Deleted(SCHEMA, db, pk).Keys == db.Keys - rows
    ensures Deletable(SCHEMA, db, pk) <==> !SomeoneKeeps(db, rows)
  {
    TakenExactly(db, pk, rows);
    if SomeoneKeeps(db, rows) {
      if Deletable(SCHEMA, db, pk) { DeletableIsUnkept(db, pk, rows); }
    } else {
      UnkeptIsDeletable(db, pk, rows);
    }
  }

  /** Nothing goes with a workspace, a connection or an execution log. */
  lemma TakenAlone(db: Db, pk: Pk)
    requires pk in db && (pk.WorkspacePk? || pk.ConnectionPk? || pk.LogPk?)
    requires SameTable(pk, db[pk])
    ensures IsTaken(db, pk, {pk})
  {
    forall q | q in db ensures !GoesWith(db, pk, db[q]) {
      NothingGoesWith(db, pk, db[q]);
    }
  }

  lemma NothingGoesWith(db: Db, pk: Pk, row: Row)
    requires pk in db && (pk.WorkspacePk? || pk.ConnectionPk? || pk.LogPk?)
    ensures !GoesWith(db, pk, row)
  {
  }

  predicate IsOfWorkspace(row: Row, workspace: Id) {
    || (row.Account? && row.workspace == workspace)
    || (row.Connection? && row.linkedWorkspace == Some(workspace))
  }

  lemma WorkspaceIsKept(row: Row, workspace: Id)
    ensures Keeps(WorkspacePk(workspace), row) <==> IsOfWorkspace(row, workspace)
  {
  }

  /** A workspace goes alone, and exactly when no cabinet and no connection names it. */
  lemma {:induction false} WorkspaceDeletionIsExact(db: Db, workspace: Id)
    requires Consistent(SCHEMA, db) && WorkspacePk(workspace) in db
    ensures Deletable(SCHEMA, db, WorkspacePk(workspace)) <==>
      forall q :: q in db ==> !IsOfWorkspace(db[q], workspace)
    ensures Deleted(SCHEMA, db, WorkspacePk(workspace)).Keys == db.Keys - {WorkspacePk(workspace)}
  {
    var pk := WorkspacePk(workspace);
    assert SCHEMA.fits(pk, db[pk]);
    TakenAlone(db, pk);
    DeleteExactlyOnColumns(db, pk, {pk});
    forall q | q in db ensures Keeps(pk, db[q]) <==> IsOfWorkspace(db[q], workspace) {
      WorkspaceIsKept(db[q], workspace);
    }
    assert !IsOfWorkspace(db[pk], workspace);
  }

  predicate IsAttemptOf(row: Row, connection: Id) {
    row.Attempt? && row.connection == connection
  }

  lemma ConnectionIsKept(row: Row, connection: Id)
    ensures Keeps(ConnectionPk(connection), row) <==> IsAttemptOf(row, connection)
  {
  }

  /** A connection goes alone, and exactly when no verification attempt names it. */
  lemma {:induction false} ConnectionDeletionIsExact(db: Db, connection: Id)
    requires Consistent(SCHEMA, db) && ConnectionPk(connection) in db
    ensures Deletable(SCHEMA, db, ConnectionPk(connection)) <==>
      forall q :: q in db ==> !IsAttemptOf(db[q], connection)
    ensures Deleted(SCHEMA, db, ConnectionPk(connection)).Keys == db.Keys - {ConnectionPk(connection)}
  {
    var pk := ConnectionPk(connection);
    assert SCHEMA.fits(pk, db[pk]);
    TakenAlone(db, pk);
    DeleteExactlyOnColumns(db, pk, {pk});
    forall q | q in db ensures Keeps(pk, db[q]) <==> IsAttemptOf(db[q], connection) {
      ConnectionIsKept(db[q], connection);
    }
    assert !IsAttemptOf(db[pk], connection);
  }
}
