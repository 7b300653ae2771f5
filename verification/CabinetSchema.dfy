/**
 The constraints the models declare on the cabinet tables, and what they keep true over every
 history of accepted writes and deletes.
 */
module CabinetSchema {
  import opened Common
  import opened Tables
  import opened Relational

  // ---- CHECKs ---------------------------------------------------------------------------

  /** Non-empty and without spaces; equality with its trimmed form follows. */
  predicate Clean(s: string) {
    s != [] && ' ' !in s
  }

  predicate CleanOrNull(s: Option<string>) {
    s.Some? ==> Clean(s.value)
  }

  /** A missing promotion id is materialized as a sentinel, so it cannot slip past a unique index. */
  function KeyOf(promo: Option<string>): string {
    match promo
    case None => "__none__"
    case Some(id) => id
  }

  /** verified_success, rejected and manual_attention only: cooldown still blocks a second action. */
  predicate IsActive(state: ActionState) {
    !state.VerifiedSuccess? && !state.Rejected? && !state.ManualAttention?
  }

  predicate StoreKeyOk(marketplace: Marketplace, key: string) {
    && Clean(key)
    && match marketplace
       case Wildberries | Ozon => key == "primary"
       case Yandex => key != "primary"
       case OtherMarketplace(_) => false
  }

  predicate TaxOk(mode: TaxMode, rate: Option<real>, perUnit: Option<real>) {
    && (mode.Percent? <==> rate.Some?) && (mode.PerUnit? <==> perUnit.Some?)
    && (rate.Some? ==> 0.0 <= rate.value <= 100.0) && (perUnit.Some? ==> 0.0 <= perUnit.value)
  }

  predicate PriceKindOk(kind: Kind, promo: Option<string>, promoKey: string, typed: bool,
                        participation: Option<Participation>) {
    && (kind.Catalog? ==> promo.None? && participation.None? && !typed)
    && (kind.Promotion? ==> participation.Some? && typed)
    && (participation == Some(ActiveIn) ==> promo.Some?)
    && promoKey == KeyOf(promo)
  }

  predicate PromoOk(marketplace: Marketplace, providerStatus: string, attribution: Attribution) {
    && marketplace == Yandex
    && 0 < |providerStatus| <= 64
    && providerStatus[0] != ' ' && providerStatus[|providerStatus| - 1] != ' '
    && (attribution.ExactStores? ==> providerStatus == "PARTIALLY_AUTO")
  }

  predicate RowOk(row: Row) {
    match row
    case Store(_, marketplace, key, external) => StoreKeyOk(marketplace, key) && CleanOrNull(external)
    case Placement(_, _, _, offer) => CleanOrNull(offer)
    case Policy(_, _, pct, target) => (pct.Some? ==> -100.0 <= pct.value <= 100.0) && 0.0 <= target <= 100.0
    case Tax(_, mode, rate, perUnit) => TaxOk(mode, rate, perUnit)
    case Cost(_, percent, amount) => 0.0 <= amount && (percent ==> amount <= 100.0)
    case Action(_, _, _, promo, promoKey, _, _, _, reappearances) => promoKey == KeyOf(promo) && reappearances >= 0
    case Price(_, _, resolved, scope, _, kind, promo, promoKey, typed, participation, _, _) =>
      (resolved <==> scope.Some?) && PriceKindOk(kind, promo, promoKey, typed, participation)
    case Promo(_, marketplace, resolved, scope, _, _, status, attribution, _) =>
      (resolved <==> scope.Some?) && PromoOk(marketplace, status, attribution)
    case Evidence(_, _, external, mapped, store) => (mapped <==> store.Some?) && Clean(external)
    case _ => true
  }

  predicate SameTable(pk: Pk, row: Row) {
    match row
    case Workspace(_) => pk.WorkspacePk?
    case Account(_, _, _) => pk.AccountPk?
    case Store(_, _, _, _) => pk.StorePk?
    case Product(_, _) => pk.ProductPk?
    case Placement(_, _, _, _) => pk.PlacementPk?
    case Policy(_, _, _, _) => pk.PolicyPk?
    case Tax(_, _, _, _) => pk.TaxPk?
    case Cost(_, _, _) => pk.CostPk?
    case Evaluation(_, _, _, _) => pk.EvaluationPk?
    case Action(_, _, _, _, _, _, _, _, _) => pk.ActionPk?
    case Price(_, _, _, _, _, _, _, _, _, _, _, _) => pk.PricePk?
    case Promo(_, _, _, _, _, _, _, _, _) => pk.PromoPk?
    case Evidence(_, _, _, _, _) => pk.EvidencePk?
    case Log(_, _) => pk.LogPk?
    case Audit(_, _) => pk.AuditPk?
    case Connection(_, _, _) => pk.ConnectionPk?
    case Attempt(_, _) => pk.AttemptPk?
  }

  predicate Fits(pk: Pk, row: Row) {
    SameTable(pk, row) && RowOk(row)
  }

  // ---- unique keys and references -------------------------------------------------------

  /** A key with a NULL part, and a row outside a partial index, claim nothing. */
  function Holds(pk: Pk, row: Row): set<Key> {
    match row
    case Workspace(owner) => {WorkspaceId(pk.id), WorkspaceOwner(owner)}
    case Account(_, mp, ext) =>
      {AccountId(pk.id), AccountMarketplace(pk.id, mp)}
      + (if ext.Some? then {ExternalCabinet(mp, ext.value)} else {})
    case Store(account, _, key, ext) =>
      {StoreId(pk.id), StoreAccount(pk.id, account), StoreKeyIn(account, key)}
      + (if ext.Some? then {ExternalStoreIn(account, ext.value)} else {})
    case Product(cabinet, ext) =>
      (if cabinet.Some? then {ProductAccount(pk.id, cabinet.value)} else {})
      + (if cabinet.Some? && ext.Some? then {ExternalProductIn(cabinet.value, ext.value)} else {})
    case Placement(product, store, _, offer) =>
      {PlacementOf(store, product)} + (if offer.Some? then {OfferIn(store, offer.value)} else {})
    case Policy(store, scope, _, _) =>
      {PolicyId(pk.id), PolicyStore(pk.id, store)}
      + (if scope.Some? then {ProductPolicy(store, scope.value)} else {StoreWidePolicy(store)})
    case Tax(policy, _, _, _) => {TaxOf(policy)}
    case Cost(_, _, _) => {}
    case Evaluation(policy, _, subject, run) =>
      if policy.Some? && subject.Some? && run.Some?
      then {EvaluationRun(policy.value, subject.value, run.value)} else {}
    case Action(_, store, product, _, promoKey, state, key, _, _) =>
      {Idempotency(key)} + (if IsActive(state) then {ActiveAction(store, product, promoKey)} else {})
    case Price(_, store, _, _, ext, kind, _, promoKey, _, _, source, run) =>
      {PriceRun(store, ext, kind, promoKey, source, run)}
    case Promo(account, _, _, _, ext, promotion, _, _, run) =>
      {PromoId(pk.id), PromoRun(account, ext, promotion, run)}
    case Evidence(observation, _, ext, _, _) => {EvidenceOf(observation, ext)}
    case Log(user, operation) =>
      {LogId(pk.id)}
      + (if operation.Some? && "v1:" <= operation.value then {OperationClaim(user, operation.value)} else {})
    case Audit(_, correlation) => {Correlation(correlation)}
    case Connection(_, account, fingerprint) =>
      {ConnectionId(pk.id)}
      + (if account.Some? then {ConnectionOf(account.value)} else {})
      + (if fingerprint.Some? then {Fingerprint(fingerprint.value)} else {})
    case Attempt(_, _) => {}
  }

  predicate IsTarget(k: Key) {
    match k
    case WorkspaceId(_) | AccountId(_) | AccountMarketplace(_, _) | StoreId(_) | StoreAccount(_, _)
       | ProductAccount(_, _) | PlacementOf(_, _) | PolicyId(_) | PolicyStore(_, _) | PromoId(_) | LogId(_)
       | ConnectionId(_) => true
    case _ => false
  }

  function Cascades(row: Row): set<Key> {
    match row
    case Store(account, mp, _, _) => {AccountMarketplace(account, mp)}
    case Product(cabinet, _) => if cabinet.Some? then {AccountId(cabinet.value)} else {}
    case Placement(product, store, account, _) => {ProductAccount(product, account), StoreAccount(store, account)}
    case Policy(store, scope, _, _) =>
      {StoreId(store)} + (if scope.Some? then {PlacementOf(store, scope.value)} else {})
    case Tax(policy, _, _, _) => {PolicyId(policy)}
    case Cost(policy, _, _) => {PolicyId(policy)}
    case Evaluation(_, store, _, _) => {StoreId(store)}
    case Action(policy, store, product, _, _, _, _, _, _) => {PolicyStore(policy, store), PlacementOf(store, product)}
    case Price(account, store, _, scope, _, _, _, _, _, _, _, _) =>
      {StoreAccount(store, account)} + (if scope.Some? then {PlacementOf(store, scope.value)} else {})
    case Promo(account, mp, _, scope, _, _, _, _, _) =>
      {AccountMarketplace(account, mp)} + (if scope.Some? then {ProductAccount(scope.value, account)} else {})
    case Evidence(observation, account, _, _, store) =>
      {PromoId(observation)} + (if store.Some? then {StoreAccount(store.value, account)} else {})
    case _ => {}
  }

  function Nulls(row: Row): set<Key> {
    match row
    case Evaluation(policy, _, _, _) => if policy.Some? then {PolicyId(policy.value)} else {}
    case Action(_, _, _, _, _, _, _, log, _) => if log.Some? then {LogId(log.value)} else {}
    case _ => {}
  }

  function Restricts(row: Row): set<Key> {
    match row
    case Account(workspace, _, _) => {WorkspaceId(workspace)}
    case Audit(log, _) => {LogId(log)}
    case Connection(workspace, account, _) =>
      (if workspace.Some? then {WorkspaceId(workspace.value)} else {})
      + (if account.Some? then {AccountId(account.value)} else {})
    case Attempt(connection, account) =>
      {ConnectionId(connection)} + (if account.Some? then {AccountId(account.value)} else {})
    case _ => {}
  }

  function Nullify(row: Row, lost: set<Key>): Row {
    match row
    case Evaluation(policy, _, _, _) =>
      if policy.Some? && PolicyId(policy.value) in lost then row.(policyRef := None) else row
    case Action(_, _, _, _, _, _, _, log, _) =>
      if log.Some? && LogId(log.value) in lost then row.(log := None) else row
    case _ => row
  }

  const SCHEMA: Schema := Schema(Fits, Holds, IsTarget, Cascades, Nulls, Restricts, Nullify)

  lemma NullifyingKeepsReferences(row: Row, lost: set<Key>)
    ensures SameButNulled(SCHEMA, row, Nullify(row, lost), lost)
  {
    match row
    case Evaluation(_, _, _, _) =>
    case Action(_, _, _, _, _, _, _, _, _) =>
    case _ =>
  }

  lemma NullifyingKeepsKeys(pk: Pk, row: Row, lost: set<Key>)
    ensures Holds(pk, Nullify(row, lost)) <= Holds(pk, row)
    ensures Fits(pk, row) ==> Fits(pk, Nullify(row, lost))
    ensures forall k :: IsTarget(k) && k in Holds(pk, row) ==> k in Holds(pk, Nullify(row, lost))
  {
    match row
    case Evaluation(_, _, _, _) =>
    case Action(_, _, _, _, _, _, _, _, _) =>
    case _ => assert Nullify(row, lost) == row;
  }

  lemma NullifyingTwice(row: Row, a: set<Key>, b: set<Key>)
    ensures Nullify(Nullify(row, a), b) == Nullify(row, a + b)
  {
  }

  lemma ReferencesAreTargets(row: Row, k: Key)
    requires k in References(SCHEMA, row)
    ensures IsTarget(k)
  {
  }

  lemma {:induction false} CabinetIsLawful()
    ensures Lawful(SCHEMA)
  {
    forall row, k | k in References(SCHEMA, row) ensures SCHEMA.target(k) { ReferencesAreTargets(row, k); }
    forall row, a, b ensures SCHEMA.nullify(SCHEMA.nullify(row, a), b) == SCHEMA.nullify(row, a + b) {
      NullifyingTwice(row, a, b);
    }
    forall row, lost ensures SameButNulled(SCHEMA, row, SCHEMA.nullify(row, lost), lost) {
      NullifyingKeepsReferences(row, lost);
    }
    forall pk, row, lost ensures FitsAsBefore(SCHEMA, pk, row, SCHEMA.nullify(row, lost)) {
      NullifyingKeepsKeys(pk, row, lost);
    }
  }

  /** Every history of statements on an initially empty database leaves it consistent. */
  lemma CabinetStaysConsistent(stmts: seq<Statement>)
    ensures Consistent(SCHEMA, ExecuteAll(SCHEMA, map[], stmts))
  {
    CabinetIsLawful();
    HistoriesStayConsistent(SCHEMA, map[], stmts);
  }

  // ---- isolation ------------------------------------------------------------------------

  predicate StoreIn(db: Db, store: Id, cabinet: Id) {
    StorePk(store) in db && db[StorePk(store)].Store? && db[StorePk(store)].account == cabinet
  }

  predicate ProductIn(db: Db, product: Id, cabinet: Id) {
    ProductPk(product) in db && db[ProductPk(product)].Product? && db[ProductPk(product)].cabinet == Some(cabinet)
  }

  predicate AccountOn(db: Db, account: Id, marketplace: Marketplace) {
    AccountPk(account) in db && db[AccountPk(account)].Account? && db[AccountPk(account)].marketplace == marketplace
  }

  predicate PolicyOf(db: Db, policy: Id, store: Id) {
    PolicyPk(policy) in db && db[PolicyPk(policy)].Policy? && db[PolicyPk(policy)].store == store
  }

  predicate PlacedBy(q: Pk, row: Row, store: Id, product: Id) {
    q.PlacementPk? && row.Placement? && row.store == store && row.product == product
  }

  /** What the row behind a key looks like. */
  predicate HolderOk(q: Pk, row: Row, k: Key) {
    match k
    case WorkspaceId(id) => q == WorkspacePk(id)
    case AccountId(id) => q == AccountPk(id) && row.Account?
    case AccountMarketplace(id, mp) => q == AccountPk(id) && row.Account? && row.marketplace == mp
    case StoreId(id) => q == StorePk(id) && row.Store?
    case StoreAccount(id, account) => q == StorePk(id) && row.Store? && row.account == account
    case ProductAccount(id, account) => q == ProductPk(id) && row.Product? && row.cabinet == Some(account)
    case PlacementOf(store, product) => PlacedBy(q, row, store, product)
    case PolicyId(id) => q == PolicyPk(id) && row.Policy?
    case PolicyStore(id, store) => q == PolicyPk(id) && row.Policy? && row.store == store
    case PromoId(id) => q == PromoPk(id) && row.Promo?
    case LogId(id) => q == LogPk(id)
    case ConnectionId(id) => q == ConnectionPk(id)
    case _ => true
  }

  lemma HolderIsOk(q: Pk, row: Row, k: Key)
    requires Fits(q, row) && k in Holds(q, row)
    ensures HolderOk(q, row, k)
  {
  }

  /** Who provides a referenced key. */
  lemma Holder(db: Db, p: Pk, k: Key) returns (q: Pk)
    requires Consistent(SCHEMA, db) && p in db && k in References(SCHEMA, db[p])
    ensures q in db && HolderOk(q, db[q], k) && k in SCHEMA.holds(q, db[q])
  {
    assert Provided(SCHEMA, db, k);
    q :| q in db && k in SCHEMA.holds(q, db[q]);
    HolderIsOk(q, db[q], k);
  }

  /** A placement's two composite keys share its account column. */
  lemma PlacementTies(db: Db, q: Pk)
    requires Consistent(SCHEMA, db) && q in db && db[q].Placement?
    ensures StoreIn(db, db[q].store, db[q].account)
    ensures ProductIn(db, db[q].product, db[q].account)
  {
    var s := Holder(db, q, StoreAccount(db[q].store, db[q].account));
    var p := Holder(db, q, ProductAccount(db[q].product, db[q].account));
  }

  /** A row that names a store and a product through a placement names one cabinet. */
  lemma PlacedTogether(db: Db, p: Pk, store: Id, product: Id) returns (q: Pk)
    requires Consistent(SCHEMA, db) && p in db && PlacementOf(store, product) in References(SCHEMA, db[p])
    ensures q in db && PlacedBy(q, db[q], store, product)
    ensures PlacementOf(store, product) in SCHEMA.holds(q, db[q])
    ensures StoreIn(db, store, db[q].account) && ProductIn(db, product, db[q].account)
  {
    q := Holder(db, p, PlacementOf(store, product));
    PlacementTies(db, q);
  }

  predicate SameCabinet(db: Db, store: Id, product: Id) {
    && StorePk(store) in db && db[StorePk(store)].Store?
    && ProductIn(db, product, db[StorePk(store)].account)
  }

  /** A row never mixes cabinets, stores or marketplaces. */
  predicate Isolated(db: Db, row: Row) {
    match row
    case Store(account, mp, _, _) => AccountOn(db, account, mp)
    case Placement(product, store, account, _) => SameCabinet(db, store, product) && StoreIn(db, store, account)
    case Policy(store, scope, _, _) => scope.Some? ==> SameCabinet(db, store, scope.value)
    case Action(policy, store, product, _, _, _, _, _, _) =>
      SameCabinet(db, store, product) && PolicyOf(db, policy, store)
    case Price(account, store, resolved, scope, _, _, _, _, _, _, _, _) =>
      StoreIn(db, store, account) && (resolved ==> scope.Some? && SameCabinet(db, store, scope.value))
    case Promo(account, mp, resolved, scope, _, _, _, _, _) =>
      && AccountOn(db, account, Yandex) && mp == Yandex
      && (resolved ==> scope.Some? && ProductIn(db, scope.value, account))
    case Evidence(_, account, _, mapped, store) => mapped ==> store.Some? && StoreIn(db, store.value, account)
    case _ => true
  }

  lemma RowIsIsolated(db: Db, p: Pk)
    requires Consistent(SCHEMA, db) && p in db
    ensures Isolated(db, db[p])
  {
    assert SCHEMA.fits(p, db[p]);
    match db[p]
    case Store(account, mp, _, _) =>
      var a := Holder(db, p, AccountMarketplace(account, mp));
    case Placement(_, _, _, _) =>
      PlacementTies(db, p);
    case Policy(store, scope, _, _) =>
      if scope.Some? { var q := PlacedTogether(db, p, store, scope.value); }
    case Action(policy, store, product, _, _, _, _, _, _) =>
      var q := PlacedTogether(db, p, store, product);
      var r := Holder(db, p, PolicyStore(policy, store));
    case Price(account, store, _, scope, _, _, _, _, _, _, _, _) =>
      var s := Holder(db, p, StoreAccount(store, account));
      if scope.Some? { var q := PlacedTogether(db, p, store, scope.value); }
    case Promo(account, mp, _, scope, _, _, _, _, _) =>
      var a := Holder(db, p, AccountMarketplace(account, mp));
      if scope.Some? { var q := Holder(db, p, ProductAccount(scope.value, account)); }
    case Evidence(_, account, _, _, store) =>
      if store.Some? { var s := Holder(db, p, StoreAccount(store.value, account)); }
    case _ =>
  }

  /** Isolation over every history of accepted writes and deletes. */
  lemma CabinetsStayIsolated(stmts: seq<Statement>, p: Pk)
    requires p in ExecuteAll(SCHEMA, map[], stmts)
    ensures Isolated(ExecuteAll(SCHEMA, map[], stmts), ExecuteAll(SCHEMA, map[], stmts)[p])
  {
    CabinetStaysConsistent(stmts);
    RowIsIsolated(ExecuteAll(SCHEMA, map[], stmts), p);
  }
}
