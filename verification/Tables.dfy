/**
 The rows of the cabinet, store, product and placement schema and of the protection, observation
 and execution tables that hang off it. Columns no constraint reads are left out.
 */
module Tables {
  import opened Common

  type Id = nat

  datatype Pk =
    | WorkspacePk(id: Id) | AccountPk(id: Id) | StorePk(id: Id) | ProductPk(id: Id) | PlacementPk(id: Id)
    | PolicyPk(id: Id) | TaxPk(id: Id) | CostPk(id: Id) | EvaluationPk(id: Id) | ActionPk(id: Id)
    | PricePk(id: Id) | PromoPk(id: Id) | EvidencePk(id: Id) | LogPk(id: Id) | AuditPk(id: Id)
    | ConnectionPk(id: Id) | AttemptPk(id: Id)

  datatype Marketplace = Wildberries | Ozon | Yandex | OtherMarketplace(name: string)
  datatype Origin = Api | Csv | Manual
  datatype Kind = Catalog | Promotion
  datatype Participation = ActiveIn | NotParticipating | Ended | UnknownParticipation
  datatype TaxMode = NoTax | Percent | PerUnit
  datatype Attribution = AccountWide | ExactStores | Unresolved | UnmappedStores
  datatype ActionState =
    | Detected | DataCheck | Incomplete | Stale | Conflicting | Unsupported | Eligible | Emergency
    | LowMargin | Safe | AwaitingSeller | ActionRequested | MarketplaceProcessing | VerifiedSuccess
    | Rejected | Ambiguous | Reappeared | Cooldown | ManualAttention

  datatype Row =
    | Workspace(owner: Id)
    | Account(workspace: Id, marketplace: Marketplace, externalAccount: Option<string>)
    | Store(account: Id, marketplace: Marketplace, storeKey: string, externalStore: Option<string>)
    | Product(cabinet: Option<Id>, externalProduct: Option<string>)
    | Placement(product: Id, store: Id, account: Id, offer: Option<string>)
    | Policy(store: Id, scope: Option<Id>, emergencyPct: Option<real>, targetMarginPct: real)
    | Tax(policy: Id, mode: TaxMode, rate: Option<real>, perUnit: Option<real>)
    | Cost(policy: Id, percent: bool, amount: real)
    | Evaluation(policyRef: Option<Id>, store: Id, subject: Option<Id>, run: Option<string>)
    | Action(policy: Id, store: Id, product: Id, promo: Option<string>, promoKey: string, state: ActionState,
             idempotencyKey: string, log: Option<Id>, reappearances: int)
    | Price(account: Id, store: Id, resolved: bool, scope: Option<Id>, external: string, kind: Kind,
            promo: Option<string>, promoKey: string, typed: bool, participation: Option<Participation>,
            source: Origin, ingest: string)
    | Promo(account: Id, marketplace: Marketplace, resolved: bool, scope: Option<Id>, external: string,
            promotion: string, providerStatus: string, attribution: Attribution, ingest: string)
    | Evidence(observation: Id, account: Id, externalId: string, mapped: bool, mappedStore: Option<Id>)
    | Log(user: Id, operation: Option<string>)
    | Audit(logRef: Id, correlation: string)
    | Connection(linkedWorkspace: Option<Id>, linkedAccount: Option<Id>, fingerprint: Option<string>)
    | Attempt(connection: Id, linkedAccount: Option<Id>)

  /** Unique keys; those up to ConnectionId are also targets of foreign keys. */
  datatype Key =
    | WorkspaceId(id: Id) | AccountId(id: Id) | AccountMarketplace(id: Id, marketplace: Marketplace)
    | StoreId(id: Id) | StoreAccount(id: Id, account: Id) | ProductAccount(id: Id, account: Id)
    | PlacementOf(store: Id, product: Id) | PolicyId(id: Id) | PolicyStore(id: Id, store: Id)
    | PromoId(id: Id) | LogId(id: Id) | ConnectionId(id: Id)
    | WorkspaceOwner(owner: Id)
    | ExternalCabinet(marketplace: Marketplace, external: string)
    | StoreKeyIn(account: Id, key: string) | ExternalStoreIn(account: Id, external: string)
    | ExternalProductIn(account: Id, external: string) | OfferIn(store: Id, offer: string)
    | ProductPolicy(store: Id, product: Id) | StoreWidePolicy(store: Id) | TaxOf(policy: Id)
    | EvaluationRun(policy: Id, product: Id, run: string)
    | ActiveAction(store: Id, product: Id, promoKey: string) | Idempotency(key: string)
    | PriceRun(store: Id, external: string, kind: Kind, promoKey: string, source: Origin, ingest: string)
    | PromoRun(account: Id, external: string, promotion: string, ingest: string)
    | EvidenceOf(observation: Id, external: string)
    | OperationClaim(user: Id, operation: string) | Correlation(correlation: string)
    | ConnectionOf(account: Id) | Fingerprint(fingerprint: string)

  type Db = map<Pk, Row>
}
