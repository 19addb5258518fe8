/**
 Product-link publication and first customer reservation as interleaved transactions.
 A transaction takes its advisory locks one statement at a time and keeps them to its end; its
 reads see what is committed then, and its writes reach the tables at its commit.
 */
module LinkModel {
  import opened Options

  type Id = nat
  type Account = nat
  type Origin = nat
  type Product = nat
  type Offer = nat

  /** One immutable revision row; `content` is the rest of the document's identity. */
  datatype Revision = Revision(account: Account, product: Product, offer: Offer, content: nat,
                               productNumber: nat, offerNumber: nat)

  /** One head row per (account, product). */
  datatype Head = Head(revision: Id, number: nat, origin: Option<Origin>)

  datatype Customer = Customer(account: Account, user: Id, origin: Origin)

  datatype Db = Db(revisions: map<Id, Revision>, heads: map<(Account, Product), Head>, customers: map<Id, Customer>)

  const EMPTY_DB := Db(map[], map[], map[])

  /** One call of publish_product_link; `origin` is None for unproven publication. */
  datatype Call = Call(origin: Option<Origin>, account: Account, legacy: Option<Account>,
                       product: Product, offer: Offer, content: nat, expected: nat)

  datatype Result =
    | Published(revision: Id)
    | Recovered(revision: Id)
    | Unchanged(revision: Id)
    | RevisionConflict
    | Refused
    | Uncertain

  /** How far a publisher has come; each name is the statement it completed last. */
  datatype Phase =
    | Begun
    | OriginLocked
    | Resolved(account: Account)
    | ProductLocked(account: Account)
    | HeadRead(account: Account, latest: Option<Head>)
    | OfferLocked(account: Account, latest: Option<Head>)
    | Appending(account: Account, latest: Option<Head>, offerNumber: nat)
    | Proving(account: Account, latest: Option<Head>)
    | Lost(account: Account, offerNumber: nat)
    | Done(result: Result)

  datatype ReservePhase = Started | UserLocked | ScopeLocked | Reserving(account: Account, present: bool) | Closed

  datatype Tx =
    | Publisher(call: Call, phase: Phase)
    | Reservation(user: Id, origin: Origin, configured: Account, legacy: Option<Account>, step: ReservePhase)

  datatype Key = User(id: Id) | Scope(origin: Origin) | ProductKey(account: Account, product: Product)
               | OfferKey(account: Account, offer: Offer)

  // ----- locks -------------------------------------------------------------

  function Held(tx: Tx): set<Key> {
    match tx
    case Publisher(call, phase) => PublisherHeld(call, phase)
    case Reservation(user, origin, _, _, step) =>
      (match step
       case Started => {}
       case UserLocked => {User(user)}
       case ScopeLocked => {User(user), Scope(origin)}
       case Reserving(_, _) => {User(user), Scope(origin)}
       case Closed => {})
  }

  function OriginKeys(call: Call): set<Key> {
    if call.origin.Some? then {Scope(call.origin.value)} else {}
  }

  function PublisherHeld(call: Call, phase: Phase): set<Key> {
    match phase
    case Begun => {}
    case OriginLocked => OriginKeys(call)
    case Resolved(_) => OriginKeys(call)
    case ProductLocked(a) => OriginKeys(call) + {ProductKey(a, call.product)}
    case HeadRead(a, _) => OriginKeys(call) + {ProductKey(a, call.product)}
    case OfferLocked(a, _) => OriginKeys(call) + {ProductKey(a, call.product), OfferKey(a, call.offer)}
    case Appending(a, _, _) => OriginKeys(call) + {ProductKey(a, call.product), OfferKey(a, call.offer)}
    case Proving(a, _) => OriginKeys(call) + {ProductKey(a, call.product), OfferKey(a, call.offer)}
    case Lost(_, _) => {}
    case Done(_) => {}
  }

  /** The lock this transaction asks for next. */
  function Wanted(tx: Tx): Option<Key> {
    match tx
    case Publisher(call, Begun) => if call.origin.Some? then Some(Scope(call.origin.value)) else None
    case Publisher(call, Resolved(a)) => Some(ProductKey(a, call.product))
    case Publisher(call, HeadRead(a, _)) => Some(OfferKey(a, call.offer))
    case Reservation(user, _, _, _, Started) => Some(User(user))
    case Reservation(_, origin, _, _, UserLocked) => Some(Scope(origin))
    case _ => None
  }

  // ----- queries -----------------------------------------------------------

  function HeadAt(db: Db, account: Account, product: Product): Option<Head> {
    if (account, product) in db.heads then Some(db.heads[(account, product)]) else None
  }

  function Number(latest: Option<Head>): nat {
    if latest.Some? then latest.value.number else 0
  }

  /** connection_accounts: the storage accounts proven to belong to an origin. */
  function Accounts(db: Db, origin: Origin): set<Account> {
    (set k | k in db.heads && db.heads[k].origin == Some(origin) :: k.0)
    + (set c | c in db.customers && db.customers[c].origin == origin :: db.customers[c].account)
  }

  predicate Connected(db: Db, k: (Account, Product), account: Account, origin: Origin, legacy: Option<Account>)
    requires k in db.heads
  {
    k.0 == account || db.heads[k].origin == Some(origin) || (db.heads[k].origin.None? && legacy == Some(k.0))
  }

  /** connection_heads. */
  function ConnectionHeads(db: Db, account: Account, origin: Origin, legacy: Option<Account>): set<(Account, Product)> {
    set k | k in db.heads && Connected(db, k, account, origin, legacy)
  }

  predicate HeadValid(db: Db, k: (Account, Product))
    requires k in db.heads
  {
    && db.heads[k].revision in db.revisions
    && db.revisions[db.heads[k].revision].account == k.0
    && db.revisions[db.heads[k].revision].product == k.1
    && db.revisions[db.heads[k].revision].productNumber == db.heads[k].number
  }

  /** The loop of resolve_connection_scope: every connected head must be usable, and adds its account. */
  function ResolvedAccounts(db: Db, call: Call, origin: Origin): Option<set<Account>> {
    var heads := ConnectionHeads(db, call.account, origin, call.legacy);
    if exists k | k in heads :: db.heads[k].origin !in {None, Some(origin)} || !HeadValid(db, k) then None
    else Some(Accounts(db, origin) + set k | k in heads :: k.0)
  }

  /** resolve_connection_scope. */
  ghost function Resolve(db: Db, call: Call): Option<Account> {
    if call.origin.None? then Some(call.account)
    else
      var accounts := ResolvedAccounts(db, call, call.origin.value);
      if accounts.None? || |accounts.value| > 1 then None
      else if a :| a in accounts.value then Some(a)
      else Some(call.account)
  }

  /** customer_account: the same decision for a customer, over proven accounts and unproven heads. */
  ghost function CustomerAccount(db: Db, configured: Account, origin: Origin,
                      legacy: Option<Account>): Option<Account> {
    if |Accounts(db, origin)| > 1 then None
    else
      var account := if a :| a in Accounts(db, origin) then a else configured;
      if exists k | k in ConnectionHeads(db, configured, origin, legacy) :: db.heads[k].origin.None? && k.0 != account
      then None
      else Some(account)
  }

  /** The part of require_compatible_connection about other accounts' links of this product. */
  predicate Compatible(db: Db, account: Account, product: Product) {
    forall r | r in db.revisions :: db.revisions[r].product == product ==> db.revisions[r].account == account
  }

  /** has_other_offer_product. */
  predicate OfferTaken(db: Db, account: Account, offer: Offer, product: Product) {
    exists k | k in db.heads ::
      && k.0 == account && k.1 != product
      && db.heads[k].revision in db.revisions
      && db.revisions[db.heads[k].revision].account == account
      && db.revisions[db.heads[k].revision].offer == offer
  }

  function OfferNumbers(db: Db, account: Account, offer: Offer): set<nat> {
    set r | r in db.revisions && db.revisions[r].account == account && db.revisions[r].offer == offer
      :: db.revisions[r].offerNumber
  }

  function ProductNumbers(db: Db, account: Account, product: Product): set<nat> {
    set r | r in db.revisions && db.revisions[r].account == account && db.revisions[r].product == product
      :: db.revisions[r].productNumber
  }

  /** ORDER BY revision_number DESC LIMIT 1. */
  ghost function Largest(s: set<nat>): (m: nat)
    ensures if s == {} then m == 0 else m in s
    ensures forall n | n in s :: n <= m
    decreases |s|
  {
    if s == {} then 0
    else
      var n :| n in s;
      var rest := Largest(s - {n});
      assert forall k | k in s :: k == n || k in s - {n};
      if rest > n then rest else n
  }

  predicate SameIdentity(db: Db, latest: Option<Head>, call: Call) {
    latest.Some? && latest.value.revision in db.revisions
    && db.revisions[latest.value.revision].offer == call.offer
    && db.revisions[latest.value.revision].content == call.content
  }

  // ----- writes ------------------------------------------------------------

  function NewOrigin(call: Call, latest: Option<Head>): Option<Origin> {
    if call.origin.Some? then call.origin else if latest.Some? then latest.value.origin else None
  }

  function Appended(db: Db, call: Call, id: Id, account: Account, latest: Option<Head>, offerNumber: nat): Db {
    var row := Revision(account, call.product, call.offer, call.content, Number(latest) + 1, offerNumber);
    Db(db.revisions[id := row],
       db.heads[(account, call.product) := Head(id, Number(latest) + 1, NewOrigin(call, latest))],
       db.customers)
  }

  function OriginProven(db: Db, call: Call, account: Account, latest: Option<Head>): Db {
    if latest.Some? then db.(heads := db.heads[(account, call.product) := latest.value.(origin := call.origin)]) else db
  }

  predicate Slot(db: Db, account: Account, user: Id, c: Id) {
    c in db.customers && db.customers[c].account == account && db.customers[c].user == user
  }

  ghost predicate Present(db: Db, account: Account, user: Id) {
    exists c :: Slot(db, account, user, c)
  }

  function Reserved(db: Db, account: Account, user: Id, origin: Origin, present: bool, id: Id): Db {
    if present then db else db.(customers := db.customers[id := Customer(account, user, origin)])
  }

  // ----- statements --------------------------------------------------------

  /** publish_product_link under the offer lock. */
  ghost function Decided(db: Db, call: Call, account: Account, latest: Option<Head>): Phase {
    if OfferTaken(db, account, call.offer, call.product) then Done(Refused)
    else if SameIdentity(db, latest, call) then
      if call.origin.Some? && latest.value.origin.None? then Proving(account, latest)
      else Done(Unchanged(latest.value.revision))
    else if call.expected != Number(latest) then Done(RevisionConflict)
    else Appending(account, latest, Largest(OfferNumbers(db, account, call.offer)) + 1)
  }

  /** The next statement of a publisher; `free` tells whether the lock it wants is free. */
  ghost function NextPhase(db: Db, call: Call, phase: Phase, free: bool): Phase {
    match phase
    case Begun => if call.origin.None? then Resolved(call.account) else if free then OriginLocked else phase
    case OriginLocked => var scope := Resolve(db, call); if scope.Some? then Resolved(scope.value) else Done(Refused)
    case Resolved(a) => if free then ProductLocked(a) else phase
    case ProductLocked(a) =>
      if !Compatible(db, a, call.product) then Done(Refused)
      else if (a, call.product) in db.heads && !HeadValid(db, (a, call.product)) then Done(Refused)
      else HeadRead(a, HeadAt(db, a, call.product))
    case HeadRead(a, latest) => if free then OfferLocked(a, latest) else phase
    case OfferLocked(a, latest) => Decided(db, call, a, latest)
    case _ => phase
  }

  ghost function NextStep(db: Db, tx: Tx, free: bool): ReservePhase
    requires tx.Reservation?
  {
    match tx.step
    case Started => if free then UserLocked else tx.step
    case UserLocked => if free then ScopeLocked else tx.step
    case ScopeLocked =>
      var account := CustomerAccount(db, tx.configured, tx.origin, tx.legacy);
      if account.None? then Closed
      else if exists c :: Slot(db, account.value, tx.user, c) && db.customers[c].origin != tx.origin then Closed
      else Reserving(account.value, Present(db, account.value, tx.user))
    case _ => tx.step
  }
}
