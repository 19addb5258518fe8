/** Runs: any number of publishers and reservations, interleaved statement by statement, with lost commits. */
module LinkRuns {
  import opened Options
  import opened LinkModel

  datatype World = World(db: Db, txs: map<Id, Tx>, nextId: Id)

  const START := World(EMPTY_DB, map[], 0)

  /** A commit either answers, or loses its answer with the writes stored or dropped. */
  datatype Outcome = Acknowledged | LostStored | LostDropped

  datatype Event =
    | Publish(call: Call)
    | Reserve(user: Id, origin: Origin, configured: Account, legacy: Option<Account>)
    | Advance(t: Id)
    | Commit(t: Id, outcome: Outcome)
    | Abort(t: Id)
    | Recheck(t: Id, readable: bool)

  predicate Free(w: World, t: Id, key: Key) {
    forall u | u in w.txs && u != t :: key !in Held(w.txs[u])
  }

  predicate MayProceed(w: World, t: Id)
    requires t in w.txs
  {
    Wanted(w.txs[t]).Some? ==> Free(w, t, Wanted(w.txs[t]).value)
  }

  function Put(w: World, t: Id, tx: Tx): World {
    w.(txs := w.txs[t := tx])
  }

  ghost function Advanced(w: World, t: Id): World
    requires t in w.txs
  {
    match w.txs[t]
    case Publisher(call, phase) =>
      Put(w, t, Publisher(call, NextPhase(w.db, call, phase, MayProceed(w, t))))
    case Reservation(_, _, _, _, _) =>
      Put(w, t, w.txs[t].(step := NextStep(w.db, w.txs[t], MayProceed(w, t))))
  }

  ghost function Committed(w: World, t: Id, outcome: Outcome): World
    requires t in w.txs
  {
    match w.txs[t]
    case Publisher(call, Appending(a, latest, n)) =>
      var w' := Put(w, t, Publisher(call, if outcome.Acknowledged? then Done(Published(t)) else Lost(a, n)));
      if outcome.LostDropped? then w' else w'.(db := Appended(w.db, call, t, a, latest, n))
    case Publisher(call, Proving(a, latest)) =>
      var done := if outcome.Acknowledged? && latest.Some? then Unchanged(latest.value.revision) else Uncertain;
      var w' := Put(w, t, Publisher(call, Done(done)));
      if outcome.LostDropped? then w' else w'.(db := OriginProven(w.db, call, a, latest))
    case Reservation(user, origin, _, _, Reserving(a, present)) =>
      var w' := Put(w, t, w.txs[t].(step := Closed));
      if outcome.LostDropped? then w' else w'.(db := Reserved(w.db, a, user, origin, present, t))
    case _ => w
  }

  /** query_link_history by the attempted offer revision: only the call's own row counts. */
  predicate OwnRowFound(db: Db, t: Id, account: Account, offer: Offer, offerNumber: nat) {
    t in db.revisions && db.revisions[t].account == account && db.revisions[t].offer == offer
    && db.revisions[t].offerNumber == offerNumber
  }

  function Rechecked(w: World, t: Id, readable: bool): World
    requires t in w.txs
  {
    match w.txs[t]
    case Publisher(call, Lost(a, n)) =>
      Put(w, t, Publisher(call, Done(if readable && OwnRowFound(w.db, t, a, call.offer, n) then Recovered(t) else Uncertain)))
    case _ => w
  }

  /** A refusal not modelled here, a deadline, a lock timeout or a crash: rollback. */
  function Aborted(w: World, t: Id): World
    requires t in w.txs
  {
    match w.txs[t]
    case Publisher(call, phase) =>
      if phase.Done? then w else if phase.Lost? then Put(w, t, Publisher(call, Done(Uncertain)))
      else Put(w, t, Publisher(call, Done(Refused)))
    case Reservation(_, _, _, _, _) => Put(w, t, w.txs[t].(step := Closed))
  }

  ghost function Step(w: World, e: Event): World {
    match e
    case Publish(call) => World(w.db, w.txs[w.nextId := Publisher(call, Begun)], w.nextId + 1)
    case Reserve(user, origin, configured, legacy) =>
      World(w.db, w.txs[w.nextId := Reservation(user, origin, configured, legacy, Started)], w.nextId + 1)
    case Advance(t) => if t in w.txs then Advanced(w, t) else w
    case Commit(t, outcome) => if t in w.txs then Committed(w, t, outcome) else w
    case Abort(t) => if t in w.txs then Aborted(w, t) else w
    case Recheck(t, readable) => if t in w.txs then Rechecked(w, t, readable) else w
  }

  ghost function Run(w: World, events: seq<Event>): World
    decreases |events|
  {
    if events == [] then w else Run(Step(w, events[0]), events[1..])
  }

  // ----- the tables --------------------------------------------------------

  predicate Numbered(numbers: set<nat>) {
    forall n | n in numbers :: 1 <= n && forall m | 1 <= m <= n :: m in numbers
  }

  /** Heads point to their own product's revision with the same number, and name the last one. */
  predicate HeadsOk(db: Db) {
    forall k | k in db.heads :: HeadValid(db, k) && 1 <= db.heads[k].number
  }

  ghost predicate ProductsOk(db: Db) {
    && (forall a, p :: Numbered(ProductNumbers(db, a, p)))
    && (forall a, p, n | n in ProductNumbers(db, a, p) :: n <= Number(HeadAt(db, a, p)))
    && (forall r, s | r in db.revisions && s in db.revisions && r != s ::
          db.revisions[r].account == db.revisions[s].account && db.revisions[r].product == db.revisions[s].product ==>
            db.revisions[r].productNumber != db.revisions[s].productNumber)
  }

  ghost predicate OffersOk(db: Db) {
    && (forall a, o :: Numbered(OfferNumbers(db, a, o)))
    && (forall r, s | r in db.revisions && s in db.revisions && r != s ::
          db.revisions[r].account == db.revisions[s].account && db.revisions[r].offer == db.revisions[s].offer ==>
            db.revisions[r].offerNumber != db.revisions[s].offerNumber)
  }

  /** No two current products of one account share an offer. */
  predicate OwnersOk(db: Db) {
    forall k | k in db.heads :: HeadValid(db, k) ==>
      !OfferTaken(db, k.0, db.revisions[db.heads[k].revision].offer, k.1)
  }

  predicate OneAccount(accounts: set<Account>) {
    forall a, b | a in accounts && b in accounts :: a == b
  }

  ghost predicate OriginsOk(db: Db) {
    forall o: Origin :: OneAccount(Accounts(db, o))
  }

  /** One customer row per (account, user). */
  predicate SlotsOk(db: Db) {
    forall c, d | c in db.customers && d in db.customers && c != d ::
      !(db.customers[c].account == db.customers[d].account && db.customers[c].user == db.customers[d].user)
  }

  ghost predicate DbOk(db: Db) {
    HeadsOk(db) && ProductsOk(db) && OffersOk(db) && OwnersOk(db) && OriginsOk(db) && SlotsOk(db)
  }

  // ----- the transactions --------------------------------------------------

  predicate ScopeOk(db: Db, origin: Option<Origin>, account: Account) {
    origin.Some? ==> Accounts(db, origin.value) <= {account}
  }

  /** What a publisher may rely on after each statement. */
  ghost predicate PhaseOk(db: Db, t: Id, call: Call, phase: Phase) {
    match phase
    case Begun => t !in db.revisions
    case OriginLocked => t !in db.revisions && call.origin.Some?
    case Resolved(a) => t !in db.revisions && ScopeOk(db, call.origin, a)
    case ProductLocked(a) => t !in db.revisions && ScopeOk(db, call.origin, a)
    case HeadRead(a, latest) =>
      t !in db.revisions && ScopeOk(db, call.origin, a) && HeadAt(db, a, call.product) == latest
    case OfferLocked(a, latest) =>
      t !in db.revisions && ScopeOk(db, call.origin, a) && HeadAt(db, a, call.product) == latest
    case Appending(a, latest, n) =>
      && t !in db.revisions && ScopeOk(db, call.origin, a) && HeadAt(db, a, call.product) == latest
      && !OfferTaken(db, a, call.offer, call.product) && call.expected == Number(latest)
      && n == Largest(OfferNumbers(db, a, call.offer)) + 1
    case Proving(a, latest) =>
      t !in db.revisions && ScopeOk(db, call.origin, a) && HeadAt(db, a, call.product) == latest
      && latest.Some? && SaysSame(db, latest.value.revision, call)
    case Lost(a, n) => t in db.revisions ==> OwnRowFound(db, t, a, call.offer, n) && OwnRow(db, t, call)
    case Done(result) => ResultOk(db, t, call, result)
  }

  /** A stored revision of the call's product has the call's offer and content. */
  predicate SaysSame(db: Db, r: Id, call: Call) {
    r in db.revisions && db.revisions[r].product == call.product && db.revisions[r].offer == call.offer
    && db.revisions[r].content == call.content
  }

  predicate OwnRow(db: Db, t: Id, call: Call)
    requires t in db.revisions
  {
    && db.revisions[t].product == call.product && db.revisions[t].offer == call.offer
    && db.revisions[t].content == call.content && db.revisions[t].productNumber == call.expected + 1
  }

  predicate ResultOk(db: Db, t: Id, call: Call, result: Result) {
    match result
    case Published(r) => r == t && t in db.revisions && OwnRow(db, t, call)
    case Recovered(r) => r == t && t in db.revisions && OwnRow(db, t, call)
    case Uncertain => t in db.revisions ==> OwnRow(db, t, call)
    case Unchanged(r) => t !in db.revisions && SaysSame(db, r, call)
    case _ => t !in db.revisions
  }

  ghost predicate TxOk(db: Db, t: Id, tx: Tx) {
    match tx
    case Publisher(call, phase) => PhaseOk(db, t, call, phase)
    case Reservation(user, origin, _, _, step) =>
      && t !in db.revisions && (!step.Closed? ==> t !in db.customers)
      && (step.Reserving? ==> Accounts(db, origin) <= {step.account}
                              && step.present == Present(db, step.account, user))
  }

  predicate Exclusive(w: World) {
    forall t, u | t in w.txs && u in w.txs && t != u :: Held(w.txs[t]) !! Held(w.txs[u])
  }

  predicate IdsOk(w: World) {
    && (forall t | t in w.txs :: t < w.nextId)
    && w.db.revisions.Keys <= w.txs.Keys && w.db.customers.Keys <= w.txs.Keys
  }

  ghost predicate Inv(w: World) {
    && IdsOk(w) && Exclusive(w) && DbOk(w.db)
    && (forall t | t in w.txs :: TxOk(w.db, t, w.txs[t]))
  }

  // ----- effects of one write ----------------------------------------------

  /** A head keeps its account; its origin becomes the caller's, or stays. */
  lemma HeadAccounts(db: Db, k: (Account, Product), h: Head, origin: Option<Origin>, o: Origin)
    requires h.origin == origin || (h.origin.Some? ==> k in db.heads && db.heads[k].origin == h.origin)
    ensures Accounts(db.(heads := db.heads[k := h]), o) <= Accounts(db, o) + if origin == Some(o) then {k.0} else {}
  {
    var db' := db.(heads := db.heads[k := h]);
    forall a | a in Accounts(db', o) ensures a in Accounts(db, o) + if origin == Some(o) then {k.0} else {} {
      if c :| c in db'.customers && db'.customers[c].origin == o && db'.customers[c].account == a {
        assert c in db.customers;
      } else {
        var l :| l in db'.heads && db'.heads[l].origin == Some(o) && l.0 == a;
        if l != k || (k in db.heads && db.heads[k].origin == Some(o)) {
          assert l in db.heads && db.heads[l].origin == Some(o);
        }
      }
    }
  }

  lemma AppendedAccounts(db: Db, call: Call, t: Id, a: Account, latest: Option<Head>, n: nat, o: Origin)
    requires HeadAt(db, a, call.product) == latest
    ensures Accounts(Appended(db, call, t, a, latest, n), o) <= Accounts(db, o) + if call.origin == Some(o) then {a} else {}
  {
    var h := Head(t, Number(latest) + 1, NewOrigin(call, latest));
    HeadAccounts(db, (a, call.product), h, call.origin, o);
    assert Accounts(Appended(db, call, t, a, latest, n), o) == Accounts(db.(heads := db.heads[(a, call.product) := h]), o);
  }

  lemma ProvenAccounts(db: Db, call: Call, a: Account, latest: Option<Head>, o: Origin)
    requires latest.Some?
    ensures Accounts(OriginProven(db, call, a, latest), o) <= Accounts(db, o) + if call.origin == Some(o) then {a} else {}
  {
    HeadAccounts(db, (a, call.product), latest.value.(origin := call.origin), call.origin, o);
  }

  lemma ReservedAccounts(db: Db, a: Account, user: Id, origin: Origin, present: bool, t: Id, o: Origin)
    requires t !in db.customers
    ensures Accounts(Reserved(db, a, user, origin, present, t), o) <= Accounts(db, o) + if origin == o then {a} else {}
  {
    var db' := Reserved(db, a, user, origin, present, t);
    forall b | b in Accounts(db', o) ensures b in Accounts(db, o) + if origin == o then {a} else {} {
      if c :| c in db'.customers && db'.customers[c].origin == o && db'.customers[c].account == b {
        assert c == t || c in db.customers;
      } else {
        var l :| l in db'.heads && db'.heads[l].origin == Some(o) && l.0 == b;
        assert l in db.heads;
      }
    }
  }

  lemma AppendedOfferNumbers(db: Db, call: Call, t: Id, a: Account, latest: Option<Head>, n: nat, a': Account,
                      o': Offer)
    requires t !in db.revisions
    ensures OfferNumbers(Appended(db, call, t, a, latest, n), a', o')
            == OfferNumbers(db, a', o') + if (a', o') == (a, call.offer) then {n} else {}
  {
    var db' := Appended(db, call, t, a, latest, n);
    forall m | m in OfferNumbers(db', a', o')
      ensures m in OfferNumbers(db, a', o') + if (a', o') == (a, call.offer) then {n} else {}
    {
      var r :| r in db'.revisions && db'.revisions[r].account == a' && db'.revisions[r].offer == o'
          && db'.revisions[r].offerNumber == m;
      assert r == t || r in db.revisions;
    }
    forall m | m in OfferNumbers(db, a', o') ensures m in OfferNumbers(db', a', o') {
      var r :| r in db.revisions && db.revisions[r].account == a' && db.revisions[r].offer == o'
          && db.revisions[r].offerNumber == m;
      assert r in db'.revisions && db'.revisions[r] == db.revisions[r];
    }
    assert t in db'.revisions;
  }

  lemma AppendedProductNumbers(db: Db, call: Call, t: Id, a: Account, latest: Option<Head>, n: nat, a': Account,
                      p': Product)
    requires t !in db.revisions
    ensures ProductNumbers(Appended(db, call, t, a, latest, n), a', p')
            == ProductNumbers(db, a', p') + if (a', p') == (a, call.product) then {Number(latest) + 1} else {}
  {
    var db' := Appended(db, call, t, a, latest, n);
    forall m | m in ProductNumbers(db', a', p')
      ensures m in ProductNumbers(db, a', p') + if (a', p') == (a, call.product) then {Number(latest) + 1} else {}
    {
      var r :| r in db'.revisions && db'.revisions[r].account == a' && db'.revisions[r].product == p'
          && db'.revisions[r].productNumber == m;
      assert r == t || r in db.revisions;
    }
    forall m | m in ProductNumbers(db, a', p') ensures m in ProductNumbers(db', a', p') {
      var r :| r in db.revisions && db.revisions[r].account == a' && db.revisions[r].product == p'
          && db.revisions[r].productNumber == m;
      assert r in db'.revisions && db'.revisions[r] == db.revisions[r];
    }
    assert t in db'.revisions;
  }

  // ----- the tables after one write ----------------------------------------

  lemma NumberedNext(numbers: set<nat>, n: nat)
    requires Numbered(numbers) && n == Largest(numbers) + 1
    ensures Numbered(numbers + {n}) && n !in numbers
  {
  }

  lemma NumberIsLargest(db: Db, a: Account, p: Product)
    requires HeadsOk(db) && ProductsOk(db)
    ensures Largest(ProductNumbers(db, a, p)) == Number(HeadAt(db, a, p))
  {
    var numbers := ProductNumbers(db, a, p);
    if (a, p) in db.heads {
      assert HeadValid(db, (a, p));
      assert Number(HeadAt(db, a, p)) in numbers;
    } else {
      assert forall m | m in numbers :: 1 <= m && m <= Number(HeadAt(db, a, p));
      assert numbers == {};
    }
  }

  lemma AppendedProducts(db: Db, call: Call, t: Id, a: Account, latest: Option<Head>, n: nat)
    requires DbOk(db) && t !in db.revisions && HeadAt(db, a, call.product) == latest
    ensures ProductsOk(Appended(db, call, t, a, latest, n))
  {
    hide OffersOk, OwnersOk, OriginsOk, HeadValid;
    var db' := Appended(db, call, t, a, latest, n);
    forall a', p' ensures Numbered(ProductNumbers(db', a', p')) {
      AppendedProductNumbers(db, call, t, a, latest, n, a', p');
      NumberIsLargest(db, a, call.product);
      NumberedNext(ProductNumbers(db, a, call.product), Number(latest) + 1);
    }
    forall a', p', m | m in ProductNumbers(db', a', p') ensures m <= Number(HeadAt(db', a', p')) {
      AppendedProductNumbers(db, call, t, a, latest, n, a', p');
    }
    forall r | r in db.revisions && db.revisions[r].account == a && db.revisions[r].product == call.product
      ensures db.revisions[r].productNumber != Number(latest) + 1
    {
      assert db.revisions[r].productNumber in ProductNumbers(db, a, call.product);
    }
  }

  lemma AppendedOffers(db: Db, call: Call, t: Id, a: Account, latest: Option<Head>, n: nat)
    requires OffersOk(db) && t !in db.revisions && n == Largest(OfferNumbers(db, a, call.offer)) + 1
    ensures OffersOk(Appended(db, call, t, a, latest, n))
  {
    var db' := Appended(db, call, t, a, latest, n);
    forall a', o' ensures Numbered(OfferNumbers(db', a', o')) {
      AppendedOfferNumbers(db, call, t, a, latest, n, a', o');
      NumberedNext(OfferNumbers(db, a, call.offer), n);
    }
    forall r | r in db.revisions && db.revisions[r].account == a && db.revisions[r].offer == call.offer
      ensures db.revisions[r].offerNumber != n
    {
      assert db.revisions[r].offerNumber in OfferNumbers(db, a, call.offer);
    }
  }

  lemma AppendedHeads(db: Db, call: Call, t: Id, a: Account, latest: Option<Head>, n: nat)
    requires HeadsOk(db) && t !in db.revisions
    ensures HeadsOk(Appended(db, call, t, a, latest, n))
  {
    var db' := Appended(db, call, t, a, latest, n);
    forall k | k in db'.heads ensures HeadValid(db', k) && 1 <= db'.heads[k].number {
      if k != (a, call.product) {
        assert HeadValid(db, k);
      }
    }
  }

  /** The offers named by the current heads of an account change only at the written head. */
  lemma AppendedTaken(db: Db, call: Call, t: Id, a: Account, latest: Option<Head>, n: nat, a': Account, o': Offer,
                      p': Product)
    requires HeadsOk(db) && t !in db.revisions
    requires OfferTaken(Appended(db, call, t, a, latest, n), a', o', p')
    ensures OfferTaken(db, a', o', p') || (a' == a && o' == call.offer && p' != call.product)
  {
    var db' := Appended(db, call, t, a, latest, n);
    var k :| k in db'.heads && k.0 == a' && k.1 != p' && db'.heads[k].revision in db'.revisions
             && db'.revisions[db'.heads[k].revision].account == a' && db'.revisions[db'.heads[k].revision].offer == o';
    if k != (a, call.product) {
      assert HeadValid(db, k);
    }
  }

  lemma AppendedOwners(db: Db, call: Call, t: Id, a: Account, latest: Option<Head>, n: nat)
    requires HeadsOk(db) && OwnersOk(db) && t !in db.revisions && !OfferTaken(db, a, call.offer, call.product)
    ensures OwnersOk(Appended(db, call, t, a, latest, n))
  {
    var db' := Appended(db, call, t, a, latest, n);
    forall k | k in db'.heads && HeadValid(db', k)
      ensures !OfferTaken(db', k.0, db'.revisions[db'.heads[k].revision].offer, k.1)
    {
      var offer := db'.revisions[db'.heads[k].revision].offer;
      if k != (a, call.product) {
        assert HeadValid(db, k);
      }
      if OfferTaken(db', k.0, offer, k.1) {
        AppendedTaken(db, call, t, a, latest, n, k.0, offer, k.1);
      }
    }
  }

  lemma OriginsGrow(db: Db, db': Db, origin: Option<Origin>, a: Account)
    requires OriginsOk(db) && ScopeOk(db, origin, a)
    requires forall o: Origin :: Accounts(db', o) <= Accounts(db, o) + if origin == Some(o) then {a} else {}
    ensures OriginsOk(db')
  {
    hide Accounts;
    forall o: Origin ensures OneAccount(Accounts(db', o)) {
      assert OneAccount(Accounts(db, o));
      assert Accounts(db', o) <= Accounts(db, o) + if origin == Some(o) then {a} else {};
    }
  }

  lemma AppendedDb(db: Db, call: Call, t: Id, a: Account, latest: Option<Head>, n: nat)
    requires DbOk(db) && PhaseOk(db, t, call, Appending(a, latest, n))
    ensures DbOk(Appended(db, call, t, a, latest, n))
  {
    AppendedHeads(db, call, t, a, latest, n);
    AppendedProducts(db, call, t, a, latest, n);
    AppendedOffers(db, call, t, a, latest, n);
    AppendedOwners(db, call, t, a, latest, n);
    hide HeadsOk, ProductsOk, OffersOk, OwnersOk, Appended, Accounts;
    forall o: Origin
      ensures Accounts(Appended(db, call, t, a, latest, n), o) <= Accounts(db, o) + if call.origin == Some(o) then {a} else {}
    {
      AppendedAccounts(db, call, t, a, latest, n, o);
    }
    OriginsGrow(db, Appended(db, call, t, a, latest, n), call.origin, a);
  }

  // ----- other transactions after one write --------------------------------

  /** A write under its locks leaves every other transaction's knowledge true. */
  lemma AppendedOther(db: Db, call: Call, t: Id, a: Account, latest: Option<Head>, n: nat, u: Id, tx: Tx)
    requires DbOk(db) && PhaseOk(db, t, call, Appending(a, latest, n)) && TxOk(db, u, tx) && u != t
    requires Held(tx) !! PublisherHeld(call, Appending(a, latest, n))
    ensures TxOk(Appended(db, call, t, a, latest, n), u, tx)
  {
    hide ProductsOk, OffersOk, OwnersOk, OriginsOk, Accounts, OfferTaken, OfferNumbers, HeadValid;
    var db' := Appended(db, call, t, a, latest, n);
    match tx
    case Publisher(call', phase) =>
      if call'.origin.Some? { AppendedAccounts(db, call, t, a, latest, n, call'.origin.value); }
      if phase.Appending? {
        AppendedOfferNumbers(db, call, t, a, latest, n, phase.account, call'.offer);
        if OfferTaken(db', phase.account, call'.offer, call'.product) {
          AppendedTaken(db, call, t, a, latest, n, phase.account, call'.offer, call'.product);
        }
      }
    case Reservation(user, origin, _, _, step) =>
      AppendedAccounts(db, call, t, a, latest, n, origin);
      if step.Reserving? { SameCustomers(db, db', step.account, user); }
  }

  lemma AppendedSelf(db: Db, call: Call, t: Id, a: Account, latest: Option<Head>, n: nat)
    requires PhaseOk(db, t, call, Appending(a, latest, n))
    ensures var db' := Appended(db, call, t, a, latest, n);
            OwnRowFound(db', t, a, call.offer, n) && OwnRow(db', t, call)
  {
  }

  lemma ProvenHeads(db: Db, call: Call, a: Account, latest: Option<Head>)
    requires HeadsOk(db) && HeadAt(db, a, call.product) == latest && latest.Some?
    ensures HeadsOk(OriginProven(db, call, a, latest))
  {
    var db' := OriginProven(db, call, a, latest);
    assert forall k | k in db'.heads :: HeadValid(db, k) <==> HeadValid(db', k);
  }

  lemma ProvenDb(db: Db, t: Id, call: Call, a: Account, latest: Option<Head>)
    requires DbOk(db) && PhaseOk(db, t, call, Proving(a, latest))
    ensures DbOk(OriginProven(db, call, a, latest))
  {
    var db' := OriginProven(db, call, a, latest);
    ProvenHeads(db, call, a, latest);
    ProvenTables(db, call, a, latest);
    hide HeadsOk, ProductsOk, OffersOk, OwnersOk, OriginProven, Accounts, HeadValid;
    forall o: Origin ensures Accounts(db', o) <= Accounts(db, o) + if call.origin == Some(o) then {a} else {} {
      ProvenAccounts(db, call, a, latest, o);
    }
    OriginsGrow(db, db', call.origin, a);
  }

  lemma ProvenProducts(db: Db, call: Call, a: Account, latest: Option<Head>)
    requires ProductsOk(db) && HeadAt(db, a, call.product) == latest && latest.Some?
    ensures ProductsOk(OriginProven(db, call, a, latest))
  {
    var db' := OriginProven(db, call, a, latest);
    assert forall a', p' :: ProductNumbers(db', a', p') == ProductNumbers(db, a', p');
    assert forall a', p' :: Number(HeadAt(db', a', p')) == Number(HeadAt(db, a', p'));
  }

  lemma ProvenOffers(db: Db, call: Call, a: Account, latest: Option<Head>)
    requires OffersOk(db)
    ensures OffersOk(OriginProven(db, call, a, latest))
  {
    var db' := OriginProven(db, call, a, latest);
    assert forall a', o' :: OfferNumbers(db', a', o') == OfferNumbers(db, a', o');
  }

  lemma ProvenTables(db: Db, call: Call, a: Account, latest: Option<Head>)
    requires DbOk(db) && HeadAt(db, a, call.product) == latest && latest.Some?
    ensures var db' := OriginProven(db, call, a, latest); ProductsOk(db') && OffersOk(db') && OwnersOk(db')
  {
    ProvenProducts(db, call, a, latest);
    ProvenOffers(db, call, a, latest);
    hide OriginsOk, HeadsOk, ProductsOk, OffersOk, SlotsOk, OfferTaken;
    var db' := OriginProven(db, call, a, latest);
    forall k | k in db'.heads && HeadValid(db', k)
      ensures !OfferTaken(db', k.0, db'.revisions[db'.heads[k].revision].offer, k.1)
    {
      assert HeadValid(db, k);
      ProvenTaken(db, call, a, latest, k.0, db'.revisions[db'.heads[k].revision].offer, k.1);
    }
  }

  lemma ProvenTaken(db: Db, call: Call, a: Account, latest: Option<Head>, a': Account, o': Offer, p': Product)
    requires HeadAt(db, a, call.product) == latest && latest.Some?
    ensures OfferTaken(OriginProven(db, call, a, latest), a', o', p') <==> OfferTaken(db, a', o', p')
  {
    var db' := OriginProven(db, call, a, latest);
    assert forall k :: k in db'.heads <==> k in db.heads;
    assert forall k | k in db.heads :: db'.heads[k].revision == db.heads[k].revision;
  }

  lemma ProvenOther(db: Db, t: Id, call: Call, a: Account, latest: Option<Head>, u: Id, tx: Tx)
    requires PhaseOk(db, t, call, Proving(a, latest)) && TxOk(db, u, tx) && u != t
    requires Held(tx) !! PublisherHeld(call, Proving(a, latest))
    ensures TxOk(OriginProven(db, call, a, latest), u, tx)
  {
    hide Accounts, OfferTaken, OfferNumbers;
    var db' := OriginProven(db, call, a, latest);
    match tx
    case Publisher(call', phase) =>
      if call'.origin.Some? { ProvenAccounts(db, call, a, latest, call'.origin.value); }
      if phase.Appending? {
        ProvenTaken(db, call, a, latest, phase.account, call'.offer, call'.product);
        assert OfferNumbers(db', phase.account, call'.offer) == OfferNumbers(db, phase.account, call'.offer) by {
          SameRevisions(db, db', phase.account, call'.offer);
        }
      }
    case Reservation(user, origin, _, _, step) =>
      ProvenAccounts(db, call, a, latest, origin);
      if step.Reserving? { SameCustomers(db, db', step.account, user); }
  }

  lemma SameRevisions(db: Db, db': Db, a: Account, o: Offer)
    requires db'.revisions == db.revisions
    ensures OfferNumbers(db', a, o) == OfferNumbers(db, a, o)
  {
  }

  lemma ReservedDb(db: Db, a: Account, user: Id, origin: Origin, present: bool, t: Id)
    requires DbOk(db) && t !in db.customers && Accounts(db, origin) <= {a} && present == Present(db, a, user)
    ensures DbOk(Reserved(db, a, user, origin, present, t))
  {
    var db' := Reserved(db, a, user, origin, present, t);
    ReservedTables(db, db');
    assert SlotsOk(db') by {
      hide Accounts;
      forall c | c in db.customers && !present ensures !(db.customers[c].account == a && db.customers[c].user == user) {
        assert !Slot(db, a, user, c);
      }
    }
    hide HeadsOk, ProductsOk, OffersOk, OwnersOk, SlotsOk, Reserved, Accounts;
    forall o: Origin ensures Accounts(db', o) <= Accounts(db, o) + if Some(origin) == Some(o) then {a} else {} {
      ReservedAccounts(db, a, user, origin, present, t, o);
    }
    OriginsGrow(db, db', Some(origin), a);
  }

  lemma ReservedTables(db: Db, db': Db)
    requires DbOk(db) && db'.revisions == db.revisions && db'.heads == db.heads
    ensures HeadsOk(db') && ProductsOk(db') && OffersOk(db') && OwnersOk(db')
  {
    hide OriginsOk, SlotsOk;
    assert forall k | k in db'.heads :: HeadValid(db, k) <==> HeadValid(db', k);
    assert forall a', p' :: ProductNumbers(db', a', p') == ProductNumbers(db, a', p');
    assert forall a', o' :: OfferNumbers(db', a', o') == OfferNumbers(db, a', o');
    assert forall a', p' :: HeadAt(db', a', p') == HeadAt(db, a', p');
    assert forall a', o', p' :: OfferTaken(db', a', o', p') <==> OfferTaken(db, a', o', p');
  }

  lemma ReservedOther(db: Db, a: Account, user: Id, origin: Origin, present: bool, t: Id, u: Id, tx: Tx)
    requires TxOk(db, u, tx) && t !in db.customers && u != t
    requires Held(tx) !! {Scope(origin), User(user)}
    ensures TxOk(Reserved(db, a, user, origin, present, t), u, tx)
  {
    hide Accounts, OfferTaken, OfferNumbers, Present;
    var db' := Reserved(db, a, user, origin, present, t);
    assert db'.revisions == db.revisions && db'.heads == db.heads;
    match tx
    case Publisher(call', phase) =>
      if call'.origin.Some? { ReservedAccounts(db, a, user, origin, present, t, call'.origin.value); }
      if phase.Appending? {
        SameRevisions(db, db', phase.account, call'.offer);
        SameHeads(db, db', phase.account, call'.offer, call'.product);
      }
    case Reservation(user', origin', _, _, step) =>
      ReservedAccounts(db, a, user, origin, present, t, origin');
      if step.Reserving? { ReservedSlots(db, a, user, origin, present, t, step.account, user'); }
  }

  lemma ReservedSlots(db: Db, a: Account, user: Id, origin: Origin, present: bool, t: Id, a': Account, user': Id)
    requires user' != user && t !in db.customers
    ensures Present(Reserved(db, a, user, origin, present, t), a', user') == Present(db, a', user')
  {
    var db' := Reserved(db, a, user, origin, present, t);
    assert forall c :: Slot(db', a', user', c) <==> Slot(db, a', user', c);
  }

  lemma SameCustomers(db: Db, db': Db, a: Account, user: Id)
    requires db'.customers == db.customers
    ensures Present(db', a, user) == Present(db, a, user)
  {
    assert forall c :: Slot(db', a, user, c) <==> Slot(db, a, user, c);
  }

  lemma SameHeads(db: Db, db': Db, a: Account, o: Offer, p: Product)
    requires db'.revisions == db.revisions && db'.heads == db.heads
    ensures OfferTaken(db', a, o, p) <==> OfferTaken(db, a, o, p)
  {
  }

  // ----- single statements -------------------------------------------------

  lemma AtMostOne(s: set<Account>, a: Account)
    requires |s| <= 1 && a in s
    ensures s == {a}
  {
    assert |s - {a}| == 0;
  }

  lemma ResolveScope(db: Db, call: Call)
    requires Resolve(db, call).Some?
    ensures ScopeOk(db, call.origin, Resolve(db, call).value)
  {
    hide Accounts, ConnectionHeads;
    if call.origin.Some? {
      var accounts := ResolvedAccounts(db, call, call.origin.value).value;
      assert Accounts(db, call.origin.value) <= accounts;
      if accounts != {} {
        AtMostOne(accounts, Resolve(db, call).value);
      }
    }
  }

  lemma CustomerScope(db: Db, configured: Account, origin: Origin, legacy: Option<Account>)
    requires CustomerAccount(db, configured, origin, legacy).Some?
    ensures Accounts(db, origin) <= {CustomerAccount(db, configured, origin, legacy).value}
  {
    hide Accounts, ConnectionHeads;
    if Accounts(db, origin) != {} {
      AtMostOne(Accounts(db, origin), CustomerAccount(db, configured, origin, legacy).value);
    }
  }

  lemma NextPhaseOk(db: Db, t: Id, call: Call, phase: Phase, free: bool)
    requires HeadsOk(db) && PhaseOk(db, t, call, phase)
    ensures PhaseOk(db, t, call, NextPhase(db, call, phase, free))
  {
    hide Accounts, OfferTaken, OfferNumbers, Resolve, Compatible;
    if phase.OriginLocked? && Resolve(db, call).Some? {
      ResolveScope(db, call);
    }
    if phase.OfferLocked? && phase.latest.Some? {
      assert HeadValid(db, (phase.account, call.product));
    }
  }

  lemma NextPhaseHeld(db: Db, call: Call, phase: Phase, free: bool)
    ensures PublisherHeld(call, NextPhase(db, call, phase, free))
            <= PublisherHeld(call, phase)
               + (if free && Wanted(Publisher(call, phase)).Some? then {Wanted(Publisher(call, phase)).value} else {})
  {
    hide Accounts, OfferTaken, OfferNumbers, Resolve, Compatible, HeadValid, SameIdentity;
  }

  lemma NextStepOk(db: Db, t: Id, tx: Tx, free: bool)
    requires tx.Reservation? && TxOk(db, t, tx)
    ensures TxOk(db, t, tx.(step := NextStep(db, tx, free)))
    ensures Held(tx.(step := NextStep(db, tx, free))) <= Held(tx) + (if free && Wanted(tx).Some? then {Wanted(tx).value} else {})
  {
    hide Accounts, CustomerAccount, Present;
    if tx.step.ScopeLocked? && CustomerAccount(db, tx.configured, tx.origin, tx.legacy).Some? {
      CustomerScope(db, tx.configured, tx.origin, tx.legacy);
    }
  }

  // ----- steps -------------------------------------------------------------

  /** One transaction moves on; it takes at most one lock, and only a free one. */
  lemma MoveKeeps(w: World, t: Id, tx: Tx, key: Option<Key>)
    requires Inv(w) && t in w.txs && TxOk(w.db, t, tx)
    requires Held(tx) <= Held(w.txs[t]) + if key.Some? then {key.value} else {}
    requires key.Some? ==> Free(w, t, key.value)
    ensures Inv(Put(w, t, tx))
  {
    hide DbOk, PhaseOk, PublisherHeld;
  }

  lemma AdvanceKeeps(w: World, t: Id)
    requires Inv(w) && t in w.txs
    ensures Inv(Advanced(w, t))
  {
    TxFacts(w, t);
    hide Inv, PhaseOk, PublisherHeld, NextPhase, NextStep, Wanted;
    var key := if MayProceed(w, t) then Wanted(w.txs[t]) else None;
    match w.txs[t]
    case Publisher(call, phase) =>
      NextPhaseOk(w.db, t, call, phase, MayProceed(w, t));
      NextPhaseHeld(w.db, call, phase, MayProceed(w, t));
      MoveKeeps(w, t, Publisher(call, NextPhase(w.db, call, phase, MayProceed(w, t))), key);
    case Reservation(_, _, _, _, _) =>
      NextStepOk(w.db, t, w.txs[t], MayProceed(w, t));
      MoveKeeps(w, t, w.txs[t].(step := NextStep(w.db, w.txs[t], MayProceed(w, t))), key);
  }

  lemma TxFacts(w: World, t: Id)
    requires Inv(w) && t in w.txs
    ensures TxOk(w.db, t, w.txs[t]) && DbOk(w.db) && t < w.nextId
  {
  }

  lemma Others(w: World, t: Id, u: Id)
    requires Inv(w) && t in w.txs && u in w.txs && t != u
    ensures TxOk(w.db, u, w.txs[u]) && Held(w.txs[u]) !! Held(w.txs[t])
  {
    hide DbOk, TxOk, Held;
  }

  /** A commit that writes: the writer lets go of its locks, and every other transaction stays informed. */
  lemma WriteKeeps(w: World, t: Id, tx: Tx, db': Db)
    requires Inv(w) && t in w.txs && DbOk(db') && TxOk(db', t, tx) && Held(tx) == {}
    requires db'.revisions.Keys <= w.db.revisions.Keys + {t} && db'.customers.Keys <= w.db.customers.Keys + {t}
    requires forall u | u in w.txs && u != t :: TxOk(db', u, w.txs[u])
    ensures Inv(Put(w, t, tx).(db := db'))
  {
    hide DbOk, TxOk, Held;
  }

  lemma CommitAppend(w: World, t: Id, call: Call, a: Account, latest: Option<Head>, n: nat, phase: Phase)
    requires Inv(w) && t in w.txs && w.txs[t] == Publisher(call, Appending(a, latest, n))
    requires phase in {Lost(a, n), Done(Published(t))}
    ensures Inv(Put(w, t, Publisher(call, phase)).(db := Appended(w.db, call, t, a, latest, n)))
  {
    hide Inv, DbOk, HeadAt, OfferTaken, OfferNumbers, Accounts;
    TxFacts(w, t);
    var db' := Appended(w.db, call, t, a, latest, n);
    AppendedDb(w.db, call, t, a, latest, n);
    AppendedSelf(w.db, call, t, a, latest, n);
    forall u | u in w.txs && u != t ensures TxOk(db', u, w.txs[u]) {
      Others(w, t, u);
      AppendedOther(w.db, call, t, a, latest, n, u, w.txs[u]);
    }
    WriteKeeps(w, t, Publisher(call, phase), db');
  }

  lemma CommitProof(w: World, t: Id, call: Call, a: Account, latest: Option<Head>, result: Result)
    requires Inv(w) && t in w.txs && w.txs[t] == Publisher(call, Proving(a, latest))
    requires result.Uncertain? || (latest.Some? && result == Unchanged(latest.value.revision))
    ensures Inv(Put(w, t, Publisher(call, Done(result))).(db := OriginProven(w.db, call, a, latest)))
  {
    hide Inv, DbOk, HeadAt, OfferTaken, OfferNumbers, Accounts;
    TxFacts(w, t);
    var db' := OriginProven(w.db, call, a, latest);
    ProvenDb(w.db, t, call, a, latest);
    forall u | u in w.txs && u != t ensures TxOk(db', u, w.txs[u]) {
      Others(w, t, u);
      ProvenOther(w.db, t, call, a, latest, u, w.txs[u]);
    }
    WriteKeeps(w, t, Publisher(call, Done(result)), db');
  }

  lemma CommitReservation(w: World, t: Id)
    requires Inv(w) && t in w.txs && w.txs[t].Reservation? && w.txs[t].step.Reserving?
    ensures var tx := w.txs[t];
            Inv(Put(w, t, tx.(step := Closed)).(db := Reserved(w.db, tx.step.account, tx.user, tx.origin, tx.step.present, t)))
  {
    hide Inv, DbOk, PhaseOk, Accounts, Present;
    TxFacts(w, t);
    var tx := w.txs[t];
    var a := tx.step.account;
    var db' := Reserved(w.db, a, tx.user, tx.origin, tx.step.present, t);
    ReservedDb(w.db, a, tx.user, tx.origin, tx.step.present, t);
    forall u | u in w.txs && u != t ensures TxOk(db', u, w.txs[u]) {
      Others(w, t, u);
      ReservedOther(w.db, a, tx.user, tx.origin, tx.step.present, t, u, w.txs[u]);
    }
    WriteKeeps(w, t, tx.(step := Closed), db');
  }

  lemma LetGoOk(db: Db, t: Id, call: Call, phase: Phase, phase': Phase)
    requires PhaseOk(db, t, call, phase) && (phase.Appending? || phase.Proving?)
    requires phase'.Lost? || phase' == Done(Uncertain)
             || (phase.Proving? && phase.latest.Some? && phase' == Done(Unchanged(phase.latest.value.revision)))
    ensures TxOk(db, t, Publisher(call, phase'))
  {
    hide ScopeOk, HeadAt, OfferTaken, OfferNumbers;
  }

  /** A commit that did not take effect: the writer lets go of its locks. */
  lemma LetGo(w: World, t: Id, call: Call, phase: Phase)
    requires Inv(w) && t in w.txs && w.txs[t].Publisher? && w.txs[t].call == call
    requires w.txs[t].phase.Appending? || w.txs[t].phase.Proving?
    requires phase.Lost? || phase == Done(Uncertain)
             || (w.txs[t].phase.Proving? && w.txs[t].phase.latest.Some?
                 && phase == Done(Unchanged(w.txs[t].phase.latest.value.revision)))
    ensures Inv(Put(w, t, Publisher(call, phase)))
  {
    TxFacts(w, t);
    LetGoOk(w.db, t, call, w.txs[t].phase, phase);
    hide Inv, DbOk, TxOk, PhaseOk;
    EndKeeps(w, t, Publisher(call, phase));
  }

  lemma AppendKeeps(w: World, t: Id, call: Call, a: Account, latest: Option<Head>, n: nat, outcome: Outcome)
    requires Inv(w) && t in w.txs && w.txs[t] == Publisher(call, Appending(a, latest, n))
    ensures Inv(Committed(w, t, outcome))
  {
    hide Inv, Appended;
    if outcome.LostDropped? {
      LetGo(w, t, call, Lost(a, n));
    } else {
      CommitAppend(w, t, call, a, latest, n, if outcome.Acknowledged? then Done(Published(t)) else Lost(a, n));
    }
  }

  lemma ProofKeeps(w: World, t: Id, call: Call, a: Account, latest: Option<Head>, outcome: Outcome)
    requires Inv(w) && t in w.txs && w.txs[t] == Publisher(call, Proving(a, latest))
    ensures Inv(Committed(w, t, outcome))
  {
    hide Inv, OriginProven;
    var done := if outcome.Acknowledged? && latest.Some? then Unchanged(latest.value.revision) else Uncertain;
    if outcome.LostDropped? {
      LetGo(w, t, call, Done(done));
    } else {
      CommitProof(w, t, call, a, latest, done);
    }
  }

  lemma CommitKeeps(w: World, t: Id, outcome: Outcome)
    requires Inv(w) && t in w.txs
    ensures Inv(Committed(w, t, outcome))
  {
    hide Inv, Appended, OriginProven, Reserved, Held;
    match w.txs[t]
    case Publisher(call, Appending(a, latest, n)) => AppendKeeps(w, t, call, a, latest, n, outcome);
    case Publisher(call, Proving(a, latest)) => ProofKeeps(w, t, call, a, latest, outcome);
    case Reservation(_, _, _, _, Reserving(_, _)) =>
      if outcome.LostDropped? { CloseKeeps(w, t); } else { CommitReservation(w, t); }
    case _ =>
  }

  lemma BeginKeeps(w: World, tx: Tx)
    requires Inv(w) && (if tx.Publisher? then tx.phase.Begun? else tx.step.Started?)
    ensures Inv(World(w.db, w.txs[w.nextId := tx], w.nextId + 1))
  {
    hide DbOk, PhaseOk, PublisherHeld, Accounts;
    assert w.nextId !in w.txs;
    assert TxOk(w.db, w.nextId, tx) && Held(tx) == {} by { BeginsFree(w.db, w.nextId, tx); }
  }

  lemma BeginsFree(db: Db, t: Id, tx: Tx)
    requires t !in db.revisions && t !in db.customers
    requires if tx.Publisher? then tx.phase.Begun? else tx.step.Started?
    ensures TxOk(db, t, tx) && Held(tx) == {}
  {
  }

  lemma CloseKeeps(w: World, t: Id)
    requires Inv(w) && t in w.txs && w.txs[t].Reservation?
    ensures Inv(Put(w, t, w.txs[t].(step := Closed)))
  {
    TxFacts(w, t);
    hide Inv, DbOk, PhaseOk, Accounts;
    EndKeeps(w, t, w.txs[t].(step := Closed));
  }

  lemma AbortKeeps(w: World, t: Id)
    requires Inv(w) && t in w.txs
    ensures Inv(Aborted(w, t))
  {
    TxFacts(w, t);
    hide Inv, DbOk, Accounts, HeadAt, OfferTaken, OfferNumbers;
    match w.txs[t]
    case Publisher(call, phase) => if !phase.Done? { EndKeeps(w, t, Aborted(w, t).txs[t]); }
    case Reservation(_, _, _, _, _) => CloseKeeps(w, t);
  }

  lemma RecheckKeeps(w: World, t: Id, readable: bool)
    requires Inv(w) && t in w.txs
    ensures Inv(Rechecked(w, t, readable))
  {
    TxFacts(w, t);
    hide Inv, DbOk, Accounts, HeadAt, OfferTaken, OfferNumbers;
    match w.txs[t]
    case Publisher(_, Lost(_, _)) => EndKeeps(w, t, Rechecked(w, t, readable).txs[t]);
    case _ =>
  }

  lemma StepKeeps(w: World, e: Event)
    requires Inv(w)
    ensures Inv(Step(w, e))
  {
    hide Inv, Advanced, Committed, Aborted, Rechecked;
    match e
    case Publish(call) => BeginKeeps(w, Publisher(call, Begun));
    case Reserve(user, origin, configured, legacy) =>
      BeginKeeps(w, Reservation(user, origin, configured, legacy, Started));
    case Advance(t) => if t in w.txs { AdvanceKeeps(w, t); }
    case Commit(t, outcome) => if t in w.txs { CommitKeeps(w, t, outcome); }
    case Abort(t) => if t in w.txs { AbortKeeps(w, t); }
    case Recheck(t, readable) => if t in w.txs { RecheckKeeps(w, t, readable); }
  }

  lemma EndKeeps(w: World, t: Id, tx: Tx)
    requires Inv(w) && t in w.txs && TxOk(w.db, t, tx) && Held(tx) <= Held(w.txs[t])
    ensures Inv(Put(w, t, tx))
  {
    hide Inv;
    MoveKeeps(w, t, tx, None);
  }

  lemma {:induction false} RunKeeps(w: World, events: seq<Event>)
    requires Inv(w)
    ensures Inv(Run(w, events))
    decreases |events|
  {
    hide Inv, Step;
    if events != [] {
      StepKeeps(w, events[0]);
      RunKeeps(Step(w, events[0]), events[1..]);
    }
  }

  lemma ReachableInv(events: seq<Event>)
    ensures Inv(Run(START, events))
  {
    hide Run;
    assert forall a, p :: ProductNumbers(EMPTY_DB, a, p) == {};
    assert forall a, o :: OfferNumbers(EMPTY_DB, a, o) == {};
    assert forall o: Origin :: Accounts(EMPTY_DB, o) == {};
    RunKeeps(START, events);
  }
}
