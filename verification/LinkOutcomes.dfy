/**
 What each statement of a publication or a reservation decides, by what the tables say, and what an
 uncontended publication answers.
 */
module LinkOutcomes {
  import opened Options
  import opened LinkModel
  import opened LinkRuns
  import opened LinkTheorems
  import opened LinkStore

  // ----- whose account ------------------------------------------------------

  /** A head or a customer of this origin is stored under the account. */
  ghost predicate Proven(db: Db, origin: Origin, a: Account) {
    || (exists p: Product :: (a, p) in db.heads && db.heads[(a, p)].origin == Some(origin))
    || (exists c: Id :: c in db.customers && db.customers[c].account == a && db.customers[c].origin == origin)
  }

  /** The caller vouches for the account's heads without an origin: it is configured, or named as the old account. */
  ghost predicate Vouched(db: Db, configured: Account, legacy: Option<Account>, a: Account) {
    (a == configured || legacy == Some(a)) && exists p: Product :: (a, p) in db.heads && db.heads[(a, p)].origin.None?
  }

  ghost predicate Foreign(db: Db, origin: Origin, a: Account) {
    exists p: Product :: (a, p) in db.heads && db.heads[(a, p)].origin !in {None, Some(origin)}
  }

  ghost predicate Owner(db: Db, call: Call, a: Account)
    requires call.origin.Some?
  {
    Proven(db, call.origin.value, a) || Vouched(db, call.account, call.legacy, a)
  }

  /** A publication of this origin belongs to the one account that is proven or vouched for, or else to its own. */
  ghost predicate BelongsTo(db: Db, call: Call, a: Account) {
    if call.origin.None? then a == call.account
    else
      var o := call.origin.value;
      && !Foreign(db, o, call.account)
      && (forall b | Owner(db, call, b) :: b == a)
      && ((forall b :: !Owner(db, call, b)) ==> a == call.account)
  }

  /** A new customer belongs to the proven account, or else to the configured one, and nothing vouched for may lie elsewhere. */
  ghost predicate HomeOf(db: Db, configured: Account, origin: Origin, legacy: Option<Account>, a: Account) {
    && (forall b | Proven(db, origin, b) || Vouched(db, configured, legacy, b) :: b == a)
    && ((forall b :: !Proven(db, origin, b)) ==> a == configured)
  }

  lemma ProvenMeans(db: Db, origin: Origin, a: Account)
    ensures Proven(db, origin, a) <==> a in Accounts(db, origin)
  {
    if k :| k in db.heads && db.heads[k].origin == Some(origin) && k.0 == a {
      assert k == (a, k.1);
    }
  }

  lemma ResolvedMeans(db: Db, call: Call)
    requires HeadsOk(db) && call.origin.Some?
    ensures var resolved := ResolvedAccounts(db, call, call.origin.value);
            && (resolved.None? <==> Foreign(db, call.origin.value, call.account))
            && (resolved.Some? ==> forall a :: a in resolved.value <==> Owner(db, call, a))
  {
    var o := call.origin.value;
    var heads := ConnectionHeads(db, call.account, o, call.legacy);
    hide Accounts, HeadValid;
    assert forall k | k in db.heads :: HeadValid(db, k);
    if k :| k in heads && db.heads[k].origin !in {None, Some(o)} {
      assert k == (call.account, k.1);
    }
    if p: Product :| (call.account, p) in db.heads && db.heads[(call.account, p)].origin !in {None, Some(o)} {
      assert (call.account, p) in heads;
    } else {
      forall a ensures a in ResolvedAccounts(db, call, o).value <==> Owner(db, call, a) {
        ProvenMeans(db, o, a);
        ConnectedMeans(db, call, o, a);
      }
    }
  }

  lemma ConnectedMeans(db: Db, call: Call, o: Origin, a: Account)
    requires !Foreign(db, o, call.account)
    ensures (exists k :: k in ConnectionHeads(db, call.account, o, call.legacy) && k.0 == a) ==>
              Proven(db, o, a) || Vouched(db, call.account, call.legacy, a)
    ensures Vouched(db, call.account, call.legacy, a) ==>
              exists k :: k in ConnectionHeads(db, call.account, o, call.legacy) && k.0 == a
  {
    if k :| k in ConnectionHeads(db, call.account, o, call.legacy) && k.0 == a {
      assert k == (a, k.1);
    }
    if Vouched(db, call.account, call.legacy, a) {
      var p: Product :| (a, p) in db.heads && db.heads[(a, p)].origin.None?;
      assert (a, p) in ConnectionHeads(db, call.account, o, call.legacy);
    }
  }

  lemma ManyMembers(s: set<Account>, a: Account)
    requires a in s
    ensures |s| <= 1 <==> forall b | b in s :: b == a
  {
    if forall b | b in s :: b == a {
      assert s == {a};
    } else {
      var b :| b in s && b != a;
      assert {a, b} <= s;
      Smaller({a, b}, s);
    }
  }

  lemma Smaller(s: set<Account>, t: set<Account>)
    requires s <= t
    ensures |s| <= |t|
  {
    assert t == s + (t - s);
  }

  lemma ScopeMeans(db: Db, call: Call, a: Account)
    requires HeadsOk(db)
    ensures Resolve(db, call) == Some(a) <==> BelongsTo(db, call, a)
  {
    hide HeadsOk, Foreign, Owner, ResolvedAccounts;
    if call.origin.Some? {
      ResolvedMeans(db, call);
      var resolved := ResolvedAccounts(db, call, call.origin.value);
      if resolved.Some? {
        if b :| b in resolved.value {
          ManyMembers(resolved.value, b);
        } else {
          assert resolved.value == {};
        }
      }
    }
  }

  lemma HomeMeans(db: Db, configured: Account, origin: Origin, legacy: Option<Account>, a: Account)
    requires OneAccount(Accounts(db, origin))
    ensures CustomerAccount(db, configured, origin, legacy) == Some(a) <==> HomeOf(db, configured, origin, legacy, a)
  {
    hide Proven, Vouched, Accounts, ConnectionHeads;
    forall b ensures Proven(db, origin, b) <==> b in Accounts(db, origin) {
      ProvenMeans(db, origin, b);
    }
    if b :| b in Accounts(db, origin) {
      ManyMembers(Accounts(db, origin), b);
      UnprovenHeads(db, configured, origin, legacy, b);
      assert Proven(db, origin, b);
    } else {
      assert Accounts(db, origin) == {};
      UnprovenHeads(db, configured, origin, legacy, configured);
    }
  }

  lemma UnprovenHeads(db: Db, configured: Account, origin: Origin, legacy: Option<Account>, account: Account)
    ensures (exists k | k in ConnectionHeads(db, configured, origin, legacy) :: db.heads[k].origin.None? && k.0 != account)
            <==> exists b :: Vouched(db, configured, legacy, b) && b != account
  {
    if k :| k in ConnectionHeads(db, configured, origin, legacy) && db.heads[k].origin.None? && k.0 != account {
      VouchedMeans(db, configured, origin, legacy, k.0);
    }
    if b :| Vouched(db, configured, legacy, b) && b != account {
      VouchedMeans(db, configured, origin, legacy, b);
    }
  }

  lemma VouchedMeans(db: Db, configured: Account, origin: Origin, legacy: Option<Account>, b: Account)
    ensures Vouched(db, configured, legacy, b)
            <==> exists k :: k in ConnectionHeads(db, configured, origin, legacy) && db.heads[k].origin.None? && k.0 == b
  {
    if k :| k in ConnectionHeads(db, configured, origin, legacy) && db.heads[k].origin.None? && k.0 == b {
      assert k == (b, k.1);
    }
    if Vouched(db, configured, legacy, b) {
      var p: Product :| (b, p) in db.heads && db.heads[(b, p)].origin.None?;
      assert (b, p) in ConnectionHeads(db, configured, origin, legacy);
    }
  }

  // ----- the answer under the locks -------------------------------------------

  /** Some revision of the product is stored under another account. */
  predicate LinkedElsewhere(db: Db, a: Account, product: Product) {
    exists r | r in db.revisions :: db.revisions[r].product == product && db.revisions[r].account != a
  }

  /** The current link of another product of the account uses the offer. */
  ghost predicate OfferInUse(db: Db, a: Account, offer: Offer, product: Product) {
    exists p: Product :: p != product && (a, p) in db.heads && db.heads[(a, p)].revision in db.revisions
                         && db.revisions[db.heads[(a, p)].revision].offer == offer
  }

  lemma InUseMeans(db: Db, a: Account, offer: Offer, product: Product)
    requires HeadsOk(db)
    ensures OfferTaken(db, a, offer, product) <==> OfferInUse(db, a, offer, product)
  {
    assert forall k | k in db.heads :: HeadValid(db, k);
    if OfferTaken(db, a, offer, product) {
      var k :| k in db.heads && k.0 == a && k.1 != product && db.heads[k].revision in db.revisions
               && db.revisions[db.heads[k].revision].account == a && db.revisions[db.heads[k].revision].offer == offer;
      assert k == (a, k.1);
    }
    if OfferInUse(db, a, offer, product) {
      var p: Product :| p != product && (a, p) in db.heads && db.heads[(a, p)].revision in db.revisions
                        && db.revisions[db.heads[(a, p)].revision].offer == offer;
      assert HeadValid(db, (a, p));
    }
  }

  /** The current link of the product says what the call says. */
  predicate CurrentSays(db: Db, a: Account, call: Call) {
    && (a, call.product) in db.heads
    && var r := db.heads[(a, call.product)].revision;
       r in db.revisions && db.revisions[r].offer == call.offer && db.revisions[r].content == call.content
  }

  /** How often the product has been linked so far. */
  function Links(db: Db, a: Account, product: Product): nat {
    |set r | r in db.revisions && db.revisions[r].account == a && db.revisions[r].product == product|
  }

  /** How often the offer has been linked so far. */
  function Uses(db: Db, a: Account, offer: Offer): nat {
    |set r | r in db.revisions && db.revisions[r].account == a && db.revisions[r].offer == offer|
  }

  lemma {:induction false} InitialSegment(s: set<nat>, n: nat)
    requires forall m: nat :: m in s <==> 1 <= m <= n
    ensures |s| == n
  {
    if n == 0 {
      assert s == {};
    } else {
      InitialSegment(s - {n}, n - 1);
      assert s == (s - {n}) + {n};
    }
  }

  lemma {:induction false} OneNumberEach(numbers: map<Id, nat>)
    requires forall r, q | r in numbers && q in numbers && r != q :: numbers[r] != numbers[q]
    ensures |numbers.Keys| == |numbers.Values|
    decreases |numbers|
  {
    if numbers == map[] {
    } else {
      var r :| r in numbers;
      var rest := numbers - {r};
      OneNumberEach(rest);
      assert numbers.Keys == rest.Keys + {r};
      assert numbers.Values == rest.Values + {numbers[r]} by {
        forall v | v in numbers.Values ensures v in rest.Values + {numbers[r]} {
          var q :| q in numbers && numbers[q] == v;
          assert q == r || rest[q] == v;
        }
      }
      assert numbers[r] !in rest.Values;
    }
  }

  lemma NumberedCounts(numbers: set<nat>)
    requires Numbered(numbers)
    ensures |numbers| == Largest(numbers)
  {
    InitialSegment(numbers, Largest(numbers));
  }

  /** The next number of an offer counts its links. */
  lemma UsesCount(db: Db, a: Account, offer: Offer)
    requires OffersOk(db)
    ensures Largest(OfferNumbers(db, a, offer)) == Uses(db, a, offer)
  {
    var rows := set r | r in db.revisions && db.revisions[r].account == a && db.revisions[r].offer == offer;
    var numbers := map r | r in rows :: db.revisions[r].offerNumber;
    OneNumberEach(numbers);
    assert numbers.Keys == rows;
    assert numbers.Values == OfferNumbers(db, a, offer) by {
      forall n | n in OfferNumbers(db, a, offer) ensures n in numbers.Values {
        var r :| r in db.revisions && db.revisions[r].account == a && db.revisions[r].offer == offer && db.revisions[r].offerNumber == n;
        assert r in numbers && numbers[r] == n;
      }
    }
    NumberedCounts(OfferNumbers(db, a, offer));
  }

  /** The head's number counts the product's links. */
  lemma LinksCount(db: Db, a: Account, product: Product)
    requires HeadsOk(db) && ProductsOk(db)
    ensures Number(HeadAt(db, a, product)) == Links(db, a, product)
  {
    var rows := set r | r in db.revisions && db.revisions[r].account == a && db.revisions[r].product == product;
    var numbers := map r | r in rows :: db.revisions[r].productNumber;
    OneNumberEach(numbers);
    assert numbers.Keys == rows;
    assert numbers.Values == ProductNumbers(db, a, product) by {
      forall n | n in ProductNumbers(db, a, product) ensures n in numbers.Values {
        var r :| r in db.revisions && db.revisions[r].account == a && db.revisions[r].product == product && db.revisions[r].productNumber == n;
        assert r in numbers && numbers[r] == n;
      }
    }
    NumberedCounts(ProductNumbers(db, a, product));
    NumberIsLargest(db, a, product);
  }

  /** What a publication under all its locks comes to. */
  ghost function Decision(db: Db, call: Call, a: Account): Phase {
    var key := (a, call.product);
    if OfferInUse(db, a, call.offer, call.product) then Done(Refused)
    else if CurrentSays(db, a, call) then
      if call.origin.Some? && db.heads[key].origin.None? then Proving(a, Some(db.heads[key]))
      else Done(Unchanged(db.heads[key].revision))
    else if call.expected != Links(db, a, call.product) then Done(RevisionConflict)
    else Appending(a, if key in db.heads then Some(db.heads[key]) else None, Uses(db, a, call.offer) + 1)
  }

  lemma DecisionMeans(db: Db, call: Call, a: Account)
    requires DbOk(db)
    ensures Decided(db, call, a, HeadAt(db, a, call.product)) == Decision(db, call, a)
  {
    InUseMeans(db, a, call.offer, call.product);
    LinksCount(db, a, call.product);
    UsesCount(db, a, call.offer);
    hide DbOk, OfferTaken, OfferInUse, OfferNumbers, Links, Uses;
  }

  // ----- statements -------------------------------------------------------------

  /** A publisher that waits for a lock gets it exactly when no other transaction holds it. */
  predicate Waited(w: World, t: Id, key: Key, phase: Phase, next: Phase, phase': Phase) {
    phase' == if forall u | u in w.txs && u != t :: key !in Held(w.txs[u]) then next else phase
  }

  /** Where the next statement takes a publisher. */
  ghost predicate Moves(w: World, t: Id, call: Call, phase: Phase, phase': Phase) {
    match phase
    case Begun => if call.origin.None? then phase' == Resolved(call.account)
                  else Waited(w, t, Scope(call.origin.value), phase, OriginLocked, phase')
    case OriginLocked => (phase' == Done(Refused) || phase'.Resolved?)
                         && forall a: Account :: phase' == Resolved(a) <==> BelongsTo(w.db, call, a)
    case Resolved(a) => Waited(w, t, ProductKey(a, call.product), phase, ProductLocked(a), phase')
    case ProductLocked(a) => phase' == if LinkedElsewhere(w.db, a, call.product) then Done(Refused)
                                       else HeadRead(a, HeadAt(w.db, a, call.product))
    case HeadRead(a, latest) => Waited(w, t, OfferKey(a, call.offer), phase, OfferLocked(a, latest), phase')
    case OfferLocked(a, _) => phase' == Decision(w.db, call, a)
    case _ => phase' == phase
  }

  /**
   In every reachable state each statement of a publisher goes on exactly as the tables say at that moment:
   its account is the one the origin belongs to, its product is linked nowhere else, its offer is free, an
   equal current link is unchanged, and a new one needs the number of links so far as the expected number.
   */
  lemma PublisherDecidesExactly(events: seq<Event>, t: Id)
    requires t in Run(START, events).txs && Run(START, events).txs[t].Publisher?
    ensures var w := Run(START, events);
            var w' := Step(w, Advance(t));
            && w'.db == w.db && t in w'.txs && w'.txs[t].Publisher? && w'.txs[t].call == w.txs[t].call
            && Moves(w, t, w.txs[t].call, w.txs[t].phase, w'.txs[t].phase)
  {
    hide Run, Moves;
    ReachableInv(events);
    PublisherMoves(Run(START, events), t);
  }

  lemma PublisherMoves(w: World, t: Id)
    requires Inv(w) && t in w.txs && w.txs[t].Publisher?
    ensures var w' := Step(w, Advance(t));
            && w'.db == w.db && t in w'.txs && w'.txs[t].Publisher? && w'.txs[t].call == w.txs[t].call
            && Moves(w, t, w.txs[t].call, w.txs[t].phase, w'.txs[t].phase)
  {
    hide Inv, Held, ScopeOk, Accounts, OfferTaken, OfferNumbers, Decided, Decision, Resolve, BelongsTo;
    TxFacts(w, t);
    var call, phase := w.txs[t].call, w.txs[t].phase;
    match phase
    case OriginLocked =>
      forall a: Account ensures Resolve(w.db, call) == Some(a) <==> BelongsTo(w.db, call, a) {
        ScopeMeans(w.db, call, a);
      }
    case ProductLocked(a) =>
      if (a, call.product) in w.db.heads { assert HeadValid(w.db, (a, call.product)); }
    case OfferLocked(a, _) => DecisionMeans(w.db, call, a);
    case _ =>
  }

  /** The tables after a new link: the next revision of its product and its offer, and a head that names it. */
  predicate NewLink(db: Db, db': Db, call: Call, t: Id, a: Account) {
    var key := (a, call.product);
    && t !in db.revisions && db'.customers == db.customers
    && db'.revisions == db.revisions[t := Revision(a, call.product, call.offer, call.content,
                                                   Links(db, a, call.product) + 1, Uses(db, a, call.offer) + 1)]
    && db'.heads == db.heads[key := Head(t, Links(db, a, call.product) + 1,
                                         if call.origin.Some? then call.origin
                                         else if key in db.heads then db.heads[key].origin else None)]
  }

  /** The tables after an unchanged link: only a missing origin of its head is filled in. */
  predicate SameLink(db: Db, db': Db, call: Call, a: Account) {
    var key := (a, call.product);
    && key in db.heads && db'.revisions == db.revisions && db'.customers == db.customers
    && db'.heads == db.heads[key := db.heads[key].(origin := if db.heads[key].origin.None? then call.origin
                                                             else db.heads[key].origin)]
  }

  lemma AppendMeans(db: Db, call: Call, t: Id, a: Account, latest: Option<Head>, n: nat)
    requires DbOk(db) && t !in db.revisions && HeadAt(db, a, call.product) == latest && n == Uses(db, a, call.offer) + 1
    ensures NewLink(db, Appended(db, call, t, a, latest, n), call, t, a)
  {
    LinksCount(db, a, call.product);
    hide DbOk, Links, Uses;
  }

  lemma ProofMeans(db: Db, call: Call, a: Account, latest: Option<Head>)
    requires latest.Some? && HeadAt(db, a, call.product) == latest && latest.value.origin.None? && call.origin.Some?
    ensures SameLink(db, OriginProven(db, call, a, latest), call, a)
  {
  }

  lemma NothingToProve(db: Db, call: Call, a: Account)
    requires (a, call.product) in db.heads && (call.origin.Some? ==> db.heads[(a, call.product)].origin.Some?)
    ensures SameLink(db, db, call, a)
  {
  }

  /**
   In every reachable state the last statement of a new link stores the next revision of its product and
   offer, whether or not the answer is lost, unless the commit is dropped; the call reports it only when it
   hears the answer.
   */
  lemma LinkIsStoredExactly(events: seq<Event>, t: Id, outcome: Outcome)
    requires t in Run(START, events).txs && Run(START, events).txs[t].Publisher?
    requires Run(START, events).txs[t].phase.Appending?
    ensures var w := Run(START, events);
            var w' := Step(w, Commit(t, outcome));
            var call, a := w.txs[t].call, w.txs[t].phase.account;
            && (if outcome.LostDropped? then w'.db == w.db else NewLink(w.db, w'.db, call, t, a))
            && t in w'.txs && w'.txs[t].Publisher? && w'.txs[t].call == call
            && w'.txs[t].phase == if outcome.Acknowledged? then Done(Published(t)) else Lost(a, Uses(w.db, a, call.offer) + 1)
  {
    hide Run, Inv, NewLink, Step;
    ReachableInv(events);
    var w := Run(START, events);
    TxFacts(w, t);
    LinkStored(w, t, outcome);
  }

  lemma LinkStored(w: World, t: Id, outcome: Outcome)
    requires DbOk(w.db) && t in w.txs && TxOk(w.db, t, w.txs[t]) && w.txs[t].Publisher? && w.txs[t].phase.Appending?
    ensures var w' := Step(w, Commit(t, outcome));
            var call, a := w.txs[t].call, w.txs[t].phase.account;
            && (if outcome.LostDropped? then w'.db == w.db else NewLink(w.db, w'.db, call, t, a))
            && t in w'.txs && w'.txs[t].Publisher? && w'.txs[t].call == call
            && w'.txs[t].phase == if outcome.Acknowledged? then Done(Published(t)) else Lost(a, Uses(w.db, a, call.offer) + 1)
  {
    hide NewLink, DbOk;
    var call, a := w.txs[t].call, w.txs[t].phase.account;
    OffersOf(w.db);
    UsesCount(w.db, a, call.offer);
    AppendMeans(w.db, call, t, a, w.txs[t].phase.latest, w.txs[t].phase.offerNumber);
    hide OfferTaken, OfferNumbers, Uses, ScopeOk, Appended, OffersOk;
  }

  lemma OffersOf(db: Db)
    requires DbOk(db)
    ensures OffersOk(db)
  {
    hide OffersOk;
  }

  // ----- one call alone ----------------------------------------------------------

  /** What a publication of an account comes to, with the tables it leaves. */
  ghost predicate Answered(db: Db, db': Db, call: Call, t: Id, a: Account, result: Result) {
    if LinkedElsewhere(db, a, call.product) || OfferInUse(db, a, call.offer, call.product)
    then result == Refused && db' == db
    else if CurrentSays(db, a, call)
    then result == Unchanged(db.heads[(a, call.product)].revision) && SameLink(db, db', call, a)
    else if call.expected != Links(db, a, call.product) then result == RevisionConflict && db' == db
    else result == Published(t) && NewLink(db, db', call, t, a)
  }

  /**
   A publication that meets no other transaction is refused exactly when the origin belongs to no single
   account, the product is linked elsewhere or the offer is in use; it is unchanged exactly when the current
   link says the same; it conflicts exactly when the product was not linked as often as expected; and
   otherwise it stores the next revision.
   */
  lemma PublishedExactly(events: seq<Event>, call: Call)
    requires NoLocksHeld(Run(START, events))
    ensures var w := Run(START, events);
            var t := w.nextId;
            var w' := Run(w, Statements(call, t));
            && t in w'.txs && w'.txs[t].Publisher? && w'.txs[t].phase.Done?
            && var result := w'.txs[t].phase.result;
               && (forall a: Account | BelongsTo(w.db, call, a) :: Answered(w.db, w'.db, call, t, a, result))
               && ((forall a: Account :: !BelongsTo(w.db, call, a)) ==> result == Refused && w'.db == w.db)
  {
    hide Run, NoLocksHeld, Statements, AtOnce, Answered, BelongsTo;
    ReachableInv(events);
    var w := Run(START, events);
    AloneIsAtOnce(w, call);
    NewIdIsFree(w);
    hide Inv;
    forall a: Account
      ensures Resolve(w.db, call) == Some(a) <==> BelongsTo(w.db, call, a)
      ensures BelongsTo(w.db, call, a) ==> Answered(w.db, AtOnce(w.db, call, w.nextId).0, call, w.nextId, a, AtOnce(w.db, call, w.nextId).1)
    {
      ScopeMeans(w.db, call, a);
      if BelongsTo(w.db, call, a) { AtOnceMeans(w.db, call, w.nextId, a); }
    }
    if Resolve(w.db, call).None? { RefusedAtOnce(w.db, call, w.nextId); }
  }

  lemma NewIdIsFree(w: World)
    requires Inv(w)
    ensures DbOk(w.db) && w.nextId !in w.db.revisions
  {
  }

  lemma RefusedAtOnce(db: Db, call: Call, t: Id)
    requires Resolve(db, call).None?
    ensures AtOnce(db, call, t) == (db, Refused)
  {
    hide Resolve;
  }

  lemma AtOnceDecides(db: Db, call: Call, t: Id, a: Account)
    requires DbOk(db) && Resolve(db, call) == Some(a)
    ensures AtOnce(db, call, t)
            == if LinkedElsewhere(db, a, call.product) then (db, Refused)
               else match Decision(db, call, a)
                    case Done(result) => (db, result)
                    case Proving(_, latest) => (OriginProven(db, call, a, latest), if latest.Some? then Unchanged(latest.value.revision) else Uncertain)
                    case Appending(_, latest, n) => (Appended(db, call, t, a, latest, n), Published(t))
                    case _ => (db, Refused)
  {
    DecisionMeans(db, call, a);
    if (a, call.product) in db.heads { assert HeadValid(db, (a, call.product)); }
    hide DbOk, Resolve, Decided, OfferInUse, CurrentSays, Links, Uses, OriginProven, Appended;
  }

  lemma AtOnceMeans(db: Db, call: Call, t: Id, a: Account)
    requires DbOk(db) && t !in db.revisions && Resolve(db, call) == Some(a)
    ensures Answered(db, AtOnce(db, call, t).0, call, t, a, AtOnce(db, call, t).1)
  {
    AtOnceDecides(db, call, t, a);
    hide DbOk, Resolve, AtOnce, OfferInUse, LinkedElsewhere, Links, Uses, OriginProven, Appended, NewLink, SameLink;
    var latest := HeadAt(db, a, call.product);
    AppendMeans(db, call, t, a, latest, Uses(db, a, call.offer) + 1);
    if CurrentSays(db, a, call) {
      if call.origin.Some? && latest.value.origin.None? { ProofMeans(db, call, a, latest); }
      else { NothingToProve(db, call, a); }
    }
  }

  // ----- reservations --------------------------------------------------------------

  /**
   In every reachable state a reservation under its locks goes on with an account exactly when that account
   is the origin's home and no slot of the user there has another origin; it creates a row only when there
   is none.
   */
  lemma ReservationDecidesExactly(events: seq<Event>, t: Id, a: Account)
    requires t in Run(START, events).txs && Run(START, events).txs[t].Reservation?
    requires Run(START, events).txs[t].step.ScopeLocked?
    ensures var w := Run(START, events);
            var w' := Step(w, Advance(t));
            var tx := w.txs[t];
            && w'.db == w.db && t in w'.txs && w'.txs[t].Reservation?
            && var present := exists c: Id :: Slot(w.db, a, tx.user, c);
               && (w'.txs[t].step == Reserving(a, present)
                   <==> HomeOf(w.db, tx.configured, tx.origin, tx.legacy, a)
                        && forall c: Id | Slot(w.db, a, tx.user, c) :: w.db.customers[c].origin == tx.origin)
               && (w'.txs[t].step == Closed || w'.txs[t].step.Reserving?)
  {
    hide Run, HomeOf, Step, Inv;
    ReachableInv(events);
    var w := Run(START, events);
    OriginsOf(w);
    ReservationMoves(w, t, a);
  }

  lemma OriginsOf(w: World)
    requires Inv(w)
    ensures OriginsOk(w.db)
  {
    hide OriginsOk;
  }

  lemma ReservationMoves(w: World, t: Id, a: Account)
    requires OriginsOk(w.db) && t in w.txs && w.txs[t].Reservation? && w.txs[t].step.ScopeLocked?
    ensures var w' := Step(w, Advance(t));
            var tx := w.txs[t];
            && w'.db == w.db && t in w'.txs && w'.txs[t].Reservation?
            && var present := exists c: Id :: Slot(w.db, a, tx.user, c);
               && (w'.txs[t].step == Reserving(a, present)
                   <==> HomeOf(w.db, tx.configured, tx.origin, tx.legacy, a)
                        && forall c: Id | Slot(w.db, a, tx.user, c) :: w.db.customers[c].origin == tx.origin)
               && (w'.txs[t].step == Closed || w'.txs[t].step.Reserving?)
  {
    var tx := w.txs[t];
    assert OneAccount(Accounts(w.db, tx.origin));
    HomeMeans(w.db, tx.configured, tx.origin, tx.legacy, a);
    hide HomeOf, CustomerAccount, Accounts, Held, OriginsOk;
  }

  /** In every reachable state the commit of a reservation stores one row of its user, account and origin, if there was none. */
  lemma SlotIsStoredExactly(events: seq<Event>, t: Id, outcome: Outcome)
    requires t in Run(START, events).txs && Run(START, events).txs[t].Reservation?
    requires Run(START, events).txs[t].step.Reserving?
    ensures var w := Run(START, events);
            var w' := Step(w, Commit(t, outcome));
            var tx := w.txs[t];
            var a := tx.step.account;
            && w'.db.revisions == w.db.revisions && w'.db.heads == w.db.heads
            && (if outcome.LostDropped? || exists c: Id :: Slot(w.db, a, tx.user, c) then w'.db == w.db
                else t !in w.db.customers && w'.db.customers == w.db.customers[t := Customer(a, tx.user, tx.origin)])
  {
    hide Run;
    ReachableInv(events);
    TxFacts(Run(START, events), t);
    hide Inv, DbOk, Accounts;
  }
}
