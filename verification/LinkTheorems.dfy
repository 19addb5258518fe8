/** What concurrent publication and reservation guarantee. */
module LinkTheorems {
  import opened Options
  import opened LinkModel
  import opened LinkRuns

  // ----- tables ------------------------------------------------------------

  lemma TablesOf(events: seq<Event>)
    ensures DbOk(Run(START, events).db)
  {
    hide Run, DbOk;
    ReachableInv(events);
  }

  /** A product's revisions are numbered 1, 2, 3, ... without gap or repetition, and its head names the last. */
  lemma ProductHistory(events: seq<Event>, account: Account, product: Product)
    ensures var db := Run(START, events).db;
            var head := HeadAt(db, account, product);
            && (forall n :: n in ProductNumbers(db, account, product) <==> 1 <= n <= Number(head))
            && (forall r, s | r in db.revisions && s in db.revisions && db.revisions[r].account == db.revisions[s].account == account
                  && db.revisions[r].product == db.revisions[s].product == product ::
                  db.revisions[r].productNumber == db.revisions[s].productNumber ==> r == s)
            && (head.Some? ==>
                  && head.value.revision in db.revisions
                  && db.revisions[head.value.revision].account == account
                  && db.revisions[head.value.revision].product == product
                  && db.revisions[head.value.revision].productNumber == head.value.number)
  {
    hide Run;
    TablesOf(events);
    var db := Run(START, events).db;
    NumberIsLargest(db, account, product);
    hide OffersOk, OwnersOk, OriginsOk, SlotsOk;
    var numbers := ProductNumbers(db, account, product);
    var last := Number(HeadAt(db, account, product));
    assert Numbered(numbers);
    if (account, product) in db.heads {
      assert HeadValid(db, (account, product));
      assert last in numbers;
    }
  }

  /** An offer's revisions in one account are numbered from 1 without gap or repetition, across products. */
  lemma OfferHistory(events: seq<Event>, account: Account, offer: Offer)
    ensures var db := Run(START, events).db;
            && (forall n :: n in OfferNumbers(db, account, offer) <==> 1 <= n <= Largest(OfferNumbers(db, account, offer)))
            && (forall r, s | r in db.revisions && s in db.revisions && db.revisions[r].account == db.revisions[s].account == account
                  && db.revisions[r].offer == db.revisions[s].offer == offer ::
                  db.revisions[r].offerNumber == db.revisions[s].offerNumber ==> r == s)
  {
    hide Run;
    TablesOf(events);
    hide HeadsOk, ProductsOk, OwnersOk, OriginsOk, SlotsOk;
    assert Numbered(OfferNumbers(Run(START, events).db, account, offer));
  }

  /** The current product-to-offer map of one account is injective. */
  lemma CurrentOffersAreInjective(events: seq<Event>, account: Account, p: Product, q: Product)
    requires var db := Run(START, events).db; (account, p) in db.heads && (account, q) in db.heads
    ensures var db := Run(START, events).db;
            var r, s := db.heads[(account, p)].revision, db.heads[(account, q)].revision;
            r in db.revisions && s in db.revisions && (db.revisions[r].offer == db.revisions[s].offer ==> p == q)
  {
    hide Run;
    TablesOf(events);
    hide ProductsOk, OffersOk, OriginsOk, SlotsOk;
    var db := Run(START, events).db;
    assert HeadValid(db, (account, p)) && HeadValid(db, (account, q));
    assert !OfferTaken(db, account, db.revisions[db.heads[(account, p)].revision].offer, p);
  }

  // ----- provider origins --------------------------------------------------

  /** All customers and product heads proven to one origin live in one storage account. */
  lemma OneAccountPerOrigin(events: seq<Event>, origin: Origin, k: (Account, Product), l: (Account, Product), c: Id,
                      d: Id)
    ensures var db := Run(START, events).db;
            && (k in db.heads && l in db.heads && db.heads[k].origin == db.heads[l].origin == Some(origin) ==>
                  k.0 == l.0)
            && (k in db.heads && c in db.customers && db.heads[k].origin == Some(origin)
                && db.customers[c].origin == origin ==>
                  k.0 == db.customers[c].account)
            && (c in db.customers && d in db.customers && db.customers[c].origin == db.customers[d].origin == origin ==>
                  db.customers[c].account == db.customers[d].account && (db.customers[c].user == db.customers[d].user ==> c == d))
  {
    hide Run;
    TablesOf(events);
    hide HeadsOk, ProductsOk, OffersOk, OwnersOk;
    var db := Run(START, events).db;
    assert OneAccount(Accounts(db, origin));
    if k in db.heads && db.heads[k].origin == Some(origin) { assert k.0 in Accounts(db, origin); }
    if l in db.heads && db.heads[l].origin == Some(origin) { assert l.0 in Accounts(db, origin); }
    if c in db.customers && db.customers[c].origin == origin { assert db.customers[c].account in Accounts(db, origin); }
    if d in db.customers && db.customers[d].origin == origin { assert db.customers[d].account in Accounts(db, origin); }
  }

  /** The unique index on (provider_origin, product_id) can never refuse a write. */
  lemma OriginIndexNeverFires(events: seq<Event>, k: (Account, Product), l: (Account, Product))
    requires var db := Run(START, events).db; k in db.heads && l in db.heads
    ensures var db := Run(START, events).db;
            db.heads[k].origin.Some? && db.heads[k].origin == db.heads[l].origin && k.1 == l.1 ==> k == l
  {
    hide Run;
    var db := Run(START, events).db;
    if db.heads[k].origin.Some? {
      OneAccountPerOrigin(events, db.heads[k].origin.value, k, l, 0, 0);
    }
  }

  // ----- results of one call -----------------------------------------------

  lemma TxOf(events: seq<Event>, t: Id)
    requires t in Run(START, events).txs
    ensures var w := Run(START, events); Inv(w) && TxOk(w.db, t, w.txs[t]) && w.db.revisions.Keys <= w.txs.Keys
  {
    hide Run, TxOk, DbOk;
    ReachableInv(events);
  }

  predicate Reported(result: Result, t: Id) {
    result in {Published(t), Recovered(t)}
  }

  /**
   A call appends at most its own revision.  One it reports is in the table with its meaning and the
   successor of the number it expected; a refusal, a conflict or an unchanged link appended nothing, and
   the revision an unchanged link names says the same as the call.
   */
  lemma ResultsMatchTheTable(events: seq<Event>, t: Id, call: Call, result: Result)
    requires t in Run(START, events).txs && Run(START, events).txs[t] == Publisher(call, Done(result))
    ensures var db := Run(START, events).db;
            && (Reported(result, t) ==> t in db.revisions)
            && (!Reported(result, t) && !result.Uncertain? ==> t !in db.revisions)
            && (t in db.revisions ==>
                  && db.revisions[t].product == call.product && db.revisions[t].offer == call.offer
                  && db.revisions[t].content == call.content && db.revisions[t].productNumber == call.expected + 1)
            && (result.Published? || result.Recovered? ==> result.revision == t)
            && (result.Unchanged? ==>
                  && result.revision in db.revisions && db.revisions[result.revision].product == call.product
                  && db.revisions[result.revision].offer == call.offer && db.revisions[result.revision].content == call.content)
  {
    hide Run;
    TxOf(events, t);
    hide Inv;
  }

  /** After a lost answer, a readable table tells exactly whether the call's own row was committed. */
  lemma RecoveredExactlyWhenStored(events: seq<Event>, t: Id, call: Call, account: Account, offerNumber: nat,
                      readable: bool)
    requires t in Run(START, events).txs && Run(START, events).txs[t] == Publisher(call, Lost(account, offerNumber))
    ensures var w := Run(START, events);
            Rechecked(w, t, readable).txs[t]
            == Publisher(call, Done(if readable && t in w.db.revisions then Recovered(t) else Uncertain))
  {
    hide Run;
    TxOf(events, t);
    hide Inv;
  }

  /** Of two calls that expect the same revision of one product, only one can report a new revision. */
  lemma OneWinnerPerExpectedRevision(events: seq<Event>, t: Id, u: Id)
    requires var w := Run(START, events); t in w.txs && u in w.txs && w.txs[t].Publisher? && w.txs[u].Publisher?
    requires var w := Run(START, events);
             && w.txs[t].phase.Done? && Reported(w.txs[t].phase.result, t)
             && w.txs[u].phase.Done? && Reported(w.txs[u].phase.result, u)
             && w.txs[t].call.product == w.txs[u].call.product && w.txs[t].call.expected == w.txs[u].call.expected
             && t in w.db.revisions && u in w.db.revisions && w.db.revisions[t].account == w.db.revisions[u].account
    ensures t == u
  {
    hide Run;
    var w := Run(START, events);
    ResultsMatchTheTable(events, t, w.txs[t].call, w.txs[t].phase.result);
    ResultsMatchTheTable(events, u, w.txs[u].call, w.txs[u].phase.result);
    ProductHistory(events, w.db.revisions[t].account, w.db.revisions[t].product);
  }

  /** Heads never go back, and each step moves at most the product of its own call, by one. */
  predicate HeadsAdvance(db: Db, db': Db) {
    forall k | k in db.heads ::
      k in db'.heads && (db'.heads[k].number == db.heads[k].number || db'.heads[k].number == db.heads[k].number + 1)
  }

  predicate RowsKept(db: Db, db': Db) {
    forall r | r in db.revisions :: r in db'.revisions && db'.revisions[r] == db.revisions[r]
  }

  lemma AppendWrites(db: Db, call: Call, t: Id, a: Account, latest: Option<Head>, n: nat)
    requires t !in db.revisions && HeadAt(db, a, call.product) == latest
    ensures var db' := Appended(db, call, t, a, latest, n);
            RowsKept(db, db') && HeadsAdvance(db, db') && db'.revisions.Keys - db.revisions.Keys <= {t}
  {
  }

  lemma ProofWrites(db: Db, call: Call, a: Account, latest: Option<Head>)
    requires HeadAt(db, a, call.product) == latest
    ensures var db' := OriginProven(db, call, a, latest);
            RowsKept(db, db') && HeadsAdvance(db, db') && db'.revisions == db.revisions
  {
  }

  lemma CommitWrites(w: World, t: Id, outcome: Outcome)
    requires t in w.txs && TxOk(w.db, t, w.txs[t])
    ensures var db' := Committed(w, t, outcome).db;
            RowsKept(w.db, db') && HeadsAdvance(w.db, db') && db'.revisions.Keys - w.db.revisions.Keys <= {t}
  {
    hide Accounts, OfferTaken, OfferNumbers, HeadAt, Present, Appended, OriginProven;
    match w.txs[t]
    case Publisher(call, Appending(a, latest, n)) => AppendWrites(w.db, call, t, a, latest, n);
    case Publisher(call, Proving(a, latest)) => ProofWrites(w.db, call, a, latest);
    case _ =>
  }

  /** Only a commit writes, and it appends at most the revision of its own call. */
  lemma StepAppends(w: World, e: Event)
    requires Inv(w)
    ensures RowsKept(w.db, Step(w, e).db) && HeadsAdvance(w.db, Step(w, e).db)
    ensures Step(w, e).db.revisions.Keys - w.db.revisions.Keys <= if e.Commit? then {e.t} else {}
    ensures e.Commit? || Step(w, e).db == w.db
  {
    if e.Commit? && e.t in w.txs {
      TxFacts(w, e.t);
      CommitWrites(w, e.t, e.outcome);
    } else {
      QuietStep(w, e);
    }
  }

  lemma QuietStep(w: World, e: Event)
    requires !e.Commit? || e.t !in w.txs
    ensures Step(w, e).db == w.db
  {
    hide NextPhase, NextStep;
  }

  /** Revisions are immutable over every run. */
  lemma {:induction false} RevisionsAreImmutable(w: World, events: seq<Event>)
    requires Inv(w)
    ensures RowsKept(w.db, Run(w, events).db)
    decreases |events|
  {
    hide Inv, Step;
    if events != [] {
      StepAppends(w, events[0]);
      StepKeeps(w, events[0]);
      RevisionsAreImmutable(Step(w, events[0]), events[1..]);
    }
  }

  /** A call that is done stays done with the same result, so an unreported row never appears later. */
  lemma {:induction false} ResultsAreFinal(w: World, events: seq<Event>, t: Id)
    requires t in w.txs && t < w.nextId && w.txs[t].Publisher? && w.txs[t].phase.Done?
    ensures t in Run(w, events).txs && Run(w, events).txs[t] == w.txs[t]
    decreases |events|
  {
    hide Step;
    if events != [] {
      DoneStays(w, events[0], t);
      ResultsAreFinal(Step(w, events[0]), events[1..], t);
    }
  }

  lemma DoneStays(w: World, e: Event, t: Id)
    requires t in w.txs && t < w.nextId && w.txs[t].Publisher? && w.txs[t].phase.Done?
    ensures t in Step(w, e).txs && Step(w, e).txs[t] == w.txs[t] && t < Step(w, e).nextId
  {
    hide NextStep, Decided, Resolve, Compatible, HeadValid, MayProceed;
  }

  // ----- lock order --------------------------------------------------------

  function Rank(key: Key): nat {
    match key
    case User(_) => 0
    case Scope(_) => 1
    case ProductKey(_, _) => 2
    case OfferKey(_, _) => 3
  }

  lemma LocksClimb(tx: Tx, key: Key)
    requires key in Held(tx) && Wanted(tx).Some?
    ensures Rank(key) < Rank(Wanted(tx).value)
  {
  }

  /** A transaction whose next step is its commit. */
  predicate Committing(tx: Tx) {
    match tx
    case Publisher(_, phase) => phase.Appending? || phase.Proving?
    case Reservation(_, _, _, _, step) => step.Reserving?
  }

  /** A lock holder that may proceed does: it commits, or its next statement takes it on. */
  lemma HoldersMove(w: World, u: Id)
    requires u in w.txs && Held(w.txs[u]) != {} && MayProceed(w, u) && !Committing(w.txs[u])
    ensures Step(w, Advance(u)).txs[u] != w.txs[u]
  {
    hide Resolve, CustomerAccount, Compatible, HeadValid, OfferTaken, OfferNumbers, Present;
  }

  /**
   Whoever waits, some lock holder can go on, by a commit or by another statement: user, origin, product
   and offer locks are taken in that order.
   */
  lemma NoDeadlock(w: World, t: Id) returns (u: Id)
    requires t in w.txs && !MayProceed(w, t)
    ensures u in w.txs && Held(w.txs[u]) != {} && MayProceed(w, u)
    ensures Committing(w.txs[u]) || Step(w, Advance(u)).txs[u] != w.txs[u]
    decreases 4 - Rank(Wanted(w.txs[t]).value)
  {
    hide Held, Wanted, Rank, Step;
    var key := Wanted(w.txs[t]).value;
    u :| u in w.txs && u != t && key in Held(w.txs[u]);
    if !MayProceed(w, u) {
      LocksClimb(w.txs[u], key);
      RankBound(Wanted(w.txs[u]).value);
      u := NoDeadlock(w, u);
    } else if !Committing(w.txs[u]) {
      HoldersMove(w, u);
    }
  }

  lemma RankBound(key: Key)
    ensures Rank(key) <= 3
  {
  }
}
