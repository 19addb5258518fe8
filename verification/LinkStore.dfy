/**
 publish_product_link as it is written, for a caller that gets every lock: the scope loop, the head
 read, the offer checks and the append.  The same call, run statement by statement among the
 transactions of LinkRuns, does exactly this.
 */
module LinkStore {
  import opened Options
  import opened LinkModel
  import opened LinkRuns

  /** The whole call at once. */
  ghost function AtOnce(db: Db, call: Call, t: Id): (Db, Result) {
    var scope := Resolve(db, call);
    if scope.None? || !Compatible(db, scope.value, call.product) then (db, Refused)
    else if (scope.value, call.product) in db.heads && !HeadValid(db, (scope.value, call.product)) then (db, Refused)
    else
      match Decided(db, call, scope.value, HeadAt(db, scope.value, call.product))
      case Done(result) => (db, result)
      case Proving(a, latest) => (OriginProven(db, call, a, latest), if latest.Some? then Unchanged(latest.value.revision) else Uncertain)
      case Appending(a, latest, n) => (Appended(db, call, t, a, latest, n), Published(t))
      case _ => (db, Refused)
  }

  predicate Usable(db: Db, k: (Account, Product), origin: Origin) {
    k in db.heads && db.heads[k].origin in {None, Some(origin)} && HeadValid(db, k)
  }

  function Owners(keys: set<(Account, Product)>): set<Account> {
    set k | k in keys :: k.0
  }

  lemma NoOwners()
    ensures Owners({}) == {}
  {
  }

  lemma OwnersGrow(keys: set<(Account, Product)>, k: (Account, Product))
    ensures Owners(keys + {k}) == Owners(keys) + {k.0}
  {
    assert k in keys + {k};
    assert forall l | l in keys :: l in keys + {k};
  }

  lemma ConnectedAreHeads(db: Db, account: Account, origin: Origin, legacy: Option<Account>)
    ensures ConnectionHeads(db, account, origin, legacy) <= db.heads.Keys
  {
  }

  /** The result of the scope loop, stated over all connected heads. */
  lemma ResolvedIs(db: Db, call: Call, origin: Origin)
    ensures var connected := ConnectionHeads(db, call.account, origin, call.legacy);
            ResolvedAccounts(db, call, origin)
            == if forall k | k in connected :: Usable(db, k, origin) then Some(Accounts(db, origin) + Owners(connected)) else None
  {
    hide Accounts, HeadValid;
  }

  lemma NoOrigin(db: Db, call: Call)
    requires call.origin.None?
    ensures Resolve(db, call) == Some(call.account)
  {
  }

  lemma UnusableHead(db: Db, call: Call, k: (Account, Product))
    requires call.origin.Some? && !Usable(db, k, call.origin.value)
    requires k in ConnectionHeads(db, call.account, call.origin.value, call.legacy)
    ensures Resolve(db, call).None?
  {
    hide Usable, ConnectionHeads, Accounts, ResolvedAccounts;
    ResolvedIs(db, call, call.origin.value);
  }

  /** What the account set decides. */
  lemma ResolvedBy(db: Db, call: Call, accounts: set<Account>, a: Account)
    requires call.origin.Some? && ResolvedAccounts(db, call, call.origin.value) == Some(accounts)
    ensures |accounts| > 1 ==> Resolve(db, call).None?
    ensures accounts == {} ==> Resolve(db, call) == Some(call.account)
    ensures |accounts| <= 1 && a in accounts ==> Resolve(db, call) == Some(a)
  {
    hide ResolvedAccounts;
    if |accounts| <= 1 && a in accounts { AtMostOne(accounts, a); }
  }

  class Store {
    var revisions: map<Id, Revision>
    var heads: map<(Account, Product), Head>
    var customers: map<Id, Customer>

    function Rows(): Db
      reads this
    {
      Db(revisions, heads, customers)
    }

    constructor ()
      ensures Rows() == EMPTY_DB
    {
      revisions, heads, customers := map[], map[], map[];
    }

    /** resolve_connection_scope: the account set grows head by head. */
    method ResolveConnectionScope(call: Call) returns (scope: Option<Account>)
      ensures scope == Resolve(Rows(), call)
    {
      hide Accounts, ConnectionHeads, HeadValid, Owners, Resolve, ResolvedAccounts;
      if call.origin.None? {
        NoOrigin(Rows(), call);
        return Some(call.account);
      }
      var origin := call.origin.value;
      var proven := Accounts(Rows(), origin);
      var accounts := proven;
      var connected := ConnectionHeads(Rows(), call.account, origin, call.legacy);
      ConnectedAreHeads(Rows(), call.account, origin, call.legacy);
      var left := connected;
      NoOwners();
      assert connected - left == {};
      while left != {}
        invariant left <= connected
        invariant forall k | k in connected - left :: Usable(Rows(), k, origin)
        invariant accounts == proven + Owners(connected - left)
        decreases |left|
      {
        var k :| k in left;
        if heads[k].origin !in {None, Some(origin)} || !HeadValid(Rows(), k) {
          UnusableHead(Rows(), call, k);
          return None;
        }
        OwnersGrow(connected - left, k);
        assert connected - (left - {k}) == connected - left + {k};
        accounts := accounts + {k.0};
        left := left - {k};
      }
      assert connected - left == connected;
      assert forall k | k in connected :: Usable(Rows(), k, origin);
      ResolvedIs(Rows(), call, origin);
      ResolvedBy(Rows(), call, accounts, call.account);
      if |accounts| > 1 {
        return None;
      }
      if accounts == {} {
        return Some(call.account);
      }
      var a :| a in accounts;
      ResolvedBy(Rows(), call, accounts, a);
      return Some(a);
    }

    /** The highest stored number of an offer, as ORDER BY ... LIMIT 1 finds it. */
    method LatestOfferNumber(account: Account, offer: Offer) returns (n: nat)
      ensures n == Largest(OfferNumbers(Rows(), account, offer))
    {
      n := 0;
      var rows := revisions.Keys;
      var left := rows;
      while left != {}
        invariant left <= rows
        invariant n == 0 || n in OfferNumbers(Rows(), account, offer)
        invariant forall r | r in rows - left && revisions[r].account == account && revisions[r].offer == offer ::
                    revisions[r].offerNumber <= n
        decreases |left|
      {
        var r :| r in left;
        if revisions[r].account == account && revisions[r].offer == offer && revisions[r].offerNumber > n {
          n := revisions[r].offerNumber;
        }
        left := left - {r};
      }
      assert forall m | m in OfferNumbers(Rows(), account, offer) :: m <= n;
    }

    method PublishProductLink(call: Call, attempted: Id) returns (result: Result)
      modifies this
      ensures (Rows(), result) == AtOnce(old(Rows()), call, attempted)
    {
      hide Resolve, Compatible, HeadValid, OfferTaken, OfferNumbers, Largest;
      var scope := ResolveConnectionScope(call);
      if scope.None? {
        return Refused;
      }
      var account := scope.value;
      if !Compatible(Rows(), account, call.product) {
        return Refused;
      }
      var key := (account, call.product);
      var latest: Option<Head> := None;
      if key in heads {
        if !HeadValid(Rows(), key) {
          return Refused;
        }
        latest := Some(heads[key]);
      }
      if OfferTaken(Rows(), account, call.offer, call.product) {
        return Refused;
      }
      if SameIdentity(Rows(), latest, call) {
        if call.origin.Some? && heads[key].origin.None? {
          heads := heads[key := heads[key].(origin := call.origin)];
        }
        return Unchanged(latest.value.revision);
      }
      var previousNumber := if latest.None? then 0 else latest.value.number;
      if call.expected != previousNumber {
        return RevisionConflict;
      }
      var lastOffer := LatestOfferNumber(account, call.offer);
      var offerRevision := lastOffer + 1;
      revisions := revisions[attempted := Revision(account, call.product, call.offer, call.content, previousNumber + 1, offerRevision)];
      var head: Head;
      if latest.None? {
        head := Head(attempted, previousNumber + 1, call.origin);
      } else {
        head := latest.value;
        if call.origin.Some? {
          head := head.(origin := call.origin);
        }
        head := head.(revision := attempted, number := previousNumber + 1);
      }
      heads := heads[key := head];
      return Published(attempted);
    }
  }

  // ----- the call alone among other transactions ---------------------------

  function Statements(call: Call, t: Id): seq<Event> {
    [Publish(call), Advance(t), Advance(t), Advance(t), Advance(t), Advance(t), Advance(t), Commit(t, Acknowledged)]
  }

  predicate NoLocksHeld(w: World) {
    forall u | u in w.txs :: Held(w.txs[u]) == {}
  }

  /** `w` with its publisher `t` at `phase`. */
  function At(w: World, call: Call, phase: Phase): World {
    World(w.db, w.txs[w.nextId := Publisher(call, phase)], w.nextId + 1)
  }

  lemma AdvanceAlone(w: World, call: Call, phase: Phase)
    requires NoLocksHeld(w)
    ensures Step(At(w, call, phase), Advance(w.nextId)) == At(w, call, NextPhase(w.db, call, phase, true))
  {
    hide NextPhase;
    var w1 := At(w, call, phase);
    var t := w.nextId;
    assert MayProceed(w1, t);
    assert w1.txs[t := Publisher(call, NextPhase(w.db, call, phase, true))] == At(w, call, NextPhase(w.db, call, phase, true)).txs;
  }

  ghost function Phases(db: Db, call: Call, phase: Phase, n: nat): Phase
    decreases n
  {
    if n == 0 then phase else Phases(db, call, NextPhase(db, call, phase, true), n - 1)
  }

  lemma {:induction false} AdvanceManyAlone(w: World, call: Call, phase: Phase, n: nat, rest: seq<Event>)
    requires NoLocksHeld(w)
    ensures Run(At(w, call, phase), seq(n, i => Advance(w.nextId)) + rest) == Run(At(w, call, Phases(w.db, call, phase, n)), rest)
    decreases n
  {
    hide Step, NextPhase, NoLocksHeld, At;
    var events := seq(n, i => Advance(w.nextId)) + rest;
    if n == 0 {
      assert events == rest;
    } else {
      AdvanceAlone(w, call, phase);
      assert events[0] == Advance(w.nextId);
      assert events[1..] == seq(n - 1, i => Advance(w.nextId)) + rest;
      AdvanceManyAlone(w, call, NextPhase(w.db, call, phase, true), n - 1, rest);
    }
  }

  /** Six statements take a publisher that meets no contention to its decision. */
  lemma SixStatements(db: Db, call: Call)
    ensures var scope := Resolve(db, call);
            var p := Phases(db, call, Begun, 6);
            p == if scope.None? || !Compatible(db, scope.value, call.product)
                    || ((scope.value, call.product) in db.heads && !HeadValid(db, (scope.value, call.product)))
                 then Done(Refused)
                 else Decided(db, call, scope.value, HeadAt(db, scope.value, call.product))
  {
    hide Phases, Compatible, HeadValid, OfferTaken, OfferNumbers, SameIdentity, ResolvedAccounts;
    Unfold(db, call, Begun);
  }

  lemma Unfold(db: Db, call: Call, phase: Phase)
    ensures Phases(db, call, phase, 6)
            == NextPhase(db, call, NextPhase(db, call, NextPhase(db, call,
                 NextPhase(db, call, NextPhase(db, call, NextPhase(db, call, phase, true), true), true), true), true), true)
  {
    hide NextPhase;
    var p2 := NextPhase(db, call, NextPhase(db, call, phase, true), true);
    assert Phases(db, call, phase, 6) == Phases(db, call, p2, 4);
    var p4 := NextPhase(db, call, NextPhase(db, call, p2, true), true);
    assert Phases(db, call, p2, 4) == Phases(db, call, p4, 2);
    var p5 := NextPhase(db, call, p4, true);
    assert Phases(db, call, p4, 2) == Phases(db, call, p5, 1) == Phases(db, call, NextPhase(db, call, p5, true), 0);
  }

  lemma LastCommit(w: World, call: Call, p: Phase)
    requires p.Done? || p.Appending? || p.Proving?
    ensures var t := w.nextId;
            var w' := Step(At(w, call, p), Commit(t, Acknowledged));
            var (db', result) :=
              match p
              case Done(result) => (w.db, result)
              case Proving(a, latest) => (OriginProven(w.db, call, a, latest),
                                          if latest.Some? then Unchanged(latest.value.revision) else Uncertain)
              case Appending(a, latest, n) => (Appended(w.db, call, t, a, latest, n), Published(t))
              case _ => (w.db, Refused);
            w'.db == db' && w'.txs == w.txs[t := Publisher(call, Done(result))]
  {
    hide Appended, OriginProven;
  }

  lemma StatementsRun(w: World, call: Call)
    requires NoLocksHeld(w)
    ensures Run(w, Statements(call, w.nextId))
            == Step(At(w, call, Phases(w.db, call, Begun, 6)), Commit(w.nextId, Acknowledged))
  {
    var t := w.nextId;
    var last := [Commit(t, Acknowledged)];
    assert Statements(call, t)[1..] == seq(6, i => Advance(t)) + last;
    assert Step(w, Publish(call)) == At(w, call, Begun);
    hide Step, Phases, NoLocksHeld, At;
    AdvanceManyAlone(w, call, Begun, 6, last);
    assert last[1..] == [];
  }

  /** An uncontended run of the call has the effect and the result of the call at once. */
  lemma AloneIsAtOnce(w: World, call: Call)
    requires NoLocksHeld(w)
    ensures var t := w.nextId;
            var w' := Run(w, Statements(call, t));
            var (db', result) := AtOnce(w.db, call, t);
            w'.db == db' && w'.txs == w.txs[t := Publisher(call, Done(result))]
  {
    hide Resolve, Compatible, HeadValid, Decided, Phases, Appended, OriginProven, Step, Run, NoLocksHeld, At, Statements;
    StatementsRun(w, call);
    SixStatements(w.db, call);
    DecidedIsFinal(w.db, call, Resolve(w.db, call));
    LastCommit(w, call, Phases(w.db, call, Begun, 6));
  }

  lemma DecidedIsFinal(db: Db, call: Call, scope: Option<Account>)
    ensures scope.Some? ==>
              var p := Decided(db, call, scope.value, HeadAt(db, scope.value, call.product));
              p.Done? || p.Proving? || p.Appending?
  {
  }
}
