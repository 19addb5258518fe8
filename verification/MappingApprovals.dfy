/**
 The approval history of one (account, offer) scope: publish_mapping appends under the scope's lock,
 and every new revision is compared with every stored one.  A digest stands for what it digests.
 */
module MappingApprovals {
  import opened Options

  type Id = nat

  /** A reference to an independently approved document. */
  datatype Approval = Approval(reference: nat, revision: nat, contentHash: nat, simulated: bool)

  datatype Approvals = Approvals(technical: Approval, commercial: Approval, legal: Approval)

  datatype Material = Material(scope: nat, references: nat, terms: nat, technical: nat, evidenceDigest: nat)

  /** The part of a mapping document that its fingerprint covers. */
  datatype Fingerprint = Fingerprint(material: Material, approvals: Approvals, genuine: bool)

  datatype Row = Row(id: Id, fingerprint: Fingerprint)

  datatype Refusal = RevisionConflict | ReferenceRewritten | TechnicalReapproval | CommercialReapproval | LegalReapproval

  datatype Result = Inserted(row: Row) | Unchanged(row: Row) | Refused(reason: Refusal)

  // ----- the rules ---------------------------------------------------------

  predicate Rewritten(before: Approval, after: Approval) {
    before.reference == after.reference && before.revision == after.revision && before != after
  }

  predicate CommercialChanged(a: Material, b: Material) {
    a.scope != b.scope || a.references != b.references || a.terms != b.terms || a.evidenceDigest != b.evidenceDigest
  }

  /** require_replacement_approval. */
  function ReplacementRefusal(previous: Fingerprint, candidate: Fingerprint): Option<Refusal> {
    var p, c := previous.approvals, candidate.approvals;
    if Rewritten(p.technical, c.technical) || Rewritten(p.commercial, c.commercial) || Rewritten(p.legal, c.legal)
    then Some(ReferenceRewritten)
    else if previous.material.technical != candidate.material.technical && p.technical == c.technical
    then Some(TechnicalReapproval)
    else if CommercialChanged(previous.material, candidate.material) && p.commercial == c.commercial
    then Some(CommercialReapproval)
    else if previous.material.terms != candidate.material.terms && p.legal == c.legal
    then Some(LegalReapproval)
    else None
  }

  function HistoryRefusal(history: seq<Row>, candidate: Fingerprint): Option<Refusal> {
    if history == [] then None
    else
      var first := ReplacementRefusal(history[0].fingerprint, candidate);
      if first.Some? then first else HistoryRefusal(history[1..], candidate)
  }

  /** publish_mapping up to its commit; the result's row is stored when the commit takes effect. */
  function Decide(history: seq<Row>, candidate: Row, expected: nat): Result {
    if history != [] && history[|history| - 1].fingerprint == candidate.fingerprint
    then Unchanged(history[|history| - 1])
    else if expected != |history| then Refused(RevisionConflict)
    else
      var refusal := HistoryRefusal(history, candidate.fingerprint);
      if refusal.Some? then Refused(refusal.value) else Inserted(candidate)
  }

  function Published(history: seq<Row>, candidate: Row, expected: nat): seq<Row> {
    if Decide(history, candidate, expected).Inserted? then history + [candidate] else history
  }

  /** After a lost answer the row at the attempted number is compared by fingerprint, not by row. */
  predicate RecoveredCommit(later: seq<Row>, candidate: Row, expected: nat) {
    expected < |later| && later[expected].fingerprint == candidate.fingerprint
  }

  class Mappings {
    var history: seq<Row>

    constructor ()
      ensures history == []
    {
      history := [];
    }

    /** publish_mapping under the scope's lock, with a commit that answers. */
    method PublishMapping(candidate: Row, expected: nat) returns (result: Result)
      modifies this
      ensures result == Decide(old(history), candidate, expected)
      ensures history == Published(old(history), candidate, expected)
    {
      if history != [] {
        var latest := history[|history| - 1];
        if latest.fingerprint == candidate.fingerprint {
          return Unchanged(latest);
        }
      }
      if expected != |history| {
        return Refused(RevisionConflict);
      }
      var i := 0;
      while i < |history|
        invariant 0 <= i <= |history|
        invariant HistoryRefusal(history[i..], candidate.fingerprint) == HistoryRefusal(history, candidate.fingerprint)
      {
        var refusal := ReplacementRefusal(history[i].fingerprint, candidate.fingerprint);
        assert history[i..][1..] == history[i + 1..];
        if refusal.Some? {
          return Refused(refusal.value);
        }
        i := i + 1;
      }
      history := history + [candidate];
      return Inserted(candidate);
    }

    /** The read after a lost answer; None stands for MappingCommitUncertain. */
    method RecoverPublication(candidate: Row, expected: nat) returns (recovered: Option<Row>)
      ensures recovered == if RecoveredCommit(history, candidate, expected) then Some(history[expected]) else None
    {
      if expected >= |history| {
        return None;
      }
      var row := history[expected];
      if row.fingerprint == candidate.fingerprint {
        return Some(row);
      }
      return None;
    }
  }

  // ----- runs --------------------------------------------------------------

  /** One attempt; `stored` tells whether its commit takes effect. */
  datatype Attempt = Attempt(candidate: Row, expected: nat, stored: bool)

  function Run(history: seq<Row>, attempts: seq<Attempt>): seq<Row>
    decreases |attempts|
  {
    if attempts == [] then history
    else
      var a := attempts[0];
      Run(if a.stored then Published(history, a.candidate, a.expected) else history, attempts[1..])
  }

  predicate SameReference(a: Approval, b: Approval) {
    a.reference == b.reference && a.revision == b.revision
  }

  /** What two revisions of one history owe each other, whichever is older. */
  predicate Consistent(a: Fingerprint, b: Fingerprint) {
    var p, c := a.approvals, b.approvals;
    && (SameReference(p.technical, c.technical) ==> p.technical == c.technical)
    && (SameReference(p.commercial, c.commercial) ==> p.commercial == c.commercial)
    && (SameReference(p.legal, c.legal) ==> p.legal == c.legal)
    && (p.technical == c.technical ==> a.material.technical == b.material.technical)
    && (p.commercial == c.commercial ==>
          a.material.scope == b.material.scope && a.material.references == b.material.references
          && a.material.terms == b.material.terms && a.material.evidenceDigest == b.material.evidenceDigest)
    && (p.legal == c.legal ==> a.material.terms == b.material.terms)
  }

  predicate HistoryOk(history: seq<Row>) {
    && (forall i, j | 0 <= i < |history| && 0 <= j < |history| :: Consistent(history[i].fingerprint, history[j].fingerprint))
    && (forall i | 0 <= i < |history| - 1 :: history[i].fingerprint != history[i + 1].fingerprint)
  }

  lemma RefusedExactlyWhenInconsistent(a: Fingerprint, b: Fingerprint)
    ensures ReplacementRefusal(a, b).None? <==> Consistent(a, b)
    ensures Consistent(a, b) <==> Consistent(b, a)
  {
  }

  lemma {:induction false} HistoryRefusedExactly(history: seq<Row>, candidate: Fingerprint)
    ensures HistoryRefusal(history, candidate).None?
            <==> forall i | 0 <= i < |history| :: Consistent(history[i].fingerprint, candidate)
  {
    hide Consistent, ReplacementRefusal;
    if history != [] {
      RefusedExactlyWhenInconsistent(history[0].fingerprint, candidate);
      HistoryRefusedExactly(history[1..], candidate);
      assert forall i | 1 <= i < |history| :: history[i] == history[1..][i - 1];
    }
  }

  /** With the expected number and a changed meaning, a revision is accepted exactly when the longer history is consistent. */
  lemma AcceptedExactlyWhenConsistent(history: seq<Row>, candidate: Row)
    requires HistoryOk(history)
    ensures Decide(history, candidate, |history|).Inserted? <==> HistoryOk(history + [candidate])
  {
    hide Consistent, HistoryRefusal;
    HistoryRefusedExactly(history, candidate.fingerprint);
    var longer := history + [candidate];
    SelfConsistent(candidate.fingerprint);
    forall i | 0 <= i < |history|
      ensures Consistent(history[i].fingerprint, candidate.fingerprint) <==> Consistent(candidate.fingerprint, history[i].fingerprint)
    {
      RefusedExactlyWhenInconsistent(history[i].fingerprint, candidate.fingerprint);
    }
    if HistoryOk(longer) {
      forall i | 0 <= i < |history| ensures Consistent(history[i].fingerprint, candidate.fingerprint) {
        assert longer[i] == history[i] && longer[|history|] == candidate;
      }
      if history != [] {
        assert longer[|history| - 1].fingerprint != longer[|history| - 1 + 1].fingerprint;
      }
    }
    if Decide(history, candidate, |history|).Inserted? {
      ExtendedOk(history, candidate);
    }
  }

  lemma SelfConsistent(a: Fingerprint)
    ensures Consistent(a, a)
  {
  }

  lemma ExtendedOk(history: seq<Row>, candidate: Row)
    requires HistoryOk(history)
    requires history != [] ==> history[|history| - 1].fingerprint != candidate.fingerprint
    requires forall i | 0 <= i < |history| ::
               Consistent(history[i].fingerprint, candidate.fingerprint)
                   && Consistent(candidate.fingerprint, history[i].fingerprint)
    ensures HistoryOk(history + [candidate])
  {
    SelfConsistent(candidate.fingerprint);
    hide Consistent;
    var longer := history + [candidate];
    forall i, j | 0 <= i < |longer| && 0 <= j < |longer|
      ensures Consistent(longer[i].fingerprint, longer[j].fingerprint)
    {
    }
  }

  lemma PublishedKeeps(history: seq<Row>, candidate: Row, expected: nat)
    requires HistoryOk(history)
    ensures HistoryOk(Published(history, candidate, expected)) && history <= Published(history, candidate, expected)
  {
    hide HistoryOk, HistoryRefusal;
    if Decide(history, candidate, expected).Inserted? {
      AcceptedExactlyWhenConsistent(history, candidate);
    }
  }

  /** Over every run all revisions of a scope agree pairwise, and nothing published is ever changed. */
  lemma {:induction false} HistoryIsConsistent(history: seq<Row>, attempts: seq<Attempt>)
    requires HistoryOk(history)
    ensures HistoryOk(Run(history, attempts)) && history <= Run(history, attempts)
    decreases |attempts|
  {
    hide HistoryOk, Published;
    if attempts != [] {
      var a := attempts[0];
      PublishedKeeps(history, a.candidate, a.expected);
      HistoryIsConsistent(if a.stored then Published(history, a.candidate, a.expected) else history, attempts[1..]);
    }
  }

  // ----- what each answer means --------------------------------------------

  /** The reason names what the candidate would change without a new approval. */
  predicate Explains(reason: Refusal, before: Fingerprint, after: Fingerprint) {
    var p, c := before.approvals, after.approvals;
    match reason
    case RevisionConflict => false
    case ReferenceRewritten =>
      || (SameReference(p.technical, c.technical) && p.technical != c.technical)
      || (SameReference(p.commercial, c.commercial) && p.commercial != c.commercial)
      || (SameReference(p.legal, c.legal) && p.legal != c.legal)
    case TechnicalReapproval => p.technical == c.technical && before.material.technical != after.material.technical
    case CommercialReapproval =>
      p.commercial == c.commercial
      && (before.material.scope, before.material.references, before.material.terms, before.material.evidenceDigest)
         != (after.material.scope, after.material.references, after.material.terms, after.material.evidenceDigest)
    case LegalReapproval => p.legal == c.legal && before.material.terms != after.material.terms
  }

  lemma RefusalExplains(a: Fingerprint, b: Fingerprint)
    ensures ReplacementRefusal(a, b).Some? ==> Explains(ReplacementRefusal(a, b).value, a, b)
    ensures ReplacementRefusal(a, b) != Some(RevisionConflict)
  {
  }

  lemma {:induction false} HistoryRefusalExplains(history: seq<Row>, candidate: Fingerprint)
    ensures var refusal := HistoryRefusal(history, candidate);
            refusal.Some? ==> refusal.value != RevisionConflict
                              && exists i :: 0 <= i < |history| && Explains(refusal.value, history[i].fingerprint, candidate)
  {
    hide ReplacementRefusal, Explains;
    if history != [] {
      RefusalExplains(history[0].fingerprint, candidate);
      HistoryRefusalExplains(history[1..], candidate);
      var refusal := HistoryRefusal(history[1..], candidate);
      if refusal.Some? {
        var i :| 0 <= i < |history| - 1 && Explains(refusal.value, history[1..][i].fingerprint, candidate);
        assert history[i + 1] == history[1..][i];
      }
    }
  }

  /** The latest revision, if there is one, has this meaning. */
  predicate IsLatest(history: seq<Row>, fingerprint: Fingerprint) {
    history != [] && history[|history| - 1].fingerprint == fingerprint
  }

  /**
   Every answer by what it means.  A publication is inserted exactly when its number is the current one
   and the longer history is in order; the latest meaning is answered unchanged whatever the number; any
   other stale number is a conflict; every other refusal names a stored revision that it contradicts.
   */
  lemma AnsweredExactly(history: seq<Row>, candidate: Row, expected: nat)
    requires HistoryOk(history)
    ensures var result := Decide(history, candidate, expected);
            var after := Published(history, candidate, expected);
            && (result.Inserted? <==> expected == |history| && HistoryOk(history + [candidate]))
            && (result.Inserted? ==> result.row == candidate && after == history + [candidate])
            && (result.Unchanged? <==> IsLatest(history, candidate.fingerprint))
            && (result.Unchanged? ==> result.row == history[|history| - 1])
            && (result == Refused(RevisionConflict) <==> expected != |history| && !IsLatest(history, candidate.fingerprint))
            && (!result.Inserted? ==> after == history)
            && (result.Refused? && result.reason != RevisionConflict ==>
                  exists i :: 0 <= i < |history| && Explains(result.reason, history[i].fingerprint, candidate.fingerprint))
  {
    hide HistoryOk, HistoryRefusal, Explains;
    HistoryRefusalExplains(history, candidate.fingerprint);
    if expected == |history| {
      AcceptedExactlyWhenConsistent(history, candidate);
    }
  }

  // ----- the compare-and-swap over runs -------------------------------------

  lemma {:induction false} RunOn(history: seq<Row>, first: seq<Attempt>, rest: seq<Attempt>)
    ensures Run(history, first + rest) == Run(Run(history, first), rest)
    decreases |first|
  {
    hide Published;
    if first == [] {
      assert first + rest == rest;
    } else {
      var a := first[0];
      RunOn(if a.stored then Published(history, a.candidate, a.expected) else history, first[1..], rest);
      assert (first + rest)[1..] == first[1..] + rest;
    }
  }

  /** The history that attempt `i` meets. */
  function Met(history: seq<Row>, attempts: seq<Attempt>, i: nat): seq<Row>
    requires i <= |attempts|
  {
    Run(history, attempts[..i])
  }

  lemma MetNext(history: seq<Row>, attempts: seq<Attempt>, i: nat)
    requires i < |attempts|
    ensures var a := attempts[i];
            var h := Met(history, attempts, i);
            Met(history, attempts, i + 1) == if a.stored then Published(h, a.candidate, a.expected) else h
  {
    hide Published;
    RunOn(history, attempts[..i], [attempts[i]]);
    assert attempts[..i + 1] == attempts[..i] + [attempts[i]];
    assert [attempts[i]][1..] == [];
  }

  lemma MetGrows(history: seq<Row>, attempts: seq<Attempt>, i: nat, j: nat)
    requires HistoryOk(history) && i <= j <= |attempts|
    ensures HistoryOk(Met(history, attempts, i)) && Met(history, attempts, i) <= Met(history, attempts, j)
  {
    hide HistoryOk, Run;
    HistoryIsConsistent(history, attempts[..i]);
    RunOn(history, attempts[..i], attempts[i..j]);
    assert attempts[..j] == attempts[..i] + attempts[i..j];
    HistoryIsConsistent(Met(history, attempts, i), attempts[i..j]);
  }

  /** An attempt that changed the history did so at the number it expected, and its row stays there. */
  lemma InsertedAtItsNumber(history: seq<Row>, attempts: seq<Attempt>, i: nat)
    requires HistoryOk(history) && i < |attempts|
    requires Met(history, attempts, i + 1) != Met(history, attempts, i)
    ensures var a := attempts[i];
            && a.stored && a.expected == |Met(history, attempts, i)|
            && Met(history, attempts, i + 1) == Met(history, attempts, i) + [a.candidate]
            && a.expected < |Run(history, attempts)| && Run(history, attempts)[a.expected] == a.candidate
  {
    hide HistoryOk, Run, Decide, Published, Met;
    var a := attempts[i];
    MetNext(history, attempts, i);
    MetGrows(history, attempts, i, i);
    MetGrows(history, attempts, i + 1, |attempts|);
    AnsweredExactly(Met(history, attempts, i), a.candidate, a.expected);
    assert Met(history, attempts, |attempts|) == Run(history, attempts) by {
      MetLast(history, attempts);
    }
  }

  lemma MetLast(history: seq<Row>, attempts: seq<Attempt>)
    ensures Met(history, attempts, |attempts|) == Run(history, attempts)
  {
    hide Run;
    assert attempts[..|attempts|] == attempts;
  }

  /** Of all attempts that expect one number, at most one changes the history. */
  lemma OneInsertPerNumber(history: seq<Row>, attempts: seq<Attempt>, i: nat, j: nat)
    requires HistoryOk(history) && i < j < |attempts|
    requires Met(history, attempts, i + 1) != Met(history, attempts, i)
    requires Met(history, attempts, j + 1) != Met(history, attempts, j)
    ensures attempts[i].expected < attempts[j].expected
  {
    hide HistoryOk, Run, Met;
    InsertedAtItsNumber(history, attempts, i);
    InsertedAtItsNumber(history, attempts, j);
    MetGrows(history, attempts, i + 1, j);
  }

  /** Whoever comes with a number that has been used meets the row published under it, or is refused. */
  lemma UsedNumberIsRefused(history: seq<Row>, attempts: seq<Attempt>, candidate: Row, expected: nat)
    requires HistoryOk(history) && expected < |Run(history, attempts)|
    ensures var later := Run(history, attempts);
            var result := Decide(later, candidate, expected);
            && Published(later, candidate, expected) == later
            && result == if later[|later| - 1].fingerprint == candidate.fingerprint then Unchanged(later[|later| - 1])
                         else Refused(RevisionConflict)
  {
    hide HistoryOk, Run, Decide, Published;
    HistoryIsConsistent(history, attempts);
    AnsweredExactly(Run(history, attempts), candidate, expected);
  }

  /** A retry with the previous number, before anybody else publishes, gets its own stored row back. */
  lemma RetryIsUnchanged(history: seq<Row>, candidate: Row, retry: Row)
    requires HistoryOk(history) && HistoryOk(history + [candidate]) && retry.fingerprint == candidate.fingerprint
    ensures var after := Published(history, candidate, |history|);
            && Decide(after, retry, |history|) == Unchanged(candidate)
            && Published(after, retry, |history|) == after
  {
    hide HistoryOk, Decide, Published;
    AnsweredExactly(history, candidate, |history|);
    AnsweredExactly(history + [candidate], retry, |history|);
  }

  // ----- lost commits ------------------------------------------------------

  /**
   What later callers leave behind this caller's publication.  `stored` tells whether its commit had
   taken effect by the time of the recovery read, at which the table is looked up.
   */
  function AfterLostAnswer(history: seq<Row>, mine: Row, stored: bool, attempts: seq<Attempt>): seq<Row> {
    Run(if stored then Published(history, mine, |history|) else history, attempts)
  }

  /** A row behind the old history was some attempt's candidate. */
  lemma {:induction false} NewRowsAreCandidates(history: seq<Row>, attempts: seq<Attempt>, k: nat)
    requires k < |Run(history, attempts)|
    ensures (k < |history| && Run(history, attempts)[k] == history[k])
            || exists i | 0 <= i < |attempts| :: attempts[i].candidate == Run(history, attempts)[k]
    decreases |attempts|
  {
    hide Decide;
    if attempts != [] {
      var a := attempts[0];
      var next := if a.stored then Published(history, a.candidate, a.expected) else history;
      NewRowsAreCandidates(next, attempts[1..], k);
      if i :| 0 <= i < |attempts| - 1 && attempts[1..][i].candidate == Run(history, attempts)[k] {
        assert attempts[i + 1].candidate == Run(history, attempts)[k];
      } else if k >= |history| {
        assert attempts[0].candidate == Run(history, attempts)[k];
      }
    }
  }

  /** The own row, once stored, is found under its number whatever is published later. */
  lemma OwnCommitIsRecovered(history: seq<Row>, mine: Row, attempts: seq<Attempt>)
    requires HistoryOk(history) && Decide(history, mine, |history|).Inserted?
    ensures var later := AfterLostAnswer(history, mine, true, attempts);
            RecoveredCommit(later, mine, |history|) && later[|history|] == mine
  {
    hide HistoryOk;
    PublishedKeeps(history, mine, |history|);
    HistoryIsConsistent(Published(history, mine, |history|), attempts);
  }

  /** A dropped row is not in the table: what stands under its number is a later caller's candidate. */
  lemma DroppedRowIsForeign(history: seq<Row>, mine: Row, attempts: seq<Attempt>)
    requires RecoveredCommit(AfterLostAnswer(history, mine, false, attempts), mine, |history|)
    ensures exists i | 0 <= i < |attempts| ::
              attempts[i].candidate == AfterLostAnswer(history, mine, false, attempts)[|history|]
  {
    NewRowsAreCandidates(history, attempts, |history|);
  }

  /** A comparison by row id decides exactly whether the own commit had taken effect by the time of the read. */
  lemma OwnIdDecides(history: seq<Row>, mine: Row, stored: bool, attempts: seq<Attempt>)
    requires HistoryOk(history) && Decide(history, mine, |history|).Inserted?
    requires forall i | 0 <= i < |attempts| :: attempts[i].candidate.id != mine.id
    ensures var later := AfterLostAnswer(history, mine, stored, attempts);
            RecoveredCommit(later, mine, |history|) && later[|history|].id == mine.id <==> stored
  {
    hide HistoryOk;
    if stored {
      OwnCommitIsRecovered(history, mine, attempts);
    } else if RecoveredCommit(AfterLostAnswer(history, mine, false, attempts), mine, |history|) {
      DroppedRowIsForeign(history, mine, attempts);
    }
  }

  /** The comparison by fingerprint decides it too, as long as no later caller publishes the same meaning. */
  lemma FingerprintDecidesWithoutTwins(history: seq<Row>, mine: Row, stored: bool, attempts: seq<Attempt>)
    requires HistoryOk(history) && Decide(history, mine, |history|).Inserted?
    requires forall i | 0 <= i < |attempts| :: attempts[i].candidate.fingerprint != mine.fingerprint
    ensures RecoveredCommit(AfterLostAnswer(history, mine, stored, attempts), mine, |history|) <==> stored
  {
    hide HistoryOk;
    if stored {
      OwnCommitIsRecovered(history, mine, attempts);
    } else if RecoveredCommit(AfterLostAnswer(history, mine, false, attempts), mine, |history|) {
      DroppedRowIsForeign(history, mine, attempts);
    }
  }

  predicate Drawn(attempts: seq<Attempt>, candidates: set<Row>) {
    forall i | 0 <= i < |attempts| :: attempts[i].candidate in candidates
  }

  /** Whatever the other callers do with `candidates`, a recovered result means that the own row was committed. */
  ghost predicate RecoveredIsOwn(history: seq<Row>, mine: Row, candidates: set<Row>) {
    forall attempts, stored | Drawn(attempts, candidates) ::
      RecoveredCommit(AfterLostAnswer(history, mine, stored, attempts), mine, |history|) ==> stored
  }

  /**
   A recovered result can be trusted exactly when no other caller holds a candidate with the same
   fingerprint.
   */
  lemma RecoveredIsOwnExactlyWithoutTwins(history: seq<Row>, mine: Row, candidates: set<Row>)
    requires HistoryOk(history) && Decide(history, mine, |history|).Inserted?
    ensures RecoveredIsOwn(history, mine, candidates)
            <==> forall other | other in candidates :: other.fingerprint != mine.fingerprint
  {
    hide HistoryOk, RecoveredCommit, AfterLostAnswer, Decide;
    if other :| other in candidates && other.fingerprint == mine.fingerprint {
      DroppedCommitIsRecoveredByTwin(history, mine, other);
      assert Drawn(TwinRun(history, other), candidates);
    } else {
      forall attempts, stored | Drawn(attempts, candidates)
        ensures RecoveredCommit(AfterLostAnswer(history, mine, stored, attempts), mine, |history|) ==> stored
      {
        FingerprintDecidesWithoutTwins(history, mine, stored, attempts);
      }
    }
  }

  function TwinRun(history: seq<Row>, other: Row): seq<Attempt> {
    [Attempt(other, |history|, true)]
  }

  lemma DroppedCommitIsRecoveredByTwin(history: seq<Row>, mine: Row, other: Row)
    requires Decide(history, mine, |history|).Inserted? && other.fingerprint == mine.fingerprint
    ensures var later := AfterLostAnswer(history, mine, false, TwinRun(history, other));
            RecoveredCommit(later, mine, |history|) && later == history + [other]
  {
    var attempts := TwinRun(history, other);
    assert attempts[1..] == [];
    assert Decide(history, other, |history|) == Inserted(other);
    assert Run(history, attempts) == Run(Published(history, other, |history|), []);
  }

  /** For every accepted publication: another publisher of its meaning makes a dropped commit look recovered. */
  lemma DroppedCommitCanBeRecovered(history: seq<Row>, mine: Row, other: Row)
    requires Decide(history, mine, |history|).Inserted? && other.fingerprint == mine.fingerprint && other.id != mine.id
    ensures var later := AfterLostAnswer(history, mine, false, TwinRun(history, other));
            RecoveredCommit(later, mine, |history|) && later[|history|].id != mine.id
  {
    DroppedCommitIsRecoveredByTwin(history, mine, other);
  }
}
