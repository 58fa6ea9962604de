// Over all runs of proposals, confirmations, withdrawals and other writes: confirmed
// cognition never contradicts itself, is always text that was proposed, and of several
// writers with one expected head at most one succeeds.
module KnowledgeProofs {
  import opened Prelude
  import opened StoryStore
  import opened Knowledge
  import Text

  // ---------------------------------------------------------------- the invariant

  ghost predicate VersionOk(db: Story, d: DocId, topic: Topic, v: VersionId)
    requires Owns(db, d, v)
  {
    && v > 0 && Reads(db, v) && Of(db, v).topic == topic
    && Of(db, v).number <= db.versions[v].number
    && (Of(db, v).operation.Propose? ==> Of(db, v).number == db.versions[v].number)
    && ProposalFound(db, d, Of(db, v)) && ConfirmationFound(db, d, Of(db, v))
    && (Of(db, v).confirmed.Some? ==> Of(db, v).confirmed.value.number < db.versions[v].number)
  }

  ghost predicate VersionsOk(db: Story, d: DocId, topic: Topic) {
    forall v | Owns(db, d, v) :: VersionOk(db, d, topic, v)
  }

  ghost predicate RecordOk(db: Story, d: DocId) {
    && HeadReads(db, d) && Owns(db, d, db.docs[d].head.value)
    && db.docs[d].state.Draft?
    && db.docs[d].parent == Head(db, d).topic.holder
    && db.docs[d].sequence == Some(Head(db, d).topic.start)
    && VersionsOk(db, d, Head(db, d).topic)
    && NumbersApart(db, d)
  }

  ghost predicate RecordsOk(db: Story) {
    forall d | IsRecord(db, d) :: RecordOk(db, d)
  }

  // Two confirmed statements of one observer and key never hold at the same time.
  predicate Apart(p: Payload, q: Payload) {
    p.confirmed.Some? && q.confirmed.Some? && p.topic.audience == q.topic.audience
    && p.topic.holder == q.topic.holder && p.topic.key == q.topic.key ==>
      !Overlaps(p.topic.start, p.confirmed.value.proposal.until, q.topic.start, q.confirmed.value.proposal.until)
  }

  ghost predicate NoOverlap(db: Story) {
    forall d, e | HeadReads(db, d) && HeadReads(db, e) && d != e :: Apart(Head(db, d), Head(db, e))
  }

  ghost predicate TopicsApart(db: Story) {
    forall d, e | HeadReads(db, d) && HeadReads(db, e) && d != e :: Head(db, d).topic != Head(db, e).topic
  }

  ghost predicate Good(db: Story) {
    RecordsOk(db) && NoOverlap(db) && TopicsApart(db)
  }

  // ---------------------------------------------------------------- records nobody wrote to

  ghost predicate Untouched(db: Story, t: Story, d: DocId) {
    && IsRecord(db, d) && IsRecord(t, d) && t.docs[d] == db.docs[d]
    && (forall v :: Owns(db, d, v) <==> Owns(t, d, v))
    && forall v | Owns(db, d, v) :: t.versions[v] == db.versions[v]
  }

  lemma FoundStays(db: Story, t: Story, d: DocId, p: Payload)
    requires forall v | Owns(db, d, v) :: Owns(t, d, v) && t.versions[v] == db.versions[v]
    ensures ProposalFound(db, d, p) ==> ProposalFound(t, d, p)
    ensures ConfirmationFound(db, d, p) ==> ConfirmationFound(t, d, p)
  {
    if ProposalFound(db, d, p) {
      var v :| Owns(db, d, v) && db.versions[v].number == p.number && Reads(db, v)
        && Of(db, v).operation.Propose? && Of(db, v).topic == p.topic && Of(db, v).number == p.number
        && Of(db, v).proposal == p.proposal;
      assert Owns(t, d, v) && Reads(t, v);
    }
  }

  lemma {:induction false} UntouchedOk(db: Story, t: Story, d: DocId)
    requires RecordOk(db, d) && Untouched(db, t, d)
    ensures RecordOk(t, d) && Head(t, d) == Head(db, d)
  {
    forall v | Owns(t, d, v)
      ensures VersionOk(t, d, Head(db, d).topic, v)
    {
      assert VersionOk(db, d, Head(db, d).topic, v);
      FoundStays(db, t, d, Of(db, v));
    }
  }

  // ---------------------------------------------------------------- a record grows by one version

  ghost predicate Fits(db: Story, d: DocId, number: nat, p: Payload) {
    && PayloadValid(p) && p.number <= number
    && (p.operation.Propose? ==> p.number == number)
    && (!p.operation.Propose? ==> ProposalFound(db, d, p))
    && ConfirmationFound(db, d, p)
    && (p.confirmed.Some? ==> p.confirmed.value.number < number)
  }

  lemma GrownVersion(db: Story, d: DocId, v: VersionId, number: nat, p: Payload)
    requires d in db.docs && FreshVersion(db, v) && Fits(db, d, number, p)
    ensures var t := Grow(db, d, v, number, Record(p)); Owns(t, d, v) && VersionOk(t, d, p.topic, v)
  {
    var t := Grow(db, d, v, number, Record(p));
    GrowOwns(db, d, v, number, Record(p));
    FoundStays(db, t, d, p);
    if p.operation.Propose? {
      assert Owns(t, d, v) && t.versions[v].number == p.number && Reads(t, v);
      assert ProposalFound(t, d, p);
    }
  }

  lemma GrownVersions(db: Story, d: DocId, v: VersionId, number: nat, p: Payload)
    requires IsRecord(db, d) && FreshVersion(db, v) && Fits(db, d, number, p) && VersionsOk(db, d, p.topic)
    ensures VersionsOk(Grow(db, d, v, number, Record(p)), d, p.topic)
  {
    var t := Grow(db, d, v, number, Record(p));
    GrowOwns(db, d, v, number, Record(p));
    GrownVersion(db, d, v, number, p);
    forall w | Owns(t, d, w)
      ensures VersionOk(t, d, p.topic, w)
    {
      if w != v {
        assert VersionOk(db, d, p.topic, w);
        FoundStays(db, t, d, Of(db, w));
      }
    }
  }

  // The record after a write: all versions fit, none share a number.
  lemma GrownRecord(db: Story, d: DocId, v: VersionId, number: nat, p: Payload)
    requires IsRecord(db, d) && FreshVersion(db, v) && IsNext(db, d, number) && Fits(db, d, number, p)
    requires db.docs[d].parent == p.topic.holder && db.docs[d].sequence == Some(p.topic.start)
    requires VersionsOk(db, d, p.topic) && NumbersApart(db, d)
    ensures var t := Grow(db, d, v, number, Record(p)); RecordOk(t, d) && Head(t, d) == p
  {
    GrownVersions(db, d, v, number, p);
    GrowKeepsNumbers(db, d, v, number, Record(p));
    GrowOwns(db, d, v, number, Record(p));
  }

  lemma OkIsFine(db: Story, d: DocId)
    requires RecordOk(db, d)
    ensures SnapshotFine(db, d)
  {
    assert VersionOk(db, d, Head(db, d).topic, db.docs[d].head.value);
  }

  // The payload clashes with no other record.
  ghost predicate Clear(db: Story, d: DocId, p: Payload) {
    forall e | HeadReads(db, e) && e != d :: Apart(p, Head(db, e)) && Head(db, e).topic != p.topic
  }

  ghost predicate OthersGood(db: Story, d: DocId) {
    && (forall e | IsRecord(db, e) && e != d :: RecordOk(db, e))
    && (forall e, f | HeadReads(db, e) && HeadReads(db, f) && e != f && e != d && f != d ::
          Apart(Head(db, e), Head(db, f)) && Head(db, e).topic != Head(db, f).topic)
  }

  lemma OthersStay(db: Story, d: DocId, v: VersionId, number: nat, p: Payload, e: DocId)
    requires IsRecord(db, d) && v !in db.versions && IsRecord(db, e) && e != d && RecordOk(db, e)
    ensures var t := Grow(db, d, v, number, Record(p)); RecordOk(t, e) && Head(t, e) == Head(db, e)
  {
    var t := Grow(db, d, v, number, Record(p));
    GrowOwns(db, d, v, number, Record(p));
    UntouchedOk(db, t, e);
  }

  // Every head after the write is the new record or an old one.
  lemma HeadsAfter(db: Story, d: DocId, v: VersionId, number: nat, p: Payload, e: DocId)
    requires IsRecord(db, d) && v !in db.versions && OthersGood(db, d) && e != d
    ensures var t := Grow(db, d, v, number, Record(p));
      && (IsRecord(t, e) <==> IsRecord(db, e))
      && (IsRecord(db, e) ==> RecordOk(t, e) && HeadReads(db, e) && HeadReads(t, e) && Head(t, e) == Head(db, e))
  {
    GrowOwns(db, d, v, number, Record(p));
    if IsRecord(db, e) {
      OthersStay(db, d, v, number, p, e);
    }
  }

  lemma PairAfter(db: Story, d: DocId, v: VersionId, number: nat, p: Payload, e: DocId, f: DocId)
    requires IsRecord(db, d) && v !in db.versions && OthersGood(db, d) && Clear(db, d, p) && e != f
    requires var t := Grow(db, d, v, number, Record(p));
      HeadReads(t, d) && Head(t, d) == p && HeadReads(t, e) && HeadReads(t, f)
    ensures var t := Grow(db, d, v, number, Record(p));
      Apart(Head(t, e), Head(t, f)) && Head(t, e).topic != Head(t, f).topic
  {
    if e != d { HeadsAfter(db, d, v, number, p, e); }
    if f != d { HeadsAfter(db, d, v, number, p, f); }
    if e == d {
      assert Apart(p, Head(db, f));
    } else if f == d {
      assert Apart(p, Head(db, e));
    } else {
      assert Apart(Head(db, e), Head(db, f));
    }
  }

  lemma GrownGood(db: Story, d: DocId, v: VersionId, number: nat, p: Payload)
    requires IsRecord(db, d) && v !in db.versions && OthersGood(db, d) && Clear(db, d, p)
    requires var t := Grow(db, d, v, number, Record(p)); RecordOk(t, d) && Head(t, d) == p
    ensures Good(Grow(db, d, v, number, Record(p)))
  {
    var t := Grow(db, d, v, number, Record(p));
    forall e | IsRecord(t, e)
      ensures RecordOk(t, e)
    {
      if e != d { HeadsAfter(db, d, v, number, p, e); }
    }
    forall e, f | HeadReads(t, e) && HeadReads(t, f) && e != f
      ensures Apart(Head(t, e), Head(t, f)) && Head(t, e).topic != Head(t, f).topic
    {
      PairAfter(db, d, v, number, p, e, f);
    }
  }

  // ---------------------------------------------------------------- one write

  // A fitting payload that clashes with nobody is committed, and all stays good.
  lemma WriteGood(db: Story, d: DocId, p: Payload, v: VersionId, number: nat)
    requires IsRecord(db, d) && FreshVersion(db, v) && IsNext(db, d, number) && Fits(db, d, number, p)
    requires db.docs[d].parent == p.topic.holder && db.docs[d].sequence == Some(p.topic.start)
    requires VersionsOk(db, d, p.topic) && NumbersApart(db, d)
    requires OthersGood(db, d) && Clear(db, d, p)
    ensures var t := Grow(db, d, v, number, Record(p));
      Write(db, d, p, v, number) == Some(t) && Good(t) && RecordOk(t, d) && Head(t, d) == p
  {
    GrownRecord(db, d, v, number, p);
    GrownGood(db, d, v, number, p);
    OkIsFine(Grow(db, d, v, number, Record(p)), d);
  }

  // What a record in a good state brings to its next write.
  lemma RecordFacts(db: Story, d: DocId, number: nat)
    requires Good(db) && IsRecord(db, d) && IsNext(db, d, number)
    ensures RecordOk(db, d) && OthersGood(db, d)
    ensures var p := Head(db, d);
      && PayloadValid(p) && ProposalFound(db, d, p) && ConfirmationFound(db, d, p)
      && p.number < number && (p.confirmed.Some? ==> p.confirmed.value.number < number)
      && Clear(db, d, p)
  {
    assert RecordOk(db, d);
    assert VersionOk(db, d, Head(db, d).topic, db.docs[d].head.value);
  }

  lemma SameClear(db: Story, d: DocId, p: Payload, q: Payload)
    requires Clear(db, d, p) && q.topic == p.topic && (q.confirmed == p.confirmed || q.confirmed.None?)
    ensures Clear(db, d, q)
  {
    forall e | HeadReads(db, e) && e != d
      ensures Apart(q, Head(db, e)) && Head(db, e).topic != q.topic
    {
      assert Apart(p, Head(db, e));
    }
  }

  lemma ProposeAgain(db: Story, d: DocId, title: string, p: Proposal, v: VersionId, number: nat)
    requires Good(db) && IsRecord(db, d) && FreshVersion(db, v) && IsNext(db, d, number)
    requires ProposalShaped(p) && StatementValid(Head(db, d).topic, p)
    ensures var h := Head(db, d); var q := Payload(Propose, h.topic, number, p, h.confirmed, h.status);
      var t := Grow(db, d, v, number, Record(q)); Write(db, d, q, v, number) == Some(t) && Good(t) && Head(t, d) == q
  {
    RecordFacts(db, d, number);
    var h := Head(db, d);
    var q := Payload(Propose, h.topic, number, p, h.confirmed, h.status);
    SameClear(db, d, h, q);
    assert Fits(db, d, number, q);
    WriteGood(db, d, q, v, number);
  }

  // A new, still headless record beside the old ones.
  function WithDoc(db: Story, d: DocId, doc: Doc): Story {
    db.(docs := db.docs[d := doc])
  }

  lemma NewDocOthers(db: Story, d: DocId, doc: Doc)
    requires Good(db) && d !in db.docs && doc.kind.Cognition? && doc.head.None?
    ensures OthersGood(WithDoc(db, d, doc), d)
    ensures forall e | HeadReads(WithDoc(db, d, doc), e) ::
      HeadReads(db, e) && Head(WithDoc(db, d, doc), e) == Head(db, e)
  {
    var t := WithDoc(db, d, doc);
    forall e | IsRecord(t, e) && e != d
      ensures RecordOk(t, e) && HeadReads(db, e) && Head(t, e) == Head(db, e)
    {
      assert RecordOk(db, e);
      UntouchedOk(db, t, e);
    }
  }

  lemma ProposeFirst(db: Story, d: DocId, slug: string, title: string, topic: Topic, p: Proposal, v: VersionId,
                     number: nat)
    requires Good(db) && d !in db.docs && (forall w | w in db.versions :: db.versions[w].owner != d)
    requires FreshVersion(db, v) && IsNext(db, d, number) && !TopicTaken(db, topic)
    requires ProposalAllowed(db, title, topic, p)
    ensures var doc := Doc(Cognition, slug, title, Draft, topic.holder, Some(topic.start), None);
      var q := Payload(Propose, topic, number, p, None, Unconfirmed);
      var t := Grow(WithDoc(db, d, doc), d, v, number, Record(q));
      Write(WithDoc(db, d, doc), d, q, v, number) == Some(t) && Good(t) && Head(t, d) == q
  {
    var doc := Doc(Cognition, slug, title, Draft, topic.holder, Some(topic.start), None);
    var q := Payload(Propose, topic, number, p, None, Unconfirmed);
    var db1 := WithDoc(db, d, doc);
    NewDocOthers(db, d, doc);
    assert forall w :: !Owns(db1, d, w);
    assert Clear(db1, d, q);
    assert Fits(db1, d, number, q);
    WriteGood(db1, d, q, v, number);
  }

  lemma ConfirmClear(db: Story, d: DocId, w: VersionId, q: Payload)
    requires Good(db) && IsRecord(db, d) && Clear(db, d, Head(db, d)) && q.topic == Head(db, d).topic
    requires q.confirmed.Some? && ClearOf(db, d, q.topic, q.confirmed.value.proposal.until)
    ensures Clear(db, d, q)
  {
    forall e | HeadReads(db, e) && e != d
      ensures Apart(q, Head(db, e)) && Head(db, e).topic != q.topic
    {
      assert RecordOk(db, e);
      if db.docs[e].parent == q.topic.holder {
        assert !Clashes(db, d, q.topic, q.confirmed.value.proposal.until, e);
      }
    }
  }

  lemma ConfirmGood(db: Story, d: DocId, number: nat, expected: nat, w: VersionId, v: VersionId, next: nat)
    requires Good(db) && Owns(db, d, w) && MayConfirm(db, d, number, expected, w) && FreshVersion(db, v)
    requires IsNext(db, d, next)
    ensures var c := Confirmation(Of(db, w).proposal, w, db.versions[w].number);
      var q := Head(db, d).(operation := Confirm, confirmed := Some(c), status := Confirmed);
      var t := Grow(db, d, v, next, Record(q)); Write(db, d, q, v, next) == Some(t) && Good(t) && Head(t, d) == q
  {
    RecordFacts(db, d, next);
    var c := Confirmation(Of(db, w).proposal, w, db.versions[w].number);
    var q := Head(db, d).(operation := Confirm, confirmed := Some(c), status := Confirmed);
    assert VersionOk(db, d, Head(db, d).topic, w);
    ConfirmClear(db, d, w, q);
    ConfirmFits(db, d, w, q, next);
    WriteGood(db, d, q, v, next);
  }

  lemma ConfirmFits(db: Story, d: DocId, w: VersionId, q: Payload, next: nat)
    requires HeadReads(db, d) && Owns(db, d, w) && IsNext(db, d, next) && VersionOk(db, d, Head(db, d).topic, w)
    requires Of(db, w).operation.Propose? && Head(db, d).number < next && ProposalFound(db, d, Head(db, d))
    requires q == Head(db, d).(operation := Confirm, status := Confirmed,
      confirmed := Some(Confirmation(Of(db, w).proposal, w, db.versions[w].number)))
    ensures Fits(db, d, next, q)
  {
    assert PayloadValid(Head(db, d)) && PayloadValid(Of(db, w));
    assert ProposalFound(db, d, q);
  }

  lemma WithdrawGood(db: Story, d: DocId, v: VersionId, next: nat)
    requires Good(db) && IsRecord(db, d) && FreshVersion(db, v) && IsNext(db, d, next)
    ensures var q := Head(db, d).(operation := Withdraw, confirmed := None, status := Withdrawn);
      var t := Grow(db, d, v, next, Record(q)); Write(db, d, q, v, next) == Some(t) && Good(t) && Head(t, d) == q
  {
    RecordFacts(db, d, next);
    var q := Head(db, d).(operation := Withdraw, confirmed := None, status := Withdrawn);
    SameClear(db, d, Head(db, d), q);
    assert ProposalFound(db, d, q);
    assert Fits(db, d, next, q);
    WriteGood(db, d, q, v, next);
  }

  lemma ElsewhereGood(db: Story, t: Story)
    requires Good(db) && Elsewhere(db, t)
    ensures Good(t) && forall d | IsRecord(db, d) :: HeadReads(t, d) && HeadReads(db, d) && Head(t, d) == Head(db, d)
  {
    forall d | IsRecord(t, d)
      ensures RecordOk(t, d) && HeadReads(db, d) && Head(t, d) == Head(db, d)
    {
      assert IsRecord(db, d) && RecordOk(db, d);
      UntouchedOk(db, t, d);
    }
  }

  // ---------------------------------------------------------------- every run

  lemma ProposeStep(db: Story, a: Step)
    requires Good(db) && a.DoPropose? && Allowed(db, a) && Commits(db, a).Some?
    ensures Good(Commits(db, a).value)
  {
    if a.found.Some? {
      ProposeAgain(db, a.found.value, a.title, a.proposal, a.v, a.next);
    } else {
      ProposeFirst(db, a.newDoc, a.slug, Text.Strip(a.title), Clean(a.topic), a.proposal, a.v, a.next);
    }
  }

  lemma StepGood(db: Story, a: Step)
    requires Good(db) && Allowed(db, a)
    ensures Good(Next(db, a))
  {
    if Commits(db, a).Some? {
      match a
      case DoPropose(_, _, _, _, _, _, _, _, _) => ProposeStep(db, a);
      case DoConfirm(d, number, expected, at, v, next) => ConfirmGood(db, d, number, expected, at.value, v, next);
      case DoWithdraw(d, _, v, next) => WithdrawGood(db, d, v, next);
      case DoElsewhere(after) => ElsewhereGood(db, after);
    }
  }

  lemma {:induction false} RunGood(db: Story, steps: seq<Step>, t: Story)
    requires Good(db) && Runs(db, steps, t)
    ensures Good(t)
    decreases |steps|
  {
    if steps != [] {
      StepGood(db, steps[0]);
      RunGood(Next(db, steps[0]), steps[1..], t);
    }
  }

  // ---------------------------------------------------------------- main results

  // A story without records of cognition yet.
  predicate Unwritten(db: Story) {
    forall d | d in db.docs :: !db.docs[d].kind.Cognition?
  }

  // The consistency checks on every read never fire.
  lemma ChecksNeverFire(db: Story, steps: seq<Step>, t: Story)
    requires Unwritten(db) && Runs(db, steps, t)
    ensures forall d | IsRecord(t, d) :: SnapshotFine(t, d)
  {
    RunGood(db, steps, t);
    forall d | IsRecord(t, d)
      ensures SnapshotFine(t, d)
    {
      OkIsFine(t, d);
    }
  }

  // At no position do two confirmed records of one observer and key apply together.
  predicate AppliesAt(p: Payload, position: int) {
    p.confirmed.Some? && p.topic.start <= position
    && (p.confirmed.value.proposal.until.None? || position < p.confirmed.value.proposal.until.value)
  }

  predicate SameQuestion(p: Topic, q: Topic) {
    p.audience == q.audience && p.holder == q.holder && p.key == q.key
  }

  lemma NeverContradicts(db: Story, steps: seq<Step>, t: Story, d: DocId, e: DocId, position: int)
    requires Unwritten(db) && Runs(db, steps, t)
    requires IsRecord(t, d) && IsRecord(t, e) && d != e
    ensures HeadReads(t, d) && HeadReads(t, e)
    ensures SameQuestion(Head(t, d).topic, Head(t, e).topic) ==>
      !(AppliesAt(Head(t, d), position) && AppliesAt(Head(t, e), position))
  {
    RunGood(db, steps, t);
    assert RecordOk(t, d) && RecordOk(t, e);
    assert Apart(Head(t, d), Head(t, e));
  }

  // What is confirmed is the text of an earlier proposal version of the same record.
  lemma ConfirmedWasProposed(db: Story, steps: seq<Step>, t: Story, d: DocId)
    requires Unwritten(db) && Runs(db, steps, t) && IsRecord(t, d)
    ensures HeadReads(t, d)
    ensures Head(t, d).confirmed.Some? ==>
      var c := Head(t, d).confirmed.value;
      && Owns(t, d, c.version) && Reads(t, c.version) && t.versions[c.version].number == c.number
      && c.number < t.versions[t.docs[d].head.value].number
      && Of(t, c.version).operation.Propose? && Of(t, c.version).topic == Head(t, d).topic
      && Of(t, c.version).proposal == c.proposal
  {
    RunGood(db, steps, t);
    assert RecordOk(t, d);
    assert VersionOk(t, d, Head(t, d).topic, t.docs[d].head.value);
  }

  // A new proposal changes neither the confirmation nor its status.
  lemma ProposalKeepsConfirmation(db: Story, a: Step)
    requires Good(db) && a.DoPropose? && a.found.Some? && Allowed(db, a) && Commits(db, a).Some?
    ensures var d, t := a.found.value, Commits(db, a).value;
      && HeadReads(db, d) && HeadReads(t, d)
      && Head(t, d).confirmed == Head(db, d).confirmed && Head(t, d).status == Head(db, d).status
      && Head(t, d).proposal == a.proposal && Head(t, d).number == a.next
  {
    ProposeAgain(db, a.found.value, a.title, a.proposal, a.v, a.next);
  }

  // In a reachable state a withdrawal is refused for no other reason than these.
  lemma WithdrawsIff(db: Story, d: DocId, expected: nat, v: VersionId, next: nat)
    requires Good(db) && Allowed(db, DoWithdraw(d, expected, v, next))
    ensures Commits(db, DoWithdraw(d, expected, v, next)).Some? <==>
      IsRecord(db, d) && db.docs[d].head == Some(expected) && HeadReads(db, d) && Head(db, d).confirmed.Some?
  {
    if IsRecord(db, d) {
      OkIsFine(db, d);
      WithdrawGood(db, d, v, next);
    }
  }

  // A writer of record `d` that still believes in head `e`.
  predicate Aims(a: Step, d: DocId, e: nat) {
    match a
    case DoPropose(_, _, _, _, expected, found, _, _, _) => found == Some(d) && expected == e
    case DoConfirm(x, _, expected, _, _, _) => x == d && expected == e
    case DoWithdraw(x, expected, _, _) => x == d && expected == e
    case DoElsewhere(_) => false
  }

  ghost function Winners(db: Story, steps: seq<Step>, d: DocId, e: nat): nat
    decreases |steps|
  {
    if steps == [] then 0
    else
      var won := if Aims(steps[0], d, e) && Commits(db, steps[0]).Some? then 1 else 0;
      won + Winners(Next(db, steps[0]), steps[1..], d, e)
  }

  // What a write does to the heads: record `d` gets `v`, all others keep theirs.
  predicate HeadSet(db: Story, t: Story, d: DocId, v: VersionId) {
    && d in t.docs && t.docs[d].head == Some(v)
    && (forall e | e in db.docs ::
       e in t.docs && t.docs[e].kind == db.docs[e].kind && (e != d ==> t.docs[e] == db.docs[e]))
    && (forall w | w in db.versions :: w in t.versions)
  }

  lemma WriteSets(db: Story, d: DocId, p: Payload, v: VersionId, number: nat)
    requires d in db.docs && v !in db.versions && Write(db, d, p, v, number).Some?
    ensures HeadSet(db, Write(db, d, p, v, number).value, d, v)
  {
    GrowOwns(db, d, v, number, Record(p));
  }

  lemma ProposeSets(db: Story, a: Step)
    requires a.DoPropose? && Allowed(db, a) && Commits(db, a).Some?
    ensures HeadSet(db, Commits(db, a).value, if a.found.Some? then a.found.value else a.newDoc, a.v)
    ensures a.found.Some? ==> IsRecord(db, a.found.value) && db.docs[a.found.value].head == Some(a.expected)
  {
    var topic := Clean(a.topic);
    if a.found.Some? {
      var h := Head(db, a.found.value);
      WriteSets(db, a.found.value, Payload(Propose, topic, a.next, a.proposal, h.confirmed, h.status), a.v, a.next);
    } else {
      var doc := Doc(Cognition, a.slug, Text.Strip(a.title), Draft, topic.holder, Some(topic.start), None);
      WriteSets(WithDoc(db, a.newDoc, doc), a.newDoc, Payload(Propose, topic, a.next, a.proposal, None, Unconfirmed),
        a.v, a.next);
    }
  }

  lemma ConfirmSets(db: Story, a: Step)
    requires a.DoConfirm? && Allowed(db, a) && Commits(db, a).Some?
    ensures HeadSet(db, Commits(db, a).value, a.d, a.v) && db.docs[a.d].head == Some(a.expected)
  {
    var w := a.at.value;
    var c := Confirmation(Of(db, w).proposal, w, db.versions[w].number);
    WriteSets(db, a.d, Head(db, a.d).(operation := Confirm, confirmed := Some(c), status := Confirmed), a.v, a.next);
  }

  lemma WithdrawSets(db: Story, a: Step)
    requires a.DoWithdraw? && Allowed(db, a) && Commits(db, a).Some?
    ensures HeadSet(db, Commits(db, a).value, a.d, a.v) && db.docs[a.d].head == Some(a.expected)
  {
    WriteSets(db, a.d, Head(db, a.d).(operation := Withdraw, confirmed := None, status := Withdrawn), a.v, a.next);
  }

  // A winner had the head right and moves it to a version that was never there before.
  lemma HeadKept(db: Story, t: Story, x: DocId, v: VersionId, d: DocId)
    requires HeadSet(db, t, x, v) && IsRecord(db, d) && v > 0 && v !in db.versions
    ensures IsRecord(t, d) && (forall w | w in db.versions :: w in t.versions)
    ensures t.docs[d].head == db.docs[d].head || NewHead(db, t, d)
  {
  }

  lemma HeadsKept(db: Story, a: Step, d: DocId)
    requires Allowed(db, a) && IsRecord(db, d)
    ensures var t := Next(db, a);
      && IsRecord(t, d) && (forall v | v in db.versions :: v in t.versions)
      && (t.docs[d].head == db.docs[d].head || NewHead(db, t, d))
  {
    if Commits(db, a).Some? {
      var t := Commits(db, a).value;
      match a
      case DoPropose(_, _, _, _, _, _, _, _, _) =>
        ProposeSets(db, a);
        HeadKept(db, t, if a.found.Some? then a.found.value else a.newDoc, a.v, d);
      case DoConfirm(_, _, _, _, _, _) =>
        ConfirmSets(db, a);
        HeadKept(db, t, a.d, a.v, d);
      case DoWithdraw(_, _, _, _) =>
        WithdrawSets(db, a);
        HeadKept(db, t, a.d, a.v, d);
      case DoElsewhere(after) => assert after.docs[d] == db.docs[d];
    }
  }

  predicate NewHead(db: Story, t: Story, d: DocId) {
    d in t.docs && t.docs[d].head.Some? && t.docs[d].head.value > 0 && t.docs[d].head.value !in db.versions
  }

  lemma HeadsMove(db: Story, a: Step, d: DocId, e: nat)
    requires Allowed(db, a) && IsRecord(db, d)
    ensures var t := Next(db, a);
      && IsRecord(t, d) && (forall v | v in db.versions :: v in t.versions)
      && (t.docs[d].head == db.docs[d].head || NewHead(db, t, d))
      && (Aims(a, d, e) && Commits(db, a).Some? ==> db.docs[d].head == Some(e) && NewHead(db, t, d))
  {
    HeadsKept(db, a, d);
    if Commits(db, a).Some? && Aims(a, d, e) {
      match a
      case DoPropose(_, _, _, _, _, _, _, _, _) => ProposeSets(db, a);
      case DoConfirm(_, _, _, _, _, _) => ConfirmSets(db, a);
      case DoWithdraw(_, _, _, _) => WithdrawSets(db, a);
    }
  }

  // An abandoned head never wins again.
  lemma {:induction false} AbandonedHead(db: Story, steps: seq<Step>, t: Story, d: DocId, e: nat)
    requires Runs(db, steps, t) && IsRecord(db, d) && db.docs[d].head != Some(e) && (e == 0 || e in db.versions)
    ensures Winners(db, steps, d, e) == 0
    decreases |steps|
  {
    if steps != [] {
      HeadsMove(db, steps[0], d, e);
      AbandonedHead(Next(db, steps[0]), steps[1..], t, d, e);
    }
  }

  // Of several writers that hold the same expected head at most one succeeds.
  lemma {:induction false} OneWriterWins(db: Story, steps: seq<Step>, t: Story, d: DocId, e: nat)
    requires Runs(db, steps, t) && IsRecord(db, d) && (e == 0 || e in db.versions)
    ensures Winners(db, steps, d, e) <= 1
    decreases |steps|
  {
    if steps != [] {
      HeadsMove(db, steps[0], d, e);
      if Aims(steps[0], d, e) && Commits(db, steps[0]).Some? {
        AbandonedHead(Next(db, steps[0]), steps[1..], t, d, e);
      } else {
        OneWriterWins(Next(db, steps[0]), steps[1..], t, d, e);
      }
    }
  }

  // A record made for a slug is not made again: zero is never a head.
  lemma NewRecordOnce(db: Story, steps: seq<Step>, t: Story, d: DocId)
    requires Good(db) && Runs(db, steps, t) && IsRecord(db, d)
    ensures Winners(db, steps, d, 0) == 0
  {
    assert RecordOk(db, d);
    assert VersionOk(db, d, Head(db, d).topic, db.docs[d].head.value);
    AbandonedHead(db, steps, t, d, 0);
  }
}
