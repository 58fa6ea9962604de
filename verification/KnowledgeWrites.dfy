// What the transactions of lg_cli/narrative_knowledge.py accept and write, in terms of
// the call and of the saved versions alone.
module KnowledgeWrites {
  import opened Prelude
  import opened StoryStore
  import opened Knowledge
  import P = KnowledgeProofs
  import Text

  // The record has one more draft version, which is its head; nothing else changed.
  predicate Recorded(db: Story, t: Story, d: DocId, v: VersionId, number: nat, p: Payload) {
    && d in db.docs
    && t.versions == db.versions[v := Version(d, number, Draft, Record(p))]
    && t.docs == db.docs[d := db.docs[d].(head := Some(v), state := Draft)]
  }

  lemma WriteRecords(db: Story, d: DocId, p: Payload, v: VersionId, number: nat)
    requires d in db.docs && Write(db, d, p, v, number).Some?
    ensures Recorded(db, Write(db, d, p, v, number).value, d, v, number, p)
  {
  }

  // ---------------------------------------------------------------- confirming

  // The proposal version of the record that has the number the author named.
  predicate Names(db: Story, a: Step, w: VersionId)
    requires a.DoConfirm?
  {
    Owns(db, a.d, w) && db.versions[w].number == a.number && Reads(db, w) && Of(db, w).operation.Propose?
  }

  // A committed confirmation is the proposal the author named, and nothing else changes.
  lemma ConfirmsWhatWasNamed(db: Story, a: Step) returns (w: VersionId)
    requires a.DoConfirm? && Allowed(db, a) && Commits(db, a).Some?
    ensures Names(db, a, w) && HeadReads(db, a.d)
    ensures var confirmed := Some(Confirmation(Of(db, w).proposal, w, a.number));
      var p := Head(db, a.d).(operation := Confirm, confirmed := confirmed, status := Confirmed);
      Recorded(db, Commits(db, a).value, a.d, a.v, a.next, p)
  {
    w := a.at.value;
    var confirmed := Some(Confirmation(Of(db, w).proposal, w, a.number));
    var p := Head(db, a.d).(operation := Confirm, confirmed := confirmed, status := Confirmed);
    WriteRecords(db, a.d, p, a.v, a.next);
  }

  // The declared version is the document's own active one, both accepted or final.
  predicate StandsAccepted(db: Story, s: Source) {
    && s.document in db.docs
    && db.docs[s.document].head == Some(s.version)
    && Owns(db, s.document, s.version)
    && (db.docs[s.document].state.Accepted? || db.docs[s.document].state.Final?)
    && (db.versions[s.version].state.Accepted? || db.versions[s.version].state.Final?)
  }

  lemma UsableIff(db: Story, sources: seq<Source>)
    ensures Usable(SourcesStatus(db, sources)) <==> forall s | s in sources :: StandsAccepted(db, s)
  {
    forall s | s in sources
      ensures StandsAccepted(db, s) <==> SourceStatus(db, s.document, s.version).Current?
    {
    }
  }

  // The observer is the reader, or a character that has not been set aside.
  predicate HolderThere(db: Story, topic: Topic) {
    match topic.audience
    case ReaderMind => topic.holder.None?
    case CharacterMind =>
      && topic.holder.Some?
      && topic.holder.value > 0
      && topic.holder.value in db.docs
      && db.docs[topic.holder.value].kind.Character?
      && !db.docs[topic.holder.value].state.Archived?
      && !db.docs[topic.holder.value].state.Rejected?
  }

  lemma HolderIff(db: Story, topic: Topic)
    ensures HolderFine(db, topic) <==> HolderThere(db, topic)
  {
  }

  predicate Within(start: int, until: Option<int>, position: int) {
    start <= position && (until.None? || position < until.value)
  }

  // Somewhere another record answers the same question at a position of this interval.
  predicate Disputed(db: Story, d: DocId, until: Option<int>, e: DocId, position: int)
    requires HeadReads(db, d)
  {
    && e != d
    && HeadReads(db, e)
    && P.SameQuestion(Head(db, e).topic, Head(db, d).topic)
    && P.AppliesAt(Head(db, e), position)
    && Within(Head(db, d).topic.start, until, position)
  }

  // Two intervals that are not empty overlap exactly when they share a position.
  lemma OverlapsIff(start: int, until: Option<int>, other: int, otherUntil: Option<int>)
    requires (until.None? || start < until.value) && (otherUntil.None? || other < otherUntil.value)
    ensures Overlaps(start, until, other, otherUntil) <==>
      exists position :: Within(start, until, position) && Within(other, otherUntil, position)
  {
    var later := if start < other then other else start;
    if Overlaps(start, until, other, otherUntil) {
      assert Within(start, until, later) && Within(other, otherUntil, later);
    }
  }

  lemma ClearIff(db: Story, d: DocId, w: VersionId)
    requires P.Good(db) && IsRecord(db, d) && HeadReads(db, d) && Reads(db, w) && Of(db, w).topic == Head(db, d).topic
    ensures ClearOf(db, d, Head(db, d).topic, Of(db, w).proposal.until) <==>
      forall e, position :: !Disputed(db, d, Of(db, w).proposal.until, e, position)
  {
    var topic, until := Head(db, d).topic, Of(db, w).proposal.until;
    assert StatementValid(topic, Of(db, w).proposal);
    forall e | IsRecord(db, e) && e != d && db.docs[e].parent == topic.holder
      ensures HeadReads(db, e) && db.docs[e].parent == Head(db, e).topic.holder
      ensures db.docs[e].sequence == Some(Head(db, e).topic.start)
      ensures Clashes(db, d, topic, until, e) <==> exists position :: Disputed(db, d, until, e, position)
    {
      ClashIff(db, d, w, e);
    }
    forall e, position | Disputed(db, d, until, e, position)
      ensures IsRecord(db, e) && db.docs[e].parent == topic.holder
    {
      assert P.RecordOk(db, e);
    }
  }

  lemma ClashIff(db: Story, d: DocId, w: VersionId, e: DocId)
    requires P.Good(db) && HeadReads(db, d) && Reads(db, w) && Of(db, w).topic == Head(db, d).topic
    requires IsRecord(db, e) && e != d && db.docs[e].parent == Head(db, d).topic.holder
    ensures HeadReads(db, e) && db.docs[e].parent == Head(db, e).topic.holder
    ensures db.docs[e].sequence == Some(Head(db, e).topic.start)
    ensures Clashes(db, d, Head(db, d).topic, Of(db, w).proposal.until, e) <==>
      exists position :: Disputed(db, d, Of(db, w).proposal.until, e, position)
  {
    assert P.RecordOk(db, e);
    var p, q, until := Head(db, d), Head(db, e), Of(db, w).proposal.until;
    assert PayloadValid(q) && PayloadValid(Of(db, w));
    if q.confirmed.Some? {
      var otherUntil := q.confirmed.value.proposal.until;
      OverlapsIff(p.topic.start, until, q.topic.start, otherUntil);
      if Clashes(db, d, p.topic, until, e) {
        var position :| Within(p.topic.start, until, position) && Within(q.topic.start, otherUntil, position);
        assert Disputed(db, d, until, e, position);
      }
      if position :| Disputed(db, d, until, e, position) {
        assert Within(p.topic.start, until, position) && Within(q.topic.start, otherUntil, position);
      }
    }
  }

  ghost predicate Confirmable(db: Story, a: Step, w: VersionId)
    requires a.DoConfirm? && HeadReads(db, a.d)
  {
    && Names(db, a, w)
    && HolderThere(db, Head(db, a.d).topic)
    && (forall s | s in Of(db, w).proposal.sources :: StandsAccepted(db, s))
    && Head(db, a.d).confirmed != Some(Confirmation(Of(db, w).proposal, w, a.number))
    && forall e, position :: !Disputed(db, a.d, Of(db, w).proposal.until, e, position)
  }

  // In a reachable story a confirmation is accepted for the expected head exactly when the
  // proposal exists, its observer and sources stand, it is not the confirmation already,
  // and no confirmed record answers the same question at a position it would hold at.
  lemma ConfirmsIff(start: Story, steps: seq<Step>, db: Story, a: Step)
    requires P.Unwritten(start) && Runs(start, steps, db)
    requires a.DoConfirm? && Allowed(db, a) && IsRecord(db, a.d)
    ensures HeadReads(db, a.d)
    ensures Commits(db, a).Some? <==>
      db.docs[a.d].head == Some(a.expected) && a.number >= 1 && exists w :: Confirmable(db, a, w)
  {
    P.RunGood(start, steps, db);
    P.OkIsFine(db, a.d);
    if Commits(db, a).Some? {
      var w := ConfirmsWhatWasNamed(db, a);
      CommittedConfirmable(db, a, w);
    }
    if w :| db.docs[a.d].head == Some(a.expected) && a.number >= 1 && Confirmable(db, a, w) {
      ConfirmableCommits(db, a, w);
    }
  }

  lemma CommittedConfirmable(db: Story, a: Step, w: VersionId)
    requires P.Good(db) && a.DoConfirm? && Allowed(db, a) && Commits(db, a).Some? && Names(db, a, w)
    ensures HeadReads(db, a.d) && Confirmable(db, a, w)
  {
    assert P.RecordOk(db, a.d);
    assert a.at == Some(w);
    HolderIff(db, Head(db, a.d).topic);
    UsableIff(db, Of(db, w).proposal.sources);
    ClearIff(db, a.d, w);
  }

  lemma ConfirmableCommits(db: Story, a: Step, w: VersionId)
    requires P.Good(db) && a.DoConfirm? && Allowed(db, a) && IsRecord(db, a.d) && SnapshotFine(db, a.d)
    requires db.docs[a.d].head == Some(a.expected) && a.number >= 1 && Confirmable(db, a, w)
    ensures Commits(db, a).Some?
  {
    assert P.RecordOk(db, a.d);
    assert a.at == Some(w);
    assert P.VersionOk(db, a.d, Head(db, a.d).topic, w);
    HolderIff(db, Head(db, a.d).topic);
    UsableIff(db, Of(db, w).proposal.sources);
    ClearIff(db, a.d, w);
    assert MayConfirm(db, a.d, a.number, a.expected, w);
    P.ConfirmGood(db, a.d, a.number, a.expected, w, a.v, a.next);
  }

  // ---------------------------------------------------------------- withdrawing

  // A committed withdrawal leaves no confirmation, and nothing else changes.
  lemma WithdrawsOnly(db: Story, a: Step)
    requires a.DoWithdraw? && Allowed(db, a) && Commits(db, a).Some?
    ensures HeadReads(db, a.d)
    ensures var p := Head(db, a.d).(operation := Withdraw, confirmed := None, status := Withdrawn);
      Recorded(db, Commits(db, a).value, a.d, a.v, a.next, p)
  {
    WriteRecords(db, a.d, Head(db, a.d).(operation := Withdraw, confirmed := None, status := Withdrawn), a.v, a.next);
  }

  // ---------------------------------------------------------------- proposing

  predicate Said(text: string) {
    exists i :: 0 <= i < |text| && !Text.IsSpace(text[i])
  }

  lemma SaidIff(text: string)
    ensures Said(text) <==> !Text.Blank(text)
  {
    Text.BlankIff(text);
  }

  predicate TopicFine(db: Story, topic: Topic) {
    && |topic.key| <= 128
    && Said(topic.key)
    && -1000000000 <= topic.start <= 1000000000
    && HolderThere(db, topic)
  }

  predicate StatementFine(db: Story, topic: Topic, p: Proposal) {
    && |p.content| <= 12000
    && |p.rationale| <= 4000
    && Said(p.content)
    && Said(p.rationale)
    && (p.until.Some? ==> topic.start < p.until.value)
    && |p.sources| <= 32
    && (forall i, j | 0 <= i < j < |p.sources| :: p.sources[i] != p.sources[j])
    && forall i | 0 <= i < |p.sources| ::
         && p.sources[i].document > 0
         && p.sources[i].version > 0
         && Owns(db, p.sources[i].document, p.sources[i].version)
  }

  lemma TopicIff(db: Story, topic: Topic)
    ensures TopicFine(db, topic) <==>
      TopicShaped(topic) && TopicShaped(Clean(topic)) && !Text.Blank(Clean(topic).key) && HolderFine(db, Clean(topic))
  {
    SaidIff(topic.key);
    StripTwice(topic.key);
    HolderIff(db, topic);
  }

  lemma StripTwice(text: string)
    ensures Text.Blank(Text.Strip(text)) <==> Text.Blank(text)
    ensures |Text.Strip(text)| <= |text|
  {
    var i, j := Text.StripCuts(text);
    Text.BlankIff(text);
    Text.BlankIff(Text.Strip(text));
    assert text == text[..i] + text[i..j] + text[j..];
  }

  lemma StatementIff(db: Story, topic: Topic, p: Proposal)
    ensures StatementFine(db, topic, p) <==>
      ProposalShaped(p) && StatementValid(topic, p) && SourcesOwned(db, p.sources)
  {
    SaidIff(p.content);
    SaidIff(p.rationale);
    assert forall s | s in p.sources :: exists i :: 0 <= i < |p.sources| && p.sources[i] == s;
    assert forall i | 0 <= i < |p.sources| :: p.sources[i] in p.sources;
  }

  // The record a proposal is saved in: the one with the slug, or a new one.
  predicate Begun(db: Story, begun: Story, a: Step, d: DocId)
    requires a.DoPropose?
  {
    match a.found
    case Some(e) => d == e && begun == db
    case None =>
      && d == a.newDoc
      && begun.versions == db.versions
      && begun.docs == db.docs[d := NewDoc(a)]
  }

  function NewDoc(a: Step): Doc
    requires a.DoPropose?
  {
    Doc(Cognition, a.slug, Text.Strip(a.title), Draft, a.topic.holder, Some(a.topic.start), None)
  }

  // A committed proposal is recorded as given, with what was confirmed before.
  lemma ProposesWhatWasGiven(db: Story, a: Step) returns (begun: Story, d: DocId, p: Payload)
    requires a.DoPropose? && Allowed(db, a) && Commits(db, a).Some?
    ensures Begun(db, begun, a, d)
    ensures Recorded(begun, Commits(db, a).value, d, a.v, a.next, p)
    ensures p.operation.Propose? && p.number == a.next && p.proposal == a.proposal
    ensures p.topic == a.topic.(key := Text.Strip(a.topic.key))
    ensures a.found.Some? ==>
      HeadReads(db, d) && p.confirmed == Head(db, d).confirmed && p.status == Head(db, d).status
    ensures a.found.None? ==> p.confirmed.None? && p.status.Unconfirmed?
  {
    if a.found.Some? {
      d, begun := a.found.value, db;
      p := Payload(Propose, Clean(a.topic), a.next, a.proposal, Head(db, d).confirmed, Head(db, d).status);
    } else {
      d := a.newDoc;
      begun := db.(docs := db.docs[d := NewDoc(a)]);
      p := Payload(Propose, Clean(a.topic), a.next, a.proposal, None, Unconfirmed);
    }
    WriteRecords(begun, d, p, a.v, a.next);
  }

  // The topic and the title of a record stay, and no two records share a topic.
  ghost predicate Placeable(db: Story, a: Step)
    requires a.DoPropose?
  {
    var topic := a.topic.(key := Text.Strip(a.topic.key));
    match a.found
    case Some(d) =>
      && HeadReads(db, d)
      && db.docs[d].head == Some(a.expected)
      && Head(db, d).topic == topic
      && db.docs[d].title == Text.Strip(a.title)
    case None => a.expected == 0 && forall d | HeadReads(db, d) :: Head(db, d).topic != topic
  }

  ghost predicate Fine(db: Story, a: Step)
    requires a.DoPropose?
  {
    Said(a.title) && TopicFine(db, a.topic) && StatementFine(db, a.topic, a.proposal)
  }

  lemma FineIff(db: Story, a: Step)
    requires a.DoPropose?
    ensures Fine(db, a) <==>
      TopicShaped(a.topic) && ProposalAllowed(db, a.title, Clean(a.topic), a.proposal)
  {
    SaidIff(a.title);
    TopicIff(db, a.topic);
    StatementIff(db, a.topic, a.proposal);
  }

  lemma PlacedCommits(db: Story, a: Step)
    requires P.Good(db) && a.DoPropose? && Allowed(db, a) && Placeable(db, a)
    requires TopicShaped(a.topic) && ProposalAllowed(db, a.title, Clean(a.topic), a.proposal)
    ensures Commits(db, a).Some?
  {
    if a.found.Some? {
      P.ProposeAgain(db, a.found.value, a.title, a.proposal, a.v, a.next);
    } else {
      AllReadGood(db);
      P.ProposeFirst(db, a.newDoc, a.slug, Text.Strip(a.title), Clean(a.topic), a.proposal, a.v, a.next);
    }
  }

  // In a reachable story a proposal is saved exactly when it is fine in itself and its
  // place is free, or is the expected head of its own record.
  lemma ProposesIff(start: Story, steps: seq<Step>, db: Story, a: Step)
    requires P.Unwritten(start) && Runs(start, steps, db) && a.DoPropose? && Allowed(db, a)
    ensures Commits(db, a).Some? <==> Fine(db, a) && Placeable(db, a)
  {
    P.RunGood(start, steps, db);
    FineIff(db, a);
    if Fine(db, a) && Placeable(db, a) {
      PlacedCommits(db, a);
    }
  }

  lemma AllReadGood(db: Story)
    requires P.Good(db)
    ensures AllRead(db)
  {
    forall d | IsRecord(db, d)
      ensures HeadReads(db, d)
    {
      assert P.RecordOk(db, d);
    }
  }
}
