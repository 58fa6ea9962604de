// The transactions of lg_cli/narrative_knowledge.py on the database they change. Each
// reads, checks, writes one version and reads back, or leaves the database as it was.
module KnowledgeStore {
  import opened Prelude
  import opened StoryStore
  import opened Knowledge
  import Text

  // The checks of `_snapshot`, with versions looked up by number.
  method Snapshot(db: Story, d: DocId) returns (fine: bool)
    ensures fine ==> SnapshotFine(db, d)
    ensures !fine ==> !SnapshotFine(db, d) || !NumbersApart(db, d)
  {
    if !HeadReads(db, d) {
      return false;
    }
    var p := Head(db, d);
    if db.docs[d].parent != p.topic.holder || db.docs[d].sequence != Some(p.topic.start) {
      return false;
    }
    var at := FindVersion(db, d, p.number);
    if at.None? || !Reads(db, at.value) {
      return false;
    }
    var source := Of(db, at.value);
    if !source.operation.Propose? || source.topic != p.topic || source.number != p.number
      || source.proposal != p.proposal {
      return false;
    }
    if p.confirmed.None? {
      return true;
    }
    var c := p.confirmed.value;
    at := FindVersion(db, d, c.number);
    if at.None? || !Reads(db, at.value) || at.value != c.version {
      return false;
    }
    var original := Of(db, at.value);
    return original.operation.Propose? && original.topic == p.topic && original.proposal == c.proposal;
  }

  method SnapshotOf(db: Story, d: DocId) returns (fine: bool)
    requires NumbersApart(db, d)
    ensures fine <==> SnapshotFine(db, d)
  {
    fine := Snapshot(db, d);
  }

  // `_overlap`: the other confirmed records of this observer and key.
  method Overlap(db: Story, d: DocId, topic: Topic, until: Option<int>) returns (clear: bool)
    ensures clear <==> ClearOf(db, d, topic, until)
  {
    var left := db.docs.Keys;
    while left != {}
      invariant left <= db.docs.Keys
      invariant forall e | e in db.docs && e !in left && IsRecord(db, e) && e != d
        && db.docs[e].parent == topic.holder ::
        && HeadReads(db, e)
        && db.docs[e].parent == Head(db, e).topic.holder && db.docs[e].sequence == Some(Head(db, e).topic.start)
        && !Clashes(db, d, topic, until, e)
    {
      var e :| e in left;
      if db.docs[e].kind.Cognition? && e != d && db.docs[e].parent == topic.holder {
        if !HeadReads(db, e) {
          return false;
        }
        var other := Head(db, e);
        if db.docs[e].parent != other.topic.holder || db.docs[e].sequence != Some(other.topic.start) {
          return false;
        }
        if other.confirmed.Some? && other.topic.audience == topic.audience && other.topic.key == topic.key {
          var otherUntil := other.confirmed.value.proposal.until;
          if (until.None? || other.topic.start < until.value) && (otherUntil.None? || topic.start < otherUntil.value) {
            assert Clashes(db, d, topic, until, e);
            return false;
          }
        }
      }
      left := left - {e};
    }
    return true;
  }

  // Whether some record can be read and already has the topic, or cannot be read.
  method TopicFree(db: Story, topic: Topic) returns (free: bool)
    ensures free <==> AllRead(db) && !TopicTaken(db, topic)
  {
    var left := db.docs.Keys;
    while left != {}
      invariant left <= db.docs.Keys
      invariant forall e | e in db.docs && e !in left && IsRecord(db, e) ::
        HeadReads(db, e) && Head(db, e).topic != topic
    {
      var e :| e in left;
      if db.docs[e].kind.Cognition? && (!HeadReads(db, e) || Head(db, e).topic == topic) {
        return false;
      }
      left := left - {e};
    }
    return true;
  }

  method Allows(db: Story, title: string, topic: Topic, p: Proposal) returns (allowed: bool)
    ensures allowed <==> ProposalAllowed(db, title, topic, p)
  {
    if Text.Blank(title) || !TopicShaped(topic) || Text.Blank(topic.key) || !ProposalShaped(p)
      || !StatementValid(topic, p)
      || !HolderFine(db, topic) {
      return false;
    }
    for i := 0 to |p.sources|
      invariant forall j | 0 <= j < i :: Owns(db, p.sources[j].document, p.sources[j].version)
    {
      if p.sources[i].version !in db.versions || db.versions[p.sources[i].version].owner != p.sources[i].document {
        return false;
      }
    }
    return true;
  }

  // The checks of a confirmation of the proposal version `w`.
  method Confirmable(db: Story, d: DocId, number: nat, expected: nat, w: VersionId) returns (fine: bool)
    requires w in db.versions && NumbersApart(db, d)
    ensures fine <==> MayConfirm(db, d, number, expected, w)
  {
    if !IsRecord(db, d) || db.docs[d].head != Some(expected) || number < 1 || !Reads(db, w) || !HeadReads(db, d) {
      return false;
    }
    var value, current := Of(db, w), Head(db, d);
    if !value.operation.Propose? || value.topic != current.topic || value.number != db.versions[w].number
      || !HolderFine(db, current.topic) || !Usable(SourcesStatus(db, value.proposal.sources)) {
      return false;
    }
    if current.confirmed == Some(Confirmation(value.proposal, w, db.versions[w].number)) {
      return false;
    }
    var clear := Overlap(db, d, current.topic, value.proposal.until);
    fine := SnapshotOf(db, d);
    fine := clear && fine;
  }

  class KnowledgeBook {
    var db: Story

    constructor (initial: Story)
      ensures db == initial
    {
      db := initial;
    }

    // The record grows by one version; what cannot be read back is rolled back.
    method Write(before: Story, d: DocId, payload: Payload, v: VersionId, number: nat) returns (ok: bool)
      requires d in before.docs && v !in before.versions && IsNext(before, d, number) && NumbersApart(before, d)
      modifies this
      ensures ok == Knowledge.Write(before, d, payload, v, number).Some?
      ensures db == if ok then Grow(before, d, v, number, Record(payload)) else old(db)
    {
      var t := Grow(before, d, v, number, Record(payload));
      GrowKeepsNumbers(before, d, v, number, Record(payload));
      ok := SnapshotOf(t, d);
      if ok {
        db := t;
      }
    }

    method Propose(slug: string, title: string, given: Topic, p: Proposal, expected: nat, newDoc: DocId, v: VersionId)
      returns (ok: bool, ghost found: Option<DocId>, ghost next: nat)
      requires newDoc !in db.docs && v !in db.versions && forall w | w in db.versions :: db.versions[w].owner != newDoc
      requires forall d :: NumbersApart(db, d)
      modifies this
      ensures IsNamed(old(db), slug, found) && IsNext(old(db), if found.Some? then found.value else newDoc, next)
      ensures var t := ProposeIn(old(db), slug, title, given, p, expected, found, newDoc, v, next);
        ok == t.Some? && db == if ok then t.value else old(db)
    {
      var topic := Clean(given);
      var at := FindSlug(db, slug);
      var number := NextNumber(db, if at.Some? then at.value else newDoc);
      found, next := at, number;
      var allowed := Allows(db, title, topic, p);
      if !TopicShaped(given) || !allowed {
        return false, found, next;
      }
      if at.Some? {
        var d := at.value;
        if !IsRecord(db, d) || db.docs[d].head != Some(expected) || !HeadReads(db, d)
          || Head(db, d).topic != topic || db.docs[d].title != Text.Strip(title) {
          return false, found, next;
        }
        var previous := Head(db, d);
        ok := Write(db, d, Payload(Knowledge.Propose, topic, number, p, previous.confirmed, previous.status), v,
          number);
      } else {
        var free := TopicFree(db, topic);
        if expected != 0 || !free {
          return false, found, next;
        }
        var doc := Doc(Cognition, slug, Text.Strip(title), Draft, topic.holder, Some(topic.start), None);
        var begun := db.(docs := db.docs[newDoc := doc]);
        ok := Write(begun, newDoc, Payload(Knowledge.Propose, topic, number, p, None, Unconfirmed), v, number);
      }
    }

    method Confirm(d: DocId, number: nat, expected: nat, v: VersionId)
      returns (ok: bool, ghost found: Option<VersionId>, ghost next: nat)
      requires v !in db.versions && forall e :: NumbersApart(db, e)
      modifies this
      ensures IsAt(old(db), d, number, found) && IsNext(old(db), d, next)
      ensures var t := ConfirmIn(old(db), d, number, expected, found, v, next);
        ok == t.Some? && db == if ok then t.value else old(db)
    {
      var at := FindVersion(db, d, number);
      var last := NextNumber(db, d);
      found, next := at, last;
      if at.None? {
        return false, found, next;
      }
      var w := at.value;
      var fine := Confirmable(db, d, number, expected, w);
      if !fine {
        return false, found, next;
      }
      var proposed := Confirmation(Of(db, w).proposal, w, db.versions[w].number);
      ok := Write(db, d, Head(db, d).(operation := Knowledge.Confirm, confirmed := Some(proposed), status := Confirmed),
        v, last);
    }

    method Withdraw(d: DocId, expected: nat, v: VersionId) returns (ok: bool, ghost next: nat)
      requires v !in db.versions && forall e :: NumbersApart(db, e)
      modifies this
      ensures IsNext(old(db), d, next)
      ensures var t := WithdrawIn(old(db), d, expected, v, next);
        ok == t.Some? && db == if ok then t.value else old(db)
    {
      var last := NextNumber(db, d);
      next := last;
      if !IsRecord(db, d) || db.docs[d].head != Some(expected) || !HeadReads(db, d) || Head(db, d).confirmed.None? {
        return false, next;
      }
      var fine := SnapshotOf(db, d);
      if !fine {
        return false, next;
      }
      ok := Write(db, d, Head(db, d).(operation := Knowledge.Withdraw, confirmed := None, status := Withdrawn), v,
        last);
    }
  }
}
