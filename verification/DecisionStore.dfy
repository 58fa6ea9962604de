// The transactions of lg_cli/creative_decisions.py on the database they change.
module DecisionStore {
  import opened Prelude
  import opened StoryStore
  import opened Decisions
  import Text

  method SnapshotOf(db: Story, d: DocId) returns (fine: bool)
    ensures fine <==> SnapshotFine(db, d)
  {
    if !HeadReads(db, d) {
      return false;
    }
    var at := FindVersion(db, d, Head(db, d).number);
    return at.Some?;
  }

  method TopicFree(db: Story, topic: Topic) returns (free: bool)
    ensures free <==> AllRead(db) && !TopicTaken(db, topic)
  {
    var left := db.docs.Keys;
    while left != {}
      invariant left <= db.docs.Keys
      invariant forall e | e in db.docs && e !in left && IsRecord(db, e) ::
        HeadReads(db, e) && Head(db, e).topic != topic
    {
      var e :| e in left;
      if db.docs[e].kind.Decision? && (!HeadReads(db, e) || Head(db, e).topic == topic) {
        return false;
      }
      left := left - {e};
    }
    return true;
  }

  // `_sources_status` for the stored versions, one row at a time.
  method SourcesCurrent(db: Story, sources: seq<Source>) returns (current: bool)
    ensures current <==> AllCurrent(Details(db, sources, map[]))
  {
    current := true;
    for i := 0 to |sources|
      invariant current <==> forall j | 0 <= j < i :: Details(db, sources, map[])[j].current
    {
      var s := sources[i];
      if s.document !in db.docs || s.version !in db.versions || db.versions[s.version].owner != s.document
        || db.docs[s.document].head != Some(s.version)
        || db.docs[s.document].state.Gone() || db.versions[s.version].state.Gone() {
        current := false;
      }
      assert Details(db, sources, map[])[i] == DetailOf(db, s, map[]);
    }
  }

  class DecisionBook {
    var db: Story

    constructor (initial: Story)
      ensures db == initial
    {
      db := initial;
    }

    method Write(before: Story, d: DocId, payload: Payload, v: VersionId, number: nat) returns (ok: bool)
      requires d in before.docs && v !in before.versions
      modifies this
      ensures ok == Decisions.Write(before, d, payload, v, number).Some?
      ensures db == if ok then Grow(before, d, v, number, Record(payload)) else old(db)
    {
      var t := Grow(before, d, v, number, Record(payload));
      ok := SnapshotOf(t, d);
      if ok {
        db := t;
      }
    }

    method SaveOptions(slug: string, title: string, given: Topic, options: seq<Choice>, sources: seq<Source>,
                       request: string,
                       expected: nat, newDoc: DocId, v: VersionId)
      returns (ok: bool, ghost found: Option<DocId>, ghost next: nat)
      requires newDoc !in db.docs && v !in db.versions && forall w | w in db.versions :: db.versions[w].owner != newDoc
      modifies this
      ensures IsNamed(old(db), slug, found) && IsNext(old(db), if found.Some? then found.value else newDoc, next)
      ensures var t :=
        OptionsIn(old(db), slug, title, given, options, sources, request, expected, found, newDoc, v, next);
        ok == t.Some? && db == if ok then t.value else old(db)
    {
      var topic := Clean(given);
      var at := FindSlug(db, slug);
      var number := NextNumber(db, if at.Some? then at.value else newDoc);
      found, next := at, number;
      if Text.Blank(title) || !Normal(db, topic, options, sources, request) {
        return false, found, next;
      }
      if at.Some? {
        var d := at.value;
        if !IsRecord(db, d) || db.docs[d].head != Some(expected) || !HeadReads(db, d)
          || Head(db, d).topic != topic || db.docs[d].title != Text.Strip(title) {
          return false, found, next;
        }
        var previous := Head(db, d);
        ok := Write(db, d,
          Payload(Options, topic, number, options, sources, request, previous.selection, previous.status), v, number);
      } else {
        var free := TopicFree(db, topic);
        if expected != 0 || !free {
          return false, found, next;
        }
        var begun := db.(docs := db.docs[newDoc := Doc(Decision, slug, Text.Strip(title), Draft, None, None, None)]);
        ok := Write(begun, newDoc, Payload(Options, topic, number, options, sources, request, None, Unselected), v,
          number);
      }
    }

    method SelectOption(d: DocId, number: nat, id: string, expected: nat, v: VersionId)
      returns (ok: bool, ghost found: Option<VersionId>, ghost next: nat)
      requires v !in db.versions
      modifies this
      ensures IsAt(old(db), d, number, found) && IsNext(old(db), d, next)
      ensures var t := SelectIn(old(db), d, number, id, expected, found, v, next);
        ok == t.Some? && db == if ok then t.value else old(db)
    {
      var at := FindVersion(db, d, number);
      var last := NextNumber(db, d);
      found, next := at, last;
      if at.None? || !IsRecord(db, d) || db.docs[d].head != Some(expected) || number < 1
        || !Reads(db, at.value) || !HeadReads(db, d) {
        return false, found, next;
      }
      var w := at.value;
      var value, current := Of(db, w), Head(db, d);
      var option := Pick(value.options, id);
      var usable := SourcesCurrent(db, value.sources);
      if !value.operation.Options? || value.topic != current.topic || option.None? || !usable {
        return false, found, next;
      }
      var proposed := Selection(w, db.versions[w].number, option.value, value.sources, value.request);
      var fine := SnapshotOf(db, d);
      if current.selection == Some(proposed) || !fine {
        return false, found, next;
      }
      ok := Write(db, d, current.(operation := Select, selection := Some(proposed), status := Selected), v, last);
    }

    method WithdrawSelection(d: DocId, expected: nat, v: VersionId) returns (ok: bool, ghost next: nat)
      requires v !in db.versions
      modifies this
      ensures IsNext(old(db), d, next)
      ensures var t := WithdrawIn(old(db), d, expected, v, next);
        ok == t.Some? && db == if ok then t.value else old(db)
    {
      var last := NextNumber(db, d);
      next := last;
      if !IsRecord(db, d) || db.docs[d].head != Some(expected) || !HeadReads(db, d) || Head(db, d).selection.None? {
        return false, next;
      }
      var fine := SnapshotOf(db, d);
      if !fine {
        return false, next;
      }
      ok := Write(db, d, Head(db, d).(operation := Withdraw, selection := None, status := Withdrawn), v, last);
    }
  }
}
