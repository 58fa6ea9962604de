// Over all runs of options, selections, withdrawals and other writes: the current
// selection is always an option that was offered, with sources that belong to their
// documents, and new options never touch it.
module DecisionsProofs {
  import opened Prelude
  import opened StoryStore
  import opened Decisions
  import Text

  ghost predicate SourcesOwned(db: Story, sources: seq<Source>) {
    forall i | 0 <= i < |sources| :: Owns(db, sources[i].document, sources[i].version)
  }

  // The options this payload carries were saved in a version of the same record.
  ghost predicate OptionsFound(db: Story, d: DocId, p: Payload) {
    exists v :: Owns(db, d, v) && db.versions[v].number == p.number && Reads(db, v)
      && Of(db, v).operation.Options? && Of(db, v).topic == p.topic && Of(db, v).options == p.options
  }

  ghost predicate SelectionFound(db: Story, d: DocId, topic: Topic, s: Selection) {
    && Owns(db, d, s.version) && db.versions[s.version].number == s.number && Reads(db, s.version)
    && Of(db, s.version).operation.Options? && Of(db, s.version).topic == topic
    && s.choice in Of(db, s.version).options && s.sources == Of(db, s.version).sources
    && s.request == Of(db, s.version).request
  }

  ghost predicate PayloadOk(db: Story, d: DocId, number: nat, p: Payload) {
    && (p.operation.Options? ==> p.number == number)
    && (p.status.Selected? <==> p.selection.Some?)
    && (p.selection.Some? ==> SelectionFound(db, d, p.topic, p.selection.value) && p.selection.value.number < number)
    && SourcesOwned(db, p.sources)
  }

  ghost predicate VersionsOk(db: Story, d: DocId, topic: Topic) {
    forall v | Owns(db, d, v) ::
      && v > 0 && Reads(db, v) && Of(db, v).topic == topic
      && PayloadOk(db, d, db.versions[v].number, Of(db, v)) && OptionsFound(db, d, Of(db, v))
  }

  ghost predicate RecordOk(db: Story, d: DocId) {
    && HeadReads(db, d) && Owns(db, d, db.docs[d].head.value)
    && VersionsOk(db, d, Head(db, d).topic)
    && NumbersApart(db, d)
  }

  ghost predicate Good(db: Story) {
    && (forall d | IsRecord(db, d) :: RecordOk(db, d))
    && (forall d, e | HeadReads(db, d) && HeadReads(db, e) && d != e :: Head(db, d).topic != Head(db, e).topic)
  }

  // ---------------------------------------------------------------- what later states keep

  // Versions of the record stay as they are, all others keep their documents.
  ghost predicate Keeps(db: Story, t: Story, d: DocId) {
    && (forall v | Owns(db, d, v) :: Owns(t, d, v) && t.versions[v] == db.versions[v])
    && forall v | v in db.versions :: v in t.versions && t.versions[v].owner == db.versions[v].owner
  }

  lemma KeptPayload(db: Story, t: Story, d: DocId, number: nat, p: Payload)
    requires Keeps(db, t, d)
    ensures PayloadOk(db, d, number, p) ==> PayloadOk(t, d, number, p)
    ensures OptionsFound(db, d, p) ==> OptionsFound(t, d, p)
  {
    if OptionsFound(db, d, p) {
      var v :| Owns(db, d, v) && db.versions[v].number == p.number && Reads(db, v)
        && Of(db, v).operation.Options? && Of(db, v).topic == p.topic && Of(db, v).options == p.options;
      assert Owns(t, d, v) && Reads(t, v);
    }
  }

  lemma KeptRecord(db: Story, t: Story, d: DocId)
    requires RecordOk(db, d) && Keeps(db, t, d) && d in t.docs && t.docs[d] == db.docs[d]
    requires forall v :: Owns(t, d, v) ==> Owns(db, d, v)
    ensures RecordOk(t, d) && Head(t, d) == Head(db, d)
  {
    forall v | Owns(t, d, v)
      ensures Reads(t, v) && PayloadOk(t, d, t.versions[v].number, Of(t, v)) && OptionsFound(t, d, Of(t, v))
    {
      KeptPayload(db, t, d, db.versions[v].number, Of(db, v));
    }
  }

  lemma GrowKeeps(db: Story, d: DocId, v: VersionId, number: nat, content: Content, e: DocId)
    requires d in db.docs && v !in db.versions
    ensures Keeps(db, Grow(db, d, v, number, content), e)
  {
    GrowOwns(db, d, v, number, content);
  }

  lemma GrownVersions(db: Story, d: DocId, v: VersionId, number: nat, p: Payload)
    requires d in db.docs && FreshVersion(db, v) && VersionsOk(db, d, p.topic)
    requires PayloadOk(db, d, number, p) && (p.operation.Options? || OptionsFound(db, d, p))
    ensures VersionsOk(Grow(db, d, v, number, Record(p)), d, p.topic)
  {
    var t := Grow(db, d, v, number, Record(p));
    GrowOwns(db, d, v, number, Record(p));
    GrowKeeps(db, d, v, number, Record(p), d);
    forall w | Owns(t, d, w)
      ensures Reads(t, w) && Of(t, w).topic == p.topic
      ensures PayloadOk(t, d, t.versions[w].number, Of(t, w)) && OptionsFound(t, d, Of(t, w))
    {
      if w == v {
        KeptPayload(db, t, d, number, p);
        assert p.operation.Options? ==> Owns(t, d, v) && t.versions[v].number == p.number;
      } else {
        KeptPayload(db, t, d, db.versions[w].number, Of(db, w));
      }
    }
  }

  lemma WrittenHead(db: Story, d: DocId, v: VersionId, number: nat, p: Payload, t: Story)
    requires IsRecord(db, d) && FreshVersion(db, v) && IsNext(db, d, number)
    requires VersionsOk(db, d, p.topic) && NumbersApart(db, d)
    requires PayloadOk(db, d, number, p) && (p.operation.Options? || OptionsFound(db, d, p))
    requires t == Grow(db, d, v, number, Record(p))
    ensures Write(db, d, p, v, number) == Some(t) && RecordOk(t, d) && Head(t, d) == p
  {
    GrowOwns(db, d, v, number, Record(p));
    GrownVersions(db, d, v, number, p);
    GrowKeepsNumbers(db, d, v, number, Record(p));
    assert OptionsFound(t, d, Of(t, v));
  }

  // One write that fits is committed, and all stays good.
  lemma WriteGood(db: Story, d: DocId, v: VersionId, number: nat, p: Payload)
    requires IsRecord(db, d) && FreshVersion(db, v) && IsNext(db, d, number)
    requires VersionsOk(db, d, p.topic) && NumbersApart(db, d)
    requires PayloadOk(db, d, number, p) && (p.operation.Options? || OptionsFound(db, d, p))
    requires forall e | IsRecord(db, e) && e != d :: RecordOk(db, e)
    requires forall e, f | HeadReads(db, e) && HeadReads(db, f) && e != f && e != d && f != d ::
      Head(db, e).topic != Head(db, f).topic
    requires forall e | HeadReads(db, e) && e != d :: Head(db, e).topic != p.topic
    ensures var t := Grow(db, d, v, number, Record(p));
      Write(db, d, p, v, number) == Some(t) && Good(t) && HeadReads(t, d) && Head(t, d) == p
  {
    var t := Grow(db, d, v, number, Record(p));
    GrowOwns(db, d, v, number, Record(p));
    WrittenHead(db, d, v, number, p, t);
    forall e | IsRecord(t, e) && e != d
      ensures RecordOk(t, e) && HeadReads(db, e) && Head(t, e) == Head(db, e)
    {
      GrowKeeps(db, d, v, number, Record(p), e);
      KeptRecord(db, t, e);
    }
  }

  lemma HeadFacts(db: Story, d: DocId, next: nat)
    requires Good(db) && IsRecord(db, d) && IsNext(db, d, next)
    ensures RecordOk(db, d)
    ensures var p := Head(db, d);
      && OptionsFound(db, d, p) && SourcesOwned(db, p.sources) && (p.status.Selected? <==> p.selection.Some?)
      && (p.selection.Some? ==> SelectionFound(db, d, p.topic, p.selection.value) && p.selection.value.number < next)
  {
    assert RecordOk(db, d);
    var h := db.docs[d].head.value;
    assert Owns(db, d, h) && PayloadOk(db, d, db.versions[h].number, Of(db, h));
  }

  // Sources that are current belong to their documents.
  lemma CurrentOwned(db: Story, sources: seq<Source>)
    requires AllCurrent(Details(db, sources, map[]))
    ensures SourcesOwned(db, sources)
  {
    forall i | 0 <= i < |sources|
      ensures Owns(db, sources[i].document, sources[i].version)
    {
      assert Details(db, sources, map[])[i].current;
    }
  }

  // ---------------------------------------------------------------- steps

  lemma OptionsAgain(db: Story, d: DocId, options: seq<Choice>, sources: seq<Source>, request: string, v: VersionId,
                     next: nat)
    requires Good(db) && IsRecord(db, d) && FreshVersion(db, v) && IsNext(db, d, next) && SourcesOwned(db, sources)
    ensures RecordOk(db, d)
    ensures var h := Head(db, d);
      var p := Payload(Options, h.topic, next, options, sources, request, h.selection, h.status);
      var t := Grow(db, d, v, next, Record(p));
        Write(db, d, p, v, next) == Some(t) && Good(t) && HeadReads(t, d) && Head(t, d) == p
  {
    HeadFacts(db, d, next);
    var h := Head(db, d);
    WriteGood(db, d, v, next, Payload(Options, h.topic, next, options, sources, request, h.selection, h.status));
  }

  lemma OptionsFirst(db: Story, d: DocId, slug: string, title: string, topic: Topic, options: seq<Choice>,
                     sources: seq<Source>,
                     request: string, v: VersionId, next: nat)
    requires Good(db) && d !in db.docs && (forall w | w in db.versions :: db.versions[w].owner != d)
    requires FreshVersion(db, v) && IsNext(db, d, next) && !TopicTaken(db, topic) && SourcesOwned(db, sources)
    ensures var db1 := db.(docs := db.docs[d := Doc(Decision, slug, title, Draft, None, None, None)]);
      var p := Payload(Options, topic, next, options, sources, request, None, Unselected);
      var t := Grow(db1, d, v, next, Record(p));
        Write(db1, d, p, v, next) == Some(t) && Good(t) && HeadReads(t, d) && Head(t, d) == p
  {
    var db1 := db.(docs := db.docs[d := Doc(Decision, slug, title, Draft, None, None, None)]);
    forall e | IsRecord(db1, e) && e != d
      ensures RecordOk(db1, e) && HeadReads(db, e) && Head(db1, e) == Head(db, e)
    {
      KeptRecord(db, db1, e);
    }
    assert forall w :: !Owns(db1, d, w);
    WriteGood(db1, d, v, next, Payload(Options, topic, next, options, sources, request, None, Unselected));
  }

  lemma SelectGood(db: Story, d: DocId, number: nat, id: string, expected: nat, w: VersionId, v: VersionId, next: nat)
    requires Good(db) && Owns(db, d, w) && MaySelect(db, d, number, id, expected, w) && FreshVersion(db, v)
    requires IsNext(db, d, next)
    ensures var p := Head(db, d).(operation := Select, status := Selected,
        selection := Some(Chosen(db, w, Pick(Of(db, w).options, id).value)));
      var t := Grow(db, d, v, next, Record(p));
        Write(db, d, p, v, next) == Some(t) && Good(t) && HeadReads(t, d) && Head(t, d) == p
  {
    HeadFacts(db, d, next);
    var p := Head(db, d).(operation := Select, status := Selected, selection :=
      Some(Chosen(db, w, Pick(Of(db, w).options, id).value)));
    assert OptionsFound(db, d, p) by { assert OptionsFound(db, d, Head(db, d)); }
    WriteGood(db, d, v, next, p);
  }

  lemma WithdrawGood(db: Story, d: DocId, v: VersionId, next: nat)
    requires Good(db) && IsRecord(db, d) && FreshVersion(db, v) && IsNext(db, d, next)
    ensures RecordOk(db, d)
    ensures var p := Head(db, d).(operation := Withdraw, selection := None, status := Withdrawn);
      var t := Grow(db, d, v, next, Record(p));
        Write(db, d, p, v, next) == Some(t) && Good(t) && HeadReads(t, d) && Head(t, d) == p
  {
    HeadFacts(db, d, next);
    var p := Head(db, d).(operation := Withdraw, selection := None, status := Withdrawn);
    assert OptionsFound(db, d, p) by { assert OptionsFound(db, d, Head(db, d)); }
    WriteGood(db, d, v, next, p);
  }

  lemma OptionsStep(db: Story, a: Step)
    requires Good(db) && a.DoOptions? && Allowed(db, a) && Commits(db, a).Some?
    ensures Good(Commits(db, a).value)
  {
    CurrentOwned(db, a.sources);
    if a.found.Some? {
      OptionsAgain(db, a.found.value, a.options, a.sources, a.request, a.v, a.next);
    } else {
      OptionsFirst(db, a.newDoc, a.slug, Text.Strip(a.title), Clean(a.topic), a.options, a.sources, a.request, a.v,
        a.next);
    }
  }

  lemma ElsewhereGood(db: Story, t: Story)
    requires Good(db) && Elsewhere(db, t)
    ensures Good(t)
  {
    forall d | IsRecord(t, d)
      ensures RecordOk(t, d) && HeadReads(db, d) && Head(t, d) == Head(db, d)
    {
      KeptRecord(db, t, d);
    }
  }

  lemma StepGood(db: Story, a: Step)
    requires Good(db) && Allowed(db, a)
    ensures Good(Next(db, a))
  {
    if Commits(db, a).Some? {
      match a
      case DoOptions(_, _, _, _, _, _, _, _, _, _, _) => OptionsStep(db, a);
      case DoSelect(d, number, id, expected, at, v, next) => SelectGood(db, d, number, id, expected, at.value, v, next);
      case DoWithdraw(d, _, v, next) => WithdrawGood(db, d, v, next);
      case DoElsewhere(after) => ElsewhereGood(db, after);
    }
  }

  lemma {:induction false} RunGood(db: Story, steps: seq<Step>, t: Story)
    requires Good(db) && Runs(db, steps, t)
    ensures Good(t)
    decreases |steps|
  {
    if steps != [] {
      StepGood(db, steps[0]);
      RunGood(Next(db, steps[0]), steps[1..], t);
    }
  }

  // ---------------------------------------------------------------- main results

  predicate Undecided(db: Story) {
    forall d | d in db.docs :: !db.docs[d].kind.Decision?
  }

  // What is selected was offered: the same choice, sources and request, in an earlier
  // options version of the same record. No read of a record ever fails.
  lemma SelectedWasOffered(db: Story, steps: seq<Step>, t: Story, d: DocId)
    requires Undecided(db) && Runs(db, steps, t) && IsRecord(t, d)
    ensures SnapshotFine(t, d)
    ensures Head(t, d).selection.Some? ==>
      SelectionFound(t, d, Head(t, d).topic, Head(t, d).selection.value)
      && Head(t, d).selection.value.number < t.versions[t.docs[d].head.value].number
      && SourcesOwned(t, Head(t, d).selection.value.sources)
  {
    RunGood(db, steps, t);
    assert RecordOk(t, d);
    var h := t.docs[d].head.value;
    assert Owns(t, d, h) && PayloadOk(t, d, t.versions[h].number, Of(t, h)) && OptionsFound(t, d, Of(t, h));
    if Head(t, d).selection.Some? {
      var w := Head(t, d).selection.value.version;
      assert Owns(t, d, w) && PayloadOk(t, d, t.versions[w].number, Of(t, w));
    }
  }

  // New options leave the selection and its status alone.
  lemma OptionsKeepSelection(db: Story, a: Step)
    requires Good(db) && a.DoOptions? && a.found.Some? && Allowed(db, a) && Commits(db, a).Some?
    ensures var d, t := a.found.value, Commits(db, a).value;
      && HeadReads(db, d) && HeadReads(t, d)
      && Head(t, d).selection == Head(db, d).selection && Head(t, d).status == Head(db, d).status
      && Head(t, d).options == a.options && Head(t, d).number == a.next
  {
    CurrentOwned(db, a.sources);
    OptionsAgain(db, a.found.value, a.options, a.sources, a.request, a.v, a.next);
  }

  // A writer of record `d` that still believes in head `e`.
  predicate Aims(a: Step, d: DocId, e: nat) {
    match a
    case DoOptions(_, _, _, _, _, _, expected, found, _, _, _) => found == Some(d) && expected == e
    case DoSelect(x, _, _, expected, _, _, _) => x == d && expected == e
    case DoWithdraw(x, expected, _, _) => x == d && expected == e
    case DoElsewhere(_) => false
  }

  ghost function Winners(db: Story, steps: seq<Step>, d: DocId, e: nat): nat
    decreases |steps|
  {
    if steps == [] then 0
    else
      var won := if Aims(steps[0], d, e) && Commits(db, steps[0]).Some? then 1 else 0;
      won + Winners(Next(db, steps[0]), steps[1..], d, e)
  }

  predicate HeadSet(db: Story, t: Story, d: DocId, v: VersionId) {
    && d in t.docs && t.docs[d].head == Some(v)
    && (forall e | e in db.docs ::
       e in t.docs && t.docs[e].kind == db.docs[e].kind && (e != d ==> t.docs[e] == db.docs[e]))
    && (forall w | w in db.versions :: w in t.versions)
  }

  lemma WriteSets(db: Story, d: DocId, p: Payload, v: VersionId, number: nat)
    requires d in db.docs && v !in db.versions && Write(db, d, p, v, number).Some?
    ensures HeadSet(db, Write(db, d, p, v, number).value, d, v)
  {
    GrowOwns(db, d, v, number, Record(p));
  }

  lemma OptionsSet(db: Story, a: Step)
    requires a.DoOptions? && Allowed(db, a) && Commits(db, a).Some?
    ensures HeadSet(db, Commits(db, a).value, if a.found.Some? then a.found.value else a.newDoc, a.v)
    ensures a.found.Some? ==> IsRecord(db, a.found.value) && db.docs[a.found.value].head == Some(a.expected)
  {
    var topic := Clean(a.topic);
    if a.found.Some? {
      var h := Head(db, a.found.value);
      WriteSets(db, a.found.value,
        Payload(Options, topic, a.next, a.options, a.sources, a.request, h.selection, h.status), a.v, a.next);
    } else {
      var db1 := db.(docs := db.docs[a.newDoc := Doc(Decision, a.slug, Text.Strip(a.title), Draft, None, None, None)]);
      WriteSets(db1, a.newDoc, Payload(Options, topic, a.next, a.options, a.sources, a.request, None, Unselected), a.v,
        a.next);
    }
  }

  lemma ChoiceSets(db: Story, a: Step)
    requires (a.DoSelect? || a.DoWithdraw?) && Allowed(db, a) && Commits(db, a).Some?
    ensures HeadSet(db, Commits(db, a).value, a.d, a.v) && a.d in db.docs && db.docs[a.d].head == Some(a.expected)
  {
    if a.DoSelect? {
      var chosen := Chosen(db, a.at.value, Pick(Of(db, a.at.value).options, a.id).value);
      WriteSets(db, a.d, Head(db, a.d).(operation := Select, selection := Some(chosen), status := Selected), a.v,
        a.next);
    } else {
      WriteSets(db, a.d, Head(db, a.d).(operation := Withdraw, selection := None, status := Withdrawn), a.v, a.next);
    }
  }

  lemma HeadsMove(db: Story, a: Step, d: DocId, e: nat)
    requires Allowed(db, a) && IsRecord(db, d)
    ensures var t := Next(db, a);
      && IsRecord(t, d) && (forall v | v in db.versions :: v in t.versions)
      && (t.docs[d].head == db.docs[d].head
         || (t.docs[d].head.Some? && t.docs[d].head.value > 0 && t.docs[d].head.value !in db.versions))
      && (Aims(a, d, e) && Commits(db, a).Some? ==>
            db.docs[d].head == Some(e) && t.docs[d].head.Some? && t.docs[d].head.value > 0
              && t.docs[d].head.value !in db.versions)
  {
    if Commits(db, a).Some? {
      if a.DoElsewhere? {
        assert a.after.docs[d] == db.docs[d];
      } else if a.DoOptions? {
        OptionsSet(db, a);
      } else {
        ChoiceSets(db, a);
      }
    }
  }

  lemma {:induction false} AbandonedHead(db: Story, steps: seq<Step>, t: Story, d: DocId, e: nat)
    requires Runs(db, steps, t) && IsRecord(db, d) && db.docs[d].head != Some(e) && (e == 0 || e in db.versions)
    ensures Winners(db, steps, d, e) == 0
    decreases |steps|
  {
    if steps != [] {
      HeadsMove(db, steps[0], d, e);
      AbandonedHead(Next(db, steps[0]), steps[1..], t, d, e);
    }
  }

  // Of several writers that hold the same expected head at most one succeeds.
  lemma {:induction false} OneWriterWins(db: Story, steps: seq<Step>, t: Story, d: DocId, e: nat)
    requires Runs(db, steps, t) && IsRecord(db, d) && (e == 0 || e in db.versions)
    ensures Winners(db, steps, d, e) <= 1
    decreases |steps|
  {
    if steps != [] {
      HeadsMove(db, steps[0], d, e);
      if Aims(steps[0], d, e) && Commits(db, steps[0]).Some? {
        AbandonedHead(Next(db, steps[0]), steps[1..], t, d, e);
      } else {
        OneWriterWins(Next(db, steps[0]), steps[1..], t, d, e);
      }
    }
  }
}
