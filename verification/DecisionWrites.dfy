// What the transactions of lg_cli/creative_decisions.py accept and write, in terms of the
// call and of the saved versions alone.
module DecisionWrites {
  import opened Prelude
  import opened StoryStore
  import opened Decisions
  import P = DecisionsProofs
  import Text

  // ---------------------------------------------------------------- one more version

  // The record has one more draft version, which is its head; nothing else changed.
  predicate Recorded(db: Story, t: Story, d: DocId, v: VersionId, number: nat, p: Payload) {
    && d in db.docs
    && t.versions == db.versions[v := Version(d, number, Draft, Record(p))]
    && t.docs == db.docs[d := db.docs[d].(head := Some(v), state := Draft)]
  }

  lemma WriteRecords(db: Story, d: DocId, p: Payload, v: VersionId, number: nat)
    requires d in db.docs && Write(db, d, p, v, number).Some?
    ensures Recorded(db, Write(db, d, p, v, number).value, d, v, number, p)
  {
  }

  // ---------------------------------------------------------------- selecting

  // The k-th choice is the first with this identity.
  predicate FirstNamed(options: seq<Choice>, id: string, k: int) {
    0 <= k < |options| && options[k].id == id && forall j | 0 <= j < k :: options[j].id != id
  }

  lemma {:induction false} PickFirst(options: seq<Choice>, id: string)
    ensures Pick(options, id).None? <==> forall c | c in options :: c.id != id
    ensures Pick(options, id).Some? ==> exists k :: FirstNamed(options, id, k) && Pick(options, id).value == options[k]
  {
    if options != [] {
      PickFirst(options[1..], id);
      if options[0].id == id {
        assert FirstNamed(options, id, 0);
      } else if Pick(options, id).Some? {
        var k :| FirstNamed(options[1..], id, k) && Pick(options[1..], id).value == options[1..][k];
        assert forall j | 0 < j < k + 1 :: options[j] == options[1..][j - 1];
        assert FirstNamed(options, id, k + 1);
      }
      assert options == [options[0]] + options[1..];
    }
  }

  lemma FirstOnce(options: seq<Choice>, id: string, j: int, k: int)
    requires FirstNamed(options, id, j) && FirstNamed(options, id, k)
    ensures j == k
  {
  }

  // The author's choice: of the version with that number, the first option with that
  // identity, with what that version was offered with.
  ghost predicate Names(db: Story, a: Step, w: VersionId, s: Selection)
    requires a.DoSelect?
  {
    && Owns(db, a.d, w)
    && db.versions[w].number == a.number
    && Reads(db, w)
    && Of(db, w).operation.Options?
    && s.version == w
    && s.number == a.number
    && s.sources == Of(db, w).sources
    && s.request == Of(db, w).request
    && exists k :: FirstNamed(Of(db, w).options, a.id, k) && s.choice == Of(db, w).options[k]
  }

  // A committed selection records the option the author named, and nothing else changes.
  lemma SelectsWhatWasNamed(db: Story, a: Step) returns (w: VersionId, s: Selection)
    requires a.DoSelect? && Allowed(db, a) && Commits(db, a).Some?
    ensures Names(db, a, w, s) && s.choice.id == a.id
    ensures HeadReads(db, a.d)
    ensures var p := Head(db, a.d).(operation := Select, selection := Some(s), status := Selected);
      Recorded(db, Commits(db, a).value, a.d, a.v, a.next, p)
  {
    w := a.at.value;
    PickFirst(Of(db, w).options, a.id);
    s := Selection(w, a.number, Pick(Of(db, w).options, a.id).value, Of(db, w).sources, Of(db, w).request);
    WriteRecords(db, a.d, Head(db, a.d).(operation := Select, selection := Some(s), status := Selected), a.v, a.next);
  }

  // The declared version is the document's own, active and not set aside.
  predicate Stands(db: Story, s: Source) {
    && s.document in db.docs
    && db.docs[s.document].head == Some(s.version)
    && Owns(db, s.document, s.version)
    && !db.docs[s.document].state.Archived?
    && !db.docs[s.document].state.Rejected?
    && !db.versions[s.version].state.Archived?
    && !db.versions[s.version].state.Rejected?
  }

  lemma AllStand(db: Story, sources: seq<Source>)
    ensures AllCurrent(Details(db, sources, map[])) <==> forall i | 0 <= i < |sources| :: Stands(db, sources[i])
  {
    var details := Details(db, sources, map[]);
    forall i | 0 <= i < |sources|
      ensures details[i].current <==> Stands(db, sources[i])
    {
      assert details[i] == DetailOf(db, sources[i], map[]);
    }
  }

  ghost predicate Selectable(db: Story, a: Step, w: VersionId, s: Selection)
    requires a.DoSelect? && HeadReads(db, a.d)
  {
    && Names(db, a, w, s)
    && (forall i | 0 <= i < |s.sources| :: Stands(db, s.sources[i]))
    && Head(db, a.d).selection != Some(s)
  }

  // In a reachable story a selection is accepted for the expected head exactly when the
  // version and the option exist, the sources still stand, and it is not the selection already.
  lemma SelectsIff(start: Story, steps: seq<Step>, db: Story, a: Step)
    requires P.Undecided(start) && Runs(start, steps, db)
    requires a.DoSelect? && Allowed(db, a) && IsRecord(db, a.d)
    ensures HeadReads(db, a.d)
    ensures Commits(db, a).Some? <==>
      db.docs[a.d].head == Some(a.expected) && a.number >= 1 && exists w, s :: Selectable(db, a, w, s)
  {
    P.RunGood(start, steps, db);
    P.SelectedWasOffered(start, steps, db, a.d);
    if Commits(db, a).Some? {
      var w, s := SelectsWhatWasNamed(db, a);
      AllStand(db, s.sources);
      assert Selectable(db, a, w, s);
    }
    if w, s :| db.docs[a.d].head == Some(a.expected) && a.number >= 1 && Selectable(db, a, w, s) {
      SelectableCommits(db, a, w, s);
    }
  }

  lemma SelectableCommits(db: Story, a: Step, w: VersionId, s: Selection)
    requires P.Good(db) && a.DoSelect? && Allowed(db, a) && IsRecord(db, a.d) && SnapshotFine(db, a.d)
    requires db.docs[a.d].head == Some(a.expected) && a.number >= 1 && Selectable(db, a, w, s)
    ensures Commits(db, a).Some?
  {
    assert P.RecordOk(db, a.d);
    assert a.at == Some(w);
    var options := Of(db, w).options;
    PickFirst(options, a.id);
    var k :| FirstNamed(options, a.id, k) && s.choice == options[k];
    assert options[k] in options;
    var j :| FirstNamed(options, a.id, j) && Pick(options, a.id).value == options[j];
    FirstOnce(options, a.id, j, k);
    AllStand(db, s.sources);
    assert MaySelect(db, a.d, a.number, a.id, a.expected, w);
    P.SelectGood(db, a.d, a.number, a.id, a.expected, w, a.v, a.next);
  }

  // ---------------------------------------------------------------- withdrawing

  // A withdrawal is accepted exactly when something is selected, and leaves no selection.
  lemma WithdrawsIff(start: Story, steps: seq<Step>, db: Story, a: Step)
    requires P.Undecided(start) && Runs(start, steps, db)
    requires a.DoWithdraw? && Allowed(db, a) && IsRecord(db, a.d)
    ensures HeadReads(db, a.d)
    ensures Commits(db, a).Some? <==> db.docs[a.d].head == Some(a.expected) && Head(db, a.d).selection.Some?
    ensures Commits(db, a).Some? ==>
      var p := Head(db, a.d).(operation := Withdraw, selection := None, status := Withdrawn);
      Recorded(db, Commits(db, a).value, a.d, a.v, a.next, p)
  {
    P.RunGood(start, steps, db);
    P.SelectedWasOffered(start, steps, db, a.d);
    P.WithdrawGood(db, a.d, a.v, a.next);
    if Commits(db, a).Some? {
      WriteRecords(db, a.d, Head(db, a.d).(operation := Withdraw, selection := None, status := Withdrawn), a.v, a.next);
    }
  }

  // ---------------------------------------------------------------- saving options

  predicate PlainId(id: string) {
    && 1 <= |id| <= 64
    && forall i | 0 <= i < |id| ::
         id[i] == '_' || id[i] == '-' || 'a' <= id[i] <= 'z' || 'A' <= id[i] <= 'Z' || '0' <= id[i] <= '9'
  }

  predicate Said(text: string) {
    exists i :: 0 <= i < |text| && !Text.IsSpace(text[i])
  }

  lemma SaidIff(text: string)
    ensures Said(text) <==> !Text.Blank(text)
  {
    Text.BlankIff(text);
  }

  // Three options that differ in identity and in what they say.
  predicate ThreeOptions(options: seq<Choice>) {
    && |options| == 3
    && (forall i | 0 <= i < 3 :: PlainId(options[i].id) && Said(options[i].title) && Said(options[i].content))
    && (forall i, j | 0 <= i < j < 3 :: options[i].id != options[j].id)
    && (forall i, j | 0 <= i < j < 3 :: Text.Strip(options[i].content) != Text.Strip(options[j].content))
  }

  // A topic of the whole work, or of a part or chapter that is among the sources.
  predicate Targets(db: Story, topic: Topic, sources: seq<Source>) {
    match topic.scope
    case WorkScope => topic.document.None?
    case PartScope => TargetsOne(db, topic.document, sources, Part)
    case ChapterScope => TargetsOne(db, topic.document, sources, Chapter)
  }

  predicate TargetsOne(db: Story, target: Option<DocId>, sources: seq<Source>, kind: Kind) {
    && target.Some?
    && target.value in db.docs
    && db.docs[target.value].kind == kind
    && exists i :: 0 <= i < |sources| && sources[i].document == target.value
  }

  predicate SourcesFine(db: Story, sources: seq<Source>) {
    && (forall i | 0 <= i < |sources| :: sources[i].document > 0 && sources[i].version > 0)
    && (forall i, j | 0 <= i < j < |sources| :: sources[i].document != sources[j].document)
    && (forall i | 0 <= i < |sources| :: Stands(db, sources[i]) && !db.docs[sources[i].document].kind.Decision?)
  }

  predicate Offerable(db: Story, title: string, topic: Topic, options: seq<Choice>, sources: seq<Source>,
                      request: string)
  {
    && Said(title)
    && Said(topic.key)
    && ThreeOptions(options)
    && SourcesFine(db, sources)
    && (sources != [] || Said(request))
    && Targets(db, topic, sources)
  }

  lemma ThreeOptionsIff(options: seq<Choice>)
    ensures OptionsShaped(options) <==> ThreeOptions(options)
  {
    forall i | 0 <= i < |options|
      ensures Said(options[i].title) <==> !Text.Blank(options[i].title)
      ensures Said(options[i].content) <==> !Text.Blank(options[i].content)
      ensures IdShaped(options[i].id) <==> PlainId(options[i].id)
    {
      SaidIff(options[i].title);
      SaidIff(options[i].content);
      IdIff(options[i].id);
    }
  }

  lemma IdIff(id: string)
    ensures IdShaped(id) <==> PlainId(id)
  {
    assert forall i | 0 <= i < |id| :: id[i] in id;
  }

  lemma SourcesIff(db: Story, topic: Topic, sources: seq<Source>)
    ensures SourcesFine(db, sources) <==>
      && (forall s | s in sources :: s.document > 0 && s.version > 0)
      && (forall i, j | 0 <= i < j < |sources| :: sources[i].document != sources[j].document)
      && (forall s | s in sources :: s.document in db.docs && !db.docs[s.document].kind.Decision?)
      && AllCurrent(Details(db, sources, map[]))
    ensures Targets(db, topic, sources) <==> TargetFine(db, topic, sources)
  {
    AllStand(db, sources);
    assert forall s | s in sources :: exists i :: 0 <= i < |sources| && sources[i] == s;
    assert forall i | 0 <= i < |sources| :: sources[i] in sources;
  }

  lemma OfferableIff(db: Story, title: string, topic: Topic, options: seq<Choice>, sources: seq<Source>,
                     request: string)
    ensures Offerable(db, title, topic, options, sources, request) <==>
      !Text.Blank(title) && Normal(db, Clean(topic), options, sources, request)
  {
    SaidIff(title);
    SaidIff(topic.key);
    SaidIff(request);
    ThreeOptionsIff(options);
    SourcesIff(db, Clean(topic), sources);
  }

  // The record options are saved in: the one with the slug, or a new one.
  predicate Begun(db: Story, begun: Story, a: Step, d: DocId)
    requires a.DoOptions?
  {
    match a.found
    case Some(e) => d == e && begun == db
    case None =>
      && d == a.newDoc
      && begun.versions == db.versions
      && begun.docs == db.docs[d := Doc(Decision, a.slug, Text.Strip(a.title), Draft, None, None, None)]
  }

  // Committed options are recorded as given, with what was selected before.
  lemma SavesWhatWasGiven(db: Story, a: Step) returns (begun: Story, d: DocId, p: Payload)
    requires a.DoOptions? && Allowed(db, a) && Commits(db, a).Some?
    ensures Begun(db, begun, a, d)
    ensures Recorded(begun, Commits(db, a).value, d, a.v, a.next, p)
    ensures p.operation.Options? && p.number == a.next
    ensures p.topic == a.topic.(key := Text.Strip(a.topic.key))
    ensures p.options == a.options && p.sources == a.sources && p.request == a.request
    ensures a.found.Some? ==>
      HeadReads(db, d) && p.selection == Head(db, d).selection && p.status == Head(db, d).status
    ensures a.found.None? ==> p.selection.None? && p.status.Unselected?
  {
    if a.found.Some? {
      d, begun := a.found.value, db;
      var h := Head(db, d);
      p := Payload(Options, Clean(a.topic), a.next, a.options, a.sources, a.request, h.selection, h.status);
    } else {
      d := a.newDoc;
      begun := db.(docs := db.docs[d := Doc(Decision, a.slug, Text.Strip(a.title), Draft, None, None, None)]);
      p := Payload(Options, Clean(a.topic), a.next, a.options, a.sources, a.request, None, Unselected);
    }
    WriteRecords(begun, d, p, a.v, a.next);
  }

  // The topic and the title of a record stay, and no two records share a topic.
  ghost predicate Placeable(db: Story, a: Step)
    requires a.DoOptions?
  {
    var topic := a.topic.(key := Text.Strip(a.topic.key));
    match a.found
    case Some(d) =>
      && HeadReads(db, d)
      && db.docs[d].head == Some(a.expected)
      && Head(db, d).topic == topic
      && db.docs[d].title == Text.Strip(a.title)
    case None => a.expected == 0 && forall d | HeadReads(db, d) :: Head(db, d).topic != topic
  }

  // In a reachable story options are saved exactly when they are fine in themselves and
  // their place is free, or is the expected head of their own record.
  lemma SavesIff(start: Story, steps: seq<Step>, db: Story, a: Step)
    requires P.Undecided(start) && Runs(start, steps, db) && a.DoOptions? && Allowed(db, a)
    ensures Commits(db, a).Some? <==>
      Offerable(db, a.title, a.topic, a.options, a.sources, a.request) && Placeable(db, a)
  {
    P.RunGood(start, steps, db);
    OfferableIff(db, a.title, a.topic, a.options, a.sources, a.request);
    if Offerable(db, a.title, a.topic, a.options, a.sources, a.request) && Placeable(db, a) {
      P.CurrentOwned(db, a.sources);
      if a.found.Some? {
        P.OptionsAgain(db, a.found.value, a.options, a.sources, a.request, a.v, a.next);
      } else {
        AllReadGood(db);
        P.OptionsFirst(db, a.newDoc, a.slug, Text.Strip(a.title), Clean(a.topic), a.options, a.sources, a.request, a.v,
          a.next);
      }
    }
  }

  lemma AllReadGood(db: Story)
    requires P.Good(db)
    ensures AllRead(db)
  {
    forall d | IsRecord(db, d)
      ensures HeadReads(db, d)
    {
      assert P.RecordOk(db, d);
    }
  }
}
