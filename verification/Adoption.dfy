// A candidate is reviewed in the state that accepting it would leave:
// lg_cli/book_analysis.py, `snapshot` and `candidate_snapshot`, over the decision review
// context of lg_cli/creative_decisions.py and `accept_version` of lg_cli/project_store.py.
//
// The order of a chapter's scenes and of the decision records depends on neither heads
// nor states; both are answers of the database.
module Adoption {
  import opened Prelude
  import opened StoryStore
  import opened Decisions
  import D = DecisionsProofs

  datatype Entry = Entry(id: DocId, version: Option<VersionId>, title: string, content: string, state: Standing)

  // The selection without its request text.
  datatype Choosing = Choosing(version: VersionId, number: nat, choice: Choice, sources: seq<Source>)

  datatype Item = Item(record: DocId, topic: Topic, selection: Choosing, status: SourcesState, details: seq<Detail>)

  datatype Snap = Snap(chapter: string, documents: seq<Entry>, decisions: seq<Item>)

  const LIMIT := 1000

  function ContentOf(db: Story, d: DocId): string
    requires d in db.docs
  {
    var head := db.docs[d].head;
    if head.Some? && head.value in db.versions && db.versions[head.value].content.Prose?
    then db.versions[head.value].content.text else ""
  }

  function EntryOf(db: Story, d: DocId): Entry
    requires d in db.docs
  {
    Entry(d, db.docs[d].head, db.docs[d].title, ContentOf(db, d), db.docs[d].state)
  }

  // The chapter and all its scenes, each once.
  ghost predicate Lists(db: Story, chapter: DocId, docs: seq<DocId>) {
    && Distinct(docs) && docs != [] && docs[0] == chapter
    && chapter in db.docs && db.docs[chapter].kind.Chapter?
    && (forall i | 1 <= i < |docs| ::
          docs[i] in db.docs && db.docs[docs[i]].kind.Scene? && db.docs[docs[i]].parent == Some(chapter))
    && forall d | d in db.docs && db.docs[d].kind.Scene? && db.docs[d].parent == Some(chapter) :: d in docs
  }

  // All decision records, each once.
  ghost predicate ListsDecisions(db: Story, rows: seq<DocId>) {
    Distinct(rows) && forall d :: d in rows <==> IsRecord(db, d)
  }

  function Entries(db: Story, docs: seq<DocId>): seq<Entry>
    requires forall d | d in docs :: d in db.docs
  {
    seq(|docs|, i requires 0 <= i < |docs| => EntryOf(db, docs[i]))
  }

  // ---------------------------------------------------------------- the decisions that concern a chapter

  predicate Concerns(db: Story, chapter: DocId, topic: Topic)
    requires chapter in db.docs
  {
    match topic.scope
    case WorkScope => true
    case ChapterScope => topic.document == Some(chapter)
    case PartScope => topic.document == db.docs[chapter].parent
  }

  predicate Relevant(db: Story, chapter: DocId, row: DocId)
    requires chapter in db.docs && HeadReads(db, row)
  {
    Head(db, row).selection.Some? && Concerns(db, chapter, Head(db, row).topic)
  }

  function ItemOf(db: Story, row: DocId, projected: map<DocId, Projection>): Item
    requires HeadReads(db, row) && Head(db, row).selection.Some?
  {
    var s := Head(db, row).selection.value;
    var details := Details(db, s.sources, projected);
    Item(row, Head(db, row).topic, Choosing(s.version, s.number, s.choice, s.sources), StateOf(details), details)
  }

  function Items(db: Story, chapter: DocId, rows: seq<DocId>, projected: map<DocId, Projection>): Option<seq<Item>>
    requires chapter in db.docs
  {
    if rows == [] then Some([])
    else
      var row := rows[|rows| - 1];
      match Items(db, chapter, rows[..|rows| - 1], projected)
      case None => None
      case Some(before) =>
        if !HeadReads(db, row) then None
        else if !Relevant(db, chapter, row) then Some(before)
        else if |before| + 1 >= LIMIT then None
        else Some(before + [ItemOf(db, row, projected)])
  }

  // Only the chapter and its scenes may be projected, to versions of their own.
  predicate ProjectionsFine(db: Story, chapter: DocId, projected: map<DocId, Projection>) {
    forall d | d in projected ::
      && projected[d].state.Adopted() && d in db.docs && Owns(db, d, projected[d].version)
      && (d == chapter || (db.docs[d].kind.Scene? && db.docs[d].parent == Some(chapter)))
  }

  method ReviewContext(db: Story, chapter: DocId, rows: seq<DocId>, projected: map<DocId, Projection>)
    returns (items: Option<seq<Item>>)
    requires chapter in db.docs
    ensures items == if ProjectionsFine(db, chapter, projected) then Items(db, chapter, rows, projected) else None
  {
    if !ProjectionsFine(db, chapter, projected) {
      return None;
    }
    var result: seq<Item> := [];
    for i := 0 to |rows|
      invariant Items(db, chapter, rows[..i], projected) == Some(result)
    {
      assert rows[..i + 1][..i] == rows[..i];
      var row := rows[i];
      if !HeadReads(db, row) {
        NoItems(db, chapter, rows, i + 1, projected);
        return None;
      }
      if Relevant(db, chapter, row) {
        if |result| + 1 >= LIMIT {
          NoItems(db, chapter, rows, i + 1, projected);
          return None;
        }
        result := result + [ItemOf(db, row, projected)];
      }
    }
    assert rows[..|rows|] == rows;
    return Some(result);
  }

  lemma {:induction false} NoItems(db: Story, chapter: DocId, rows: seq<DocId>, i: nat,
                                   projected: map<DocId, Projection>)
    requires chapter in db.docs && i <= |rows| && Items(db, chapter, rows[..i], projected).None?
    ensures Items(db, chapter, rows, projected).None?
    decreases |rows| - i
  {
    if i < |rows| {
      assert rows[..i + 1][..i] == rows[..i];
      NoItems(db, chapter, rows, i + 1, projected);
    } else {
      assert rows[..i] == rows;
    }
  }

  // ---------------------------------------------------------------- snapshots

  function SnapshotOf(db: Story, docs: seq<DocId>, rows: seq<DocId>): Option<Snap>
    requires docs != [] && forall d | d in docs :: d in db.docs
  {
    if |docs| >= LIMIT then None
    else match Items(db, docs[0], rows, map[])
      case None => None
      case Some(items) => Some(Snap(db.docs[docs[0]].slug, Entries(db, docs), items))
  }

  function Target(final: bool): Standing {
    if final then Final else Accepted
  }

  // The snapshot with the version in its document's place, and its sources projected.
  method CandidateSnapshot(db: Story, docs: seq<DocId>, rows: seq<DocId>, v: VersionId, final: bool)
    returns (snap: Option<Snap>)
    requires docs != [] && (forall d | d in docs :: d in db.docs) && v in db.versions && Distinct(docs)
    ensures snap == CandidateOf(db, docs, rows, v, final)
  {
    snap := SnapshotOf(db, docs, rows);
    if snap.None? || db.versions[v].state.Rejected? {
      return None;
    }
    var owner := db.versions[v].owner;
    var documents := snap.value.documents;
    var matching := 0;
    for i := 0 to |docs|
      invariant matching == if owner in docs[..i] then 1 else 0
      invariant |documents| == |docs|
      invariant forall j | 0 <= j < |docs| ::
        documents[j] == if j < i && docs[j] == owner then Replaced(EntryOf(db, docs[j]), db, v, final)
          else EntryOf(db, docs[j])
    {
      assert docs[..i + 1] == docs[..i] + [docs[i]];
      if documents[i].id == owner {
        matching := matching + 1;
        documents :=
          documents[i := documents[i].(version := Some(v), content := TextOf(db, v), state := Target(final))];
      }
    }
    assert docs[..|docs|] == docs;
    if matching != 1 {
      return None;
    }
    assert documents == CandidateEntries(db, docs, v, final);
    var items := ReviewContext(db, docs[0], rows, map[owner := Projection(v, Target(final))]);
    if items.None? {
      return None;
    }
    return Some(Snap(snap.value.chapter, documents, items.value));
  }

  function TextOf(db: Story, v: VersionId): string
    requires v in db.versions
  {
    if db.versions[v].content.Prose? then db.versions[v].content.text else ""
  }

  function Replaced(entry: Entry, db: Story, v: VersionId, final: bool): Entry
    requires v in db.versions
  {
    entry.(version := Some(v), content := TextOf(db, v), state := Target(final))
  }

  function CandidateEntries(db: Story, docs: seq<DocId>, v: VersionId, final: bool): seq<Entry>
    requires (forall d | d in docs :: d in db.docs) && v in db.versions
  {
    seq(|docs|, i requires 0 <= i < |docs| =>
      if docs[i] == db.versions[v].owner then Replaced(EntryOf(db, docs[i]), db, v, final) else EntryOf(db, docs[i]))
  }

  function CandidateOf(db: Story, docs: seq<DocId>, rows: seq<DocId>, v: VersionId, final: bool): Option<Snap>
    requires docs != [] && (forall d | d in docs :: d in db.docs) && v in db.versions
  {
    var owner := db.versions[v].owner;
    var projected := map[owner := Projection(v, Target(final))];
    if SnapshotOf(db, docs, rows).None? || db.versions[v].state.Rejected? || owner !in docs
      || !ProjectionsFine(db, docs[0], projected) then None
    else match Items(db, docs[0], rows, projected)
      case None => None
      case Some(items) => Some(Snap(db.docs[docs[0]].slug, CandidateEntries(db, docs, v, final), items))
  }

  // ---------------------------------------------------------------- accepting

  predicate Managed(kind: Kind) {
    kind.Cognition? || kind.Decision?
  }

  // `base` is the head a candidate was made from, `expected` what the caller saw.
  function AcceptVersion(db: Story, d: DocId, v: VersionId, final: bool, expected: Option<VersionId>,
                         base: Option<VersionId>): Option<Story>
    requires d in db.docs && Owns(db, d, v)
  {
    if Managed(db.docs[d].kind) || (expected.Some? && db.docs[d].head != expected)
      || (db.versions[v].state.Candidate? && base.Some? && db.docs[d].head != base)
         || db.versions[v].state.Rejected? then None
    else Some(ActivateVersion(db, d, v, Target(final)))
  }

  // ---------------------------------------------------------------- simulated and real

  // A declared source whose version belongs to another document than it says.
  predicate Foreign(db: Story, d: DocId, v: VersionId, source: Source) {
    source.version == v && source.document != d && source.document in db.docs
  }

  // Projecting one source says what it will be, exactly when it is not such a source of
  // a version whose state is about to change.
  lemma DetailIff(db: Story, d: DocId, v: VersionId, final: bool, source: Source)
    requires d in db.docs && Owns(db, d, v)
    ensures DetailOf(db, source, map[d := Projection(v, Target(final))]) ==
        DetailOf(ActivateVersion(db, d, v, Target(final)), source, map[])
      <==> !(Foreign(db, d, v, source) && db.versions[v].state != Target(final))
  {
  }

  ghost predicate SteadySelection(db: Story, d: DocId, v: VersionId, final: bool, row: DocId)
    requires HeadReads(db, row) && v in db.versions
  {
    Head(db, row).selection.Some? ==>
      forall i | 0 <= i < |Head(db, row).selection.value.sources| ::
        !(Foreign(db, d, v, Head(db, row).selection.value.sources[i]) && db.versions[v].state != Target(final))
  }

  lemma DetailsIff(db: Story, d: DocId, v: VersionId, final: bool, sources: seq<Source>)
    requires d in db.docs && Owns(db, d, v)
    ensures Details(db, sources, map[d := Projection(v, Target(final))]) ==
        Details(ActivateVersion(db, d, v, Target(final)), sources, map[])
      <==> forall i | 0 <= i < |sources| :: !(Foreign(db, d, v, sources[i]) && db.versions[v].state != Target(final))
  {
    var a := Details(db, sources, map[d := Projection(v, Target(final))]);
    var b := Details(ActivateVersion(db, d, v, Target(final)), sources, map[]);
    forall i | 0 <= i < |sources|
      ensures a[i] == b[i] <==> !(Foreign(db, d, v, sources[i]) && db.versions[v].state != Target(final))
    {
      DetailIff(db, d, v, final, sources[i]);
    }
    if forall i | 0 <= i < |sources| :: a[i] == b[i] {
      assert a == b;
    }
  }

  // Adopting a manuscript version leaves every decision record as it was.
  lemma HeadsStay(db: Story, d: DocId, v: VersionId, final: bool, row: DocId)
    requires d in db.docs && Owns(db, d, v) && !Managed(db.docs[d].kind)
    requires IsRecord(db, row) && db.docs[row].head.Some? ==> db.docs[row].head != Some(v)
    ensures var t := ActivateVersion(db, d, v, Target(final));
      (HeadReads(t, row) <==> HeadReads(db, row)) && (HeadReads(db, row) ==> Head(t, row) == Head(db, row))
  {
  }

  // The heads of decision records are versions of their own.
  ghost predicate OwnHeads(db: Story) {
    forall row | IsRecord(db, row) && db.docs[row].head.Some? :: Owns(db, row, db.docs[row].head.value)
  }

  ghost predicate AllSteady(db: Story, chapter: DocId, d: DocId, v: VersionId, final: bool, rows: seq<DocId>)
    requires chapter in db.docs && v in db.versions
  {
    forall row | row in rows && HeadReads(db, row) && Relevant(db, chapter, row) ::
      SteadySelection(db, d, v, final, row)
  }

  lemma {:induction false} ItemsIff(db: Story, chapter: DocId, d: DocId, v: VersionId, final: bool, rows: seq<DocId>)
    requires chapter in db.docs && d in db.docs && Owns(db, d, v) && !Managed(db.docs[d].kind) && OwnHeads(db)
    ensures var t := ActivateVersion(db, d, v, Target(final));
      var before, after :=
        Items(db, chapter, rows, map[d := Projection(v, Target(final))]), Items(t, chapter, rows, map[]);
      && (before.Some? <==> after.Some?)
      && (before.Some? ==> |before.value| == |after.value|)
      && (before.Some? ==> (before == after <==> AllSteady(db, chapter, d, v, final, rows)))
  {
    if rows != [] {
      var init, row := rows[..|rows| - 1], rows[|rows| - 1];
      ItemsIff(db, chapter, d, v, final, init);
      HeadsStay(db, d, v, final, row);
      assert rows == init + [row];
      if HeadReads(db, row) && Relevant(db, chapter, row) {
        ItemIff(db, chapter, d, v, final, row);
        var t := ActivateVersion(db, d, v, Target(final));
        var p := map[d := Projection(v, Target(final))];
        var b, a := Items(db, chapter, init, p), Items(t, chapter, init, map[]);
        if b.Some? {
          SnocSame(b.value, a.value, ItemOf(db, row, p), ItemOf(t, row, map[]));
        }
        assert AllSteady(db, chapter, d, v, final, rows) <==>
          AllSteady(db, chapter, d, v, final, init) && SteadySelection(db, d, v, final, row);
      }
    }
  }

  lemma SnocSame(a: seq<Item>, b: seq<Item>, x: Item, y: Item)
    requires |a| == |b|
    ensures a + [x] == b + [y] <==> a == b && x == y
  {
    if a + [x] == b + [y] {
      assert (a + [x])[|a|] == x && (b + [y])[|b|] == y;
      assert a == (a + [x])[..|a|] && b == (b + [y])[..|b|];
    }
  }

  lemma ItemIff(db: Story, chapter: DocId, d: DocId, v: VersionId, final: bool, row: DocId)
    requires chapter in db.docs && d in db.docs && Owns(db, d, v) && !Managed(db.docs[d].kind) && OwnHeads(db)
    requires HeadReads(db, row) && Relevant(db, chapter, row)
    ensures var t := ActivateVersion(db, d, v, Target(final));
      && HeadReads(t, row) && Relevant(t, chapter, row)
      && (ItemOf(db, row, map[d := Projection(v, Target(final))]) == ItemOf(t, row, map[]) <==>
         SteadySelection(db, d, v, final, row))
  {
    HeadsStay(db, d, v, final, row);
    DetailsIff(db, d, v, final, Head(db, row).selection.value.sources);
  }

  lemma EntriesAdopted(db: Story, docs: seq<DocId>, v: VersionId, final: bool)
    requires (forall d | d in docs :: d in db.docs) && v in db.versions && db.versions[v].owner in db.docs
    requires forall d | d in docs && db.docs[d].head == Some(v) :: db.versions[v].owner == d
    ensures CandidateEntries(db, docs, v, final) ==
      Entries(ActivateVersion(db, db.versions[v].owner, v, Target(final)), docs)
  {
    var t := ActivateVersion(db, db.versions[v].owner, v, Target(final));
    var a, b := CandidateEntries(db, docs, v, final), Entries(t, docs);
    forall i | 0 <= i < |docs|
      ensures a[i] == b[i]
    {
      assert docs[i] in docs;
    }
  }

  // The exact condition: the simulated snapshot is the real one if and only if no
  // decision it reviews declares the version as another document's, unless adopting
  // leaves the version's state as it is.
  lemma AdoptionIff(db: Story, docs: seq<DocId>, rows: seq<DocId>, v: VersionId, final: bool, t: Story)
    requires docs != [] && Lists(db, docs[0], docs) && ListsDecisions(db, rows) && v in db.versions
    requires db.versions[v].owner in docs
    requires OwnHeads(db) && forall d | d in docs && db.docs[d].head == Some(v) :: db.versions[v].owner == d
    requires AcceptVersion(db, db.versions[v].owner, v, final, None, None) == Some(t)
    requires SnapshotOf(db, docs, rows).Some?
    ensures CandidateOf(db, docs, rows, v, final).Some? && SnapshotOf(t, docs, rows).Some?
    ensures CandidateOf(db, docs, rows, v, final) == SnapshotOf(t, docs, rows) <==>
      AllSteady(db, docs[0], db.versions[v].owner, v, final, rows)
  {
    var d := db.versions[v].owner;
    EntriesAdopted(db, docs, v, final);
    ItemsSame(db, docs[0], rows, map[], map[d := Projection(v, Target(final))]);
    ItemsIff(db, docs[0], d, v, final, rows);
    var i :| 0 <= i < |docs| && docs[i] == d;
    assert ProjectionsFine(db, docs[0], map[d := Projection(v, Target(final))]);
  }

  // Whether the review context can be made does not depend on what is projected.
  lemma {:induction false} ItemsSame(db: Story, chapter: DocId, rows: seq<DocId>, p: map<DocId, Projection>,
                                     q: map<DocId, Projection>)
    requires chapter in db.docs
    ensures Items(db, chapter, rows, p).Some? <==> Items(db, chapter, rows, q).Some?
    ensures Items(db, chapter, rows, p).Some? ==>
      |Items(db, chapter, rows, p).value| == |Items(db, chapter, rows, q).value|
  {
    if rows != [] {
      ItemsSame(db, chapter, rows[..|rows| - 1], p, q);
    }
  }

  // In every story the program can reach, reviewing a candidate and reviewing what its
  // acceptance published see the same snapshot.
  lemma SimulatedIsAdopted(start: Story, steps: seq<Step>, db: Story, docs: seq<DocId>, rows: seq<DocId>, v: VersionId,
                           final: bool,
                           expected: Option<VersionId>, base: Option<VersionId>, t: Story)
    requires D.Undecided(start) && Runs(start, steps, db)
    requires docs != [] && Lists(db, docs[0], docs) && ListsDecisions(db, rows) && v in db.versions
    requires db.versions[v].owner in docs
    requires forall d | d in docs && db.docs[d].head == Some(v) :: db.versions[v].owner == d
    requires AcceptVersion(db, db.versions[v].owner, v, final, expected, base) == Some(t)
    requires SnapshotOf(db, docs, rows).Some?
    ensures CandidateOf(db, docs, rows, v, final) == SnapshotOf(t, docs, rows)
  {
    var d := db.versions[v].owner;
    D.RunGood(start, steps, db);
    forall row | IsRecord(db, row) && db.docs[row].head.Some?
      ensures Owns(db, row, db.docs[row].head.value)
    {
      assert D.RecordOk(db, row);
    }
    forall row | row in rows && HeadReads(db, row) && Relevant(db, docs[0], row)
      ensures SteadySelection(db, d, v, final, row)
    {
      D.SelectedWasOffered(start, steps, db, row);
    }
    AdoptionIff(db, docs, rows, v, final, t);
  }
}
