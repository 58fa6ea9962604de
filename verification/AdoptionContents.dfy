// What the snapshots of a chapter and of a candidate hold (lg_cli/book_analysis.py, with the
// decision review context of lg_cli/creative_decisions.py), and what accepting a version does.
module AdoptionContents {
  import opened Prelude
  import opened StoryStore
  import opened Decisions
  import opened Adoption

  // ---------------------------------------------------------------- decisions

  // A decision concerns a chapter when it is about the whole work, about the chapter, or
  // about the part the chapter is in.
  predicate About(db: Story, chapter: DocId, topic: Topic)
    requires chapter in db.docs
  {
    || topic.scope == WorkScope
    || (topic.scope == ChapterScope && topic.document == Some(chapter))
    || (topic.scope == PartScope && topic.document == db.docs[chapter].parent)
  }

  predicate Shown(db: Story, chapter: DocId, row: DocId)
    requires chapter in db.docs
  {
    HeadReads(db, row) && Head(db, row).selection.Some? && About(db, chapter, Head(db, row).topic)
  }

  // A version counts as active, and a state as current, as the projection of its document
  // says if there is one, else as it is stored.
  function ActiveOf(db: Story, d: DocId, projected: map<DocId, Projection>): Option<VersionId> {
    if d in projected then Some(projected[d].version) else if d in db.docs then db.docs[d].head else None
  }

  function StateOfDoc(db: Story, d: DocId, projected: map<DocId, Projection>): Option<Standing> {
    if d in projected then Some(projected[d].state) else if d in db.docs then Some(db.docs[d].state) else None
  }

  function StateOfVersion(db: Story, s: Source, projected: map<DocId, Projection>): Option<Standing> {
    if s.document in projected && projected[s.document].version == s.version then Some(projected[s.document].state)
    else if s.document in db.docs && s.version in db.versions then Some(db.versions[s.version].state)
    else None
  }

  predicate SetAside(state: Option<Standing>) {
    state == Some(Archived) || state == Some(Rejected)
  }

  // What the context says of one declared source.
  predicate Says(db: Story, s: Source, projected: map<DocId, Projection>, detail: Detail) {
    && detail.source == s
    && detail.active == ActiveOf(db, s.document, projected)
    && detail.docState == StateOfDoc(db, s.document, projected)
    && detail.versionState == StateOfVersion(db, s, projected)
    && (detail.current <==>
          && s.document in db.docs
          && Owns(db, s.document, s.version)
          && detail.active == Some(s.version)
          && !SetAside(detail.docState)
          && !SetAside(detail.versionState))
  }

  // What it says of one decision: its selection without the request, and how its sources stand.
  predicate Tells(db: Story, row: DocId, projected: map<DocId, Projection>, item: Item)
    requires HeadReads(db, row) && Head(db, row).selection.Some?
  {
    var s := Head(db, row).selection.value;
    && item.record == row
    && item.topic == Head(db, row).topic
    && item.selection == Choosing(s.version, s.number, s.choice, s.sources)
    && |item.details| == |s.sources|
    && (forall i | 0 <= i < |s.sources| :: Says(db, s.sources[i], projected, item.details[i]))
    && (item.status == StaleSources <==> exists i :: 0 <= i < |item.details| && !item.details[i].current)
    && (item.status == NoSources <==> s.sources == [])
  }

  lemma DetailSays(db: Story, s: Source, projected: map<DocId, Projection>)
    ensures Says(db, s, projected, DetailOf(db, s, projected))
  {
  }

  lemma ItemTells(db: Story, row: DocId, projected: map<DocId, Projection>)
    requires HeadReads(db, row) && Head(db, row).selection.Some?
    ensures Tells(db, row, projected, ItemOf(db, row, projected))
  {
    var s, item := Head(db, row).selection.value, ItemOf(db, row, projected);
    forall i | 0 <= i < |s.sources|
      ensures Says(db, s.sources[i], projected, item.details[i])
    {
      DetailSays(db, s.sources[i], projected);
    }
  }

  lemma RelevantIff(db: Story, chapter: DocId, row: DocId)
    requires chapter in db.docs && HeadReads(db, row)
    ensures Relevant(db, chapter, row) <==> Shown(db, chapter, row)
  {
  }

  // The positions of the rows that are shown.
  function Places(db: Story, chapter: DocId, rows: seq<DocId>): set<nat>
    requires chapter in db.docs
  {
    set i: nat | i < |rows| && Shown(db, chapter, rows[i])
  }

  lemma PlacesNext(db: Story, chapter: DocId, rows: seq<DocId>)
    requires chapter in db.docs && rows != []
    ensures var n := |rows| - 1;
      var before := Places(db, chapter, rows[..n]);
      Places(db, chapter, rows) == before + (if Shown(db, chapter, rows[n]) then {n} else {}) && n !in before
  {
  }

  // The items are those of the shown rows, in the order of the rows.
  ghost predicate Holds(db: Story, chapter: DocId, rows: seq<DocId>, projected: map<DocId, Projection>,
                        items: seq<Item>, at: seq<nat>)
    requires chapter in db.docs
  {
    && |at| == |items|
    && (forall k | 0 <= k < |at| ::
          at[k] < |rows| && Shown(db, chapter, rows[at[k]]) && Tells(db, rows[at[k]], projected, items[k]))
    && (forall j, k | 0 <= j < k < |at| :: at[j] < at[k])
    && (forall i | 0 <= i < |rows| && Shown(db, chapter, rows[i]) :: i in at)
  }

  // The review context holds exactly the selected decisions that concern the chapter.
  lemma {:induction false} ContextHolds(db: Story, chapter: DocId, rows: seq<DocId>, projected: map<DocId, Projection>)
    returns (at: seq<nat>)
    requires chapter in db.docs && Items(db, chapter, rows, projected).Some?
    ensures Holds(db, chapter, rows, projected, Items(db, chapter, rows, projected).value, at)
  {
    if rows == [] {
      return [];
    }
    var n := |rows| - 1;
    at := ContextHolds(db, chapter, rows[..n], projected);
    RelevantIff(db, chapter, rows[n]);
    if Shown(db, chapter, rows[n]) {
      ItemTells(db, rows[n], projected);
      at := at + [n];
    }
  }

  predicate AllRows(db: Story, rows: seq<DocId>) {
    forall i | 0 <= i < |rows| :: HeadReads(db, rows[i])
  }

  lemma AllRowsNext(db: Story, rows: seq<DocId>)
    requires rows != []
    ensures AllRows(db, rows) <==> AllRows(db, rows[..|rows| - 1]) && HeadReads(db, rows[|rows| - 1])
  {
    var n := |rows| - 1;
    assert forall i | 0 <= i < n :: rows[..n][i] == rows[i];
  }

  lemma PlacesCount(db: Story, chapter: DocId, rows: seq<DocId>)
    requires chapter in db.docs && rows != []
    ensures var n := |rows| - 1;
      |Places(db, chapter, rows)| ==
        |Places(db, chapter, rows[..n])| + if Shown(db, chapter, rows[n]) then 1 else 0
  {
    PlacesNext(db, chapter, rows);
  }

  // It is refused exactly when a row cannot be read, or a thousand decisions would be shown.
  lemma {:induction false} ContextIff(db: Story, chapter: DocId, rows: seq<DocId>, projected: map<DocId, Projection>)
    requires chapter in db.docs
    ensures Items(db, chapter, rows, projected).Some? <==> AllRows(db, rows) && |Places(db, chapter, rows)| < 1000
    ensures Items(db, chapter, rows, projected).Some? ==>
      |Items(db, chapter, rows, projected).value| == |Places(db, chapter, rows)|
  {
    if rows == [] {
      assert Places(db, chapter, rows) == {};
    } else {
      var n := |rows| - 1;
      ContextIff(db, chapter, rows[..n], projected);
      PlacesCount(db, chapter, rows);
      AllRowsNext(db, rows);
      if HeadReads(db, rows[n]) {
        RelevantIff(db, chapter, rows[n]);
      }
    }
  }

  // ---------------------------------------------------------------- documents

  // The text of a version; a record of decisions has none here.
  predicate Reading(db: Story, v: Option<VersionId>, text: string) {
    if v.Some? && v.value in db.versions && db.versions[v.value].content.Prose?
    then text == db.versions[v.value].content.text
    else text == ""
  }

  // A document as it is stored.
  predicate Stored(db: Story, d: DocId, entry: Entry)
    requires d in db.docs
  {
    && entry.id == d
    && entry.version == db.docs[d].head
    && entry.title == db.docs[d].title
    && entry.state == db.docs[d].state
    && Reading(db, db.docs[d].head, entry.content)
  }

  // A snapshot holds the chapter and its scenes in their order, as they are stored, and the
  // decisions that concern the chapter; it is refused when there are a thousand documents.
  lemma SnapshotHolds(db: Story, docs: seq<DocId>, rows: seq<DocId>) returns (at: seq<nat>)
    requires docs != [] && forall d | d in docs :: d in db.docs
    ensures var snap := SnapshotOf(db, docs, rows);
      && (snap.Some? <==>
            && |docs| < 1000
            && AllRows(db, rows)
            && |Places(db, docs[0], rows)| < 1000)
      && (snap.Some? ==>
            && snap.value.chapter == db.docs[docs[0]].slug
            && |snap.value.documents| == |docs|
            && (forall i | 0 <= i < |docs| :: Stored(db, docs[i], snap.value.documents[i]))
            && Holds(db, docs[0], rows, map[], snap.value.decisions, at))
  {
    ContextIff(db, docs[0], rows, map[]);
    at := [];
    if Items(db, docs[0], rows, map[]).Some? {
      at := ContextHolds(db, docs[0], rows, map[]);
    }
  }

  function Standings(final: bool): Standing {
    if final then Final else Accepted
  }

  // The candidate's document as adopting it would leave it.
  predicate Adopted(db: Story, d: DocId, v: VersionId, final: bool, entry: Entry)
    requires d in db.docs
  {
    && entry.id == d
    && entry.version == Some(v)
    && entry.title == db.docs[d].title
    && entry.state == Standings(final)
    && Reading(db, Some(v), entry.content)
  }

  // The snapshot of a candidate holds the candidate in its document's place, every other
  // document as it is stored, and the decisions with that document projected.
  lemma CandidateHolds(db: Story, docs: seq<DocId>, rows: seq<DocId>, v: VersionId, final: bool) returns (at: seq<nat>)
    requires docs != [] && Lists(db, docs[0], docs) && v in db.versions && SnapshotOf(db, docs, rows).Some?
    ensures var d, snap := db.versions[v].owner, CandidateOf(db, docs, rows, v, final);
      && (snap.Some? <==> !db.versions[v].state.Rejected? && d in docs)
      && (snap.Some? ==>
            && snap.value.chapter == db.docs[docs[0]].slug
            && |snap.value.documents| == |docs|
            && (forall i | 0 <= i < |docs| ::
                  if docs[i] == d then Adopted(db, d, v, final, snap.value.documents[i])
                  else Stored(db, docs[i], snap.value.documents[i]))
            && Holds(db, docs[0], rows, map[d := Projection(v, Standings(final))], snap.value.decisions, at))
  {
    var d, projected := db.versions[v].owner, map[db.versions[v].owner := Projection(v, Standings(final))];
    ItemsSame(db, docs[0], rows, map[], projected);
    assert d in docs ==> ProjectionsFine(db, docs[0], projected) by {
      if d in docs {
        var i :| 0 <= i < |docs| && docs[i] == d;
      }
    }
    at := ContextHolds(db, docs[0], rows, projected);
  }

  // ---------------------------------------------------------------- accepting

  // A version is accepted exactly when its document is no managed record, has the head the
  // caller saw, a candidate still rests on its base, and it was not rejected. It then is the
  // head, and the version and its document have the standing asked for; nothing else changes.
  lemma AcceptsIff(db: Story, d: DocId, v: VersionId, final: bool, expected: Option<VersionId>, base: Option<VersionId>)
    requires d in db.docs && Owns(db, d, v)
    ensures var t := AcceptVersion(db, d, v, final, expected, base);
      && (t.Some? <==>
            && db.docs[d].kind != Cognition
            && db.docs[d].kind != Decision
            && (expected.None? || db.docs[d].head == expected)
            && (db.versions[v].state != Candidate || base.None? || db.docs[d].head == base)
            && db.versions[v].state != Rejected)
      && (t.Some? ==>
            && t.value.docs == db.docs[d := db.docs[d].(head := Some(v), state := Standings(final))]
            && t.value.versions == db.versions[v := db.versions[v].(state := Standings(final))])
  {
  }
}
