// What a view shows of every record and what it withholds (lg_cli/narrative_view.py), in
// terms of the saved records alone.
module NarrativeContents {
  import opened Prelude
  import opened StoryStore
  import opened Knowledge
  import opened NarrativeView
  import K = KnowledgeProofs
  import W = KnowledgeWrites

  // ---------------------------------------------------------------- sources

  // The version is missing, is another document's, or it or its document was set aside.
  predicate Missing(db: Story, s: Source) {
    || s.document !in db.docs
    || !Owns(db, s.document, s.version)
    || db.docs[s.document].state in {Archived, Rejected}
    || db.versions[s.version].state in {Archived, Rejected}
  }

  predicate Taken(db: Story, s: Source) {
    && !Missing(db, s)
    && db.docs[s.document].state in {Accepted, Final}
    && db.versions[s.version].state in {Accepted, Final}
  }

  // Both were accepted, but another version is active by now.
  predicate Replaced(db: Story, s: Source) {
    Taken(db, s) && db.docs[s.document].head != Some(s.version)
  }

  // How the declared sources stand together: the worst of them decides.
  ghost predicate StandAs(db: Story, sources: seq<Source>, state: SourceState) {
    if exists s :: s in sources && Missing(db, s) then state == Unavailable
    else if exists s :: s in sources && Replaced(db, s) then state == Stale
    else if exists s :: s in sources && !Taken(db, s) then state == Pending
    else if sources == [] then state == Unbound
    else state == Current
  }

  lemma SourceStands(db: Story, s: Source)
    ensures var state := SourceStatus(db, s.document, s.version);
      && (state.Unavailable? <==> Missing(db, s))
      && (state.Stale? <==> Replaced(db, s))
      && (state.Pending? <==> !Missing(db, s) && !Taken(db, s))
  {
  }

  lemma SourcesStand(db: Story, sources: seq<Source>)
    ensures StandAs(db, sources, SourcesStatus(db, sources))
  {
    forall s: Source | s in sources
      ensures SourceStatus(db, s.document, s.version).Unavailable? <==> Missing(db, s)
      ensures SourceStatus(db, s.document, s.version).Stale? <==> Replaced(db, s)
      ensures SourceStatus(db, s.document, s.version).Pending? <==> !Missing(db, s) && !Taken(db, s)
    {
      SourceStands(db, s);
    }
  }

  // ---------------------------------------------------------------- what is shown

  // The record is one of this observer, and what it confirms holds at the position.
  predicate Holds(db: Story, audience: Audience, holder: Option<DocId>, position: int, d: DocId) {
    && HeadReads(db, d)
    && Head(db, d).topic.audience == audience
    && Head(db, d).topic.holder == holder
    && K.AppliesAt(Head(db, d), position)
  }

  // A statement is what its record confirms, with the topic, and how its sources stand.
  ghost predicate Tells(db: Story, s: Statement) {
    && HeadReads(db, s.record)
    && s.topic == Head(db, s.record).topic
    && Head(db, s.record).confirmed == Some(s.confirmed)
    && StandAs(db, s.confirmed.proposal.sources, s.source)
  }

  // Its sources all stand as accepted.
  ghost predicate Sound(db: Story, d: DocId)
    requires HeadReads(db, d) && Head(db, d).confirmed.Some?
  {
    forall s | s in Head(db, d).confirmed.value.proposal.sources :: W.StandsAccepted(db, s)
  }

  lemma ClassIff(db: Story, audience: Audience, holder: Option<DocId>, position: int, d: DocId)
    requires K.Good(db) && IsRecord(db, d) && (audience.ReaderMind? <==> holder.None?)
    ensures Holds(db, audience, holder, position, d) && Sound(db, d) <==>
      Selected(db, holder, position, d) && ClassOf(db, audience, holder, position, d).Visible?
    ensures Holds(db, audience, holder, position, d) && !Sound(db, d) <==>
      Selected(db, holder, position, d) && ClassOf(db, audience, holder, position, d).Withheld?
  {
    assert K.RecordOk(db, d);
    K.OkIsFine(db, d);
    if Head(db, d).confirmed.Some? {
      W.UsableIff(db, Head(db, d).confirmed.value.proposal.sources);
    }
  }

  // A statement of a record that holds for the observer, with sound sources.
  ghost predicate Stated(db: Story, audience: Audience, holder: Option<DocId>, position: int, s: Statement) {
    Tells(db, s) && Holds(db, audience, holder, position, s.record) && Sound(db, s.record)
  }

  // A record that holds without sound sources: only how they stand is told.
  ghost predicate Kept(db: Story, audience: Audience, holder: Option<DocId>, position: int, h: Held) {
    && Holds(db, audience, holder, position, h.record)
    && !Sound(db, h.record)
    && StandAs(db, Head(db, h.record).confirmed.value.proposal.sources, h.source)
  }

  lemma StatedRow(db: Story, audience: Audience, holder: Option<DocId>, position: int, rows: seq<DocId>,
                  statements: seq<Statement>, limit: nat, i: nat)
    requires K.Good(db) && Rows(db, holder, position, rows) && (audience.ReaderMind? <==> holder.None?)
    requires Shows(db, Only(db, audience, holder, position, rows, Visible), statements, limit) && i < |statements|
    ensures Stated(db, audience, holder, position, statements[i])
  {
    var j := OnlyAre(db, audience, holder, position, rows, Visible, i);
    ClassIff(db, audience, holder, position, rows[j]);
    SourcesStand(db, Head(db, rows[j]).confirmed.value.proposal.sources);
  }

  lemma KeptRow(db: Story, audience: Audience, holder: Option<DocId>, position: int, rows: seq<DocId>,
                withheld: seq<Held>, limit: nat, i: nat)
    requires K.Good(db) && Rows(db, holder, position, rows) && (audience.ReaderMind? <==> holder.None?)
    requires NarrativeView.Holds(db, Only(db, audience, holder, position, rows, Withheld), withheld, limit)
    requires i < |withheld|
    ensures Kept(db, audience, holder, position, withheld[i])
  {
    var j := OnlyAre(db, audience, holder, position, rows, Withheld, i);
    ClassIff(db, audience, holder, position, rows[j]);
    SourcesStand(db, Head(db, rows[j]).confirmed.value.proposal.sources);
  }

  // In every reachable story each statement of a view tells a record that holds for the
  // observer at the position, with sound sources; of a record that holds without them only
  // its identity and how its sources stand are told. Later starts come first.
  lemma ViewTells(start: Story, steps: seq<Step>, db: Story, audience: Audience, holder: Option<DocId>, position: int,
                  rows: seq<DocId>, view: View, limit: nat)
    requires K.Unwritten(start) && Runs(start, steps, db) && Rows(db, holder, position, rows)
    requires audience.ReaderMind? <==> holder.None?
    requires Scanned(db, audience, holder, position, rows, limit, view.counts, view.statements, view.withheld)
    ensures forall i | 0 <= i < |view.statements| :: Stated(db, audience, holder, position, view.statements[i])
    ensures forall i | 0 <= i < |view.withheld| :: Kept(db, audience, holder, position, view.withheld[i])
    ensures forall i, j | 0 <= i < j < |view.statements| ::
      Before(db, view.statements[i].record, view.statements[j].record)
  {
    K.RunGood(start, steps, db);
    forall i | 0 <= i < |view.statements|
      ensures Stated(db, audience, holder, position, view.statements[i])
    {
      StatedRow(db, audience, holder, position, rows, view.statements, limit, i);
    }
    forall i | 0 <= i < |view.withheld|
      ensures Kept(db, audience, holder, position, view.withheld[i])
    {
      KeptRow(db, audience, holder, position, rows, view.withheld, limit, i);
    }
    OnlyOrdered(db, audience, holder, position, rows, Visible);
  }

  // ---------------------------------------------------------------- completeness

  lemma {:induction false} DistinctSize<T>(s: seq<T>)
    requires Distinct(s)
    ensures |Elements(s)| == |s|
  {
    if s == [] {
      assert Elements(s) == {};
    } else {
      var init, last := s[..|s| - 1], s[|s| - 1];
      DistinctSize(init);
      assert s == init + [last];
      assert forall i | 0 <= i < |init| :: s[i] != s[|s| - 1];
      assert Elements(s) == Elements(init) + {last};
    }
  }

  // The rows of one class of a scan that saw every row, as a set.
  lemma ClassAll(db: Story, audience: Audience, holder: Option<DocId>, position: int, rows: seq<DocId>, class_: Class,
                 d: DocId)
    requires Rows(db, holder, position, rows) && |rows| < MAX_SCAN
    ensures d in Only(db, audience, holder, position, rows, class_) <==>
      Selected(db, holder, position, d) && ClassOf(db, audience, holder, position, d) == class_
  {
    var only := Only(db, audience, holder, position, rows, class_);
    if d in only {
      var i :| 0 <= i < |only| && only[i] == d;
      var j := OnlyAre(db, audience, holder, position, rows, class_, i);
    }
    if Selected(db, holder, position, d) && ClassOf(db, audience, holder, position, d) == class_ {
      OnlyAll(db, audience, holder, position, rows, class_, d);
    }
  }

  lemma OnlyDistinct(db: Story, audience: Audience, holder: Option<DocId>, position: int, rows: seq<DocId>,
                     class_: Class)
    requires Rows(db, holder, position, rows)
    ensures Distinct(Only(db, audience, holder, position, rows, class_))
  {
    OnlyOrdered(db, audience, holder, position, rows, class_);
    var only := Only(db, audience, holder, position, rows, class_);
    forall i, j | 0 <= i < j < |only|
      ensures only[i] != only[j]
    {
      assert Before(db, only[i], only[j]);
    }
  }

  // The records that hold for the observer at the position, with or without sound sources.
  ghost function Holding(db: Story, audience: Audience, holder: Option<DocId>, position: int, sound: bool): set<DocId> {
    set d | d in db.docs && Holds(db, audience, holder, position, d) && Sound(db, d) == sound
  }

  // A scan that saw every row counts exactly the records that hold, by their sources.
  lemma CountsTell(start: Story, steps: seq<Step>, db: Story, audience: Audience, holder: Option<DocId>, position: int,
                   rows: seq<DocId>, view: View, limit: nat)
    requires K.Unwritten(start) && Runs(start, steps, db) && Rows(db, holder, position, rows) && |rows| < MAX_SCAN
    requires audience.ReaderMind? <==> holder.None?
    requires Scanned(db, audience, holder, position, rows, limit, view.counts, view.statements, view.withheld)
    ensures view.counts.visible == |Holding(db, audience, holder, position, true)|
    ensures view.counts.withheld == |Holding(db, audience, holder, position, false)|
  {
    K.RunGood(start, steps, db);
    ClassSize(db, audience, holder, position, rows, Visible, true);
    ClassSize(db, audience, holder, position, rows, Withheld, false);
  }

  lemma ClassSize(db: Story, audience: Audience, holder: Option<DocId>, position: int, rows: seq<DocId>, class_: Class,
                  sound: bool)
    requires K.Good(db) && Rows(db, holder, position, rows) && |rows| < MAX_SCAN
    requires audience.ReaderMind? <==> holder.None?
    requires class_ == if sound then Visible else Withheld
    ensures |Only(db, audience, holder, position, rows, class_)| == |Holding(db, audience, holder, position, sound)|
  {
    var only, holding :=
      Only(db, audience, holder, position, rows, class_), Holding(db, audience, holder, position, sound);
    OnlyDistinct(db, audience, holder, position, rows, class_);
    DistinctSize(only);
    forall d
      ensures d in Elements(only) <==> d in holding
    {
      ClassAll(db, audience, holder, position, rows, class_, d);
      if IsRecord(db, d) {
        ClassIff(db, audience, holder, position, d);
      }
    }
    assert Elements(only) == holding;
  }

  // It lists a record as withheld, when the limit allows, exactly when the record holds
  // without sound sources.
  lemma WithheldIsComplete(start: Story, steps: seq<Step>, db: Story, audience: Audience, holder: Option<DocId>,
                           position: int, rows: seq<DocId>, view: View, limit: nat, d: DocId)
    requires K.Unwritten(start) && Runs(start, steps, db) && Rows(db, holder, position, rows) && |rows| < MAX_SCAN
    requires audience.ReaderMind? <==> holder.None?
    requires Scanned(db, audience, holder, position, rows, limit, view.counts, view.statements, view.withheld)
    requires view.counts.withheld <= limit && IsRecord(db, d)
    ensures (exists i :: 0 <= i < |view.withheld| && view.withheld[i].record == d) <==>
      Holds(db, audience, holder, position, d) && !Sound(db, d)
  {
    K.RunGood(start, steps, db);
    ClassIff(db, audience, holder, position, d);
    ClassAll(db, audience, holder, position, rows, Withheld, d);
    var withheld := Only(db, audience, holder, position, rows, Withheld);
    if d in withheld {
      var i :| 0 <= i < |withheld| && withheld[i] == d;
      assert view.withheld[i].record == d;
    }
  }
}
