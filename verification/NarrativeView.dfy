// What one observer holds at one position: lg_cli/narrative_view.py, `project`.
module NarrativeView {
  import opened Prelude
  import opened StoryStore
  import opened Knowledge
  import K = KnowledgeProofs
  import KS = KnowledgeStore

  const MAX_SCAN := 5000

  datatype Class = Invalid | NotConfirmed | Outside | Withheld | Visible

  datatype Counts = Counts(considered: nat, visible: nat, withheld: nat, unconfirmed: nat, outside: nat, invalid: nat)

  datatype Statement = Statement(record: DocId, topic: Topic, confirmed: Confirmation, source: SourceState)

  datatype Held = Held(record: DocId, source: SourceState)

  datatype View = View(statements: seq<Statement>, withheld: seq<Held>, counts: Counts, truncated: bool)

  // ---------------------------------------------------------------- the rows of the query

  predicate Selected(db: Story, holder: Option<DocId>, position: int, d: DocId) {
    && IsRecord(db, d) && db.docs[d].parent == holder
    && db.docs[d].sequence.Some? && db.docs[d].sequence.value <= position
    && !db.docs[d].state.Gone()
  }

  function Selection(db: Story, holder: Option<DocId>, position: int): set<DocId> {
    set d | d in db.docs && Selected(db, holder, position, d)
  }

  // Later starts first, then smaller identities.
  predicate Before(db: Story, d: DocId, e: DocId) {
    && d in db.docs && e in db.docs && db.docs[d].sequence.Some? && db.docs[e].sequence.Some?
    && var x, y := db.docs[d].sequence.value, db.docs[e].sequence.value; x > y || (x == y && d < e)
  }

  // The first rows of the ordered selection, at most as many as may be scanned.
  ghost predicate Rows(db: Story, holder: Option<DocId>, position: int, rows: seq<DocId>) {
    && (forall d | d in rows :: Selected(db, holder, position, d))
    && (forall i, j | 0 <= i < j < |rows| :: Before(db, rows[i], rows[j]))
    && |rows| <= MAX_SCAN
    && (forall d | Selected(db, holder, position, d) && d !in rows ::
          |rows| == MAX_SCAN && forall r | r in rows :: Before(db, r, d))
  }

  // ---------------------------------------------------------------- the meaning of one row

  ghost function ClassOf(db: Story, audience: Audience, holder: Option<DocId>, position: int, d: DocId): Class {
    if !SnapshotFine(db, d) then Invalid
    else
      var p := Head(db, d);
      if p.topic.audience != audience || p.topic.holder != holder || Some(p.topic.start) != db.docs[d].sequence
        || db.docs[d].parent != holder then Invalid
      else match p.confirmed
        case None => NotConfirmed
        case Some(c) =>
          if c.proposal.until.Some? && c.proposal.until.value <= position then Outside
          else if Usable(SourcesStatus(db, c.proposal.sources)) then Visible else Withheld
  }

  // The rows of one class, in order.
  ghost function Only(db: Story, audience: Audience, holder: Option<DocId>, position: int, rows: seq<DocId>,
                      class_: Class): seq<DocId> {
    if rows == [] then []
    else
      var last := rows[|rows| - 1];
      Only(db, audience, holder, position, rows[..|rows| - 1], class_) +
      (if ClassOf(db, audience, holder, position, last) == class_ then [last] else [])
  }

  function Shown(db: Story, d: DocId): Statement
    requires HeadReads(db, d) && Head(db, d).confirmed.Some?
  {
    var c := Head(db, d).confirmed.value;
    Statement(d, Head(db, d).topic, c, SourcesStatus(db, c.proposal.sources))
  }

  // `statements` are the first visible rows, as far as the limit goes.
  ghost predicate Shows(db: Story, visible: seq<DocId>, statements: seq<Statement>, limit: nat) {
    && |statements| == (if |visible| < limit then |visible| else limit)
    && forall i | 0 <= i < |statements| ::
      HeadReads(db, visible[i]) && Head(db, visible[i]).confirmed.Some? && statements[i] == Shown(db, visible[i])
  }

  // Of a withheld row only its record and how its sources stand are told.
  ghost predicate Holds(db: Story, withheld: seq<DocId>, held: seq<Held>, limit: nat) {
    && |held| == (if |withheld| < limit then |withheld| else limit)
    && forall i | 0 <= i < |held| ::
      && HeadReads(db, withheld[i]) && Head(db, withheld[i]).confirmed.Some?
      && held[i] == Held(withheld[i], SourcesStatus(db, Head(db, withheld[i]).confirmed.value.proposal.sources))
  }

  // ---------------------------------------------------------------- reading and projecting

  // What a scan has found so far.
  ghost function CountsOf(db: Story, audience: Audience, holder: Option<DocId>, position: int, rows: seq<DocId>): Counts
  {
    Counts(|rows|,
      |Only(db, audience, holder, position, rows, Visible)|, |Only(db, audience, holder, position, rows, Withheld)|,
      |Only(db, audience, holder, position, rows, NotConfirmed)|, |Only(db, audience, holder, position, rows, Outside)|,
      |Only(db, audience, holder, position, rows, Invalid)|)
  }

  ghost predicate Scanned(db: Story, audience: Audience, holder: Option<DocId>, position: int, rows: seq<DocId>,
                          limit: nat,
                          counts: Counts, statements: seq<Statement>, withheld: seq<Held>)
  {
    && counts == CountsOf(db, audience, holder, position, rows)
    && Shows(db, Only(db, audience, holder, position, rows, Visible), statements, limit)
    && Holds(db, Only(db, audience, holder, position, rows, Withheld), withheld, limit)
  }

  lemma OnlySnoc(db: Story, audience: Audience, holder: Option<DocId>, position: int, rows: seq<DocId>, d: DocId,
                 class_: Class)
    ensures Only(db, audience, holder, position, rows + [d], class_) ==
      if ClassOf(db, audience, holder, position, d) == class_
      then Only(db, audience, holder, position, rows, class_) + [d]
      else Only(db, audience, holder, position, rows, class_)
  {
    assert (rows + [d])[..|rows|] == rows;
  }

  // One more row of a class.
  function Counted(counts: Counts, class_: Class): Counts {
    var more := counts.(considered := counts.considered + 1);
    match class_
    case Invalid => more.(invalid := more.invalid + 1)
    case NotConfirmed => more.(unconfirmed := more.unconfirmed + 1)
    case Outside => more.(outside := more.outside + 1)
    case Withheld => more.(withheld := more.withheld + 1)
    case Visible => more.(visible := more.visible + 1)
  }

  lemma RowCounted(db: Story, audience: Audience, holder: Option<DocId>, position: int, rows: seq<DocId>, d: DocId,
                   class_: Class)
    requires ClassOf(db, audience, holder, position, d) == class_
    ensures CountsOf(db, audience, holder, position, rows + [d]) ==
      Counted(CountsOf(db, audience, holder, position, rows), class_)
    ensures Only(db, audience, holder, position, rows + [d], Visible) ==
      Only(db, audience, holder, position, rows, Visible) + if class_.Visible? then [d] else []
    ensures Only(db, audience, holder, position, rows + [d], Withheld) ==
      Only(db, audience, holder, position, rows, Withheld) + if class_.Withheld? then [d] else []
  {
    OnlySnoc(db, audience, holder, position, rows, d, Invalid);
    OnlySnoc(db, audience, holder, position, rows, d, NotConfirmed);
    OnlySnoc(db, audience, holder, position, rows, d, Outside);
    OnlySnoc(db, audience, holder, position, rows, d, Withheld);
    OnlySnoc(db, audience, holder, position, rows, d, Visible);
  }

  method ShowNext(db: Story, ghost visible: seq<DocId>, statements: seq<Statement>, limit: nat, d: DocId,
                  source: SourceState)
    returns (more: seq<Statement>)
    requires Shows(db, visible, statements, limit) && HeadReads(db, d) && Head(db, d).confirmed.Some?
    requires source == SourcesStatus(db, Head(db, d).confirmed.value.proposal.sources)
    ensures Shows(db, visible + [d], more, limit)
  {
    more := statements;
    if |statements| < limit {
      more := statements + [Statement(d, Head(db, d).topic, Head(db, d).confirmed.value, source)];
    }
  }

  method HoldNext(db: Story, ghost withheld: seq<DocId>, held: seq<Held>, limit: nat, d: DocId, source: SourceState)
    returns (more: seq<Held>)
    requires Holds(db, withheld, held, limit) && HeadReads(db, d) && Head(db, d).confirmed.Some?
    requires source == SourcesStatus(db, Head(db, d).confirmed.value.proposal.sources)
    ensures Holds(db, withheld + [d], more, limit)
  {
    more := held;
    if |held| < limit {
      more := held + [Held(d, source)];
    }
  }

  // One row: its class is counted once, and only a visible or withheld row is listed.
  method Scan(db: Story, audience: Audience, holder: Option<DocId>, position: int, limit: nat, rows: seq<DocId>,
              d: DocId,
              counts: Counts, statements: seq<Statement>, withheld: seq<Held>)
    returns (counts1: Counts, statements1: seq<Statement>, withheld1: seq<Held>)
    requires Selected(db, holder, position, d) && NumbersApart(db, d)
    requires Scanned(db, audience, holder, position, rows, limit, counts, statements, withheld)
    ensures Scanned(db, audience, holder, position, rows + [d], limit, counts1, statements1, withheld1)
  {
    var class_, source := Classify(db, audience, holder, position, d);
    statements1, withheld1 := statements, withheld;
    counts1 := Counted(counts, class_);
    match class_ {
      case Withheld =>
        withheld1 := HoldNext(db, Only(db, audience, holder, position, rows, Withheld), withheld, limit, d, source);
      case Visible =>
        ghost var visible := Only(db, audience, holder, position, rows, Visible);
        statements1 := ShowNext(db, visible, statements, limit, d, source);
      case _ =>
    }
    RowCounted(db, audience, holder, position, rows, d, class_);
  }

  // Version numbers of one document are unique in the database.
  method Project(db: Story, audience: Audience, holder: Option<DocId>, position: int, limit: nat, rows: seq<DocId>,
                 total: nat)
    returns (view: View)
    requires Rows(db, holder, position, rows) && forall d | d in rows :: NumbersApart(db, d)
    ensures Scanned(db, audience, holder, position, rows, limit, view.counts, view.statements, view.withheld)
    ensures view.truncated <==> total > |rows| || view.counts.visible > limit || view.counts.withheld > limit
  {
    var counts := Counts(0, 0, 0, 0, 0, 0);
    var statements: seq<Statement> := [];
    var withheld: seq<Held> := [];
    for i := 0 to |rows|
      invariant Scanned(db, audience, holder, position, rows[..i], limit, counts, statements, withheld)
    {
      counts, statements, withheld :=
        Scan(db, audience, holder, position, limit, rows[..i], rows[i], counts, statements, withheld);
      assert rows[..i] + [rows[i]] == rows[..i + 1];
    }
    assert rows[..|rows|] == rows;
    var truncated := total > counts.considered || counts.visible > |statements| || counts.withheld > |withheld|;
    return View(statements, withheld, counts, truncated);
  }

  method Classify(db: Story, audience: Audience, holder: Option<DocId>, position: int, d: DocId)
    returns (class_: Class, source: SourceState)
    requires Selected(db, holder, position, d) && NumbersApart(db, d)
    ensures class_ == ClassOf(db, audience, holder, position, d)
    ensures class_.Visible? || class_.Withheld? ==>
      HeadReads(db, d) && Head(db, d).confirmed.Some?
        && source == SourcesStatus(db, Head(db, d).confirmed.value.proposal.sources)
  {
    source := Unbound;
    var fine := KS.Snapshot(db, d);
    if !fine {
      return Invalid, source;
    }
    var p := Head(db, d);
    if p.topic.audience != audience || p.topic.holder != holder || Some(p.topic.start) != db.docs[d].sequence
      || db.docs[d].parent != holder {
      return Invalid, source;
    }
    if p.confirmed.None? {
      return NotConfirmed, source;
    }
    var until := p.confirmed.value.proposal.until;
    if until.Some? && position >= until.value {
      return Outside, source;
    }
    source := SourcesStatus(db, p.confirmed.value.proposal.sources);
    return if Usable(source) then Visible else Withheld, source;
  }

  // ---------------------------------------------------------------- main results

  // The counts partition the rows considered.
  lemma {:induction false} CountsPartition(db: Story, audience: Audience, holder: Option<DocId>, position: int,
                                           rows: seq<DocId>)
    ensures |rows| ==
      |Only(db, audience, holder, position, rows, Visible)| + |Only(db, audience, holder, position, rows, Withheld)|
      + |Only(db, audience, holder, position, rows, NotConfirmed)|
        + |Only(db, audience, holder, position, rows, Outside)|
      + |Only(db, audience, holder, position, rows, Invalid)|
  {
    if rows != [] {
      CountsPartition(db, audience, holder, position, rows[..|rows| - 1]);
    }
  }

  lemma {:induction false} OnlyAre(db: Story, audience: Audience, holder: Option<DocId>, position: int,
                                   rows: seq<DocId>, class_: Class, i: nat)
    returns (j: nat)
    requires i < |Only(db, audience, holder, position, rows, class_)|
    ensures j < |rows| && rows[j] == Only(db, audience, holder, position, rows, class_)[i] && i <= j
    ensures ClassOf(db, audience, holder, position, rows[j]) == class_
  {
    var init := rows[..|rows| - 1];
    if i < |Only(db, audience, holder, position, init, class_)| {
      j := OnlyAre(db, audience, holder, position, init, class_, i);
    } else {
      OnlyShorter(db, audience, holder, position, init, class_);
      j := |init|;
    }
  }

  lemma {:induction false} OnlyShorter(db: Story, audience: Audience, holder: Option<DocId>, position: int,
                                       rows: seq<DocId>, class_: Class)
    ensures |Only(db, audience, holder, position, rows, class_)| <= |rows|
  {
    if rows != [] {
      OnlyShorter(db, audience, holder, position, rows[..|rows| - 1], class_);
    }
  }

  lemma {:induction false} OnlyAll(db: Story, audience: Audience, holder: Option<DocId>, position: int,
                                   rows: seq<DocId>, class_: Class, d: DocId)
    requires d in rows && ClassOf(db, audience, holder, position, d) == class_
    ensures d in Only(db, audience, holder, position, rows, class_)
  {
    var init := rows[..|rows| - 1];
    if d in init {
      OnlyAll(db, audience, holder, position, init, class_, d);
    } else {
      assert d == rows[|rows| - 1];
    }
  }

  ghost predicate InOrder(db: Story, rows: seq<DocId>) {
    forall i, j | 0 <= i < j < |rows| :: Before(db, rows[i], rows[j])
  }

  // Rows of one class keep their order.
  lemma {:induction false} OnlyOrdered(db: Story, audience: Audience, holder: Option<DocId>, position: int,
                                       rows: seq<DocId>, class_: Class)
    requires InOrder(db, rows)
    ensures InOrder(db, Only(db, audience, holder, position, rows, class_))
  {
    if rows != [] {
      var init := rows[..|rows| - 1];
      OnlyOrdered(db, audience, holder, position, init, class_);
      var only := Only(db, audience, holder, position, init, class_);
      forall i | 0 <= i < |only|
        ensures Before(db, only[i], rows[|rows| - 1])
      {
        var _ := OnlyAre(db, audience, holder, position, init, class_, i);
      }
    }
  }

  // In every reachable story no two statements of a view answer the same question.
  lemma OneStatementPerKey(start: Story, steps: seq<Step>, db: Story, audience: Audience, holder: Option<DocId>,
                           position: int,
                           rows: seq<DocId>, view: View, limit: nat, i: nat, j: nat)
    requires K.Unwritten(start) && Runs(start, steps, db) && Rows(db, holder, position, rows)
    requires Shows(db, Only(db, audience, holder, position, rows, Visible), view.statements, limit)
    requires i < j < |view.statements|
    ensures view.statements[i].topic.key != view.statements[j].topic.key
  {
    var visible := Only(db, audience, holder, position, rows, Visible);
    OnlyOrdered(db, audience, holder, position, rows, Visible);
    assert Before(db, visible[i], visible[j]);
    var x := OnlyAre(db, audience, holder, position, rows, Visible, i);
    var y := OnlyAre(db, audience, holder, position, rows, Visible, j);
    K.NeverContradicts(start, steps, db, visible[i], visible[j], position);
    VisibleApplies(db, audience, holder, position, visible[i]);
    VisibleApplies(db, audience, holder, position, visible[j]);
  }

  lemma VisibleApplies(db: Story, audience: Audience, holder: Option<DocId>, position: int, d: DocId)
    requires Selected(db, holder, position, d) && ClassOf(db, audience, holder, position, d).Visible?
    ensures HeadReads(db, d) && K.AppliesAt(Head(db, d), position)
    ensures Head(db, d).topic.audience == audience && Head(db, d).topic.holder == holder
  {
  }

  // In every reachable story no row is invalid for its own observer.
  lemma NothingInvalid(start: Story, steps: seq<Step>, db: Story, audience: Audience, holder: Option<DocId>,
                       position: int, rows: seq<DocId>)
    requires K.Unwritten(start) && Runs(start, steps, db) && Rows(db, holder, position, rows)
    requires audience.ReaderMind? <==> holder.None?
    ensures Only(db, audience, holder, position, rows, Invalid) == []
  {
    K.RunGood(start, steps, db);
    if 0 < |Only(db, audience, holder, position, rows, Invalid)| {
      var j := OnlyAre(db, audience, holder, position, rows, Invalid, 0);
      ReadableRow(db, audience, holder, position, rows[j]);
    }
  }

  lemma ReadableRow(db: Story, audience: Audience, holder: Option<DocId>, position: int, d: DocId)
    requires K.Good(db) && Selected(db, holder, position, d) && (audience.ReaderMind? <==> holder.None?)
    ensures !ClassOf(db, audience, holder, position, d).Invalid?
  {
    assert K.RecordOk(db, d);
    K.OkIsFine(db, d);
  }

  // The statement of a record is due: it applies to the observer, with usable sources.
  ghost predicate Due(db: Story, audience: Audience, holder: Option<DocId>, position: int, d: DocId) {
    && HeadReads(db, d) && Head(db, d).topic.audience == audience && Head(db, d).topic.holder == holder
    && K.AppliesAt(Head(db, d), position) && Usable(SourcesStatus(db, Head(db, d).confirmed.value.proposal.sources))
  }

  lemma DueIsVisible(db: Story, audience: Audience, holder: Option<DocId>, position: int, d: DocId)
    requires K.Good(db) && IsRecord(db, d) && (audience.ReaderMind? <==> holder.None?)
    ensures Due(db, audience, holder, position, d) <==>
      Selected(db, holder, position, d) && ClassOf(db, audience, holder, position, d).Visible?
  {
    assert K.RecordOk(db, d);
    K.OkIsFine(db, d);
  }

  // A scan that saw every row shows every due statement when the limit allows, and
  // never anything else.
  lemma ViewIsComplete(start: Story, steps: seq<Step>, db: Story, audience: Audience, holder: Option<DocId>,
                       position: int,
                       rows: seq<DocId>, view: View, limit: nat, d: DocId)
    requires K.Unwritten(start) && Runs(start, steps, db) && Rows(db, holder, position, rows) && |rows| < MAX_SCAN
    requires audience.ReaderMind? <==> holder.None?
    requires Scanned(db, audience, holder, position, rows, limit, view.counts, view.statements, view.withheld)
    requires view.counts.visible <= limit && IsRecord(db, d)
    ensures (exists i :: 0 <= i < |view.statements| && view.statements[i].record == d) <==>
      Due(db, audience, holder, position, d)
  {
    K.RunGood(start, steps, db);
    DueIsVisible(db, audience, holder, position, d);
    ShownIffVisible(db, audience, holder, position, rows, view.statements, limit, d);
  }

  lemma ShownIffVisible(db: Story, audience: Audience, holder: Option<DocId>, position: int, rows: seq<DocId>,
                        statements: seq<Statement>, limit: nat, d: DocId)
    requires Rows(db, holder, position, rows) && |rows| < MAX_SCAN
    requires Shows(db, Only(db, audience, holder, position, rows, Visible), statements, limit)
    requires |Only(db, audience, holder, position, rows, Visible)| <= limit
    ensures (exists i :: 0 <= i < |statements| && statements[i].record == d) <==>
      Selected(db, holder, position, d) && ClassOf(db, audience, holder, position, d).Visible?
  {
    var visible := Only(db, audience, holder, position, rows, Visible);
    if i :| 0 <= i < |statements| && statements[i].record == d {
      var _ := OnlyAre(db, audience, holder, position, rows, Visible, i);
    }
    if Selected(db, holder, position, d) && ClassOf(db, audience, holder, position, d).Visible? {
      OnlyAll(db, audience, holder, position, rows, Visible, d);
      var i :| 0 <= i < |visible| && visible[i] == d;
      assert statements[i].record == d;
    }
  }
}
