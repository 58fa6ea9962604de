// Writer and reader agree: every checkpoint that any run saves is accepted by the
// strict reader when the session is reopened.
module NativeCheckpointSafe {
  import opened Prelude
  import opened ExpertReviews
  import opened Checkpoint
  import opened NativeSession
  import opened NativeHistory
  import P = ExpertReviewsProofs

  // ---------------------------------------------------------------- records the reader accepts

  ghost predicate NamesSame(r: Records, q: Records) {
    r.Keys == q.Keys && forall c | c in r :: Names(q[c]) == Names(r[c])
  }

  ghost predicate ChildrenAccepted(r: Records) {
    forall c, i | Has(r, c, i) :: ChildAccepted(Kid(r, c, i))
  }

  lemma FirstExperts(r: Records, calls: set<CallId>)
    requires NoneShared(r, calls) && calls <= r.Keys && forall c | c in calls :: |r[c].children| >= 1
    ensures |calls| <= |ExpertsAmong(r, calls)|
    decreases calls
  {
    if calls != {} {
      var c :| c in calls;
      FirstExperts(r, calls - {c});
      var e := r[c].children[0].expert;
      assert Has(r, c, 0);
      assert e in ExpertsAmong(r, calls);
      assert e !in ExpertsAmong(r, calls - {c}) by {
        if e in ExpertsAmong(r, calls - {c}) {
          var d, j :| d in calls - {c} && d in r && 0 <= j < |r[d].children| && r[d].children[j].expert == e;
          assert Has(r, d, j);
        }
      }
      SubsetSize(ExpertsAmong(r, calls - {c}) + {e}, ExpertsAmong(r, calls));
    }
  }

  // The budget of a turn bounds what a checkpoint may hold.
  lemma BudgetFits(s: State)
    requires Inv(s)
    ensures |s.records| <= 2 && NoneShared(s.records, s.records.Keys)
    ensures |ExpertsAmong(s.records, s.records.Keys)| <= 2
    ensures ChildrenAccepted(s.records)
  {
    var experts := ExpertsAmong(s.records, s.records.Keys);
    forall e | e in experts
      ensures e in s.used
    {
      var c, i :| c in s.records && 0 <= i < |s.records[c].children| && s.records[c].children[i].expert == e;
      assert Has(s.records, c, i) && e == Kid(s.records, c, i).expert;
      assert (s.records[c].parentTurn, e) in s.granted;
    }
    if s.records == map[] {
      assert experts == {};
    } else {
      var c :| c in s.records;
      assert s.parentTurn == Some(s.records[c].parentTurn);
      SubsetSize(experts, s.used);
    }
    FirstExperts(s.records, s.records.Keys);
    assert |s.records| == |s.records.Keys|;
  }

  ghost predicate AllMatch(messages: seq<Item>, r: Records) {
    forall c | c in r :: Matches(messages, c, Names(r[c]))
  }

  lemma AcceptedNow(m: seq<Item>, pending: seq<CallId>, s: State)
    requires Inv(s) && HistoryAccepted(m, pending) && AllMatch(m, s.records)
    requires forall c | c in s.records :: c in pending
    ensures Accepted(Image(m, pending, s.records))
  {
    BudgetFits(s);
    forall c | c in s.records
      ensures RecordAccepted(Image(m, pending, s.records), c, s.records[c])
    {
      forall i | 0 <= i < |s.records[c].children|
        ensures ChildAccepted(s.records[c].children[i])
      {
        assert Has(s.records, c, i);
      }
    }
  }

  lemma SharedNames(r: Records, q: Records)
    requires NamesSame(r, q)
    ensures NoneShared(r, r.Keys) ==> NoneShared(q, q.Keys)
    ensures ExpertsAmong(r, r.Keys) == ExpertsAmong(q, q.Keys)
  {
    forall c, i | Has(q, c, i)
      ensures Has(r, c, i) && Kid(q, c, i).expert == Kid(r, c, i).expert
    {
      assert Names(q[c])[i] == Names(r[c])[i];
    }
    forall c, i | Has(r, c, i)
      ensures Has(q, c, i) && Kid(q, c, i).expert == Kid(r, c, i).expert
    {
      assert Names(q[c])[i] == Names(r[c])[i];
    }
    forall e
      ensures e in ExpertsAmong(r, r.Keys) <==> e in ExpertsAmong(q, q.Keys)
    {
      if e in ExpertsAmong(r, r.Keys) {
        var c, i :| c in r && 0 <= i < |r[c].children| && r[c].children[i].expert == e;
        assert Has(r, c, i) && Has(q, c, i) && q[c].children[i].expert == e;
      }
      if e in ExpertsAmong(q, q.Keys) {
        var c, i :| c in q && 0 <= i < |q[c].children| && q[c].children[i].expert == e;
        assert Has(q, c, i) && Has(r, c, i) && r[c].children[i].expert == e;
      }
    }
  }

  // An accepted image stays accepted when only its children's verdicts change.
  lemma AcceptedSame(image: Image, q: Records)
    requires Accepted(image) && NamesSame(image.records, q) && ChildrenAccepted(q)
    ensures Accepted(image.(records := q))
  {
    SharedNames(image.records, q);
    assert |q| == |q.Keys| && |image.records| == |image.records.Keys|;
    forall c | c in q
      ensures RecordAccepted(image.(records := q), c, q[c])
    {
      assert RecordAccepted(image, c, image.records[c]);
      forall i | 0 <= i < |q[c].children|
        ensures ChildAccepted(q[c].children[i])
      {
        assert Has(q, c, i);
      }
    }
  }

  lemma InterruptNames(r: Records)
    ensures NamesSame(r, InterruptRecords(r))
    ensures ChildrenAccepted(r) ==> ChildrenAccepted(InterruptRecords(r))
  {
    var q := InterruptRecords(r);
    forall c | c in r
      ensures Names(q[c]) == Names(r[c])
    {
      assert forall i | 0 <= i < |r[c].children| :: q[c].children[i] == Interrupted(r[c].children[i]);
    }
    forall c, i | Has(q, c, i)
      ensures Has(r, c, i) && Kid(q, c, i) == Interrupted(Kid(r, c, i))
    {
    }
  }

  // ---------------------------------------------------------------- the invariant

  // What holds whenever the history is intact.
  ghost predicate Core(s: Session) {
    && Inv(s.reviews)
    && (s.saved.Some? ==> Accepted(s.saved.value))
    && HistoryAccepted(s.messages, s.pending)
    && (forall c | c in s.reviews.records && c in s.pending :: Matches(s.messages, c, Names(s.reviews.records[c])))
  }

  ghost predicate Registered(s: Session) {
    forall c | c in s.reviews.records :: c in s.pending
  }

  // At most the current call is inside `execute`.
  ghost predicate OneExecution(s: Session) {
    forall c | c in s.reviews.progress && (s.reviews.progress[c].Gathering? || s.reviews.progress[c].Judged?) ::
      s.phase.Reviewing? && s.phase.at < |s.phase.calls| && c == Current(s)
  }

  predicate InBatch(phase: Phase) {
    phase.Calling? || phase.Reviewing? || phase.Delivering?
  }

  // An expert call that settlement resolved early: the session is broken or the
  // task is about to stop.
  predicate SettledEarly(s: Session, call: ToolCall) {
    s.reviews.records == map[] && call.name == DELEGATE && (s.broken || (s.phase.Reviewing? && s.phase.cancelled))
  }

  ghost predicate BatchOk(s: Session, calls: seq<ToolCall>, at: nat) {
    && (forall i, j | 0 <= i < j < |calls| :: calls[i].id != calls[j].id)
    && (forall id | id in s.pending :: exists j :: at <= j < |calls| && calls[j].id == id)
    && (forall j | at <= j < |calls| :: Call(calls[j]) in s.messages)
    && (forall j | at <= j < |calls| :: calls[j].id in s.pending || SettledEarly(s, calls[j]))
  }

  ghost predicate PhaseOk(s: Session) {
    && OneExecution(s)
    && (!s.phase.Unwinding? ==> Registered(s))
    && (s.phase.Thinking? ==> s.pending == [])
    && (InBatch(s.phase) ==> s.phase.at < |s.phase.calls| && BatchOk(s, s.phase.calls, s.phase.at))
    && (s.phase.Down? ==> s.reviews.records == map[] && s.messages == [] && s.pending == [])
  }

  // A doubled result: it is never saved, because nothing saves in this state.
  ghost predicate Spoiled(s: Session) {
    && Inv(s.reviews)
    && (s.saved.Some? ==> Accepted(s.saved.value))
    && s.broken && s.reviews.records == map[]
    && (s.phase.Unwinding? || s.phase.Idle?)
    && OneExecution(s)
  }

  ghost predicate Safe(s: Session) {
    (Core(s) && PhaseOk(s)) || Spoiled(s)
  }

  // ---------------------------------------------------------------- saving

  lemma SaveKeepsCore(s: Session, io: Io)
    requires Core(s) && Registered(s)
    ensures Core(Save(s, io))
  {
    AcceptedNow(s.messages, s.pending, s.reviews);
  }

  // A step of the expert protocol that keeps calls and experts.
  lemma ReviewsKeepCore(s: Session, r: State)
    requires Core(s) && Inv(r) && NamesSame(s.reviews.records, r.records)
    ensures Core(s.(reviews := r))
    ensures Registered(s) ==> Registered(s.(reviews := r))
  {
  }

  // ---------------------------------------------------------------- settlement

  function Only(r: State, ids: seq<CallId>): State {
    r.(records := map c | c in r.records && c in ids :: r.records[c])
  }

  lemma OnlyKeeps(r: State, ids: seq<CallId>)
    requires Inv(r) && r.live == {}
    ensures Inv(Only(r, ids))
  {
    var t := Only(r, ids);
    forall c, i | Has(t.records, c, i)
      ensures Has(r.records, c, i) && Kid(t.records, c, i) == Kid(r.records, c, i)
    {
    }
  }

  lemma SettledKeeps(s: Session)
    requires Core(s)
    ensures Core(Settled(s)) && Registered(Settled(s))
    ensures Settled(s).reviews.progress == s.reviews.progress
    ensures Settled(s).reviews.live == {}
    ensures Settled(s).reviews.records.Keys <= s.reviews.records.Keys
    ensures forall c | c in s.reviews.records && c in s.pending :: c in Settled(s).reviews.records
  {
    P.RevokeKeeps(s.reviews);
    var r := Revoke(s.reviews);
    OnlyKeeps(r, s.pending);
    var only := Only(r, s.pending);
    P.SettleKeeps(only);
    InterruptNames(only.records);
    var s1 := s.(reviews := only);
    assert Core(s1) && Registered(s1);
    ReviewsKeepCore(s1, Settle(only));
    assert Settled(s) == s1.(reviews := Settle(only));
  }

  lemma ResolvedKeeps(s: Session)
    requires Core(s) && Registered(s) && s.reviews.live == {}
    ensures Core(Resolved(s)) && Resolved(s).reviews.records == map[]
    ensures forall id :: id in Resolved(s).pending <==> id in s.pending && id !in s.reviews.records
  {
    SettlementResolves(s.messages, s.pending, s.reviews.records);
    OnlyKeeps(s.reviews, []);
    assert Only(s.reviews, []).records == map[];
    assert Resolved(s).reviews == Only(s.reviews, []);
  }

  // What settlement leaves, whether or not its saves succeed.
  lemma SettleLeaves(s: Session, first: Io, second: Io)
    requires Core(s)
    ensures var t := SettleInterrupted(s, first, second);
      && Core(t) && Registered(t)
      && t.phase == s.phase && t.reviews.progress == s.reviews.progress && t.reviews.live == {}
      && s.messages <= t.messages
      && (s.broken || SettleRaises(first, second) ==> t.broken)
      && (first.Raises() || t.reviews.records == map[])
      && (first.Raises() ==> t.pending == s.pending)
      && (!first.Raises() ==> forall id :: id in t.pending <==> id in s.pending && id !in s.reviews.records)
      && (t.reviews.records.Keys <= s.reviews.records.Keys)
  {
    SettledKeeps(s);
    SaveKeepsCore(Settled(s), first);
    var s1 := Save(Settled(s), first);
    if !first.Raises() {
      ResolvedKeeps(s1);
      SaveKeepsCore(Resolved(s1), second);
    }
  }

  // ---------------------------------------------------------------- handing over

  lemma LaunchNames(r: State, call: CallId)
    requires Inv(r) && MayLaunch(r, call)
    ensures Inv(Launch(r, call))
  {
    P.LaunchKeeps(r, call);
  }

  lemma HandCore(s: Session, round: nat, calls: seq<ToolCall>, at: nat, t: Session)
    requires at < |calls| && t == Hand(s, round, calls, at)
    requires Core(s) && Registered(s)
    ensures Core(t) && Registered(t)
    ensures t.pending == s.pending && t.messages == s.messages && t.broken == s.broken
  {
    if calls[at].name == DELEGATE && MayLaunch(s.reviews, calls[at].id) {
      LaunchNames(s.reviews, calls[at].id);
    }
  }

  lemma HandPhase(s: Session, round: nat, calls: seq<ToolCall>, at: nat, t: Session)
    requires at < |calls| && t == Hand(s, round, calls, at) && Registered(t)
    requires forall c | c in s.reviews.progress :: s.reviews.progress[c].Draining? || s.reviews.progress[c].Over?
    requires BatchOk(s.(phase := Calling(round, calls, at)), calls, at)
    ensures PhaseOk(t)
  {
  }

  lemma HandSafe(s: Session, round: nat, calls: seq<ToolCall>, at: nat)
    requires Core(s) && Registered(s) && at <= |calls|
    requires forall c | c in s.reviews.progress :: s.reviews.progress[c].Draining? || s.reviews.progress[c].Over?
    requires at == |calls| ==> s.pending == []
    requires at < |calls| ==> BatchOk(s.(phase := Calling(round, calls, at)), calls, at)
    ensures Safe(Hand(s, round, calls, at))
  {
    if at < |calls| {
      HandCore(s, round, calls, at, Hand(s, round, calls, at));
      HandPhase(s, round, calls, at, Hand(s, round, calls, at));
    }
  }

  // ---------------------------------------------------------------- a call returns

  lemma AppendOutputMatches(s: Session, id: CallId, data: Data)
    requires Core(s) && id in s.pending
    ensures forall c | c in s.reviews.records && c in s.pending && c != id ::
      Matches(s.messages + [Output(id, data)], c, Names(s.reviews.records[c]))
  {
    forall c | c in s.reviews.records && c in s.pending && c != id
      ensures Matches(s.messages + [Output(id, data)], c, Names(s.reviews.records[c]))
    {
      ItemsOfSnoc(s.messages, Output(id, data), c);
    }
  }

  // The history and the records after a result arrived and its record was dropped.
  function Returned(s: Session, id: CallId, data: Data): Session {
    s.(messages := s.messages + [Output(id, data)], pending := RemoveFirst(s.pending, id),
       reviews := Finish(s.reviews, id))
  }

  lemma ReturnedKeeps(s: Session, id: CallId, data: Data)
    requires Core(s) && Registered(s) && id in s.pending && id !in s.reviews.live
    ensures Core(Returned(s, id, data)) && Registered(Returned(s, id, data))
    ensures forall x :: x in Returned(s, id, data).pending <==> x in s.pending && x != id
  {
    OutputResolves(s.messages, s.pending, id, data);
    AppendOutputMatches(s, id, data);
    P.FinishKeeps(s.reviews, id);
    var t := Returned(s, id, data);
    forall c | c in t.reviews.records
      ensures c in t.pending && Matches(t.messages, c, Names(t.reviews.records[c]))
    {
      assert c in s.reviews.records && c != id;
    }
  }

  lemma SomeElement(ids: seq<CallId>)
    requires ids != []
    ensures exists x :: x in ids
  {
    assert ids[0] in ids;
  }

  lemma NoElements(ids: seq<CallId>)
    requires forall x :: x !in ids
    ensures ids == []
  {
    if ids != [] {
      SomeElement(ids);
    }
  }

  lemma NextInBatch(s: Session, t: Session, calls: seq<ToolCall>, at: nat)
    requires at < |calls| && BatchOk(s, calls, at) && !s.phase.Reviewing?
    requires s.messages <= t.messages && (s.broken ==> t.broken)
    requires s.reviews.records == map[] ==> t.reviews.records == map[]
    requires forall x :: x in t.pending <==> x in s.pending && x != calls[at].id
    ensures at + 1 < |calls| ==> BatchOk(t, calls, at + 1)
    ensures at + 1 == |calls| ==> t.pending == []
  {
    if at + 1 == |calls| {
      forall x
        ensures x !in t.pending
      {
        if x in s.pending {
          var j :| at <= j < |calls| && calls[j].id == x;
          assert j == at;
        }
      }
      NoElements(t.pending);
    } else {
      forall id | id in t.pending
        ensures exists j :: at + 1 <= j < |calls| && calls[j].id == id
      {
        var j :| at <= j < |calls| && calls[j].id == id;
        assert j != at;
      }
      assert forall i | 0 <= i < |s.messages| :: t.messages[i] == s.messages[i];
      forall j | at + 1 <= j < |calls|
        ensures Call(calls[j]) in t.messages
        ensures calls[j].id in t.pending || SettledEarly(t, calls[j])
      {
        assert calls[j].id != calls[at].id;
      }
    }
  }

  // A result for a call that settlement already resolved spoils the history, unsaved.
  lemma DoubledResult(s: Session, data: Data, io: Io)
    requires Core(s) && PhaseOk(s) && (s.phase.Calling? || s.phase.Delivering?)
    requires s.phase.calls[s.phase.at].id !in s.pending
    ensures Spoiled(Complete(s, data, io))
  {
    assert SettledEarly(s, s.phase.calls[s.phase.at]);
  }

  // Outside `execute` nothing is live.
  lemma NothingLive(s: Session)
    requires Inv(s.reviews) && OneExecution(s) && !s.phase.Reviewing?
    ensures s.reviews.live == {}
    ensures forall c | c in s.reviews.progress :: s.reviews.progress[c].Draining? || s.reviews.progress[c].Over?
  {
  }

  lemma AfterReturn(s: Session, t: Session, round: nat, calls: seq<ToolCall>, at: nat)
    requires at < |calls| && BatchOk(s, calls, at) && !s.phase.Reviewing?
    requires Core(t) && Registered(t)
    requires forall c | c in t.reviews.progress :: t.reviews.progress[c].Draining? || t.reviews.progress[c].Over?
    requires s.messages <= t.messages && (s.broken ==> t.broken)
    requires s.reviews.records == map[] ==> t.reviews.records == map[]
    requires forall x :: x in t.pending <==> x in s.pending && x != calls[at].id
    ensures Safe(Hand(t, round, calls, at + 1))
  {
    NextInBatch(s, t.(phase := Calling(round, calls, at)), calls, at);
    HandSafe(t, round, calls, at + 1);
  }

  lemma CompleteIs(s: Session, data: Data, io: Io, id: CallId)
    requires (s.phase.Calling? || s.phase.Delivering?) && s.phase.at < |s.phase.calls|
    requires id == s.phase.calls[s.phase.at].id && id in s.pending && id !in s.reviews.live
    ensures var saved := Save(Returned(s, id, data), io);
      Complete(s, data, io) == if io.Raises() then saved.(phase := Unwinding)
        else Hand(saved, s.phase.round, s.phase.calls, s.phase.at + 1)
  {
  }

  lemma ReturnedSaved(s: Session, data: Data, io: Io, id: CallId)
    requires Core(s) && Registered(s) && id in s.pending && id !in s.reviews.live
    ensures var t := Save(Returned(s, id, data), io);
      && Core(t) && Registered(t)
      && s.messages <= t.messages && (s.broken ==> t.broken)
      && (s.reviews.records == map[] ==> t.reviews.records == map[])
      && t.reviews.progress == s.reviews.progress
      && forall x :: x in t.pending <==> x in s.pending && x != id
  {
    ReturnedKeeps(s, id, data);
    SaveKeepsCore(Returned(s, id, data), io);
  }

  lemma StoppedSafe(t: Session)
    requires Core(t)
    requires forall c | c in t.reviews.progress :: t.reviews.progress[c].Draining? || t.reviews.progress[c].Over?
    ensures Safe(t.(phase := Unwinding))
  {
    var u := t.(phase := Unwinding);
    assert Core(u);
    assert PhaseOk(u);
  }

  lemma SavedGoesOn(s: Session, t: Session, io: Io, round: nat, calls: seq<ToolCall>, at: nat)
    requires at < |calls| && BatchOk(s, calls, at) && !s.phase.Reviewing?
    requires Core(t) && Registered(t)
    requires forall c | c in t.reviews.progress :: t.reviews.progress[c].Draining? || t.reviews.progress[c].Over?
    requires s.messages <= t.messages && (s.broken ==> t.broken)
    requires s.reviews.records == map[] ==> t.reviews.records == map[]
    requires forall x :: x in t.pending <==> x in s.pending && x != calls[at].id
    ensures Safe(if io.Raises() then t.(phase := Unwinding) else Hand(t, round, calls, at + 1))
  {
    if io.Raises() {
      StoppedSafe(t);
    } else {
      AfterReturn(s, t, round, calls, at);
    }
  }

  lemma CompleteSaves(s: Session, data: Data, io: Io, round: nat, calls: seq<ToolCall>, at: nat)
    requires at < |calls| && (s.phase == Calling(round, calls, at) || s.phase == Delivering(round, calls, at))
    requires calls[at].id in s.pending && calls[at].id !in s.reviews.live
    ensures var t := Save(Returned(s, calls[at].id, data), io);
      Complete(s, data, io) == if io.Raises() then t.(phase := Unwinding) else Hand(t, round, calls, at + 1)
  {
    CompleteIs(s, data, io, calls[at].id);
  }

  lemma SavedResult(s: Session, data: Data, io: Io, round: nat, calls: seq<ToolCall>, at: nat)
    requires Core(s) && Registered(s) && at < |calls| && BatchOk(s, calls, at)
    requires s.phase == Calling(round, calls, at) || s.phase == Delivering(round, calls, at)
    requires forall c | c in s.reviews.progress :: s.reviews.progress[c].Draining? || s.reviews.progress[c].Over?
    requires calls[at].id in s.pending && calls[at].id !in s.reviews.live
    ensures Safe(Complete(s, data, io))
  {
    CompleteSaves(s, data, io, round, calls, at);
    ReturnedSaved(s, data, io, calls[at].id);
    SavedGoesOn(s, Save(Returned(s, calls[at].id, data), io), io, round, calls, at);
  }

  lemma CompleteSafe(s: Session, data: Data, io: Io)
    requires Core(s) && PhaseOk(s) && (s.phase.Calling? || s.phase.Delivering?)
    ensures Safe(Complete(s, data, io))
  {
    if s.phase.calls[s.phase.at].id in s.pending {
      NothingLive(s);
      SavedResult(s, data, io, s.phase.round, s.phase.calls, s.phase.at);
    } else {
      DoubledResult(s, data, io);
    }
  }

  // ---------------------------------------------------------------- a reply

  ghost predicate PreparedAs(m: seq<Item>, call: ToolCall, record: Record) {
    && call.name == DELEGATE && !Mentioned(m, call.id)
    && Names(record) == call.experts
    && 1 <= |call.experts| <= 2
    && (|call.experts| == 2 ==> call.experts[0] != call.experts[1])
  }

  lemma PrepareOne(r: State, m: seq<Item>, call: ToolCall, kids: seq<ChildId>, source: string)
    requires MayPrepare(r, call.id, call.experts) && |kids| == |call.experts|
    requires call.name == DELEGATE && !Mentioned(m, call.id)
    ensures var q := Prepare(r, call.id, call.experts, kids, source);
      && q.progress == r.progress
      && (forall c | c in q.records && c != call.id :: c in r.records && q.records[c] == r.records[c])
      && PreparedAs(m, call, q.records[call.id])
  {
    var q := Prepare(r, call.id, call.experts, kids, source);
    assert Names(q.records[call.id]) == call.experts;
  }

  // Every record is an old one or comes from one of the calls.
  ghost predicate FromCall(m: seq<Item>, calls: seq<ToolCall>, id: CallId, record: Record) {
    exists call :: call in calls && call.id == id && PreparedAs(m, call, record)
  }

  ghost predicate Grown(m: seq<Item>, calls: seq<ToolCall>, r: State, q: State) {
    && q.progress == r.progress
    && forall c | c in q.records ::
      (c in r.records && q.records[c] == r.records[c]) || FromCall(m, calls, c, q.records[c])
  }

  lemma GrownOn(m: seq<Item>, calls: seq<ToolCall>, r: State, r1: State, q: State)
    requires calls != [] && Grown(m, calls[1..], r1, q) && Grown(m, calls, r, r1)
    ensures Grown(m, calls, r, q)
  {
    forall c | c in q.records && !(c in r.records && q.records[c] == r.records[c])
      ensures FromCall(m, calls, c, q.records[c])
    {
      if FromCall(m, calls[1..], c, q.records[c]) {
        var call :| call in calls[1..] && call.id == c && PreparedAs(m, call, q.records[c]);
        assert call in calls;
      }
    }
  }

  lemma PrepareGrows(r: State, m: seq<Item>, calls: seq<ToolCall>, kids: seq<ChildId>, source: string)
    requires calls != [] && MayPrepare(r, calls[0].id, calls[0].experts) && |kids| == |calls[0].experts|
    requires calls[0].name == DELEGATE && !Mentioned(m, calls[0].id)
    ensures Grown(m, calls, r, Prepare(r, calls[0].id, calls[0].experts, kids, source))
  {
    PrepareOne(r, m, calls[0], kids, source);
    var q := Prepare(r, calls[0].id, calls[0].experts, kids, source);
    assert FromCall(m, calls, calls[0].id, q.records[calls[0].id]);
  }

  lemma {:induction false} PreparedAll(r: State, m: seq<Item>, calls: seq<ToolCall>, kids: seq<seq<ChildId>>,
                                       source: string, limit: nat)
    requires |kids| == |calls|
    ensures Grown(m, calls, r, PrepareAll(r, m, calls, kids, source, limit).0)
    decreases |calls|
  {
    if calls != [] {
      var call := calls[0];
      if call.name != DELEGATE {
        var left := if limit == 0 then 0 else limit - 1;
        PreparedAll(r, m, calls[1..], kids[1..], source, left);
        GrownOn(m, calls, r, r, PrepareAll(r, m, calls[1..], kids[1..], source, left).0);
      } else if limit > 0 && !Mentioned(m, call.id) && MayPrepare(r, call.id, call.experts)
        && |kids[0]| == |call.experts| {
        var r1 := Prepare(r, call.id, call.experts, kids[0], source);
        PrepareGrows(r, m, calls, kids[0], source);
        PreparedAll(r1, m, calls[1..], kids[1..], source, limit - 1);
        GrownOn(m, calls, r, r1, PrepareAll(r1, m, calls[1..], kids[1..], source, limit - 1).0);
      }
    }
  }

  // The first call of a batch is an expert call that may be prepared.
  predicate Prepares(r: State, m: seq<Item>, calls: seq<ToolCall>, kids: seq<seq<ChildId>>, limit: nat) {
    && calls != [] && kids != [] && calls[0].name == DELEGATE
    && limit > 0 && !Mentioned(m, calls[0].id) && MayPrepare(r, calls[0].id, calls[0].experts)
    && |kids[0]| == |calls[0].experts|
  }

  lemma FirstPrepared(r: State, m: seq<Item>, calls: seq<ToolCall>, kids: seq<seq<ChildId>>,
                      source: string, limit: nat)
    returns (q: State)
    requires Prepares(r, m, calls, kids, limit) && |kids| == |calls| && KidsFresh(r, m, calls, kids, source)
    ensures FreshIds(r, calls[0].experts, kids[0])
    ensures q == Prepare(r, calls[0].id, calls[0].experts, kids[0], source)
    ensures KidsFresh(q, m, calls[1..], kids[1..], source)
    ensures PrepareAll(r, m, calls, kids, source, limit) ==
      PrepareAll(q, m, calls[1..], kids[1..], source, limit - 1)
  {
    q := Prepare(r, calls[0].id, calls[0].experts, kids[0], source);
  }

  lemma {:induction false} PreparedInv(r: State, m: seq<Item>, calls: seq<ToolCall>, kids: seq<seq<ChildId>>,
                                       source: string, limit: nat, t: State)
    requires |kids| == |calls| && KidsFresh(r, m, calls, kids, source)
    requires t == PrepareAll(r, m, calls, kids, source, limit).0
    requires Inv(r)
    ensures Inv(t)
    decreases |calls|
  {
    if calls != [] && calls[0].name != DELEGATE {
      PreparedInv(r, m, calls[1..], kids[1..], source, if limit == 0 then 0 else limit - 1, t);
    } else if Prepares(r, m, calls, kids, limit) {
      var q := FirstPrepared(r, m, calls, kids, source, limit);
      P.PrepareKeeps(r, calls[0].id, calls[0].experts, kids[0], source);
      PreparedInv(q, m, calls[1..], kids[1..], source, limit - 1, t);
    }
  }

  // A prepared call is the one item of its id, unless a message of the reply strays.
  lemma PreparedMatches(m: seq<Item>, output: seq<Item>, call: ToolCall, record: Record)
    requires forall i | 0 <= i < |output| :: !output[i].Output?
    requires forall i, j | 0 <= i < j < |CallsOf(output)| :: CallsOf(output)[i].id != CallsOf(output)[j].id
    requires call in CallsOf(output) && PreparedAs(m, call, record)
    ensures Matches(m + output, call.id, Names(record)) <==> !StrayFor(output, call.id)
  {
    ItemsOfNone(m, call.id);
    ItemsOfAppend(m, output, call.id);
    BatchItems(output, call);
  }

  function Batch(s: Session, output: seq<Item>, r: State): Session {
    s.(reviews := r, messages := s.messages + output, pending := IdsOf(CallsOf(output)))
  }

  ghost predicate Orderly(s: Session, output: seq<Item>) {
    && (forall i | 0 <= i < |output| :: !output[i].Output?)
    && (forall i, j | 0 <= i < j < |CallsOf(output)| :: CallsOf(output)[i].id != CallsOf(output)[j].id)
    && (forall i | 0 <= i < |CallsOf(output)| ::
       CallsOf(output)[i].id != "" && CallsOf(output)[i].id !in CallIds(s.messages))
  }

  lemma InIds(calls: seq<ToolCall>, id: CallId)
    ensures id in IdsOf(calls) <==> exists j :: 0 <= j < |calls| && calls[j].id == id
  {
    if id in IdsOf(calls) {
      var j :| 0 <= j < |IdsOf(calls)| && IdsOf(calls)[j] == id;
      assert calls[j].id == id;
    }
    if j :| 0 <= j < |calls| && calls[j].id == id {
      assert IdsOf(calls)[j] == id;
    }
  }

  lemma BatchMatches(s: Session, output: seq<Item>, calls: seq<ToolCall>, c: CallId, record: Record)
    requires Orderly(s, output) && StrayFree(output) && calls == CallsOf(output)
    requires FromCall(s.messages, calls, c, record)
    ensures c in IdsOf(calls) && Matches(s.messages + output, c, Names(record))
  {
    var call :| call in calls && call.id == c && PreparedAs(s.messages, call, record);
    var j :| 0 <= j < |calls| && calls[j] == call;
    InIds(calls, c);
    PreparedMatches(s.messages, output, call, record);
  }

  lemma BatchCore(s: Session, output: seq<Item>, kids: seq<seq<ChildId>>, source: string, limit: nat)
    requires Core(s) && s.pending == [] && s.reviews.records == map[] && Orderly(s, output) && StrayFree(output)
    requires |kids| == |CallsOf(output)| && KidsFresh(s.reviews, s.messages, CallsOf(output), kids, source)
    ensures var (r, ok) := PrepareAll(s.reviews, s.messages, CallsOf(output), kids, source, limit);
      Core(Batch(s, output, r)) && Registered(Batch(s, output, r)) && r.progress == s.reviews.progress
  {
    var calls := CallsOf(output);
    PreparedAll(s.reviews, s.messages, calls, kids, source, limit);
    PreparedInv(s.reviews, s.messages, calls, kids, source, limit,
                PrepareAll(s.reviews, s.messages, calls, kids, source, limit).0);
    var (r, ok) := PrepareAll(s.reviews, s.messages, calls, kids, source, limit);
    BatchScans(s.messages, output);
    var t := Batch(s, output, r);
    forall c | c in r.records
      ensures c in t.pending && Matches(t.messages, c, Names(r.records[c]))
    {
      BatchMatches(s, output, calls, c, r.records[c]);
    }
  }

  lemma BatchStarts(s: Session, t: Session, output: seq<Item>)
    requires Orderly(s, output) && CallsOf(output) != []
    requires t.pending == IdsOf(CallsOf(output)) && t.messages == s.messages + output
    ensures BatchOk(t, CallsOf(output), 0)
  {
    var calls := CallsOf(output);
    forall id | id in t.pending
      ensures exists j :: 0 <= j < |calls| && calls[j].id == id
    {
      InIds(calls, id);
    }
    forall j | 0 <= j < |calls|
      ensures calls[j].id in t.pending && Call(calls[j]) in t.messages
    {
      InIds(calls, calls[j].id);
      var i := CallIsItem(output, j);
      assert t.messages[|s.messages| + i] == output[i];
    }
  }

  // The reply is a batch of calls that passes all checks.
  lemma ReplyBatchSafe(s: Session, output: seq<Item>, round: nat, kids: seq<seq<ChildId>>, source: string, limit: nat,
                       io: Io)
    requires Core(s) && s.phase == Thinking(round) && s.pending == [] && s.reviews.records == map[]
    requires forall c | c in s.reviews.progress :: s.reviews.progress[c].Draining? || s.reviews.progress[c].Over?
    requires Orderly(s, output) && StrayFree(output) && CallsOf(output) != []
    requires |kids| == |CallsOf(output)| && KidsFresh(s.reviews, s.messages, CallsOf(output), kids, source)
    ensures var (r, ok) := PrepareAll(s.reviews, s.messages, CallsOf(output), kids, source, limit);
      var t := Save(Batch(s, output, r), io);
      Safe(if io.Raises() then t.(phase := Unwinding) else Hand(t, round, CallsOf(output), 0))
  {
    BatchCore(s, output, kids, source, limit);
    var (r, ok) := PrepareAll(s.reviews, s.messages, CallsOf(output), kids, source, limit);
    var b := Batch(s, output, r);
    SaveKeepsCore(b, io);
    var t := Save(b, io);
    if io.Raises() {
      StoppedSafe(t);
    } else {
      BatchStarts(s, t.(phase := Calling(round, CallsOf(output), 0)), output);
      HandSafe(t, round, CallsOf(output), 0);
    }
  }

  // A step that only appends plain messages, saves, and changes the phase.
  lemma NotesKeep(s: Session, notes: seq<Item>, io: Io)
    requires Core(s) && s.reviews.records == map[] && forall i | 0 <= i < |notes| :: notes[i].Message?
    ensures Core(Save(s.(messages := s.messages + notes), io))
  {
    PlainMessages(s.messages, notes, s.pending);
    SaveKeepsCore(s.(messages := s.messages + notes), io);
  }

  lemma NotesSafe(s: Session, t: Session, notes: seq<Item>, io: Io)
    requires Core(s) && PhaseOk(s) && s.phase.Thinking?
    requires forall i | 0 <= i < |notes| :: notes[i].Message?
    requires t == Save(s.(messages := s.messages + notes, steering := t.steering), io).(phase := t.phase)
    requires t.phase.Thinking? || t.phase.Unwinding?
    ensures Safe(t)
  {
    NotesKeep(s, notes, io);
    assert Core(t);
    assert PhaseOk(t);
  }

  lemma {:induction false} MessagesArePlain(output: seq<Item>)
    ensures forall i | 0 <= i < |MessagesOf(output)| :: MessagesOf(output)[i].Message?
  {
    if output != [] {
      MessagesArePlain(output[1..]);
    }
  }

  lemma RefusedBatchSafe(s: Session, output: seq<Item>, kids: seq<seq<ChildId>>, source: string, limit: nat)
    requires Core(s) && OneExecution(s) && s.phase.Thinking? && s.pending == []
    requires |kids| == |CallsOf(output)| && KidsFresh(s.reviews, s.messages, CallsOf(output), kids, source)
    ensures var (r, ok) := PrepareAll(s.reviews, s.messages, CallsOf(output), kids, source, limit);
      Safe(s.(reviews := r, phase := Unwinding))
  {
    PreparedAll(s.reviews, s.messages, CallsOf(output), kids, source, limit);
    PreparedInv(s.reviews, s.messages, CallsOf(output), kids, source, limit,
                PrepareAll(s.reviews, s.messages, CallsOf(output), kids, source, limit).0);
    var (r, ok) := PrepareAll(s.reviews, s.messages, CallsOf(output), kids, source, limit);
    var t := s.(reviews := r, phase := Unwinding);
    assert Core(t);
    assert PhaseOk(t);
  }

  lemma ReplyCallsSafe(s: Session, a: Step)
    requires Core(s) && PhaseOk(s) && a.DoReply? && Allowed(s, a) && StrayFree(a.output)
    requires s.steering == [] && CallsOf(a.output) != []
    requires CallsFine(s.messages, CallsOf(a.output), a.tools, a.delegates)
    ensures Safe(Next(s, a))
  {
    ThinkingEmpty(s);
    if PrepareAll(s.reviews, s.messages, CallsOf(a.output), a.kids, a.source, a.limit).1 {
      ReplyBatchSafe(s, a.output, s.phase.round, a.kids, a.source, a.limit, a.io);
    } else {
      RefusedBatchSafe(s, a.output, a.kids, a.source, a.limit);
    }
  }

  lemma ThinkingEmpty(s: Session)
    requires PhaseOk(s) && s.phase.Thinking?
    ensures s.reviews.records == map[] && s.pending == [] && OneExecution(s)
    ensures forall c | c in s.reviews.progress :: s.reviews.progress[c].Draining? || s.reviews.progress[c].Over?
  {
    assert forall c | c in s.reviews.records :: c in s.pending;
  }

  lemma ThinkingStops(s: Session)
    requires Core(s) && PhaseOk(s) && s.phase.Thinking?
    ensures Safe(s.(phase := Unwinding))
  {
    ThinkingEmpty(s);
    StoppedSafe(s);
  }

  function SteeringNotes(s: Session, final: string): seq<Item> {
    Answer(final) + Notes(s.steering)
  }

  lemma SteeredIs(s: Session, a: Step)
    requires a.DoReply? && Allowed(s, a) && s.steering != []
    ensures var t := Next(s, a); var notes := SteeringNotes(s, FinalText(a.output));
      && (forall i | 0 <= i < |notes| :: notes[i].Message?)
      && t == Save(s.(messages := s.messages + notes, steering := t.steering), a.io).(phase := t.phase)
      && (t.phase.Thinking? || t.phase.Unwinding?)
  {
    var t, notes := Next(s, a), SteeringNotes(s, FinalText(a.output));
    assert s.messages + notes == s.messages + Answer(FinalText(a.output)) + Notes(s.steering);
  }

  lemma SteeredSafe(s: Session, a: Step)
    requires Core(s) && PhaseOk(s) && a.DoReply? && Allowed(s, a) && s.steering != []
    ensures Safe(Next(s, a))
  {
    SteeredIs(s, a);
    NotesSafe(s, Next(s, a), SteeringNotes(s, FinalText(a.output)), a.io);
  }

  lemma ReplySafe(s: Session, a: Step)
    requires Core(s) && PhaseOk(s) && a.DoReply? && Allowed(s, a) && StrayFree(a.output)
    ensures Safe(Next(s, a))
  {
    if s.steering != [] {
      SteeredSafe(s, a);
    } else if CallsOf(a.output) != [] && CallsFine(s.messages, CallsOf(a.output), a.tools, a.delegates) {
      ReplyCallsSafe(s, a);
    } else if CallsOf(a.output) == [] && FinalText(a.output) != "" && a.schemaOk {
      MessagesArePlain(a.output);
      NotesSafe(s, Next(s, a), MessagesOf(a.output), a.io);
    } else {
      ThinkingStops(s);
      assert Next(s, a) == s.(phase := Unwinding);
    }
  }

  // The exact condition: a batch with expert calls is accepted on reopening if and
  // only if no message of the same reply carries the id of a prepared call.
  lemma BatchAcceptedIff(s: Session, output: seq<Item>, kids: seq<seq<ChildId>>, source: string, limit: nat)
    requires Core(s) && s.pending == [] && s.reviews.records == map[] && Orderly(s, output)
    requires |kids| == |CallsOf(output)| && KidsFresh(s.reviews, s.messages, CallsOf(output), kids, source)
    ensures var (r, ok) := PrepareAll(s.reviews, s.messages, CallsOf(output), kids, source, limit);
      Accepted(ImageOf(Batch(s, output, r))) <==> forall c | c in r.records :: !StrayFor(output, c)
  {
    var calls := CallsOf(output);
    PreparedAll(s.reviews, s.messages, calls, kids, source, limit);
    PreparedInv(s.reviews, s.messages, calls, kids, source, limit,
                PrepareAll(s.reviews, s.messages, calls, kids, source, limit).0);
    var (r, ok) := PrepareAll(s.reviews, s.messages, calls, kids, source, limit);
    BatchScans(s.messages, output);
    var t := Batch(s, output, r);
    forall c | c in r.records
      ensures c in t.pending
      ensures Matches(t.messages, c, Names(r.records[c])) <==> !StrayFor(output, c)
    {
      var call :| call in calls && call.id == c && PreparedAs(s.messages, call, r.records[c]);
      InIds(calls, c);
      PreparedMatches(s.messages, output, call, r.records[c]);
    }
    if forall c | c in r.records :: !StrayFor(output, c) {
      AcceptedNow(t.messages, t.pending, r);
    } else {
      var c :| c in r.records && StrayFor(output, c);
      assert !RecordAccepted(ImageOf(t), c, r.records[c]);
    }
  }

  // ---------------------------------------------------------------- workers

  lemma PutChildNames(r: State, call: CallId, i: nat, child: Child)
    requires Has(r.records, call, i) && child.expert == Kid(r.records, call, i).expert
    ensures NamesSame(r.records, PutChild(r, call, i, child).records)
  {
    var q := PutChild(r, call, i, child).records;
    assert Names(q[call]) == Names(r.records[call]);
  }

  lemma StartWorkNames(r: State, call: CallId, i: nat, saved: bool, expired: bool, failureSaved: bool)
    ensures NamesSame(r.records, StartWork(r, call, i, saved, expired, failureSaved).records)
    ensures StartWork(r, call, i, saved, expired, failureSaved).progress == r.progress
  {
    if Has(r.records, call, i) {
      var running := Kid(r.records, call, i).(state := Running);
      var failed := running.(state := Failed, result := None, error := AnalysisFailed);
      PutChildNames(r, call, i, running);
      PutChildNames(r, call, i, failed);
      P.PutTwice(r, call, i, running, failed);
    }
  }

  lemma FinishWorkNames(r: State, call: CallId, i: nat, answer: Option<Report>, saved: bool)
    ensures NamesSame(r.records, FinishWork(r, call, i, answer, saved).records)
    ensures FinishWork(r, call, i, answer, saved).progress == r.progress
  {
    if WorkCounts(r, call, i) {
      PutChildNames(r, call, i, Answered(Kid(r.records, call, i), answer));
    }
  }

  lemma JudgeNames(r: State, call: CallId, sourceSame: bool)
    requires call in r.records
    ensures NamesSame(r.records, Judge(r, call, sourceSame).records)
  {
    var q := Judge(r, call, sourceSame).records;
    assert Names(q[call]) == Names(r.records[call]);
  }

  // A worker's step: verdicts may change and be saved, nothing else.
  ghost predicate WorkerStep(s: Session, t: Session) {
    && t.messages == s.messages && t.pending == s.pending && t.phase == s.phase && (s.broken ==> t.broken)
    && t.reviews.progress == s.reviews.progress
    && (s.reviews.records == map[] ==> t.reviews.records == map[])
  }

  lemma WorkerPhase(s: Session, t: Session)
    requires PhaseOk(s) && WorkerStep(s, t) && !s.phase.Down?
    requires Registered(s) ==> Registered(t)
    ensures PhaseOk(t)
  {
    if InBatch(s.phase) {
      forall j | s.phase.at <= j < |s.phase.calls|
        ensures s.phase.calls[j].id in t.pending || SettledEarly(t, s.phase.calls[j])
      {
      }
    }
  }

  // Only a live call can have its worker run, and then the task is inside `execute`.
  lemma LiveIsReviewing(s: Session, call: CallId)
    requires Inv(s.reviews) && OneExecution(s) && call in s.reviews.live
    ensures s.phase.Reviewing?
  {
    assert call in s.reviews.progress;
  }

  // Verdicts change, then the session is saved.
  lemma WorkerSave(s: Session, r: State, io: Io)
    requires Core(s) && Registered(s) && Inv(r) && NamesSame(s.reviews.records, r.records)
    requires r.progress == s.reviews.progress
    ensures Core(Save(s.(reviews := r), io)) && Registered(Save(s.(reviews := r), io))
    ensures WorkerStep(s, Save(s.(reviews := r), io))
  {
    ReviewsKeepCore(s, r);
    SaveKeepsCore(s.(reviews := r), io);
  }

  lemma StartSaves(s: Session, call: CallId, i: nat, io: Io, expired: bool)
    requires Core(s) && Registered(s) && ExpertReviews.Enabled(s.reviews, DoStartWork(call, i, false, expired, false))
    ensures var t := Save(s.(reviews := StartWork(s.reviews, call, i, false, expired, false)), io);
      Core(t) && Registered(t) && WorkerStep(s, t)
  {
    P.StartWorkKeeps(s.reviews, call, i, false, expired, false);
    StartWorkNames(s.reviews, call, i, false, expired, false);
    WorkerSave(s, StartWork(s.reviews, call, i, false, expired, false), io);
  }

  lemma StartContinues(s: Session, s1: Session, call: CallId, i: nat, expired: bool, second: Io)
    requires Core(s) && Registered(s) && ExpertReviews.Enabled(s.reviews, DoStartWork(call, i, false, expired, false))
    requires s1.messages == s.messages && s1.pending == s.pending && s1.phase == s.phase && (s.broken ==> s1.broken)
    requires s1.saved.Some? ==> Accepted(s1.saved.value)
    ensures var t := s1.(reviews := StartWork(s.reviews, call, i, true, expired, !second.Raises()));
      && Core(t) && Registered(t) && WorkerStep(s, t)
      && Core(Save(t, second)) && Registered(Save(t, second)) && WorkerStep(s, Save(t, second))
  {
    var r := StartWork(s.reviews, call, i, true, expired, !second.Raises());
    P.StartWorkKeeps(s.reviews, call, i, true, expired, !second.Raises());
    StartWorkNames(s.reviews, call, i, true, expired, !second.Raises());
    var t := s1.(reviews := r);
    assert Core(t) && Registered(t);
    SaveKeepsCore(t, second);
  }

  lemma ContinueCore(s: Session, s1: Session, call: CallId, i: nat, expired: bool, second: Io)
    requires Has(s.reviews.records, call, i)
    requires Core(s) && Registered(s) && ExpertReviews.Enabled(s.reviews, DoStartWork(call, i, false, expired, false))
    requires s1.messages == s.messages && s1.pending == s.pending && s1.phase == s.phase && (s.broken ==> s1.broken)
    requires s1.saved.Some? ==> Accepted(s1.saved.value)
    ensures var t := ExpertContinue(s, s1, call, i, expired, second); Core(t) && Registered(t) && WorkerStep(s, t)
  {
    StartContinues(s, s1, call, i, expired, second);
  }

  // A queued worker has its child.
  lemma QueuedPresent(r: State, call: CallId, i: nat)
    requires QueuedWait(r.records, r.live, r.tasks) && (call, i) in r.tasks && r.tasks[(call, i)] == Queued(false)
    ensures Has(r.records, call, i)
  {
  }

  lemma ExpertStartCore(s: Session, call: CallId, i: nat, first: Io, expired: bool, second: Io)
    requires Core(s) && Registered(s) && ExpertReviews.Enabled(s.reviews, DoStartWork(call, i, false, expired, false))
    ensures var t := ExpertStart(s, call, i, first, expired, second); Core(t) && Registered(t) && WorkerStep(s, t)
  {
    QueuedPresent(s.reviews, call, i);
    StartSaves(s, call, i, first, expired);
    var s1 := Save(s.(reviews := StartWork(s.reviews, call, i, false, expired, false)), first);
    ContinueCore(s, s1, call, i, expired, second);
  }

  lemma ExpertFinishCore(s: Session, call: CallId, i: nat, answer: Option<Report>, io: Io)
    requires Core(s) && ExpertReviews.Enabled(s.reviews, DoFinishWork(call, i, answer, false))
    requires WorkCounts(s.reviews, call, i) ==> Registered(s)
    ensures Core(ExpertFinish(s, call, i, answer, io))
    ensures Registered(s) ==> Registered(ExpertFinish(s, call, i, answer, io))
    ensures WorkerStep(s, ExpertFinish(s, call, i, answer, io))
  {
    var r := FinishWork(s.reviews, call, i, answer, !io.Raises());
    P.FinishWorkKeeps(s.reviews, call, i, answer, !io.Raises());
    FinishWorkNames(s.reviews, call, i, answer, !io.Raises());
    ReviewsKeepCore(s, r);
    if WorkCounts(s.reviews, call, i) {
      SaveKeepsCore(s.(reviews := r), io);
    }
  }

  // ---------------------------------------------------------------- leaving `execute`

  lemma JudgeCore(s: Session, sourceSame: bool, io: Io)
    requires Core(s) && Registered(s) && s.phase.Reviewing? && s.phase.at < |s.phase.calls|
    requires MayJudge(s.reviews, Current(s))
    ensures var t := Save(s.(reviews := Judge(s.reviews, Current(s), sourceSame)), io);
      && Core(t) && Registered(t)
      && t.reviews.progress == s.reviews.progress[Current(s) := Judged] && t.reviews.live == s.reviews.live
      && t.reviews.records.Keys == s.reviews.records.Keys
  {
    P.JudgeKeeps(s.reviews, Current(s), sourceSame);
    JudgeNames(s.reviews, Current(s), sourceSame);
    ReviewsKeepCore(s, Judge(s.reviews, Current(s), sourceSame));
    SaveKeepsCore(s.(reviews := Judge(s.reviews, Current(s), sourceSame)), io);
  }

  lemma AnnounceSafe(s: Session)
    requires Core(s) && PhaseOk(s) && s.phase.Reviewing? && !s.phase.cancelled
    requires Current(s) in s.reviews.live && s.reviews.progress[Current(s)] == Judged
    ensures Safe(s.(reviews := Announce(s.reviews, Current(s)), phase :=
      Delivering(s.phase.round, s.phase.calls, s.phase.at)))
  {
    P.AnnounceKeeps(s.reviews, Current(s));
    var t := s.(reviews := Announce(s.reviews, Current(s)), phase :=
      Delivering(s.phase.round, s.phase.calls, s.phase.at));
    assert Core(t);
    DeliveringPhase(s, t);
  }

  lemma DeliveringPhase(s: Session, t: Session)
    requires PhaseOk(s) && s.phase.Reviewing? && !s.phase.cancelled
    requires t.phase == Delivering(s.phase.round, s.phase.calls, s.phase.at)
    requires t.messages == s.messages && t.pending == s.pending && t.broken == s.broken
    requires t.reviews.records == s.reviews.records
    requires t.reviews.progress == s.reviews.progress[Current(s) := Draining]
    ensures PhaseOk(t)
  {
    assert BatchOk(t, s.phase.calls, s.phase.at);
  }

  lemma LeaveSafe(s: Session)
    requires Core(s) && PhaseOk(s) && s.phase.Reviewing? && !s.phase.cancelled && Current(s) !in s.reviews.live
    ensures Safe(ExpertsLeave(s))
  {
    var t := ExpertsLeave(s);
    if Current(s) in s.reviews.progress {
      P.LeaveKeeps(s.reviews, Current(s));
      assert Core(t);
      DeliveringPhase(s, t);
    } else {
      LeaveAbsent(s.reviews, Current(s));
      assert Core(t);
      DeliveringPhase(s, t);
    }
  }

  lemma LeaveAbsent(r: State, call: CallId)
    requires Inv(r) && call !in r.live
    ensures Inv(Leave(r, call))
  {
  }

  lemma AbortSafe(s: Session, first: Io, second: Io)
    requires Core(s) && s.phase.Reviewing? && s.phase.at < |s.phase.calls|
    requires forall c | c in s.reviews.progress
      && (s.reviews.progress[c].Gathering? || s.reviews.progress[c].Judged?) :: c == Current(s)
    ensures Safe(ExpertsAbort(s, first, second))
  {
    SettleLeaves(s, first, second);
    var t := SettleInterrupted(s, first, second);
    LeaveAbsent(t.reviews, Current(s));
    var u := ExpertsAbort(s, first, second);
    assert Core(u);
    assert PhaseOk(u);
  }

  lemma JudgeSafe(s: Session, sourceSame: bool, io: Io, first: Io, second: Io)
    requires Core(s) && PhaseOk(s) && s.phase.Reviewing? && !s.phase.cancelled && MayJudge(s.reviews, Current(s))
    ensures Safe(ExpertsJudge(s, sourceSame, io, first, second))
  {
    JudgeCore(s, sourceSame, io);
    var s1 := Save(s.(reviews := Judge(s.reviews, Current(s), sourceSame)), io);
    JudgedSafe(s, s1, io, first, second);
  }

  lemma JudgedSafe(s: Session, s1: Session, io: Io, first: Io, second: Io)
    requires PhaseOk(s) && s.phase.Reviewing? && !s.phase.cancelled && MayJudge(s.reviews, Current(s)) && Core(s1)
    requires s1.phase == s.phase && s1.messages == s.messages && s1.pending == s.pending
    requires (!io.Raises() ==> s1.broken == s.broken)
    requires s1.reviews.records.Keys == s.reviews.records.Keys && s1.reviews.live == s.reviews.live
    requires s1.reviews.progress == s.reviews.progress[Current(s) := Judged]
    ensures io.Raises() ==> Safe(ExpertsAbort(s1, first, second))
    ensures !io.Raises() ==>
      Safe(s1.(reviews := Announce(s1.reviews, Current(s)), phase :=
        Delivering(s.phase.round, s.phase.calls, s.phase.at)))
  {
    if io.Raises() {
      AbortSafe(s1, first, second);
    } else {
      JudgedPhase(s, s1);
      AnnounceSafe(s1);
    }
  }

  lemma JudgedPhase(s: Session, t: Session)
    requires PhaseOk(s) && s.phase.Reviewing? && t.phase == s.phase
    requires t.messages == s.messages && t.pending == s.pending && t.broken == s.broken
    requires t.reviews.records.Keys == s.reviews.records.Keys
    requires t.reviews.progress == s.reviews.progress[Current(s) := Judged]
    ensures PhaseOk(t)
  {
    assert s.reviews.records == map[] <==> s.reviews.records.Keys == {};
    assert t.reviews.records == map[] <==> t.reviews.records.Keys == {};
    assert BatchOk(t, s.phase.calls, s.phase.at);
  }

  // ---------------------------------------------------------------- interruption, the end of a turn, crash

  // Settlement inside a batch: what it resolved is settled early.
  lemma SettledBatch(s: Session, t: Session, calls: seq<ToolCall>, at: nat)
    requires Core(s) && Registered(s) && BatchOk(s, calls, at)
    requires s.messages <= t.messages && (s.broken ==> t.broken)
    requires t.reviews.records.Keys <= s.reviews.records.Keys
    requires t.pending == s.pending ||
      (t.reviews.records == map[] && (t.broken || (t.phase.Reviewing? && t.phase.cancelled))
       && forall id :: id in t.pending <==> id in s.pending && id !in s.reviews.records)
    requires s.phase == t.phase || (s.phase.Reviewing? && t.phase == s.phase.(cancelled := true))
    ensures BatchOk(t, calls, at)
  {
    assert forall i | 0 <= i < |s.messages| :: t.messages[i] == s.messages[i];
    forall j | at <= j < |calls|
      ensures calls[j].id in t.pending || SettledEarly(t, calls[j])
    {
      if calls[j].id in s.pending && calls[j].id !in t.pending {
        MatchedCallIsDelegate(s.messages, calls[j], Names(s.reviews.records[calls[j].id]));
      }
    }
  }

  // Interrupting keeps what the phase promises, once the batch is looked after.
  lemma SettledPhase(s: Session, t: Session)
    requires OneExecution(s) && Registered(t) && HasTask(s.phase) && !s.phase.Thinking?
    requires t.reviews.progress == s.reviews.progress
    requires t.phase == s.phase || (t.phase == Unwinding && !s.phase.Reviewing?)
      || (s.phase.Reviewing? && t.phase == s.phase.(cancelled := true))
    requires InBatch(t.phase) ==> t.phase.at < |t.phase.calls| && BatchOk(t, t.phase.calls, t.phase.at)
    ensures PhaseOk(t)
  {
  }

  lemma InterruptRaised(s: Session, t: Session, first: Io, second: Io)
    requires Core(s) && PhaseOk(s) && InBatch(s.phase) && s.reviews.records != map[]
    requires SettleRaises(first, second) && t == SettleInterrupted(s, first, second)
    ensures Core(t) && Registered(t) && BatchOk(t, s.phase.calls, s.phase.at)
  {
    SettleLeaves(s, first, second);
    SettledBatch(s, t, s.phase.calls, s.phase.at);
  }

  lemma InterruptReview(s: Session, t: Session, u: Session, first: Io, second: Io)
    requires Core(s) && PhaseOk(s) && s.phase.Reviewing? && s.reviews.records != map[]
    requires !SettleRaises(first, second) && u == SettleInterrupted(s, first, second)
    requires t == u.(phase := s.phase.(cancelled := true))
    ensures Core(t) && Registered(t) && BatchOk(t, s.phase.calls, s.phase.at)
  {
    SettleLeaves(s, first, second);
    SettledBatch(s, t, s.phase.calls, s.phase.at);
  }

  lemma RecordsNotThinking(s: Session)
    requires PhaseOk(s) && HasTask(s.phase) && s.reviews.records != map[]
    ensures !s.phase.Thinking?
  {
    var c :| c in s.reviews.records;
    assert s.phase.Unwinding? || c in s.pending;
  }

  lemma InterruptPhase(s: Session, first: Io, second: Io)
    requires HasTask(s.phase) && s.reviews.records != map[] && SettleInterrupted(s, first, second).phase == s.phase
    ensures var u, t := SettleInterrupted(s, first, second), Interrupt(s, first, second);
      && t == u.(phase := t.phase)
      && (t.phase == s.phase || (t.phase == Unwinding && !s.phase.Reviewing?)
          || (s.phase.Reviewing? && t.phase == s.phase.(cancelled := true)))
  {
  }

  lemma InterruptShape(s: Session, first: Io, second: Io)
    requires Core(s) && HasTask(s.phase) && s.reviews.records != map[]
    ensures var t := Interrupt(s, first, second);
      && Core(t) && Registered(t) && t.reviews.progress == s.reviews.progress
      && (t.phase == s.phase || (t.phase == Unwinding && !s.phase.Reviewing?)
          || (s.phase.Reviewing? && t.phase == s.phase.(cancelled := true)))
  {
    SettleLeaves(s, first, second);
    InterruptPhase(s, first, second);
    CoreElsewhere(SettleInterrupted(s, first, second), Interrupt(s, first, second).phase);
  }

  lemma CoreElsewhere(s: Session, phase: Phase)
    requires Core(s) && Registered(s)
    ensures Core(s.(phase := phase)) && Registered(s.(phase := phase))
  {
  }

  lemma InterruptBatch(s: Session, first: Io, second: Io)
    requires Core(s) && PhaseOk(s) && InBatch(s.phase) && s.reviews.records != map[]
    requires InBatch(Interrupt(s, first, second).phase)
    ensures BatchOk(Interrupt(s, first, second), s.phase.calls, s.phase.at)
  {
    if SettleRaises(first, second) {
      InterruptRaised(s, Interrupt(s, first, second), first, second);
    } else {
      InterruptReview(s, Interrupt(s, first, second), SettleInterrupted(s, first, second), first, second);
    }
  }

  lemma InterruptSettled(s: Session, first: Io, second: Io)
    requires Core(s) && PhaseOk(s) && HasTask(s.phase) && s.reviews.records != map[]
    ensures Safe(Interrupt(s, first, second))
  {
    RecordsNotThinking(s);
    InterruptShape(s, first, second);
    if InBatch(Interrupt(s, first, second).phase) {
      InterruptBatch(s, first, second);
    }
    SettledPhase(s, Interrupt(s, first, second));
  }

  lemma InterruptPlain(s: Session, first: Io, second: Io)
    requires Core(s) && PhaseOk(s) && HasTask(s.phase) && s.reviews.records == map[]
    ensures Safe(Interrupt(s, first, second))
  {
    var t := Interrupt(s, first, second);
    if s.phase.Reviewing? {
      SettledBatch(s, t, s.phase.calls, s.phase.at);
    }
    assert Core(t) && PhaseOk(t);
  }

  lemma UnwindSettled(s: Session, first: Io, second: Io) returns (s1: Session)
    requires Core(s) && PhaseOk(s) && s.phase.Unwinding?
    ensures s1 == if s.reviews.records != map[] then SettleInterrupted(s, first, second) else s
    ensures Core(s1) && Registered(s1) && OneExecution(s1) && s1.phase.Unwinding?
  {
    s1 := s;
    if s.reviews.records != map[] {
      SettleLeaves(s, first, second);
      s1 := SettleInterrupted(s, first, second);
    }
  }

  lemma UnwindSafe(s: Session, first: Io, second: Io)
    requires Core(s) && PhaseOk(s) && s.phase.Unwinding?
    ensures Safe(Unwind(s, first, second))
  {
    var s1 := UnwindSettled(s, first, second);
    P.EndTurnKeeps(s1.reviews);
    IdleSafe(s1, s1.(reviews := EndTurn(s1.reviews), phase := Idle));
  }

  lemma IdleSafe(s: Session, t: Session)
    requires Core(s) && Registered(s) && OneExecution(s) && s.phase.Unwinding?
    requires Inv(t.reviews) && t.reviews.records == s.reviews.records && t.reviews.progress == s.reviews.progress
    requires t == s.(reviews := t.reviews, phase := Idle)
    ensures Safe(t)
  {
    assert Core(t);
  }

  lemma QuietSafe(t: Session)
    requires Core(t) && Registered(t) && OneExecution(t)
    requires t.phase.Wedged? || t.phase.Idle? || (t.phase.Thinking? && t.pending == [])
    ensures Safe(t)
  {
  }

  lemma BegunSafe(s: Session, turn: Turn, text: string, io: Io)
    requires Core(s) && s.reviews.records == map[] && OneExecution(s) && MayRun(s) && turn !in s.reviews.turns
    requires MayBegin(NewTurn(s.reviews, turn))
    ensures Safe(StartTurn(s, turn, text, io))
  {
    var r := NewTurn(s.reviews, turn);
    P.NewTurnKeeps(s.reviews, turn);
    P.BeginKeeps(r);
    ReviewsKeepCore(s, Begin(r));
    NotesKeep(s.(reviews := Begin(r)), [Message(User, text, None)], io);
    CoreInPhase(s.(reviews := Begin(r), messages := s.messages + [Message(User, text, None)]), io, if io.Raises()
      then Wedged else Thinking(0));
    QuietSafe(StartTurn(s, turn, text, io));
  }

  lemma CoreInPhase(s: Session, io: Io, phase: Phase)
    requires Core(Save(s, io))
    ensures Core(Save(s, io).(phase := phase))
  {
  }

  lemma StartTurnSafe(s: Session, turn: Turn, text: string, io: Io)
    requires Core(s) && PhaseOk(s) && MayRun(s) && turn !in s.reviews.turns
    ensures Safe(StartTurn(s, turn, text, io))
  {
    assert s.reviews.records == map[] by {
      assert forall c | c in s.reviews.records :: c in s.pending;
    }
    if MayBegin(NewTurn(s.reviews, turn)) {
      BegunSafe(s, turn, text, io);
    } else {
      P.NewTurnKeeps(s.reviews, turn);
      ReviewsKeepCore(s, NewTurn(s.reviews, turn));
      QuietSafe(StartTurn(s, turn, text, io));
    }
  }

  // ---------------------------------------------------------------- reopening

  // Every record of an accepted image is pending.
  lemma AllPending(image: Image)
    requires Accepted(image)
    ensures (map c | c in image.records && c in image.pending :: image.records[c]) == image.records
    ensures ChildrenAccepted(image.records)
  {
    assert forall c | c in image.records :: RecordAccepted(image, c, image.records[c]);
  }

  // The two images that restoring may save are accepted, because what was read was.
  lemma SettledImages(image: Image)
    requires Accepted(image)
    ensures Accepted(image.(records := InterruptRecords(image.records)))
    ensures var ids := Kept(image.pending, image.records.Keys);
      Accepted(Image(image.messages + Outputs(ids, InterruptRecords(image.records)), RemoveAll(image.pending, ids),
                     map[]))
  {
    AllPending(image);
    InterruptNames(image.records);
    AcceptedSame(image, InterruptRecords(image.records));
    SettlementResolves(image.messages, image.pending, InterruptRecords(image.records));
    var ids := Kept(image.pending, image.records.Keys);
    NoRecordsAccepted(image.messages + Outputs(ids, InterruptRecords(image.records)), RemoveAll(image.pending, ids));
  }

  // What a restored session looks like: nothing of the expert protocol survived.
  lemma RestoredShape(s: Session, image: Image, first: Io, second: Io)
    requires Accepted(image) && image.records != map[]
    ensures var u := SettleInterrupted(Loaded(s, image), first, second);
      var ids := Kept(image.pending, image.records.Keys);
      && (u.saved == s.saved || u.saved == Some(image.(records := InterruptRecords(image.records)))
          || u.saved == Some(Image(image.messages + Outputs(ids, InterruptRecords(image.records)),
                                    RemoveAll(image.pending, ids), map[])))
      && (!SettleRaises(first, second) ==>
            u.messages == image.messages + Outputs(ids, InterruptRecords(image.records))
            && u.pending == RemoveAll(image.pending, ids))
      && u.phase == Idle
  {
    AllPending(image);
    var s1 := Loaded(s, image);
    assert Settled(s1).reviews.records == InterruptRecords(image.records);
    assert Settled(s1).reviews.records.Keys == image.records.Keys;
  }

  lemma EmptySafe(s: Session, t: Session)
    requires Core(s) && s.reviews.records == map[] && t.reviews == s.reviews
    requires OneExecution(s) && (s.phase.Down? || s.phase.Idle?) && t.phase.Idle?
    requires HistoryAccepted(t.messages, t.pending) && (t.saved.Some? ==> Accepted(t.saved.value))
    ensures Safe(t)
  {
    assert Core(t);
  }

  lemma RestoredSafe(s: Session, image: Image, first: Io, second: Io)
    requires Core(s) && PhaseOk(s) && s.phase.Down? && s.saved == Some(image) && Accepted(image)
    ensures Safe(Restored(s, image, first, second))
  {
    if image.records == map[] {
      var u := Loaded(s, image);
      assert u.reviews == s.reviews;
      EmptySafe(s, u);
    } else {
      SettledImages(image);
      RestoredShape(s, image, first, second);
      var u := SettleInterrupted(Loaded(s, image), first, second);
      if SettleRaises(first, second) {
        DownSafe(s, u.saved, Restored(s, image, first, second).again);
      } else {
        SettlementResolves(image.messages, image.pending, InterruptRecords(image.records));
        EmptySafe(s, Restored(s, image, first, second));
      }
    }
  }

  lemma DownSafe(s: Session, saved: Option<Image>, again: set<Event>)
    requires Core(s) && PhaseOk(s) && s.phase.Down? && (saved.Some? ==> Accepted(saved.value))
    ensures Safe(s.(saved := saved, again := again))
  {
    var t := s.(saved := saved, again := again);
    assert Core(t) && PhaseOk(t);
  }

  lemma NoRecordsAccepted(m: seq<Item>, pending: seq<CallId>)
    requires HistoryAccepted(m, pending)
    ensures Accepted(Image(m, pending, map[]))
  {
    assert ExpertsAmong(map[], {}) == {};
  }

  // ---------------------------------------------------------------- every run

  lemma SpoiledStays(s: Session, a: Step)
    requires Spoiled(s) && Allowed(s, a)
    ensures Spoiled(Next(s, a)) || (Core(Next(s, a)) && PhaseOk(Next(s, a)))
  {
    match a {
      case DoExpertStart(call, i, _, expired, _) =>
        assert false;
      case DoExpertFinish(call, i, answer, io) =>
        P.FinishWorkKeeps(s.reviews, call, i, answer, !io.Raises());
      case DoExpertDrop(call, i) => P.DropWorkKeeps(s.reviews, call, i);
      case DoUnwind(_, _) => P.EndTurnKeeps(s.reviews);
      case DoCrash =>
        P.RestartKeeps(s.reviews);
      case _ =>
    }
  }

  predicate IsWorker(a: Step) {
    a.DoExpertStart? || a.DoExpertFinish? || a.DoExpertDrop?
  }

  lemma WorkerStepSafe(s: Session, a: Step)
    requires Core(s) && PhaseOk(s) && Allowed(s, a) && IsWorker(a)
    ensures Safe(Next(s, a))
  {
    match a {
      case DoExpertStart(call, i, io, expired, second) =>
        LiveIsReviewing(s, call);
        ExpertStartCore(s, call, i, io, expired, second);
      case DoExpertFinish(call, i, answer, io) =>
        if call in s.reviews.live {
          LiveIsReviewing(s, call);
        }
        ExpertFinishCore(s, call, i, answer, io);
      case DoExpertDrop(call, i) =>
        P.DropWorkKeeps(s.reviews, call, i);
        assert Core(Next(s, a));
    }
    WorkerPhase(s, Next(s, a));
  }

  lemma ReopenStepSafe(s: Session, first: Io, second: Io)
    requires Core(s) && PhaseOk(s) && s.phase.Down? && (s.saved.Some? ==> Accepted(s.saved.value))
    ensures Safe(Reopen(s, first, second))
  {
    if s.saved.Some? {
      RestoredSafe(s, s.saved.value, first, second);
    } else {
      assert Core(Reopen(s, first, second)) && PhaseOk(Reopen(s, first, second));
    }
  }

  lemma CrashSafe(s: Session)
    requires Core(s)
    ensures Safe(Crash(s))
  {
    P.RestartKeeps(s.reviews);
    assert Core(Crash(s)) && PhaseOk(Crash(s));
  }

  lemma OutsideStepSafe(s: Session, a: Step)
    requires Core(s) && PhaseOk(s) && Allowed(s, a) && (a.DoSteer? || a.DoFail? || a.DoCrash?)
    ensures Safe(Next(s, a))
  {
    match a {
      case DoSteer(text) => assert Core(Next(s, a)) && PhaseOk(Next(s, a));
      case DoFail =>
        NothingLive(s);
        StoppedSafe(s);
      case DoCrash => CrashSafe(s);
    }
  }

  lemma CoreStep(s: Session, a: Step)
    requires Core(s) && PhaseOk(s) && Allowed(s, a)
    requires a.DoReply? ==> StrayFree(a.output)
    ensures Safe(Next(s, a))
  {
    match a {
      case DoStartTurn(turn, text, io) => StartTurnSafe(s, turn, text, io);
      case DoReply(_, _, _, _, _, _, _, _) => ReplySafe(s, a);
      case DoComplete(data, io) => CompleteSafe(s, data, io);
      case DoExpertsJudge(sourceSame, io, first, second) => JudgeSafe(s, sourceSame, io, first, second);
      case DoExpertsLeave => LeaveSafe(s);
      case DoExpertsAbort(first, second) => AbortSafe(s, first, second);
      case DoInterrupt(first, second) =>
        if s.reviews.records == map[] { InterruptPlain(s, first, second); } else { InterruptSettled(s, first, second); }
      case DoUnwind(first, second) => UnwindSafe(s, first, second);
      case DoReopen(first, second) => ReopenStepSafe(s, first, second);
      case _ =>
        if IsWorker(a) { WorkerStepSafe(s, a); } else { OutsideStepSafe(s, a); }
    }
  }

  ghost predicate AllStrayFree(steps: seq<Step>) {
    forall k | 0 <= k < |steps| && steps[k].DoReply? :: StrayFree(steps[k].output)
  }

  lemma {:induction false} RunSafe(s: Session, steps: seq<Step>, t: Session)
    requires Safe(s) && Runs(s, steps, t) && AllStrayFree(steps)
    ensures Safe(t)
    decreases |steps|
  {
    if steps != [] {
      if Spoiled(s) {
        SpoiledStays(s, steps[0]);
      } else {
        CoreStep(s, steps[0]);
      }
      assert forall k | 0 <= k < |steps[1..]| :: steps[1..][k] == steps[k + 1];
      RunSafe(Next(s, steps[0]), steps[1..], t);
    }
  }

  // Every checkpoint any run leaves behind is accepted on reopening.
  lemma SavedIsAccepted(steps: seq<Step>, t: Session)
    requires Runs(FIRST, steps, t) && AllStrayFree(steps)
    ensures t.saved.Some? ==> Accepted(t.saved.value)
  {
    P.EmptyHolds();
    RunSafe(FIRST, steps, t);
  }
}
