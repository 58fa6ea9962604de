// What a Native session announces over all its processes: the budget of the experts, and when
// all verdicts for one child agree although a reopened checkpoint announces its children again.
module NativeVerdicts {
  import opened Prelude
  import opened ExpertReviews
  import opened Checkpoint
  import opened NativeSession
  import P = ExpertReviewsProofs
  import C = NativeCheckpointSafe

  // ---------------------------------------------------------------- growth of the expert protocol

  function KidIds(r: Records): set<ChildId> {
    set c, i | c in r && 0 <= i < |r[c].children| :: r[c].children[i].id
  }

  // Children come from before or were granted since, and only they are told about.
  ghost predicate Grows(s: State, t: State) {
    && s.granted.Values <= t.granted.Values
    && GrantsGrow(s.granted, t.granted)
    && KidIds(t.records) <= KidIds(s.records) + (t.granted.Values - s.granted.Values)
    && s.told <= t.told
    && TellsOf(s.told, t.told, KidIds(s.records) + (t.granted.Values - s.granted.Values))
  }

  ghost predicate GrantsGrow(g: Grant, h: Grant) {
    forall k | k in g :: k in h && h[k] == g[k]
  }

  ghost predicate TellsOf(before: set<Event>, after: set<Event>, ids: set<ChildId>) {
    forall e | e in after && e !in before :: e.id in ids
  }

  lemma GrowsOn(s: State, t: State, u: State)
    requires Grows(s, t) && Grows(t, u)
    ensures Grows(s, u)
  {
  }

  lemma SameKids(r: Records, q: Records)
    requires forall c, i | Has(q, c, i) :: Has(r, c, i) && Kid(q, c, i).id == Kid(r, c, i).id
    ensures KidIds(q) <= KidIds(r)
  {
    forall id | id in KidIds(q)
      ensures id in KidIds(r)
    {
      var c, i :| c in q && 0 <= i < |q[c].children| && q[c].children[i].id == id;
      assert Has(q, c, i) && Has(r, c, i) && Kid(q, c, i).id == id;
    }
  }

  lemma GrantsAdd(s: State, names: seq<Expert>, ids: seq<ChildId>)
    requires Inv(s) && s.parentTurn.Some? && |ids| == |names|
    requires (forall i, j | 0 <= i < j < |names| :: names[i] != names[j]) && forall n | n in names :: n !in s.used
    ensures var g := s.granted + Grants(s.parentTurn.value, names, ids);
      GrantsGrow(s.granted, g) && s.granted.Values <= g.Values && forall id | id in ids :: id in g.Values
  {
    var turn := s.parentTurn.value;
    var grants := Grants(turn, names, ids);
    var g := s.granted + grants;
    forall k | k in s.granted && k.0 == turn
      ensures k.1 in s.used
    {
      assert k.1 in GrantedIn(s.granted, turn);
    }
    assert GrantsGrow(s.granted, g);
    forall id | id in s.granted.Values
      ensures id in g.Values
    {
      var k :| k in s.granted && s.granted[k] == id;
      assert k in g && g[k] == id;
    }
    forall id | id in ids
      ensures id in g.Values
    {
      var i :| 0 <= i < |ids| && ids[i] == id;
      assert (turn, names[i]) in grants && g[(turn, names[i])] == id;
    }
  }

  lemma NewKids(r: Records, call: CallId, record: Record, ids: seq<ChildId>)
    requires |record.children| == |ids| && forall i | 0 <= i < |ids| :: record.children[i].id == ids[i]
    ensures forall id | id in KidIds(r[call := record]) :: id in KidIds(r) || id in ids
  {
    var q := r[call := record];
    forall id | id in KidIds(q)
      ensures id in KidIds(r) || id in ids
    {
      var c, i :| c in q && 0 <= i < |q[c].children| && q[c].children[i].id == id;
      if c == call { assert id == ids[i]; }
    }
  }

  lemma PrepareGrows(s: State, call: CallId, names: seq<Expert>, ids: seq<ChildId>, source: string)
    requires Inv(s) && MayPrepare(s, call, names) && FreshIds(s, names, ids)
    ensures Grows(s, Prepare(s, call, names, ids, source))
  {
    GrantsAdd(s, names, ids);
    NewKids(s.records, call, Record(s.parentTurn.value, source, NewChildren(names, ids)), ids);
  }

  lemma PutKids(s: State, call: CallId, i: nat, child: Child)
    requires Has(s.records, call, i) && child.id == Kid(s.records, call, i).id
    ensures KidIds(PutChild(s, call, i, child).records) <= KidIds(s.records)
  {
    SameKids(s.records, PutChild(s, call, i, child).records);
  }

  lemma StartGrows(s: State, call: CallId, i: nat, saved: bool, expired: bool, failureSaved: bool)
    ensures Grows(s, StartWork(s, call, i, saved, expired, failureSaved))
  {
    if Has(s.records, call, i) {
      var child := Kid(s.records, call, i).(state := Running);
      var failed := child.(state := Failed, result := None, error := AnalysisFailed);
      assert child.id in KidIds(s.records);
      PutKids(s, call, i, child);
      PutKids(s, call, i, failed);
      P.PutTwice(s, call, i, child, failed);
      StartIs(s, call, i, saved, expired, failureSaved, child, failed);
    }
  }

  lemma StartIs(s: State, call: CallId, i: nat, saved: bool, expired: bool, failureSaved: bool, child: Child,
                failed: Child)
    requires Has(s.records, call, i) && child == Kid(s.records, call, i).(state := Running)
    requires failed == child.(state := Failed, result := None, error := AnalysisFailed)
    requires PutChild(PutChild(s, call, i, child), call, i, failed) == PutChild(s, call, i, failed)
    ensures var t := StartWork(s, call, i, saved, expired, failureSaved);
      && t.granted == s.granted
      && (t.records == PutChild(s, call, i, child).records || t.records == PutChild(s, call, i, failed).records)
      && (t.told == s.told || t.told == s.told + {Event(child.id, Running)})
  {
  }

  lemma FinishGrows(s: State, call: CallId, i: nat, answer: Option<Report>, saved: bool)
    ensures Grows(s, FinishWork(s, call, i, answer, saved))
  {
    SameKids(s.records, FinishWork(s, call, i, answer, saved).records);
  }

  lemma JudgeGrows(s: State, call: CallId, sourceSame: bool)
    requires call in s.records
    ensures Grows(s, Judge(s, call, sourceSame))
  {
    SameKids(s.records, Judge(s, call, sourceSame).records);
  }

  lemma AnnounceGrows(s: State, call: CallId)
    requires call in s.records
    ensures Grows(s, Announce(s, call))
  {
    forall e | e in EventsOf(s.records[call].children)
      ensures e.id in KidIds(s.records)
    {
      var c :| c in s.records[call].children && e == Event(c.id, c.state);
      var i :| 0 <= i < |s.records[call].children| && s.records[call].children[i] == c;
    }
  }

  lemma SettleGrows(s: State)
    ensures Grows(s, Settle(s))
  {
    var t := Settle(s);
    SameKids(s.records, t.records);
    forall e | e in AllEvents(t.records)
      ensures e.id in KidIds(t.records)
    {
      var c, i :| c in t.records && 0 <= i < |t.records[c].children|
        && e == Event(t.records[c].children[i].id, t.records[c].children[i].state);
    }
  }

  lemma OnlyGrows(s: State, ids: seq<CallId>)
    ensures Grows(s, C.Only(s, ids))
  {
    SameKids(s.records, C.Only(s, ids).records);
  }

  lemma DroppedGrows(s: State, call: CallId)
    ensures Grows(s, Finish(s, call))
  {
    SameKids(s.records, Finish(s, call).records);
  }

  lemma GrowsSelf(s: State)
    ensures Grows(s, s)
  {
  }

  // ---------------------------------------------------------------- what a session knows

  // A checkpoint holds children that were granted, each under its own expert.
  ghost predicate SavedKnown(saved: Option<Image>, g: Grant) {
    saved.Some? ==> ExpertsApart(saved.value.records) && ChildrenGranted(saved.value.records, g)
  }

  // What was announced again is over: no child in memory is meant.
  ghost predicate OverAgain(again: set<Event>, g: Grant, kids: set<ChildId>) {
    forall e | e in again :: e.id in g.Values && e.id !in kids
  }

  ghost predicate Known(s: Session) {
    && Inv(s.reviews)
    && SavedKnown(s.saved, s.reviews.granted)
    && OverAgain(s.again, s.reviews.granted, KidIds(s.reviews.records))
  }

  lemma SaveKnown(s: Session, io: Io)
    requires Known(s)
    ensures Known(Save(s, io))
  {
  }

  lemma KnownAfter(s: Session, t: Session)
    requires Known(s) && Inv(t.reviews) && Grows(s.reviews, t.reviews) && t.saved == s.saved && t.again == s.again
    ensures Known(t)
  {
  }

  // One stretch of a session: it knows as much as before, and the protocol only grew.
  ghost predicate Goes(s: Session, t: Session) {
    Known(t) && Grows(s.reviews, t.reviews) && t.again == s.again
  }

  lemma SettledGoes(s: Session)
    requires Known(s)
    ensures Goes(s, Settled(s)) && Settled(s).reviews.progress == s.reviews.progress && Settled(s).reviews.live == {}
  {
    P.RevokeKeeps(s.reviews);
    var r := Revoke(s.reviews);
    C.OnlyKeeps(r, s.pending);
    P.SettleKeeps(C.Only(r, s.pending));
    OnlyGrows(r, s.pending);
    SettleGrows(C.Only(r, s.pending));
    assert Settled(s).reviews == Settle(C.Only(r, s.pending));
    RevokeGrows(s.reviews);
    GrowsOn(s.reviews, r, C.Only(r, s.pending));
    GrowsOn(s.reviews, C.Only(r, s.pending), Settled(s).reviews);
    KnownAfter(s, Settled(s));
  }

  lemma RevokeGrows(s: State)
    ensures Grows(s, Revoke(s))
  {
  }

  lemma ResolvedGoes(s: Session)
    requires Known(s) && s.reviews.live == {}
    ensures Goes(s, Resolved(s)) && Resolved(s).reviews.records == map[]
  {
    C.OnlyKeeps(s.reviews, []);
    OnlyGrows(s.reviews, []);
    assert C.Only(s.reviews, []).records == map[];
    assert Resolved(s).reviews == C.Only(s.reviews, []);
    KnownAfter(s, Resolved(s));
  }

  lemma SettleGoes(s: Session, first: Io, second: Io)
    requires Known(s)
    ensures var t := SettleInterrupted(s, first, second);
      && Goes(s, t) && t.phase == s.phase && t.reviews.progress == s.reviews.progress && t.reviews.live == {}
      && (first.Lands() && second.Lands() ==> t.saved.Some? && t.saved.value.records == t.reviews.records)
  {
    SettledGoes(s);
    SaveKnown(Settled(s), first);
    var s1 := Save(Settled(s), first);
    if !first.Raises() {
      ResolvedGoes(s1);
      SaveKnown(Resolved(s1), second);
      GrowsOn(s.reviews, s1.reviews, Resolved(s1).reviews);
    }
  }

  // ---------------------------------------------------------------- one step

  ghost predicate Shaped(s: Session) {
    && C.OneExecution(s)
    && (s.phase.Down? ==> s.reviews.records == map[])
    && (C.InBatch(s.phase) ==> s.phase.at < |s.phase.calls|)
  }

  // The file holds the records as they are, or nothing was written and no verdict announced.
  ghost predicate Filed(s: Session, t: Session) {
    || (t.saved.Some? && t.saved.value.records == t.reviews.records)
    || (t.saved == s.saved && NoVerdicts(s.reviews.told, t.reviews.told))
  }

  predicate NoVerdicts(before: set<Event>, after: set<Event>) {
    forall e | e in after && e !in before :: !e.state.Terminal()
  }

  // Every write of the checkpoint reaches the file.
  predicate Lands(a: Step) {
    match a
    case DoStartTurn(_, _, io) => io.Lands()
    case DoReply(_, _, _, _, _, _, _, io) => io.Lands()
    case DoComplete(data, io) => io.Lands()
    case DoExpertStart(_, _, io, _, second) => io.Lands() && second.Lands()
    case DoExpertFinish(_, _, _, io) => io.Lands()
    case DoExpertsJudge(_, io, first, second) => io.Lands() && first.Lands() && second.Lands()
    case DoExpertsAbort(first, second) => first.Lands() && second.Lands()
    case DoInterrupt(first, second) => first.Lands() && second.Lands()
    case DoUnwind(first, second) => first.Lands() && second.Lands()
    case DoReopen(first, second) => first.Lands() && second.Lands()
    case _ => true
  }

  lemma HandGoes(s: Session, round: nat, calls: seq<ToolCall>, at: nat)
    requires Known(s) && at <= |calls|
    requires forall c | c in s.reviews.progress :: s.reviews.progress[c].Draining? || s.reviews.progress[c].Over?
    ensures var t := Hand(s, round, calls, at);
      Goes(s, t) && Shaped(t) && t.saved == s.saved && t.reviews.records == s.reviews.records
        && t.reviews.told == s.reviews.told
  {
    GrowsSelf(s.reviews);
    if at < |calls| && calls[at].name == DELEGATE && MayLaunch(s.reviews, calls[at].id) {
      P.LaunchKeeps(s.reviews, calls[at].id);
      LaunchGrows(s.reviews, calls[at].id);
      KnownAfter(s, Hand(s, round, calls, at));
    } else {
      KnownAfter(s, Hand(s, round, calls, at));
    }
  }

  lemma LaunchGrows(s: State, call: CallId)
    requires call in s.records
    ensures Grows(s, Launch(s, call))
  {
  }

  lemma BeginGoes(s: Session, turn: Turn)
    requires Known(s) && C.OneExecution(s) && !s.phase.Reviewing? && turn !in s.reviews.turns
    ensures var r := NewTurn(s.reviews, turn);
      && Inv(r) && Grows(s.reviews, r) && (MayBegin(r) ==> Inv(Begin(r)) && Grows(s.reviews, Begin(r)))
  {
    P.NewTurnKeeps(s.reviews, turn);
    C.NothingLive(s);
    if MayBegin(NewTurn(s.reviews, turn)) { P.BeginKeeps(NewTurn(s.reviews, turn)); }
  }

  lemma StartTurnGoes(s: Session, turn: Turn, text: string, io: Io)
    requires Known(s) && Shaped(s) && MayRun(s) && turn !in s.reviews.turns
    ensures var t := StartTurn(s, turn, text, io); Goes(s, t) && Shaped(t) && (io.Lands() ==> Filed(s, t))
  {
    BeginGoes(s, turn);
    var r := NewTurn(s.reviews, turn);
    if MayBegin(r) {
      var b := s.(reviews := Begin(r), messages := s.messages + [Message(User, text, None)]);
      KnownAfter(s, b);
      SaveKnown(b, io);
    } else {
      KnownAfter(s, StartTurn(s, turn, text, io));
    }
  }

  lemma PrepareStep(r: State, a: Action)
    requires Inv(r) && a.DoPrepare? && Enabled(r, a)
    ensures Inv(Apply(r, a)) && Grows(r, Apply(r, a)) && Apply(r, a).told == r.told
  {
    P.PrepareKeeps(r, a.call, a.names, a.ids, a.source);
    PrepareGrows(r, a.call, a.names, a.ids, a.source);
  }

  lemma {:induction false} PreparesGrow(r: State, m: seq<Item>, calls: seq<ToolCall>, kids: seq<seq<ChildId>>,
                                        source: string, limit: nat, t: State)
    requires |kids| == |calls| && KidsFresh(r, m, calls, kids, source)
    requires t == PrepareAll(r, m, calls, kids, source, limit).0
    requires Inv(r)
    ensures Grows(r, t) && t.told == r.told
    decreases |calls|
  {
    if calls != [] && calls[0].name != DELEGATE {
      PreparesGrow(r, m, calls[1..], kids[1..], source, if limit == 0 then 0 else limit - 1, t);
    } else if C.Prepares(r, m, calls, kids, limit) {
      var q := C.FirstPrepared(r, m, calls, kids, source, limit);
      PrepareStep(r, DoPrepare(calls[0].id, calls[0].experts, kids[0], source));
      PreparesGrow(q, m, calls[1..], kids[1..], source, limit - 1, t);
      GrowsOn(r, q, t);
    } else {
      GrowsSelf(r);
    }
  }

  // The state after a reply's calls were prepared, whether or not all of them were.
  lemma BatchGoes(s: Session, output: seq<Item>, kids: seq<seq<ChildId>>, source: string, limit: nat, t: Session)
    requires Known(s) && |kids| == |CallsOf(output)| && KidsFresh(s.reviews, s.messages, CallsOf(output), kids, source)
    requires t.reviews == PrepareAll(s.reviews, s.messages, CallsOf(output), kids, source, limit).0
    requires t.saved == s.saved && t.again == s.again
    ensures Goes(s, t) && t.reviews.told == s.reviews.told && t.reviews.progress == s.reviews.progress
  {
    var calls := CallsOf(output);
    C.PreparedAll(s.reviews, s.messages, calls, kids, source, limit);
    C.PreparedInv(s.reviews, s.messages, calls, kids, source, limit, t.reviews);
    PreparesGrow(s.reviews, s.messages, calls, kids, source, limit, t.reviews);
    KnownAfter(s, t);
  }

  // A step that saves at most once and leaves the records alone.
  lemma QuietGoes(s: Session, t: Session, io: Io)
    requires Known(s) && t.reviews == s.reviews && t.again == s.again
    requires t.saved == s.saved || (io.Lands() && t.saved.Some? && t.saved.value.records == s.reviews.records)
    ensures Goes(s, t) && Filed(s, t)
  {
    GrowsSelf(s.reviews);
  }

  lemma SavedBatchGoes(s: Session, b: Session, io: Io, round: nat, calls: seq<ToolCall>)
    requires Known(s) && Shaped(s) && s.phase.Thinking? && Goes(s, b)
    requires b.reviews.told == s.reviews.told && b.reviews.progress == s.reviews.progress && b.saved == s.saved
    ensures var t := if io.Raises() then Save(b, io).(phase := Unwinding) else Hand(Save(b, io), round, calls, 0);
      Goes(s, t) && Shaped(t) && (io.Lands() ==> Filed(s, t))
  {
    C.NothingLive(s);
    SaveKnown(b, io);
    if !io.Raises() {
      HandGoes(Save(b, io), round, calls, 0);
      GrowsOn(s.reviews, b.reviews, Hand(Save(b, io), round, calls, 0).reviews);
    }
  }

  lemma CallsGo(s: Session, a: Step, calls: seq<ToolCall>)
    requires Known(s) && Shaped(s) && a.DoReply? && Allowed(s, a) && calls == CallsOf(a.output)
    requires s.steering == [] && calls != [] && CallsFine(s.messages, calls, a.tools, a.delegates)
    ensures Goes(s, Next(s, a)) && Shaped(Next(s, a)) && (a.io.Lands() ==> Filed(s, Next(s, a)))
  {
    var (r, ok) := PrepareAll(s.reviews, s.messages, calls, a.kids, a.source, a.limit);
    var b := s.(reviews := r, messages := s.messages + a.output, pending := IdsOf(calls));
    BatchGoes(s, a.output, a.kids, a.source, a.limit, if ok then b else Next(s, a));
    C.NothingLive(s);
    if ok { SavedBatchGoes(s, b, a.io, s.phase.round, calls); }
  }

  lemma ReplyGoes(s: Session, a: Step)
    requires Known(s) && Shaped(s) && a.DoReply? && Allowed(s, a)
    ensures Goes(s, Next(s, a)) && Shaped(Next(s, a)) && (a.io.Lands() ==> Filed(s, Next(s, a)))
  {
    var calls := CallsOf(a.output);
    if s.steering == [] && calls != [] && CallsFine(s.messages, calls, a.tools, a.delegates) {
      CallsGo(s, a, calls);
    } else {
      QuietGoes(s, Next(s, a), a.io);
    }
  }

  lemma ReturnedGoes(s: Session, data: Data, io: Io, id: CallId)
    requires Known(s) && id !in s.reviews.live
    ensures var t := Save(C.Returned(s, id, data), io);
      Goes(s, t) && t.reviews.progress == s.reviews.progress
        && (io.Lands() ==> t.saved.Some? && t.saved.value.records == t.reviews.records)
  {
    P.FinishKeeps(s.reviews, id);
    DroppedGrows(s.reviews, id);
    KnownAfter(s, C.Returned(s, id, data));
    SaveKnown(C.Returned(s, id, data), io);
  }

  lemma CompleteGoes(s: Session, data: Data, io: Io)
    requires Known(s) && Shaped(s) && (s.phase.Calling? || s.phase.Delivering?) && s.phase.at < |s.phase.calls|
    ensures var t := Complete(s, data, io); Goes(s, t) && Shaped(t) && (io.Lands() ==> Filed(s, t))
  {
    var id, t := s.phase.calls[s.phase.at].id, Complete(s, data, io);
    C.NothingLive(s);
    if id in s.pending {
      C.CompleteIs(s, data, io, id);
      ReturnedGoes(s, data, io, id);
      if !io.Raises() {
        var u := Save(C.Returned(s, id, data), io);
        HandGoes(u, s.phase.round, s.phase.calls, s.phase.at + 1);
        GrowsOn(s.reviews, u.reviews, t.reviews);
      }
    } else {
      QuietGoes(s, t, io);
    }
  }

  // What a worker does to the protocol.
  ghost predicate WorkerChange(s: State, t: State) {
    && Inv(t) && Grows(s, t) && t.granted == s.granted && t.progress == s.progress
    && (s.records == map[] ==> t.records == map[])
  }

  // It may have been saved on the way as `r`, or as it is.
  lemma WorkerGoes(s: Session, t: Session, r: State)
    requires Known(s) && Shaped(s) && WorkerChange(s.reviews, t.reviews) && WorkerChange(s.reviews, r)
    requires t.again == s.again && t.phase == s.phase
    requires t.saved == s.saved || (t.saved.Some? && t.saved.value.records in {r.records, t.reviews.records})
    ensures Goes(s, t) && Shaped(t)
  {
    KnownAfter(s, t.(saved := s.saved));
  }

  lemma StartChanges(s: State, call: CallId, i: nat, saved: bool, expired: bool, ok: bool)
    requires Inv(s) && Enabled(s, DoStartWork(call, i, saved, expired, ok))
    ensures WorkerChange(s, StartWork(s, call, i, saved, expired, ok))
  {
    P.StartWorkKeeps(s, call, i, saved, expired, ok);
    C.StartWorkNames(s, call, i, saved, expired, ok);
    StartGrows(s, call, i, saved, expired, ok);
  }

  lemma ExpertStartIs(s: Session, call: CallId, i: nat, first: Io, expired: bool, second: Io)
    ensures var t := ExpertStart(s, call, i, first, expired, second);
      var r, q := StartWork(s.reviews, call, i, false, expired, false),
        StartWork(s.reviews, call, i, true, expired, !second.Raises());
      && (t.reviews == r || t.reviews == q) && t.again == s.again && t.phase == s.phase
      && (t.saved == s.saved || (t.saved.Some? && t.saved.value.records in {r.records, t.reviews.records}))
  {
  }

  lemma ExpertStartFiled(s: Session, call: CallId, i: nat, first: Io, expired: bool, second: Io)
    requires first.Lands() && second.Lands()
    ensures Filed(s, ExpertStart(s, call, i, first, expired, second))
  {
  }

  lemma ExpertStartGoes(s: Session, call: CallId, i: nat, first: Io, expired: bool, second: Io)
    requires Known(s) && Shaped(s) && ExpertReviews.Enabled(s.reviews, DoStartWork(call, i, false, expired, false))
    ensures var t := ExpertStart(s, call, i, first, expired, second); Goes(s, t) && Shaped(t)
  {
    StartChanges(s.reviews, call, i, false, expired, false);
    StartChanges(s.reviews, call, i, true, expired, !second.Raises());
    ExpertStartIs(s, call, i, first, expired, second);
    var r := StartWork(s.reviews, call, i, false, expired, false);
    WorkerGoes(s, ExpertStart(s, call, i, first, expired, second), r);
  }

  lemma FinishChanges(s: State, call: CallId, i: nat, answer: Option<Report>, saved: bool)
    requires Inv(s) && Enabled(s, DoFinishWork(call, i, answer, saved))
    ensures var t := FinishWork(s, call, i, answer, saved); WorkerChange(s, t) && t.told == s.told
  {
    P.FinishWorkKeeps(s, call, i, answer, saved);
    C.FinishWorkNames(s, call, i, answer, saved);
    FinishGrows(s, call, i, answer, saved);
  }

  lemma ExpertFinishGoes(s: Session, call: CallId, i: nat, answer: Option<Report>, io: Io)
    requires Known(s) && Shaped(s) && ExpertReviews.Enabled(s.reviews, DoFinishWork(call, i, answer, false))
    ensures var t := ExpertFinish(s, call, i, answer, io); Goes(s, t) && Shaped(t) && (io.Lands() ==> Filed(s, t))
  {
    FinishChanges(s.reviews, call, i, answer, !io.Raises());
    var t := ExpertFinish(s, call, i, answer, io);
    assert t.reviews == FinishWork(s.reviews, call, i, answer, !io.Raises());
    WorkerGoes(s, t, t.reviews);
  }

  lemma DropChanges(s: State, call: CallId, i: nat)
    requires Inv(s) && Enabled(s, DoDropWork(call, i))
    ensures WorkerChange(s, DropWork(s, call, i))
  {
    P.DropWorkKeeps(s, call, i);
  }

  lemma ExpertDropGoes(s: Session, call: CallId, i: nat)
    requires Known(s) && Shaped(s) && ExpertReviews.Enabled(s.reviews, DoDropWork(call, i))
    ensures var t := ExpertDrop(s, call, i); Goes(s, t) && Shaped(t) && Filed(s, t)
  {
    DropChanges(s.reviews, call, i);
    WorkerGoes(s, ExpertDrop(s, call, i), s.reviews.(tasks := ExpertDrop(s, call, i).reviews.tasks));
  }

  lemma AbortGoes(s: Session, first: Io, second: Io)
    requires Known(s) && s.phase.Reviewing? && s.phase.at < |s.phase.calls|
    requires forall c | c in s.reviews.progress
      && (s.reviews.progress[c].Gathering? || s.reviews.progress[c].Judged?) :: c == Current(s)
    ensures var t := ExpertsAbort(s, first, second);
      Goes(s, t) && Shaped(t)
        && (first.Lands() && second.Lands() ==> t.saved.Some? && t.saved.value.records == t.reviews.records)
  {
    SettleGoes(s, first, second);
    var u, t := SettleInterrupted(s, first, second), ExpertsAbort(s, first, second);
    C.LeaveAbsent(u.reviews, Current(s));
    LeaveGrows(u.reviews, Current(s));
    KnownAfter(u, t);
    GrowsOn(s.reviews, u.reviews, t.reviews);
  }

  lemma LeaveGrows(s: State, call: CallId)
    ensures Grows(s, Leave(s, call))
  {
  }

  lemma JudgedGoes(s: Session, sourceSame: bool, io: Io) returns (s1: Session)
    requires Known(s) && s.phase.Reviewing? && s.phase.at < |s.phase.calls| && MayJudge(s.reviews, Current(s))
    ensures s1 == Save(s.(reviews := Judge(s.reviews, Current(s), sourceSame)), io)
    ensures Goes(s, s1) && s1.phase == s.phase
    ensures s1.reviews.live == s.reviews.live && s1.reviews.progress == s.reviews.progress[Current(s) := Judged]
    ensures Current(s) in s1.reviews.records
    ensures io.Lands() ==> s1.saved.Some? && s1.saved.value.records == s1.reviews.records
  {
    var r := Judge(s.reviews, Current(s), sourceSame);
    P.JudgeKeeps(s.reviews, Current(s), sourceSame);
    JudgeGrows(s.reviews, Current(s), sourceSame);
    KnownAfter(s, s.(reviews := r));
    s1 := Save(s.(reviews := r), io);
    SaveKnown(s.(reviews := r), io);
  }

  lemma JudgeGoes(s: Session, sourceSame: bool, io: Io, first: Io, second: Io)
    requires Known(s) && Shaped(s) && s.phase.Reviewing? && MayJudge(s.reviews, Current(s))
    ensures var t := ExpertsJudge(s, sourceSame, io, first, second);
      Goes(s, t) && Shaped(t) && (io.Lands() && first.Lands() && second.Lands() ==> Filed(s, t))
  {
    var s1 := JudgedGoes(s, sourceSame, io);
    var t := ExpertsJudge(s, sourceSame, io, first, second);
    if io.Raises() {
      AbortGoes(s1, first, second);
    } else {
      P.AnnounceKeeps(s1.reviews, Current(s));
      AnnounceGrows(s1.reviews, Current(s));
      KnownAfter(s1, t);
    }
    GrowsOn(s.reviews, s1.reviews, t.reviews);
  }

  lemma LeaveGoes(s: Session)
    requires Known(s) && Shaped(s) && s.phase.Reviewing? && Current(s) !in s.reviews.live
    ensures var t := ExpertsLeave(s); Goes(s, t) && Shaped(t) && Filed(s, t)
  {
    C.LeaveAbsent(s.reviews, Current(s));
    LeaveGrows(s.reviews, Current(s));
    KnownAfter(s, ExpertsLeave(s));
  }

  // The session after a settlement that is made only when there are records.
  lemma MaybeSettled(s: Session, first: Io, second: Io) returns (u: Session)
    requires Known(s)
    ensures u == if s.reviews.records != map[] then SettleInterrupted(s, first, second) else s
    ensures Goes(s, u) && u.phase == s.phase && u.reviews.progress == s.reviews.progress
    ensures first.Lands() && second.Lands() ==> Filed(s, u)
  {
    u := s;
    GrowsSelf(s.reviews);
    if s.reviews.records != map[] {
      SettleGoes(s, first, second);
      u := SettleInterrupted(s, first, second);
    }
  }

  lemma InterruptGoes(s: Session, first: Io, second: Io)
    requires Known(s) && Shaped(s) && HasTask(s.phase)
    ensures var t := Interrupt(s, first, second);
      Goes(s, t) && Shaped(t) && (first.Lands() && second.Lands() ==> Filed(s, t))
  {
    var u := MaybeSettled(s, first, second);
    InterruptIs(s, u, first, second);
    var t := Interrupt(s, first, second);
    InPhase(s, u, t.phase);
    InterruptShaped(s, u, t.phase);
  }

  lemma InterruptShaped(s: Session, u: Session, phase: Phase)
    requires Shaped(s) && u.reviews.progress == s.reviews.progress && !phase.Down?
    requires phase == s.phase || (!s.phase.Reviewing? && phase.Unwinding?)
      || (s.phase.Reviewing? && phase == s.phase.(cancelled := true))
    ensures Shaped(u.(phase := phase))
  {
  }

  lemma InterruptIs(s: Session, u: Session, first: Io, second: Io)
    requires HasTask(s.phase) && u == if s.reviews.records != map[] then SettleInterrupted(s, first, second) else s
    requires u.phase == s.phase
    ensures var t := Interrupt(s, first, second);
      && t == u.(phase := t.phase)
      && (t.phase == s.phase || (!s.phase.Reviewing? && t.phase.Unwinding?)
          || (s.phase.Reviewing? && t.phase == s.phase.(cancelled := true)))
  {
  }

  lemma InPhase(s: Session, u: Session, phase: Phase)
    requires Goes(s, u)
    ensures Goes(s, u.(phase := phase)) && (Filed(s, u) ==> Filed(s, u.(phase := phase)))
  {
  }

  lemma UnwindGoes(s: Session, first: Io, second: Io)
    requires Known(s) && Shaped(s) && s.phase.Unwinding?
    ensures var t := Unwind(s, first, second);
      Goes(s, t) && Shaped(t) && (first.Lands() && second.Lands() ==> Filed(s, t))
  {
    var u := MaybeSettled(s, first, second);
    P.EndTurnKeeps(u.reviews);
    EndGrows(s.reviews, u.reviews);
    KnownAfter(u, Unwind(s, first, second));
  }

  lemma EndGrows(s: State, u: State)
    requires Grows(s, u)
    ensures Grows(s, EndTurn(u)) && Grows(u, EndTurn(u)) && Grows(u, u)
  {
  }

  lemma CrashGoes(s: Session)
    requires Known(s)
    ensures Goes(s, Crash(s)) && Shaped(Crash(s)) && Filed(s, Crash(s))
  {
    P.RestartKeeps(s.reviews);
    assert KidIds(map[]) == {};
    KnownAfter(s, Crash(s));
  }

  lemma StepGoes(s: Session, a: Step)
    requires Known(s) && Shaped(s) && Allowed(s, a) && !a.DoReopen?
    ensures Goes(s, Next(s, a)) && Shaped(Next(s, a))
    ensures Lands(a) ==> Filed(s, Next(s, a))
  {
    match a {
      case DoStartTurn(turn, text, io) => StartTurnGoes(s, turn, text, io);
      case DoReply(_, _, _, _, _, _, _, _) => ReplyGoes(s, a);
      case DoComplete(data, io) => CompleteGoes(s, data, io);
      case DoExpertStart(call, i, io, expired, second) =>
        ExpertStartGoes(s, call, i, io, expired, second);
        if Lands(a) { ExpertStartFiled(s, call, i, io, expired, second); }
      case DoExpertFinish(call, i, answer, io) => ExpertFinishGoes(s, call, i, answer, io);
      case DoExpertDrop(call, i) => ExpertDropGoes(s, call, i);
      case DoExpertsJudge(sourceSame, io, first, second) => JudgeGoes(s, sourceSame, io, first, second);
      case DoExpertsLeave => LeaveGoes(s);
      case DoExpertsAbort(first, second) => AbortGoes(s, first, second);
      case DoSteer(_) => QuietGoes(s, Next(s, a), Lost);
      case DoInterrupt(first, second) => InterruptGoes(s, first, second);
      case DoFail =>
        C.NothingLive(s);
        QuietGoes(s, Next(s, a), Lost);
      case DoUnwind(first, second) => UnwindGoes(s, first, second);
      case DoCrash => CrashGoes(s);
    }
  }

  // ---------------------------------------------------------------- reopening

  // Settling these records announces nothing that contradicts what was announced before.
  ghost predicate Agrees(announced: set<Event>, r: Records) {
    forall e, c, i | e in announced && e.state.Terminal() && Has(r, c, i) && Kid(r, c, i).id == e.id ::
      Interrupted(Kid(r, c, i)).state == e.state
  }

  lemma SavedIdsApart(r: Records, g: Grant, c: CallId, i: int, d: CallId, j: int)
    requires ExpertsApart(r) && ChildrenGranted(r, g) && GrantsInjective(g)
    requires Has(r, c, i) && Has(r, d, j) && Kid(r, c, i).id == Kid(r, d, j).id
    ensures c == d && i == j
  {
    assert (r[c].parentTurn, Kid(r, c, i).expert) in g && (r[d].parentTurn, Kid(r, d, j).expert) in g;
  }

  lemma SettledKid(r: Records, e: Event) returns (c: CallId, i: nat)
    requires e in AllEvents(InterruptRecords(r))
    ensures Has(r, c, i) && e == Event(Kid(r, c, i).id, Interrupted(Kid(r, c, i)).state) && e.state.Terminal()
  {
    var q := InterruptRecords(r);
    c, i :| c in q && 0 <= i < |q[c].children| && e == Event(q[c].children[i].id, q[c].children[i].state);
  }

  lemma KidSettles(r: Records, c: CallId, i: nat)
    requires Has(r, c, i)
    ensures Event(Kid(r, c, i).id, Interrupted(Kid(r, c, i)).state) in AllEvents(InterruptRecords(r))
  {
    var q := InterruptRecords(r);
    assert c in q && q[c].children[i] == Interrupted(r[c].children[i]);
  }

  // Announcing settled records keeps the verdicts one exactly when they agree.
  lemma AgreesIff(announced: set<Event>, r: Records, g: Grant)
    requires OneVerdict(announced) && ExpertsApart(r) && ChildrenGranted(r, g) && GrantsInjective(g)
    ensures OneVerdict(announced + AllEvents(InterruptRecords(r))) <==> Agrees(announced, r)
  {
    var more := AllEvents(InterruptRecords(r));
    if Agrees(announced, r) {
      forall e, f | e in announced + more && f in more && e.id == f.id && e.state.Terminal() && f.state.Terminal()
        ensures e == f
      {
        var d, j := SettledKid(r, f);
        if e in more {
          var c, i := SettledKid(r, e);
          SavedIdsApart(r, g, c, i, d, j);
        }
      }
    }
    if OneVerdict(announced + more) {
      forall e, c, i | e in announced && e.state.Terminal() && Has(r, c, i) && Kid(r, c, i).id == e.id
        ensures Interrupted(Kid(r, c, i)).state == e.state
      {
        KidSettles(r, c, i);
        assert e in announced + more;
      }
    }
  }

  predicate Reread(s: Session, a: Step) {
    a.DoReopen? && s.saved.Some?
  }

  // Settled records or none are filed.
  predicate FilesThose(saved: Option<Image>, q: Records) {
    saved.Some? && (saved.value.records == q || saved.value.records == map[])
  }

  lemma SettleFiles(s: Session, first: Io, second: Io, q: Records)
    requires q == Settled(s).reviews.records
    ensures var t := SettleInterrupted(s, first, second);
      && t.phase == s.phase && (t.saved == s.saved || FilesThose(t.saved, q))
      && (first.Lands() && second.Lands() ==> FilesThose(t.saved, q))
  {
  }

  lemma LoadedSettles(s: Session, image: Image)
    requires Accepted(image)
    ensures Settled(Loaded(s, image)).reviews.records == InterruptRecords(image.records)
  {
    C.AllPending(image);
  }

  lemma RestoredIs(s: Session, image: Image, first: Io, second: Io, u: Session)
    requires image.records != map[] && s.phase.Down? && u == SettleInterrupted(Loaded(s, image), first, second)
    requires u.phase.Idle?
    ensures var t := Restored(s, image, first, second);
      t.saved == u.saved && t.again == s.again + AllEvents(InterruptRecords(image.records))
        && (t.phase.Down? || t.phase.Idle?)
  {
  }

  lemma RestoredNothing(s: Session, image: Image, first: Io, second: Io)
    requires image.records == map[]
    ensures var t := Restored(s, image, first, second);
      && t.saved == s.saved && t.again == s.again && t.phase.Idle?
      && InterruptRecords(image.records) == map[] && AllEvents(InterruptRecords(image.records)) == {}
  {
    assert InterruptRecords(map[]) == map[];
  }

  lemma RestoredLeaves(s: Session, image: Image, first: Io, second: Io)
    requires s.phase.Down? && s.saved == Some(image) && Accepted(image)
    ensures var t := Restored(s, image, first, second); var q := InterruptRecords(image.records);
      && t.again == s.again + AllEvents(q) && (t.saved == s.saved || FilesThose(t.saved, q))
      && (first.Lands() && second.Lands() ==> FilesThose(t.saved, q))
      && (t.phase.Down? || t.phase.Idle?)
  {
    if image.records == map[] {
      RestoredNothing(s, image, first, second);
    } else {
      LoadedSettles(s, image);
      SettleFiles(Loaded(s, image), first, second, InterruptRecords(image.records));
      RestoredIs(s, image, first, second, SettleInterrupted(Loaded(s, image), first, second));
    }
  }

  lemma RestoredReviews(s: Session, image: Image, first: Io, second: Io)
    ensures Restored(s, image, first, second).reviews ==
      if image.records == map[] then s.reviews.(records := map[]) else s.reviews
  {
  }

  lemma InterruptedKnown(r: Records, g: Grant)
    requires ExpertsApart(r) && ChildrenGranted(r, g)
    ensures ExpertsApart(InterruptRecords(r)) && ChildrenGranted(InterruptRecords(r), g)
  {
    var q := InterruptRecords(r);
    forall c, i | Has(q, c, i)
      ensures Has(r, c, i) && Kid(q, c, i) == Interrupted(Kid(r, c, i)) && q[c].parentTurn == r[c].parentTurn
    {
    }
  }

  // What reopening these records does.
  ghost predicate Reopened(s: Session, t: Session, r: Records) {
    && t.reviews == s.reviews && t.again == s.again + AllEvents(InterruptRecords(r))
    && (t.saved == s.saved || FilesThose(t.saved, InterruptRecords(r)))
    && (t.phase.Down? || t.phase.Idle?)
  }

  lemma RestoredReopens(s: Session, image: Image, first: Io, second: Io, t: Session)
    requires t == Restored(s, image, first, second)
    requires s.phase.Down? && s.reviews.records == map[] && s.saved == Some(image) && Accepted(image)
    ensures Reopened(s, t, image.records)
    ensures first.Lands() && second.Lands() ==> FilesThose(t.saved, InterruptRecords(image.records))
  {
    RestoredLeaves(s, image, first, second);
    RestoredReviews(s, image, first, second);
  }

  lemma ReopenStep(s: Session, a: Step)
    requires s.phase.Down? && a.DoReopen? && s.saved.Some? && Accepted(s.saved.value)
    ensures Next(s, a) == Restored(s, s.saved.value, a.first, a.second)
  {
  }

  lemma ReopenIs(s: Session, a: Step)
    requires s.phase.Down? && s.reviews.records == map[] && a.DoReopen? && s.saved.Some? && Accepted(s.saved.value)
    ensures Reopened(s, Next(s, a), s.saved.value.records)
    ensures Lands(a) ==> FilesThose(Next(s, a).saved, InterruptRecords(s.saved.value.records))
  {
    ReopenStep(s, a);
    RestoredReopens(s, s.saved.value, a.first, a.second, Next(s, a));
  }

  lemma ReopenedKnown(s: Session, t: Session, r: Records)
    requires Known(s) && Shaped(s) && s.phase.Down? && Reopened(s, t, r)
    requires ExpertsApart(r) && ChildrenGranted(r, s.reviews.granted)
    ensures Known(t) && Shaped(t)
  {
    InterruptedKnown(r, s.reviews.granted);
    assert KidIds(s.reviews.records) == {};
    forall e | e in AllEvents(InterruptRecords(r))
      ensures e.id in s.reviews.granted.Values
    {
      var c, i := SettledKid(r, e);
      assert s.reviews.granted[(r[c].parentTurn, Kid(r, c, i).expert)] == e.id;
    }
  }

  // ---------------------------------------------------------------- one verdict

  lemma NothingContradicted(s: Session, t: Session)
    requires Known(s) && Goes(s, t)
    ensures OneVerdict(Announced(t)) <==> OneVerdict(Announced(s))
  {
    assert Announced(s) <= Announced(t);
    if OneVerdict(Announced(s)) {
      forall e, f | e in Announced(t) && f in Announced(t) && e.id == f.id && e.state.Terminal() && f.state.Terminal()
        ensures e == f
      {
        assert e in t.reviews.told && e !in s.reviews.told ==> f !in s.again;
        assert f in t.reviews.told && f !in s.reviews.told ==> e !in s.again;
      }
    }
  }

  // Whether a checkpoint is reopened here, and what it announces contradicts nothing.
  ghost predicate AgreesHere(s: Session, a: Step) {
    Reread(s, a) && Accepted(s.saved.value) ==> Agrees(Announced(s), s.saved.value.records)
  }

  ghost predicate AllAgree(s: Session, steps: seq<Step>)
    decreases |steps|
  {
    steps == [] || (AgreesHere(s, steps[0]) && (Allowed(s, steps[0]) ==> AllAgree(Next(s, steps[0]), steps[1..])))
  }

  lemma ReopenedVerdicts(s: Session, t: Session, r: Records)
    requires Known(s) && Reopened(s, t, r) && ExpertsApart(r) && ChildrenGranted(r, s.reviews.granted)
    ensures OneVerdict(Announced(t)) <==> OneVerdict(Announced(s)) && Agrees(Announced(s), r)
  {
    assert Announced(t) == Announced(s) + AllEvents(InterruptRecords(r));
    if OneVerdict(Announced(s)) {
      AgreesIff(Announced(s), r, s.reviews.granted);
    }
  }

  lemma StepVerdicts(s: Session, a: Step)
    requires Known(s) && Shaped(s) && Allowed(s, a)
    ensures Known(Next(s, a)) && Shaped(Next(s, a))
    ensures OneVerdict(Announced(Next(s, a))) <==> OneVerdict(Announced(s)) && AgreesHere(s, a)
  {
    if !a.DoReopen? {
      StepGoes(s, a);
      NothingContradicted(s, Next(s, a));
    } else if Reread(s, a) && Accepted(s.saved.value) {
      ReopenIs(s, a);
      ReopenedKnown(s, Next(s, a), s.saved.value.records);
      ReopenedVerdicts(s, Next(s, a), s.saved.value.records);
    } else {
      NotReread(s, a);
    }
  }

  lemma NotReread(s: Session, a: Step)
    requires Known(s) && Shaped(s) && Allowed(s, a) && a.DoReopen? && !(Reread(s, a) && Accepted(s.saved.value))
    ensures Known(Next(s, a)) && Shaped(Next(s, a)) && Announced(Next(s, a)) == Announced(s)
    ensures Next(s, a).saved == s.saved
  {
  }

  lemma {:induction false} RunVerdicts(s: Session, steps: seq<Step>, t: Session)
    requires Known(s) && Shaped(s) && Runs(s, steps, t)
    ensures Known(t) && Shaped(t)
    ensures OneVerdict(Announced(t)) <==> OneVerdict(Announced(s)) && AllAgree(s, steps)
    decreases |steps|
  {
    if steps != [] {
      StepVerdicts(s, steps[0]);
      RunVerdicts(Next(s, steps[0]), steps[1..], t);
    }
  }

  lemma FirstKnown()
    ensures Known(FIRST) && Shaped(FIRST) && Announced(FIRST) == {}
  {
    P.EmptyHolds();
  }

  // All terminal events ever announced for one child, in all processes of a session, carry one
  // state if and only if at every reopening the states that the saved records settle to agree
  // with what was announced before.
  lemma OneVerdictIff(steps: seq<Step>, t: Session)
    requires Runs(FIRST, steps, t)
    ensures OneVerdict(Announced(t)) <==> AllAgree(FIRST, steps)
  {
    FirstKnown();
    RunVerdicts(FIRST, steps, t);
  }

  // ---------------------------------------------------------------- when nothing written is lost

  ghost predicate FileAgrees(s: Session) {
    s.saved.Some? ==> Agrees(Announced(s), s.saved.value.records)
  }

  // A verdict that was announced is what the records in memory say.
  lemma MemoryAgrees(s: Session)
    requires Known(s)
    ensures Agrees(Announced(s), s.reviews.records)
  {
    forall e, c, i | e in Announced(s) && e.state.Terminal() && Has(s.reviews.records, c, i)
      && Kid(s.reviews.records, c, i).id == e.id
      ensures Interrupted(Kid(s.reviews.records, c, i)).state == e.state
    {
      assert s.reviews.records[c].children[i].id in KidIds(s.reviews.records);
    }
  }

  lemma FiledAgrees(s: Session, t: Session)
    requires Known(t) && t.again == s.again && Filed(s, t) && FileAgrees(s)
    ensures FileAgrees(t)
  {
    if t.saved.Some? && t.saved.value.records == t.reviews.records { MemoryAgrees(t); }
  }

  lemma SettledFileAgrees(announced: set<Event>, r: Records, g: Grant)
    requires Agrees(announced, r) && ExpertsApart(r) && ChildrenGranted(r, g) && GrantsInjective(g)
    ensures Agrees(announced + AllEvents(InterruptRecords(r)), InterruptRecords(r))
  {
    var q, more := InterruptRecords(r), AllEvents(InterruptRecords(r));
    forall e, c, i | e in announced + more && e.state.Terminal() && Has(q, c, i) && Kid(q, c, i).id == e.id
      ensures Interrupted(Kid(q, c, i)).state == e.state
    {
      assert Has(r, c, i) && Kid(q, c, i) == Interrupted(Kid(r, c, i));
      if e in more {
        var d, j := SettledKid(r, e);
        SavedIdsApart(r, g, c, i, d, j);
      }
    }
  }

  lemma ReopenedFile(s: Session, t: Session, r: Records)
    requires Known(s) && Reopened(s, t, r) && FilesThose(t.saved, InterruptRecords(r)) && Agrees(Announced(s), r)
    requires ExpertsApart(r) && ChildrenGranted(r, s.reviews.granted)
    ensures FileAgrees(t)
  {
    SettledFileAgrees(Announced(s), r, s.reviews.granted);
    assert Announced(t) == Announced(s) + AllEvents(InterruptRecords(r));
  }

  lemma LandedStep(s: Session, a: Step)
    requires Known(s) && Shaped(s) && Allowed(s, a) && Lands(a) && FileAgrees(s)
    ensures FileAgrees(Next(s, a)) && AgreesHere(s, a)
  {
    if !a.DoReopen? {
      StepGoes(s, a);
      FiledAgrees(s, Next(s, a));
    } else if Reread(s, a) && Accepted(s.saved.value) {
      ReopenIs(s, a);
      ReopenedFile(s, Next(s, a), s.saved.value.records);
    } else {
      NotReread(s, a);
    }
  }

  lemma TailLands(steps: seq<Step>)
    requires steps != [] && forall k | 0 <= k < |steps| :: Lands(steps[k])
    ensures forall k | 0 <= k < |steps[1..]| :: Lands(steps[1..][k])
  {
    assert forall k | 0 <= k < |steps[1..]| :: steps[1..][k] == steps[k + 1];
  }

  lemma {:induction false} LandedRun(s: Session, steps: seq<Step>, t: Session)
    requires Known(s) && Shaped(s) && FileAgrees(s) && Runs(s, steps, t)
    requires forall k | 0 <= k < |steps| :: Lands(steps[k])
    ensures AllAgree(s, steps)
    decreases |steps|
  {
    if steps != [] {
      LandedStep(s, steps[0]);
      StepVerdicts(s, steps[0]);
      TailLands(steps);
      LandedRun(Next(s, steps[0]), steps[1..], t);
    }
  }

  // As long as every write of the checkpoint reaches the file, one child has one verdict over
  // all crashes and reopenings.
  lemma OneVerdictWhenSaved(steps: seq<Step>, t: Session)
    requires Runs(FIRST, steps, t) && forall k | 0 <= k < |steps| :: Lands(steps[k])
    ensures OneVerdict(Announced(t))
  {
    FirstKnown();
    LandedRun(FIRST, steps, t);
    OneVerdictIff(steps, t);
  }

  // ---------------------------------------------------------------- the budget

  // Over all crashes and reopenings: two experts per turn, each asked once, no child twice.
  lemma BudgetOverRuns(steps: seq<Step>, t: Session)
    requires Runs(FIRST, steps, t)
    ensures forall turn :: |P.AskedIn(t.reviews.asked, turn)| <= 2
    ensures forall k, l | 0 <= k < l < |t.reviews.asked| ::
      t.reviews.asked[k].id != t.reviews.asked[l].id
      && (t.reviews.asked[k].turn != t.reviews.asked[l].turn || t.reviews.asked[k].expert != t.reviews.asked[l].expert)
  {
    FirstKnown();
    RunVerdicts(FIRST, steps, t);
    P.AskedWithinBudget(t.reviews);
  }
}
