// What becomes of an expert's answer: it is held as given and told as given, unless the joint
// check of the sources fails first.
module ExpertVerdicts {
  import opened Prelude
  import opened ExpertReviews
  import P = ExpertReviewsProofs

  // ---------------------------------------------------------------- one step

  // A call that is prepared has one waiting child per expert, in order, each with its own id.
  lemma PreparedChildren(s: State, call: CallId, names: seq<Expert>, ids: seq<ChildId>, source: string)
    requires Enabled(s, DoPrepare(call, names, ids, source))
    ensures var t := Apply(s, DoPrepare(call, names, ids, source));
      && t.records.Keys == s.records.Keys + {call}
      && (forall c | c in s.records && c != call :: t.records[c] == s.records[c])
      && Some(t.records[call].parentTurn) == s.parent && t.records[call].source == source
      && |t.records[call].children| == |names|
      && forall i | 0 <= i < |names| ::
        t.records[call].children[i] == Child(ids[i], names[i], Waiting, None, NoError)
  {
  }

  // A launched call is live and has one task per child that may start.
  lemma Launches(s: State, call: CallId)
    requires Enabled(s, DoLaunch(call))
    ensures var t := Apply(s, DoLaunch(call));
      && t.live == s.live + {call} && t.records == s.records && t.told == s.told
      && t.progress == s.progress[call := Gathering]
      && (forall i: nat | i < |s.records[call].children| :: (call, i) in t.tasks && t.tasks[(call, i)] == Queued(false))
  {
  }

  // A worker whose mark was saved in time and in its turn asks its own expert once; its child
  // is running and that is told. No other child changes.
  lemma WorkerAsks(s: State, call: CallId, i: nat, failureSaved: bool)
    requires Enabled(s, DoStartWork(call, i, true, false, failureSaved)) && Has(s.records, call, i)
    requires s.parent == Some(s.records[call].parentTurn)
    ensures var t := Apply(s, DoStartWork(call, i, true, false, failureSaved));
      var children := s.records[call].children;
      && t.asked == s.asked + [Ask(s.records[call].parentTurn, children[i].expert, children[i].id)]
      && t.told == s.told + {Event(children[i].id, Running)}
      && t.tasks == s.tasks[(call, i) := Asking(false)]
      && t.records == s.records[call :=
        s.records[call].(children := children[i := children[i].(state := Running)])]
  {
  }

  // In any other case nobody is asked; in time and in its turn no worker fails its child.
  lemma WorkerAsksNobody(s: State, call: CallId, i: nat, saved: bool, expired: bool, failureSaved: bool)
    requires Enabled(s, DoStartWork(call, i, saved, expired, failureSaved)) && Has(s.records, call, i)
    requires !saved || expired || s.parent != Some(s.records[call].parentTurn)
    ensures var t := Apply(s, DoStartWork(call, i, saved, expired, failureSaved));
      && t.asked == s.asked
      && t.told == s.told + (if saved then {Event(s.records[call].children[i].id, Running)} else {})
      && (t.records[call].children[i].state == Failed <==>
            saved && expired && s.parent == Some(s.records[call].parentTurn) && call in s.live)
  {
  }

  // An interruption cancels every undecided child, keeps every verdict, and tells them all.
  lemma Settles(s: State)
    ensures var t := Apply(s, DoSettle);
      && t.live == {} && t.records.Keys == s.records.Keys
      && (forall c | c in s.records :: |t.records[c].children| == |s.records[c].children|)
      && (forall c, i | Has(s.records, c, i) ::
        var child := s.records[c].children[i];
        t.records[c].children[i] == if child.state.Terminal() then child
                                    else Child(child.id, child.expert, Cancelled, None, ProcessInterrupted))
      && (forall e :: e in t.told <==> e in s.told || ToldOf(t.records, e))
  {
    var t := Apply(s, DoSettle);
    forall e
      ensures e in t.told <==> e in s.told || ToldOf(t.records, e)
    {
      if ToldOf(t.records, e) {
        var c, i :| Has(t.records, c, i) && e == Event(t.records[c].children[i].id, t.records[c].children[i].state);
        assert e in AllEvents(t.records);
      }
      if e in AllEvents(t.records) {
        var c, i :| c in t.records && 0 <= i < |t.records[c].children|
          && e == Event(t.records[c].children[i].id, t.records[c].children[i].state);
        assert Has(t.records, c, i);
      }
    }
  }

  ghost predicate ToldOf(r: Records, e: Event) {
    exists c, i :: Has(r, c, i) && e == Event(r[c].children[i].id, r[c].children[i].state)
  }

  // An answer counts only for a live, running child of the current turn.
  ghost predicate Awaited(s: State, call: CallId, i: nat) {
    && call in s.live && Has(s.records, call, i)
    && s.parent == Some(s.records[call].parentTurn)
    && s.records[call].children[i].state == Running
  }

  function Done(child: Child, answer: Option<Report>): Child {
    match answer
    case Some(report) => Child(child.id, child.expert, Completed, Some(report), NoError)
    case None => Child(child.id, child.expert, Failed, None, AnalysisFailed)
  }

  // An awaited answer becomes the verdict of its child; nothing else changes and nobody is told.
  lemma AnswerHeld(s: State, call: CallId, i: nat, answer: Option<Report>, saved: bool)
    requires Enabled(s, DoFinishWork(call, i, answer, saved)) && Awaited(s, call, i)
    ensures var t := Apply(s, DoFinishWork(call, i, answer, saved));
      var children := s.records[call].children;
      && t.told == s.told && t.live == s.live
      && t.records == s.records[call :=
        s.records[call].(children := children[i := Done(children[i], answer)])]
  {
  }

  // Any other answer is dropped.
  lemma AnswerIgnored(s: State, call: CallId, i: nat, answer: Option<Report>, saved: bool)
    requires Enabled(s, DoFinishWork(call, i, answer, saved)) && !Awaited(s, call, i)
    ensures var t := Apply(s, DoFinishWork(call, i, answer, saved));
      t.told == s.told && t.live == s.live && t.records == s.records
  {
  }

  // The sources of a call are the same and its turn is still current.
  ghost predicate Current(s: State, call: CallId, sourceSame: bool) {
    sourceSame && call in s.records && s.parent == Some(s.records[call].parentTurn)
  }

  function StatesOf(children: seq<Child>): set<Event> {
    set i | 0 <= i < |children| :: Event(children[i].id, children[i].state)
  }

  // The joint check and the publication: with the same sources no child changes, otherwise
  // every child fails; what is told is each child's state, and the call is no longer live.
  lemma Publishes(s: State, call: CallId, sourceSame: bool)
    requires Enabled(s, DoJudge(call, sourceSame))
    ensures var j := Apply(s, DoJudge(call, sourceSame));
      && Enabled(j, DoAnnounce(call)) && j.told == s.told
      && var t := Apply(j, DoAnnounce(call));
        && (Current(s, call, sourceSame) ==> t.records == s.records)
        && (!Current(s, call, sourceSame) ==>
              && t.records.Keys == s.records.Keys && |t.records[call].children| == |s.records[call].children|
              && forall i | 0 <= i < |s.records[call].children| ::
                var child := s.records[call].children[i];
                t.records[call].children[i] == Child(child.id, child.expert, Failed, None, SourceChanged))
        && t.told == s.told + StatesOf(t.records[call].children)
        && t.live == s.live - {call}
  {
    var children := Apply(s, DoJudge(call, sourceSame)).records[call].children;
    forall e
      ensures e in EventsOf(children) <==> e in StatesOf(children)
    {
      if e in EventsOf(children) {
        var c :| c in children && e == Event(c.id, c.state);
        var i :| 0 <= i < |children| && children[i] == c;
      }
    }
  }

  // ---------------------------------------------------------------- after an answer

  // A child whose verdict stands in its record; its worker is over.
  ghost predicate Decided(s: State, call: CallId, i: nat, child: Child) {
    && Has(s.records, call, i) && s.records[call].children[i] == child && child.state.Terminal()
    && (call, i) in s.tasks && s.tasks[(call, i)].Ended?
  }

  // The joint check of the call finds its sources or its turn changed.
  ghost predicate Refuses(s: State, a: Action, call: CallId) {
    a.DoJudge? && a.call == call && !Current(s, call, a.sourceSame)
  }

  // `execute` publishes the call, or an interruption announces every recorded child.
  predicate Tells(a: Action, call: CallId) {
    (a.DoAnnounce? && a.call == call) || a.DoSettle?
  }

  // The record of the call is discarded.
  predicate Drops(a: Action, call: CallId) {
    (a.DoFinish? && a.call == call) || a.DoRestart?
  }

  // The call is told before its joint check fails or its record is discarded.
  ghost predicate ToldFirst(s: State, actions: seq<Action>, call: CallId)
    decreases |actions|
  {
    && actions != [] && Enabled(s, actions[0])
    && !Refuses(s, actions[0], call) && !Drops(actions[0], call)
    && (Tells(actions[0], call) || ToldFirst(Apply(s, actions[0]), actions[1..], call))
  }

  // No joint check of the call fails.
  ghost predicate NeverRefused(s: State, actions: seq<Action>, call: CallId)
    decreases |actions|
  {
    actions == [] || (Enabled(s, actions[0]) ==>
      !Refuses(s, actions[0], call) && NeverRefused(Apply(s, actions[0]), actions[1..], call))
  }

  // Nobody can be told that the child of this id completed.
  ghost predicate Mute(s: State, id: ChildId) {
    && Event(id, Completed) !in s.told && id in s.granted.Values
    && forall c, j | Has(s.records, c, j) && Kid(s.records, c, j).id == id :: MuteKid(s, c, j)
  }

  function Fallen(child: Child): Child {
    Child(child.id, child.expert, Failed, None, SourceChanged)
  }

  // What a step leaves of a decided child.
  ghost predicate Leaves(s: State, a: Action, c: CallId, j: nat, t: State)
    requires Has(s.records, c, j)
  {
    && Decided(t, c, j, if Refuses(s, a, c) then Fallen(Kid(s.records, c, j)) else Kid(s.records, c, j))
    && t.records[c].parentTurn == s.records[c].parentTurn
  }

  lemma StartLeaves(s: State, a: Action, c: CallId, j: nat)
    requires Has(s.records, c, j) && Decided(s, c, j, Kid(s.records, c, j)) && Enabled(s, a) && a.DoStartWork?
    ensures Leaves(s, a, c, j, Apply(s, a))
  {
    assert (a.call, a.i) != (c, j);
    if Has(s.records, a.call, a.i) {
      StartTouches(s, a.call, a.i, a.saved, a.expired, a.failureSaved, c, j);
    }
  }

  // The start of one worker touches its own child and task alone.
  lemma StartTouches(s: State, call: CallId, i: nat, saved: bool, expired: bool, failureSaved: bool, c: CallId, j: int)
    requires Has(s.records, call, i)
    ensures var t := StartWork(s, call, i, saved, expired, failureSaved);
      && (Has(t.records, c, j) <==> Has(s.records, c, j))
      && (Has(s.records, c, j) ==> Kid(t.records, c, j).id == Kid(s.records, c, j).id)
      && (Has(s.records, c, j) ==> t.records[c].parentTurn == s.records[c].parentTurn)
      && (Has(s.records, c, j) && (c, j) != (call, i) ==> Kid(t.records, c, j) == Kid(s.records, c, j))
      && t.tasks.Keys == s.tasks.Keys + {(call, i)}
      && (forall k | k in s.tasks && k != (call, i) :: t.tasks[k] == s.tasks[k])
  {
    var running := Kid(s.records, call, i).(state := Running);
    var failed := running.(state := Failed, result := None, error := AnalysisFailed);
    StartRecords(s, call, i, saved, expired, failureSaved);
    PutTouches(s, call, i, running, c, j);
    PutTouches(s, call, i, failed, c, j);
    StartTasks(s, call, i, saved, expired, failureSaved);
  }

  lemma StartRecords(s: State, call: CallId, i: nat, saved: bool, expired: bool, failureSaved: bool)
    requires Has(s.records, call, i)
    ensures var running := Kid(s.records, call, i).(state := Running);
      var failed := running.(state := Failed, result := None, error := AnalysisFailed);
      var t := StartWork(s, call, i, saved, expired, failureSaved);
      t.records == PutChild(s, call, i, running).records || t.records == PutChild(s, call, i, failed).records
  {
    var running := Kid(s.records, call, i).(state := Running);
    P.PutTwice(s, call, i, running, running.(state := Failed, result := None, error := AnalysisFailed));
  }

  lemma PutTouches(s: State, call: CallId, i: nat, child: Child, c: CallId, j: int)
    requires Has(s.records, call, i) && child.id == Kid(s.records, call, i).id
    ensures var r := PutChild(s, call, i, child).records;
      && (Has(r, c, j) <==> Has(s.records, c, j))
      && (Has(s.records, c, j) ==> Kid(r, c, j).id == Kid(s.records, c, j).id)
      && (Has(s.records, c, j) ==> r[c].parentTurn == s.records[c].parentTurn)
      && (Has(s.records, c, j) && (c, j) != (call, i) ==> Kid(r, c, j) == Kid(s.records, c, j))
  {
  }

  lemma StartTasks(s: State, call: CallId, i: nat, saved: bool, expired: bool, failureSaved: bool)
    requires Has(s.records, call, i)
    ensures var t := StartWork(s, call, i, saved, expired, failureSaved);
      && t.tasks.Keys == s.tasks.Keys + {(call, i)}
      && (forall k | k in s.tasks && k != (call, i) :: t.tasks[k] == s.tasks[k])
  {
  }

  lemma WorkLeaves(s: State, a: Action, c: CallId, j: nat)
    requires Has(s.records, c, j) && Decided(s, c, j, Kid(s.records, c, j)) && Enabled(s, a)
    requires a.DoFinishWork? || a.DoDropWork?
    ensures Leaves(s, a, c, j, Apply(s, a))
  {
  }

  lemma LaunchedElsewhere(s: State, c: CallId, j: nat)
    requires Has(s.records, c, j) && Kid(s.records, c, j).state.Terminal()
    ensures !MayLaunch(s, c)
  {
  }

  lemma CallLeaves(s: State, a: Action, c: CallId, j: nat)
    requires Has(s.records, c, j) && Decided(s, c, j, Kid(s.records, c, j)) && Enabled(s, a) && c in s.seen
    requires a.DoPrepare? || a.DoLaunch? || a.DoJudge? || a.DoAnnounce?
    ensures Leaves(s, a, c, j, Apply(s, a))
  {
    LaunchedElsewhere(s, c, j);
  }

  lemma StopLeaves(s: State, a: Action, c: CallId, j: nat)
    requires Has(s.records, c, j) && Decided(s, c, j, Kid(s.records, c, j)) && Enabled(s, a)
    requires a.DoRevoke? || a.DoSettle? || a.DoLeave?
    ensures Leaves(s, a, c, j, Apply(s, a))
  {
  }

  lemma OtherLeaves(s: State, a: Action, c: CallId, j: nat)
    requires Has(s.records, c, j) && Decided(s, c, j, Kid(s.records, c, j)) && Enabled(s, a) && !Drops(a, c)
    requires a.DoNewTurn? || a.DoEndTurn? || a.DoBegin? || a.DoDrain? || a.DoFinish? || a.DoRestart?
    ensures Leaves(s, a, c, j, Apply(s, a))
  {
  }

  // A decided child changes only when the joint check of its call fails.
  lemma StepChild(s: State, a: Action, c: CallId, j: nat, t: State)
    requires Has(s.records, c, j) && Decided(s, c, j, Kid(s.records, c, j)) && c in s.seen
    requires Enabled(s, a) && t == Apply(s, a) && !Drops(a, c)
    ensures Leaves(s, a, c, j, t)
  {
    if a.DoStartWork? {
      StartLeaves(s, a, c, j);
    } else if a.DoFinishWork? || a.DoDropWork? {
      WorkLeaves(s, a, c, j);
    } else if a.DoPrepare? || a.DoLaunch? || a.DoJudge? || a.DoAnnounce? {
      CallLeaves(s, a, c, j);
    } else if a.DoRevoke? || a.DoSettle? || a.DoLeave? {
      StopLeaves(s, a, c, j);
    } else {
      OtherLeaves(s, a, c, j);
    }
  }

  lemma PreparedIds(s: State, a: Action, c: CallId, j: int)
    requires Enabled(s, a) && a.DoPrepare? && Has(Apply(s, a).records, c, j)
    ensures var id := Kid(Apply(s, a).records, c, j).id;
      id !in s.granted.Values || (Has(s.records, c, j) && Kid(s.records, c, j).id == id)
  {
    if a.call == c {
      assert Kid(Apply(s, a).records, c, j).id == a.ids[j];
    }
  }

  lemma WorkIds(s: State, a: Action, c: CallId, j: int)
    requires Enabled(s, a) && (a.DoFinishWork? || a.DoJudge?) && Has(Apply(s, a).records, c, j)
    ensures Has(s.records, c, j) && Kid(s.records, c, j).id == Kid(Apply(s, a).records, c, j).id
  {
  }

  lemma OtherIds(s: State, a: Action, c: CallId, j: int)
    requires Enabled(s, a) && !a.DoPrepare? && !a.DoStartWork? && !a.DoFinishWork? && !a.DoJudge?
    requires Has(Apply(s, a).records, c, j)
    ensures Has(s.records, c, j) && Kid(s.records, c, j).id == Kid(Apply(s, a).records, c, j).id
  {
  }

  // A child of the next state was there before, or has a new id.
  lemma StepIds(s: State, a: Action, c: CallId, j: int, t: State)
    requires Enabled(s, a) && t == Apply(s, a) && Has(t.records, c, j)
    ensures var id := Kid(t.records, c, j).id;
      id !in s.granted.Values || (Has(s.records, c, j) && Kid(s.records, c, j).id == id)
  {
    if a.DoPrepare? {
      PreparedIds(s, a, c, j);
    } else if a.DoStartWork? {
      if Has(s.records, a.call, a.i) {
        StartTouches(s, a.call, a.i, a.saved, a.expired, a.failureSaved, c, j);
      }
    } else if a.DoFinishWork? || a.DoJudge? {
      WorkIds(s, a, c, j);
    } else {
      OtherIds(s, a, c, j);
    }
  }

  // A verdict that is newly told is that of a recorded child.
  lemma AnnounceTells(s: State, call: CallId, e: Event) returns (j: nat)
    requires call in s.records && e in Announce(s, call).told && e !in s.told
    ensures Has(s.records, call, j) && Kid(s.records, call, j).id == e.id && Kid(s.records, call, j).state == e.state
  {
    var child :| child in s.records[call].children && e == Event(child.id, child.state);
    j :| 0 <= j < |s.records[call].children| && s.records[call].children[j] == child;
  }

  lemma SettleTells(s: State, e: Event) returns (c: CallId, j: nat)
    requires e in Settle(s).told && e !in s.told
    ensures Has(s.records, c, j) && Kid(s.records, c, j).id == e.id
    ensures Kid(s.records, c, j).state == e.state || e.state.Cancelled?
  {
    var r := InterruptRecords(s.records);
    var d, i :| d in r && 0 <= i < |r[d].children| && e == Event(r[d].children[i].id, r[d].children[i].state);
    c, j := d, i;
    assert r[d].children[i] == Interrupted(Kid(s.records, d, i));
  }

  // Only a publication or an interruption tells verdicts.
  lemma ToldBy(s: State, a: Action, e: Event)
    requires Enabled(s, a) && e in Apply(s, a).told && e !in s.told && e.state.Terminal()
    ensures a.DoAnnounce? || a.DoSettle?
  {
  }

  // A verdict that is newly told is that of a recorded child.
  lemma StepTells(s: State, a: Action, e: Event, t: State) returns (c: CallId, j: nat)
    requires Enabled(s, a) && t == Apply(s, a) && e in t.told && e !in s.told && e.state.Terminal()
    ensures Tells(a, c) && Has(s.records, c, j) && Kid(s.records, c, j).id == e.id
    ensures Kid(s.records, c, j).state == e.state || e.state.Cancelled?
  {
    ToldBy(s, a, e);
    if a.DoAnnounce? {
      c := a.call;
      j := AnnounceTells(s, c, e);
    } else {
      c, j := SettleTells(s, e);
    }
  }

  ghost predicate MuteKid(s: State, c: CallId, j: int) {
    && Has(s.records, c, j) && Kid(s.records, c, j).state.Terminal() && !Kid(s.records, c, j).state.Completed?
    && j >= 0 && (c, j) in s.tasks && s.tasks[(c, j)].Ended?
  }

  lemma StepMuteKid(s: State, a: Action, id: ChildId, c: CallId, j: int, t: State)
    requires Enabled(s, a) && t == Apply(s, a) && Has(t.records, c, j) && Kid(t.records, c, j).id == id
    requires id in s.granted.Values && (Has(s.records, c, j) && Kid(s.records, c, j).id == id ==> MuteKid(s, c, j))
    requires RecordsShaped(s.records, s.parentTurn, s.seen)
    ensures MuteKid(t, c, j)
  {
    StepIds(s, a, c, j, t);
    assert !Drops(a, c) by { DroppedGone(s, a, c, t); }
    StepChild(s, a, c, j, t);
  }

  lemma DroppedGone(s: State, a: Action, c: CallId, t: State)
    requires Enabled(s, a) && t == Apply(s, a) && c in t.records
    ensures !Drops(a, c)
  {
  }

  lemma StepMute(s: State, a: Action, id: ChildId, t: State)
    requires RecordsShaped(s.records, s.parentTurn, s.seen)
    requires GrantsBounded(s.granted, s.turns, s.used, s.parentTurn, s.parent)
    requires Enabled(s, a) && t == Apply(s, a) && Mute(s, id)
    ensures Mute(t, id)
  {
    if Event(id, Completed) in t.told {
      var c, j := StepTells(s, a, Event(id, Completed), t);
    }
    forall c, j | Has(t.records, c, j) && Kid(t.records, c, j).id == id
      ensures MuteKid(t, c, j)
    {
      StepMuteKid(s, a, id, c, j, t);
    }
    GrantsStay(s, a, t, id);
  }

  lemma PrepareGrants(s: State, call: CallId, names: seq<Expert>, id: ChildId)
    requires MayPrepare(s, call, names) && id in s.granted.Values
    requires GrantsBounded(s.granted, s.turns, s.used, s.parentTurn, s.parent)
    ensures exists k ::
      k in s.granted && s.granted[k] == id && (k.0 != s.parentTurn.value || k.1 !in names)
  {
    var k :| k in s.granted && s.granted[k] == id;
    assert k.0 == s.parentTurn.value ==> k.1 in GrantedIn(s.granted, k.0);
  }

  lemma GrantsStay(s: State, a: Action, t: State, id: ChildId)
    requires Enabled(s, a) && t == Apply(s, a) && id in s.granted.Values
    requires GrantsBounded(s.granted, s.turns, s.used, s.parentTurn, s.parent)
    ensures id in t.granted.Values
  {
    if a.DoPrepare? {
      PrepareGrants(s, a.call, a.names, id);
      var k :| k in s.granted && s.granted[k] == id && (k.0 != s.parentTurn.value || k.1 !in a.names);
      assert k in t.granted && t.granted[k] == id;
    } else {
      SameGrants(s, a);
    }
  }

  lemma SameGrants(s: State, a: Action)
    requires Enabled(s, a) && !a.DoPrepare?
    ensures Apply(s, a).granted == s.granted
  {
    if a.DoStartWork? { StartGrants(s, a); } else if a.DoFinishWork? || a.DoDropWork? { WorkGrants(s, a); }
  }

  lemma StartGrants(s: State, a: Action)
    requires Enabled(s, a) && a.DoStartWork?
    ensures Apply(s, a).granted == s.granted
  {
  }

  lemma WorkGrants(s: State, a: Action)
    requires Enabled(s, a) && (a.DoFinishWork? || a.DoDropWork?)
    ensures Apply(s, a).granted == s.granted
  {
  }

  // ---------------------------------------------------------------- every run

  lemma {:induction false} RunMute(s: State, actions: seq<Action>, t: State, id: ChildId)
    requires Inv(s) && Mute(s, id) && Run(s, actions, t)
    ensures Event(id, Completed) !in t.told
    decreases |actions|
  {
    if actions != [] {
      P.StepKeeps(s, actions[0]);
      StepMute(s, actions[0], id, Apply(s, actions[0]));
      RunMute(Apply(s, actions[0]), actions[1..], t, id);
    }
  }

  lemma KnownId(s: State, call: CallId, i: nat)
    requires Inv(s) && Has(s.records, call, i)
    ensures Kid(s.records, call, i).id in s.granted.Values
  {
    assert (s.records[call].parentTurn, Kid(s.records, call, i).expert) in s.granted;
  }

  // Once its joint check failed or its record is gone, nobody is told that a child completed.
  lemma Silenced(s: State, a: Action, call: CallId, i: nat, child: Child, u: State)
    requires Inv(s) && Enabled(s, a) && u == Apply(s, a) && Decided(s, call, i, child)
    requires Event(child.id, Completed) !in s.told && (Refuses(s, a, call) || Drops(a, call))
    ensures Mute(u, child.id)
  {
    KnownId(s, call, i);
    GrantsStay(s, a, u, child.id);
    if Event(child.id, Completed) in u.told { ToldBy(s, a, Event(child.id, Completed)); }
    forall c, j | Has(u.records, c, j) && Kid(u.records, c, j).id == child.id
      ensures MuteKid(u, c, j)
    {
      StepIds(s, a, c, j, u);
      P.IdsApart(s, c, j, call, i);
      SilencedKid(s, a, call, i, child, u);
    }
  }

  lemma SilencedKid(s: State, a: Action, call: CallId, i: nat, child: Child, u: State)
    requires Enabled(s, a) && u == Apply(s, a) && Decided(s, call, i, child) && call in s.seen
    requires Refuses(s, a, call) || Drops(a, call)
    ensures call in u.records ==> MuteKid(u, call, i)
  {
    if Drops(a, call) {
      if call in u.records { DroppedGone(s, a, call, u); }
    } else {
      StepChild(s, a, call, i, u);
    }
  }

  // A step that neither tells the call nor ends its verdict leaves it untold.
  lemma StaysUntold(s: State, a: Action, call: CallId, i: nat, child: Child, u: State)
    requires Inv(s) && Enabled(s, a) && u == Apply(s, a) && Decided(s, call, i, child)
    requires Event(child.id, Completed) !in s.told && !Tells(a, call)
    ensures Event(child.id, Completed) !in u.told
  {
    if Event(child.id, Completed) in u.told {
      var c, j := StepTells(s, a, Event(child.id, Completed), u);
      P.IdsApart(s, c, j, call, i);
    }
  }

  lemma TellsIt(s: State, a: Action, call: CallId, i: nat, child: Child, u: State)
    requires Enabled(s, a) && u == Apply(s, a) && Decided(s, call, i, child) && Tells(a, call)
    ensures Event(child.id, child.state) in u.told
  {
    if a.DoAnnounce? {
      assert child in s.records[call].children;
    } else {
      var r := InterruptRecords(s.records);
      assert r[call].children[i] == child;
    }
  }

  lemma {:induction false} CompletedTold(s: State, call: CallId, i: nat, child: Child, actions: seq<Action>, t: State)
    requires Inv(s) && Decided(s, call, i, child) && child.state.Completed? && Run(s, actions, t)
    requires Event(child.id, Completed) !in s.told
    ensures Event(child.id, Completed) in t.told <==> ToldFirst(s, actions, call)
    decreases |actions|
  {
    if actions != [] {
      var a, u := actions[0], Apply(s, actions[0]);
      P.StepKeeps(s, a);
      if Refuses(s, a, call) || Drops(a, call) {
        Silenced(s, a, call, i, child, u);
        RunMute(u, actions[1..], t, child.id);
      } else if Tells(a, call) {
        TellsIt(s, a, call, i, child, u);
        P.ToldForever(u, actions[1..], t);
      } else {
        StaysUntold(s, a, call, i, child, u);
        StepChild(s, a, call, i, u);
        CompletedTold(u, call, i, child, actions[1..], t);
      }
    }
  }

  predicate NeverDropped(actions: seq<Action>, call: CallId) {
    forall k | 0 <= k < |actions| :: !Drops(actions[k], call)
  }

  lemma {:induction false} ReportHeld(s: State, call: CallId, i: nat, child: Child, actions: seq<Action>, t: State)
    requires Inv(s) && Decided(s, call, i, child) && Run(s, actions, t) && NeverDropped(actions, call)
    ensures Decided(t, call, i, if NeverRefused(s, actions, call) then child else Fallen(child))
    decreases |actions|
  {
    if actions != [] {
      var a, u := actions[0], Apply(s, actions[0]);
      P.StepKeeps(s, a);
      StepChild(s, a, call, i, u);
      assert forall k | 0 <= k < |actions[1..]| :: actions[1..][k] == actions[k + 1];
      ReportHeld(u, call, i, if Refuses(s, a, call) then Fallen(child) else child, actions[1..], t);
    }
  }

  lemma AnswerDecides(s: State, call: CallId, i: nat, answer: Option<Report>, saved: bool, u: State)
    requires Inv(s) && Awaited(s, call, i) && Enabled(s, DoFinishWork(call, i, answer, saved))
    requires u == Apply(s, DoFinishWork(call, i, answer, saved))
    ensures Decided(u, call, i, Done(s.records[call].children[i], answer))
    ensures Event(s.records[call].children[i].id, Completed) !in u.told
  {
    assert Kid(s.records, call, i).id == s.records[call].children[i].id;
  }

  // ---------------------------------------------------------------- publication by `execute`

  // `execute` cannot publish this call any more.
  ghost predicate Undone(s: State, call: CallId, i: nat) {
    || call !in s.live
    || (call in s.progress && s.progress[call].Gathering? && (call, i) in s.tasks && s.tasks[(call, i)] == Ended(true))
  }

  lemma WorkUndone(s: State, a: Action, call: CallId, i: nat)
    requires Enabled(s, a) && Undone(s, call, i) && (call, i) in s.tasks && s.tasks[(call, i)].Ended?
    requires a.DoStartWork? || a.DoFinishWork? || a.DoDropWork?
    ensures Undone(Apply(s, a), call, i)
  {
  }

  lemma CallUndone(s: State, a: Action, call: CallId, i: nat, child: Child)
    requires Enabled(s, a) && Undone(s, call, i) && Decided(s, call, i, child)
    requires a.DoPrepare? || a.DoLaunch? || a.DoJudge? || a.DoAnnounce? || a.DoLeave? || a.DoDrain?
    ensures Undone(Apply(s, a), call, i)
  {
    LaunchedElsewhere(s, call, i);
  }

  lemma OtherUndone(s: State, a: Action, call: CallId, i: nat)
    requires Enabled(s, a) && Undone(s, call, i) && !Drops(a, call)
    requires a.DoNewTurn? || a.DoEndTurn? || a.DoBegin? || a.DoRevoke? || a.DoSettle? || a.DoFinish?
    ensures Undone(Apply(s, a), call, i)
  {
  }

  lemma StepUndone(s: State, a: Action, call: CallId, i: nat, child: Child, u: State)
    requires Enabled(s, a) && u == Apply(s, a) && Undone(s, call, i) && Decided(s, call, i, child) && !Drops(a, call)
    ensures Undone(u, call, i)
  {
    if a.DoStartWork? || a.DoFinishWork? || a.DoDropWork? {
      WorkUndone(s, a, call, i);
    } else if a.DoNewTurn? || a.DoEndTurn? || a.DoBegin? || a.DoRevoke? || a.DoSettle? || a.DoFinish? {
      OtherUndone(s, a, call, i);
    } else if !a.DoRestart? {
      CallUndone(s, a, call, i, child);
    }
  }

  lemma {:induction false} RunUndone(s: State, call: CallId, i: nat, child: Child, actions: seq<Action>, t: State)
    requires Inv(s) && Decided(s, call, i, child) && Undone(s, call, i)
    requires Run(s, actions, t) && NeverDropped(actions, call)
    ensures Undone(t, call, i)
    decreases |actions|
  {
    if actions != [] {
      var a, u := actions[0], Apply(s, actions[0]);
      P.StepKeeps(s, a);
      StepUndone(s, a, call, i, child, u);
      StepChild(s, a, call, i, u);
      assert forall k | 0 <= k < |actions[1..]| :: actions[1..][k] == actions[k + 1];
      RunUndone(u, call, i, if Refuses(s, a, call) then Fallen(child) else child, actions[1..], t);
    }
  }

  // No revocation and no interruption.
  predicate Undisturbed(actions: seq<Action>) {
    forall k | 0 <= k < |actions| :: !actions[k].DoRevoke? && !actions[k].DoSettle?
  }

  lemma {:induction false} PublishableRun(s: State, call: CallId, i: nat, child: Child, actions: seq<Action>, t: State)
    requires Inv(s) && Decided(s, call, i, child)
    requires Run(s, actions, t) && NeverDropped(actions, call) && !Undone(t, call, i)
    ensures Undisturbed(actions)
    decreases |actions|
  {
    if actions != [] {
      var a, u := actions[0], Apply(s, actions[0]);
      P.StepKeeps(s, a);
      StepChild(s, a, call, i, u);
      var now := if Refuses(s, a, call) then Fallen(child) else child;
      TailKept(actions, call);
      if a.DoRevoke? || a.DoSettle? {
        RunUndone(u, call, i, now, actions[1..], t);
      }
      PublishableRun(u, call, i, now, actions[1..], t);
      assert forall k | 0 < k < |actions| :: actions[k] == actions[1..][k - 1];
    }
  }

  lemma TailKept(actions: seq<Action>, call: CallId)
    requires actions != [] && NeverDropped(actions, call)
    ensures NeverDropped(actions[1..], call)
  {
    assert forall k | 0 <= k < |actions[1..]| :: actions[1..][k] == actions[k + 1];
  }

  lemma UnsavedUndone(s: State, call: CallId, i: nat, answer: Option<Report>, u: State)
    requires Inv(s) && Awaited(s, call, i) && Enabled(s, DoFinishWork(call, i, answer, false))
    requires u == Apply(s, DoFinishWork(call, i, answer, false))
    ensures Undone(u, call, i)
  {
    assert !Kid(s.records, call, i).state.Terminal();
  }

  // The state after the answer of a live, running child of the current turn in some run.
  ghost predicate Answers(before: seq<Action>, s: State, call: CallId, i: nat, report: Report, saved: bool, u: State) {
    && Run(EMPTY, before, s) && Awaited(s, call, i)
    && Enabled(s, DoFinishWork(call, i, Some(report), saved))
    && u == Apply(s, DoFinishWork(call, i, Some(report), saved))
  }

  lemma AnswerStands(before: seq<Action>, s: State, call: CallId, i: nat, report: Report, saved: bool, u: State)
    requires Answers(before, s, call, i, report, saved, u)
    ensures Inv(u) && Decided(u, call, i, Done(s.records[call].children[i], Some(report)))
    ensures Event(s.records[call].children[i].id, Completed) !in u.told
    ensures !saved ==> Undone(u, call, i)
  {
    P.RunKeeps(EMPTY, before, s);
    P.StepKeeps(s, DoFinishWork(call, i, Some(report), saved));
    AnswerDecides(s, call, i, Some(report), saved, u);
    if !saved { UnsavedUndone(s, call, i, Some(report), u); }
  }

  // Over every run: such an answer is announced as a completed review if and only if the call
  // is published, or an interruption announces it, before a joint check of its sources fails
  // and before its record is discarded.
  lemma AnswerTold(before: seq<Action>, s: State, call: CallId, i: nat, report: Report, saved: bool, u: State,
                   after: seq<Action>, t: State)
    requires Answers(before, s, call, i, report, saved, u) && Run(u, after, t)
    ensures Event(s.records[call].children[i].id, Completed) in t.told <==> ToldFirst(u, after, call)
  {
    AnswerStands(before, s, call, i, report, saved, u);
    CompletedTold(u, call, i, Done(s.records[call].children[i], Some(report)), after, t);
  }

  // And as long as the record is kept, the child holds that very report, or failed for changed
  // sources exactly when a joint check of the call failed.
  lemma AnswerKept(before: seq<Action>, s: State, call: CallId, i: nat, report: Report, saved: bool, u: State,
                   after: seq<Action>, t: State)
    requires Answers(before, s, call, i, report, saved, u) && Run(u, after, t) && NeverDropped(after, call)
    ensures Has(t.records, call, i)
    ensures var child := s.records[call].children[i];
      t.records[call].children[i] ==
        if NeverRefused(u, after, call) then Child(child.id, child.expert, Completed, Some(report), NoError)
        else Child(child.id, child.expert, Failed, None, SourceChanged)
  {
    AnswerStands(before, s, call, i, report, saved, u);
    ReportHeld(u, call, i, Done(s.records[call].children[i], Some(report)), after, t);
  }

  // When `execute` publishes the call after such an answer, its save succeeded, nothing was
  // revoked or interrupted since, and the child is announced as completed if and only if the
  // joint check found its sources unchanged, and as failed otherwise.
  lemma PublishedIff(before: seq<Action>, s: State, call: CallId, i: nat, report: Report, saved: bool, u: State,
                     after: seq<Action>, t: State)
    requires Answers(before, s, call, i, report, saved, u) && Run(u, after, t) && NeverDropped(after, call)
    requires Enabled(t, DoAnnounce(call))
    ensures saved && Undisturbed(after)
    ensures var id, told := s.records[call].children[i].id, Apply(t, DoAnnounce(call)).told;
      && (Event(id, Completed) in told <==> NeverRefused(u, after, call))
      && (Event(id, Failed) in told <==> !NeverRefused(u, after, call))
  {
    AnswerStands(before, s, call, i, report, saved, u);
    PublishedAfter(u, call, i, Done(s.records[call].children[i], Some(report)), saved, after, t);
  }

  lemma PublishedAfter(u: State, call: CallId, i: nat, done: Child, saved: bool, after: seq<Action>, t: State)
    requires Inv(u) && Decided(u, call, i, done) && done.state.Completed? && (!saved ==> Undone(u, call, i))
    requires Run(u, after, t) && NeverDropped(after, call) && Enabled(t, DoAnnounce(call))
    ensures saved && Undisturbed(after)
    ensures var told := Apply(t, DoAnnounce(call)).told;
      && (Event(done.id, Completed) in told <==> NeverRefused(u, after, call))
      && (Event(done.id, Failed) in told <==> !NeverRefused(u, after, call))
  {
    if !saved { RunUndone(u, call, i, done, after, t); }
    PublishableRun(u, call, i, done, after, t);
    ReportHeld(u, call, i, done, after, t);
    P.RunKeeps(u, after, t);
    PublishedStates(t, call, i, if NeverRefused(u, after, call) then done else Fallen(done));
  }

  lemma PublishedStates(t: State, call: CallId, i: nat, child: Child)
    requires Inv(t) && Enabled(t, DoAnnounce(call)) && Decided(t, call, i, child)
    ensures var told := Apply(t, DoAnnounce(call)).told;
      && (Event(child.id, Completed) in told <==> child.state == Completed)
      && (Event(child.id, Failed) in told <==> child.state == Failed)
  {
    var u := Apply(t, DoAnnounce(call));
    TellsIt(t, DoAnnounce(call), call, i, child, u);
    P.StepKeeps(t, DoAnnounce(call));
    assert Kid(t.records, call, i).id == child.id;
  }

  // ---------------------------------------------------------------- a review that succeeds

  lemma {:induction false} RunsOn(s: State, actions: seq<Action>, t: State, a: Action)
    requires Run(s, actions, t) && Enabled(t, a)
    ensures Run(s, actions + [a], Apply(t, a))
    decreases |actions|
  {
    var all := actions + [a];
    if actions == [] {
      assert all == [a] && all[1..] == [];
    } else {
      assert all[0] == actions[0] && all[1..] == actions[1..] + [a];
      RunsOn(Apply(s, actions[0]), actions[1..], t, a);
    }
  }

  // One call with one expert in a new turn.
  predicate OneCall(s: State, turn: Turn, call: CallId, child: Child, source: string) {
    && s.parent == Some(turn) && s.parentTurn == Some(turn)
    && s.records == map[call := Record(turn, source, [child])]
  }

  // A state in which nothing has happened but the turn.
  predicate Empty(s: State, turn: Turn, parentTurn: Option<Turn>) {
    && s.parent == Some(turn) && s.parentTurn == parentTurn && s.records == map[] && s.tasks == map[]
    && s.progress == map[] && s.seen == {} && s.used == {} && s.live == {} && s.granted == map[] && s.told == {}
  }

  lemma TurnStarts(turn: Turn) returns (a: Action, t: State)
    ensures Enabled(EMPTY, a) && t == Apply(EMPTY, a) && Empty(t, turn, None)
  {
    a, t := DoNewTurn(turn), NewTurn(EMPTY, turn);
  }

  lemma TurnBegins(s: State, turn: Turn)
    requires Empty(s, turn, None)
    ensures Enabled(s, DoBegin) && Empty(Apply(s, DoBegin), turn, Some(turn))
  {
  }

  lemma MayPrepareFirst(s: State, turn: Turn, call: CallId, expert: Expert, id: ChildId)
    requires Empty(s, turn, Some(turn))
    ensures MayPrepare(s, call, [expert]) && FreshIds(s, [expert], [id])
  {
    assert Elements([expert]) == {expert};
  }

  lemma CallPrepares(s: State, turn: Turn, call: CallId, expert: Expert, id: ChildId, source: string)
    returns (a: Action, t: State)
    requires Empty(s, turn, Some(turn))
    ensures Enabled(s, a) && t == Apply(s, a) && t.live == {}
    ensures OneCall(t, turn, call, Child(id, expert, Waiting, None, NoError), source)
  {
    a := DoPrepare(call, [expert], [id], source);
    MayPrepareFirst(s, turn, call, expert, id);
    t := Prepare(s, call, [expert], [id], source);
    assert NewChildren([expert], [id]) == [Child(id, expert, Waiting, None, NoError)];
  }

  // The one worker of the call is in its model call.
  predicate Working(s: State, call: CallId) {
    && call in s.live && call in s.progress && s.progress[call].Gathering?
    && (call, 0) in s.tasks && s.tasks[(call, 0)] == Asking(false)
  }

  lemma CallLaunches(s: State, turn: Turn, call: CallId, child: Child, source: string) returns (t: State)
    requires OneCall(s, turn, call, child, source) && child.state.Waiting? && call !in s.live
    ensures Enabled(s, DoLaunch(call)) && t == Apply(s, DoLaunch(call)) && OneCall(t, turn, call, child, source)
    ensures call in t.live && call in t.progress && t.progress[call].Gathering?
    ensures (call, 0) in t.tasks && t.tasks[(call, 0)] == Queued(false)
  {
    Launches(s, call);
    t := Apply(s, DoLaunch(call));
  }

  lemma CallAsks(s: State, turn: Turn, call: CallId, child: Child, source: string) returns (a: Action, t: State)
    requires OneCall(s, turn, call, child, source) && call in s.live && call in s.progress
    requires s.progress[call].Gathering? && (call, 0) in s.tasks && s.tasks[(call, 0)] == Queued(false)
    ensures Enabled(s, a) && t == Apply(s, a)
    ensures OneCall(t, turn, call, child.(state := Running), source) && Working(t, call)
  {
    a := DoStartWork(call, 0, true, false, true);
    WorkerAsks(s, call, 0, true);
    t := Apply(s, a);
    assert [child][0 := child.(state := Running)] == [child.(state := Running)];
  }

  lemma CallAnswers(s: State, turn: Turn, call: CallId, child: Child, source: string, report: Report)
    returns (a: Action, t: State)
    requires OneCall(s, turn, call, child, source) && child.state == Running && child.expert == report.schema
    requires Working(s, call)
    ensures Enabled(s, a) && t == Apply(s, a)
    ensures OneCall(t, turn, call, Done(child, Some(report)), source) && MayJudge(t, call)
  {
    a := DoFinishWork(call, 0, Some(report), true);
    AnswerHeld(s, call, 0, Some(report), true);
    t := Apply(s, a);
    assert [child][0 := Done(child, Some(report))] == [Done(child, Some(report))];
  }

  lemma CallPublishes(s: State, turn: Turn, call: CallId, child: Child, source: string) returns (u: State, t: State)
    requires OneCall(s, turn, call, child, source) && MayJudge(s, call)
    ensures Enabled(s, DoJudge(call, true)) && u == Apply(s, DoJudge(call, true))
    ensures Enabled(u, DoAnnounce(call)) && t == Apply(u, DoAnnounce(call))
    ensures OneCall(t, turn, call, child, source) && Event(child.id, child.state) in t.told
  {
    Publishes(s, call, true);
    u := Apply(s, DoJudge(call, true));
    t := Apply(u, DoAnnounce(call));
    var children := t.records[call].children;
    assert Event(children[0].id, children[0].state) in StatesOf(children);
  }

  // For every turn, call, expert and report there is a run in which the expert is asked, its
  // report is held as given and announced as a completed review.
  lemma Succeeds(turn: Turn, call: CallId, id: ChildId, source: string, report: Report)
    returns (actions: seq<Action>, t: State)
    ensures Run(EMPTY, actions, t)
    ensures OneCall(t, turn, call, Child(id, report.schema, Completed, Some(report), NoError), source)
    ensures Event(id, Completed) in t.told
  {
    var a1, s1 := TurnStarts(turn);
    TurnBegins(s1, turn);
    var s2 := Apply(s1, DoBegin);
    var a3, s3 := CallPrepares(s2, turn, call, report.schema, id, source);
    var waiting := Child(id, report.schema, Waiting, None, NoError);
    var s4 := CallLaunches(s3, turn, call, waiting, source);
    var a5, s5 := CallAsks(s4, turn, call, waiting, source);
    var a6, s6 := CallAnswers(s5, turn, call, waiting.(state := Running), source, report);
    var s7, s8 := CallPublishes(s6, turn, call, Done(waiting, Some(report)), source);
    RunsFour([], EMPTY, EMPTY, a1, s1, DoBegin, s2, a3, s3, DoLaunch(call), s4);
    var begun := [] + [a1] + [DoBegin] + [a3] + [DoLaunch(call)];
    RunsFour(begun, EMPTY, s4, a5, s5, a6, s6, DoJudge(call, true), s7, DoAnnounce(call), s8);
    actions, t := begun + [a5] + [a6] + [DoJudge(call, true)] + [DoAnnounce(call)], s8;
  }

  lemma RunsFour(before: seq<Action>, s: State, s0: State, a1: Action, s1: State, a2: Action, s2: State,
                 a3: Action, s3: State, a4: Action, s4: State)
    requires Run(s, before, s0) && Enabled(s0, a1) && s1 == Apply(s0, a1) && Enabled(s1, a2) && s2 == Apply(s1, a2)
    requires Enabled(s2, a3) && s3 == Apply(s2, a3) && Enabled(s3, a4) && s4 == Apply(s3, a4)
    ensures Run(s, before + [a1] + [a2] + [a3] + [a4], s4)
  {
    RunsOn(s, before, s0, a1);
    RunsOn(s, before + [a1], s1, a2);
    RunsOn(s, before + [a1] + [a2], s2, a3);
    RunsOn(s, before + [a1] + [a2] + [a3], s3, a4);
  }
}
