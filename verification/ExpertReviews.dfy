// Bounded expert execution (lg_cli/bounded_reviews.py) as a protocol.
//
// Every function below is one stretch of code between two suspension points.
// A task that is cancelled before its first step never runs its body, and the
// host never makes an old turn current again; both are assumed, as in the source.
module ExpertReviews {
  import opened Prelude

  type CallId = string
  type Expert = string
  type Turn = string
  type ChildId = string

  datatype ChildState = Waiting | Running | Completed | Failed | Cancelled {
    predicate Terminal() { Completed? || Failed? || Cancelled? }
  }

  datatype Error = NoError | AnalysisFailed | SourceChanged | ProcessInterrupted

  // A report that passed the output schema of the expert named by `schema`.
  datatype Report = Report(schema: Expert, body: string)

  datatype Child = Child(id: ChildId, expert: Expert, state: ChildState,
                         result: Option<Report>, error: Error)

  // `source` stands for the task id and the two fingerprints of the policy.
  datatype Record = Record(parentTurn: Turn, source: string, children: seq<Child>)

  // One asyncio task per child: not started, inside the model call, or done.
  datatype Job = Queued(cancelled: bool) | Asking(cancelled: bool) | Ended(broken: bool)

  // Where the coroutine `execute` of one call stands.
  datatype Progress = Gathering | Judged | Draining | Over

  datatype Event = Event(id: ChildId, state: ChildState)
  datatype Ask = Ask(turn: Turn, expert: Expert, id: ChildId)

  datatype State = State(
    records: map<CallId, Record>,
    used: set<Expert>,
    seen: set<CallId>,
    live: set<CallId>,
    tasks: map<(CallId, nat), Job>,
    progress: map<CallId, Progress>,
    parentTurn: Option<Turn>,
    // the turn the host answers when asked for the parent, and all turns so far
    parent: Option<Turn>,
    turns: set<Turn>,
    // what happened so far: experts granted per turn, model calls, emitted events
    granted: map<(Turn, Expert), ChildId>,
    asked: seq<Ask>,
    told: set<Event>
  )

  const EMPTY: State :=
    State(map[], {}, {}, {}, map[], map[], None, None, {}, map[], [], {})

  type Records = map<CallId, Record>

  predicate Has(r: Records, c: CallId, i: int) {
    c in r && 0 <= i < |r[c].children|
  }

  function Kid(r: Records, c: CallId, i: int): Child
    requires Has(r, c, i)
  {
    r[c].children[i]
  }

  // ---------------------------------------------------------------- steps

  // The host makes a turn current, or none.
  function NewTurn(s: State, turn: Turn): State {
    s.(parent := Some(turn), turns := s.turns + {turn})
  }

  function EndTurn(s: State): State {
    s.(parent := None)
  }

  predicate MayBegin(s: State) {
    && s.records == map[]
    && (forall k | k in s.tasks :: s.tasks[k].Ended?)
    && s.parent.Some?
    && s.parent != s.parentTurn
  }

  function Begin(s: State): State {
    s.(parentTurn := s.parent, used := {}, seen := {})
  }

  // The guards of `prepare`; schema and context checks of the policy come first
  // in the source and only refuse more.
  predicate MayPrepare(s: State, call: CallId, names: seq<Expert>) {
    && 1 <= |names| <= 2
    && (|names| == 2 ==> names[0] != names[1])
    && call !in s.seen
    && (forall n | n in names :: n !in s.used)
    && |s.used + Elements(names)| <= 2
    && s.parent.Some?
    && s.parent == s.parentTurn
  }

  function NewChild(id: ChildId, expert: Expert): Child {
    Child(id, expert, Waiting, None, NoError)
  }

  function NewChildren(names: seq<Expert>, ids: seq<ChildId>): (children: seq<Child>)
    requires |ids| == |names|
    ensures |children| == |names|
    ensures forall i | 0 <= i < |names| :: children[i] == NewChild(ids[i], names[i])
  {
    seq(|names|, i requires 0 <= i < |names| => NewChild(ids[i], names[i]))
  }

  function Prepare(s: State, call: CallId, names: seq<Expert>, ids: seq<ChildId>, source: string): State
    requires |ids| == |names| && s.parentTurn.Some?
    requires forall i, j | 0 <= i < j < |names| :: names[i] != names[j]
  {
    var turn := s.parentTurn.value;
    s.(seen := s.seen + {call},
       used := s.used + Elements(names),
       records := s.records[call := Record(turn, source, NewChildren(names, ids))],
       granted := s.granted + Grants(turn, names, ids))
  }

  // Which child each expert name was given.
  function Grants(turn: Turn, names: seq<Expert>, ids: seq<ChildId>): map<(Turn, Expert), ChildId>
    requires |ids| == |names| && forall i, j | 0 <= i < j < |names| :: names[i] != names[j]
  {
    map i | 0 <= i < |names| :: (turn, names[i]) := ids[i]
  }

  predicate MayLaunch(s: State, call: CallId) {
    && call in s.records
    && call !in s.live
    && forall i | 0 <= i < |s.records[call].children| :: Kid(s.records, call, i).state.Waiting?
  }

  function Launch(s: State, call: CallId): State
    requires call in s.records
  {
    s.(live := s.live + {call},
       progress := s.progress[call := Gathering],
       tasks := s.tasks + map i: nat | i < |s.records[call].children| :: (call, i) := Queued(false))
  }

  function PutChild(s: State, call: CallId, i: nat, child: Child): State
    requires Has(s.records, call, i)
  {
    var record := s.records[call];
    s.(records := s.records[call := record.(children := record.children[i := child])])
  }

  // The first stretch of `work`: mark running, save, emit, then start the model
  // call unless the turn changed or the deadline passed. `saved` and `failureSaved`
  // say whether the first and the second call of `save` returned.
  function StartWork(s: State, call: CallId, i: nat, saved: bool, expired: bool, failureSaved: bool): State {
    if !Has(s.records, call, i) then s.(tasks := s.tasks[(call, i) := Ended(true)]) else
    var child := Kid(s.records, call, i).(state := Running);
    var s1 := PutChild(s, call, i, child);
    if !saved then s1.(tasks := s.tasks[(call, i) := Ended(true)])
    else
      var s2 := s1.(told := s.told + {Event(child.id, Running)});
      if Some(s.records[call].parentTurn) != s.parent then s2.(tasks := s.tasks[(call, i) := Ended(false)])
      else if expired then
        (if call !in s.live then s2.(tasks := s.tasks[(call, i) := Ended(false)])
         else PutChild(s2, call, i, child.(state := Failed, result := None, error := AnalysisFailed))
              .(tasks := s.tasks[(call, i) := Ended(!failureSaved)]))
      else
        s2.(tasks := s.tasks[(call, i) := Asking(false)],
            asked := s.asked + [Ask(s.records[call].parentTurn, child.expert, child.id)])
  }

  // The last stretch of `work`, after the model answered or failed.
  predicate WorkCounts(s: State, call: CallId, i: nat) {
    && call in s.live
    && Has(s.records, call, i)
    && Some(s.records[call].parentTurn) == s.parent
    && Kid(s.records, call, i).state.Running?
  }

  function Answered(child: Child, answer: Option<Report>): Child {
    match answer
    case Some(report) => child.(state := Completed, result := Some(report), error := NoError)
    case None => child.(state := Failed, result := None, error := AnalysisFailed)
  }

  function FinishWork(s: State, call: CallId, i: nat, answer: Option<Report>, saved: bool): State {
    if WorkCounts(s, call, i) then
      PutChild(s, call, i, Answered(Kid(s.records, call, i), answer)).(tasks := s.tasks[(call, i) := Ended(!saved)])
    else s.(tasks := s.tasks[(call, i) := Ended(false)])
  }

  // A cancelled task ends without running its remaining code.
  function DropWork(s: State, call: CallId, i: nat): State {
    s.(tasks := s.tasks[(call, i) := Ended(true)])
  }

  // `gather` returned and the call is still live: the joint source check.
  predicate MayJudge(s: State, call: CallId) {
    && call in s.live && call in s.records
    && call in s.progress && s.progress[call] == Gathering
    && forall i: nat | i < |s.records[call].children| :: (call, i) in s.tasks && s.tasks[(call, i)] == Ended(false)
  }

  predicate Unchanged(s: State, call: CallId, sourceSame: bool)
    requires call in s.records
  {
    sourceSame && Some(s.records[call].parentTurn) == s.parent
  }

  function Refused(child: Child): Child {
    child.(state := Failed, result := None, error := SourceChanged)
  }

  function Judge(s: State, call: CallId, sourceSame: bool): State
    requires call in s.records
  {
    var record := s.records[call];
    var s1 := s.(progress := s.progress[call := Judged]);
    if Unchanged(s, call, sourceSame) then s1
    else s1.(records := s.records[call := record.(children := MapChildren(record.children, Refused))])
  }

  function MapChildren(children: seq<Child>, f: Child -> Child): (mapped: seq<Child>)
    ensures |mapped| == |children|
    ensures forall i | 0 <= i < |children| :: mapped[i] == f(children[i])
  {
    seq(|children|, i requires 0 <= i < |children| => f(children[i]))
  }

  function EventsOf(children: seq<Child>): set<Event> {
    set c | c in children :: Event(c.id, c.state)
  }

  // The terminal events of one call, then the `finally` that ends its liveness.
  function Announce(s: State, call: CallId): State
    requires call in s.records
  {
    s.(told := s.told + EventsOf(s.records[call].children),
       live := s.live - {call},
       progress := s.progress[call := Draining])
  }

  function Stopped(job: Job): Job {
    match job
    case Queued(_) => Queued(true)
    case Asking(_) => Asking(true)
    case Ended(_) => job
  }

  function StopAll(tasks: map<(CallId, nat), Job>): map<(CallId, nat), Job> {
    map k | k in tasks :: Stopped(tasks[k])
  }

  // Revocation: nothing is live any more and every task is asked to stop.
  function Revoke(s: State): State {
    s.(live := {}, tasks := StopAll(s.tasks))
  }

  function Interrupted(child: Child): Child {
    if child.state.Terminal() then child
    else child.(state := Cancelled, result := None, error := ProcessInterrupted)
  }

  function InterruptedRecord(record: Record): Record {
    record.(children := MapChildren(record.children, Interrupted))
  }

  function InterruptRecords(r: Records): Records {
    map c | c in r :: InterruptedRecord(r[c])
  }

  function AllEvents(records: map<CallId, Record>): set<Event> {
    set c, i | c in records && 0 <= i < |records[c].children| ::
      Event(records[c].children[i].id, records[c].children[i].state)
  }

  function Settle(s: State): State {
    var settled := InterruptRecords(s.records);
    Revoke(s).(records := settled, told := s.told + AllEvents(settled))
  }

  // `execute` leaves its `try` with the call no longer live.
  function Leave(s: State, call: CallId): State {
    s.(progress := s.progress[call := Draining],
       tasks := map k | k in s.tasks :: if k.0 == call then Stopped(s.tasks[k]) else s.tasks[k])
  }

  function Drain(s: State, call: CallId): State {
    s.(progress := s.progress[call := Over])
  }

  function Finish(s: State, call: CallId): State {
    s.(records := map c | c in s.records && c != call :: s.records[c])
  }

  // The process ends: only what was said and asked remains.
  function Restart(s: State): State {
    s.(records := map[], used := {}, seen := {}, live := {}, tasks := map[], progress := map[],
       parentTurn := None, parent := None)
  }

  // ---------------------------------------------------------------- runs

  datatype Action =
    | DoNewTurn(turn: Turn)
    | DoEndTurn
    | DoBegin
    | DoPrepare(call: CallId, names: seq<Expert>, ids: seq<ChildId>, source: string)
    | DoLaunch(call: CallId)
    | DoStartWork(call: CallId, i: nat, saved: bool, expired: bool, failureSaved: bool)
    | DoFinishWork(call: CallId, i: nat, answer: Option<Report>, saved: bool)
    | DoDropWork(call: CallId, i: nat)
    | DoJudge(call: CallId, sourceSame: bool)
    | DoAnnounce(call: CallId)
    | DoRevoke
    | DoSettle
    | DoLeave(call: CallId)
    | DoDrain(call: CallId)
    | DoFinish(call: CallId)
    | DoRestart

  // Fresh child ids come from the operating system's random source.
  ghost predicate FreshIds(s: State, names: seq<Expert>, ids: seq<ChildId>) {
    && |ids| == |names|
    && Distinct(ids)
    && forall id | id in ids :: id !in s.granted.Values
  }

  ghost predicate Enabled(s: State, a: Action) {
    match a
    case DoNewTurn(turn) => turn !in s.turns
    case DoEndTurn => true
    // The adapters begin a turn only after every `execute` of the last one ended.
    case DoBegin => MayBegin(s) && forall c | c in s.progress :: s.progress[c].Draining? || s.progress[c].Over?
    case DoPrepare(call, names, ids, _) => MayPrepare(s, call, names) && FreshIds(s, names, ids)
    case DoLaunch(call) => MayLaunch(s, call)
    case DoStartWork(call, i, _, _, _) => (call, i) in s.tasks && s.tasks[(call, i)] == Queued(false)
    case DoFinishWork(call, i, answer, _) =>
      && (call, i) in s.tasks && s.tasks[(call, i)].Asking?
      && (answer.Some? && Has(s.records, call, i) ==> answer.value.schema == Kid(s.records, call, i).expert)
    case DoDropWork(call, i) => (call, i) in s.tasks && s.tasks[(call, i)] in {Queued(true), Asking(true)}
    case DoJudge(call, _) => MayJudge(s, call)
    case DoAnnounce(call) => call in s.live && call in s.records && call in s.progress && s.progress[call] == Judged
    case DoRevoke => true
    case DoSettle => true
    case DoLeave(call) => call !in s.live && call in s.progress
    case DoDrain(call) => call in s.progress && s.progress[call] == Draining
    case DoFinish(call) => call !in s.live
    case DoRestart => true
  }

  ghost function Apply(s: State, a: Action): State
    requires Enabled(s, a)
  {
    match a
    case DoNewTurn(turn) => NewTurn(s, turn)
    case DoEndTurn => EndTurn(s)
    case DoBegin => Begin(s)
    case DoPrepare(call, names, ids, source) => Prepare(s, call, names, ids, source)
    case DoLaunch(call) => Launch(s, call)
    case DoStartWork(call, i, saved, expired, failureSaved) => StartWork(s, call, i, saved, expired, failureSaved)
    case DoFinishWork(call, i, answer, saved) => FinishWork(s, call, i, answer, saved)
    case DoDropWork(call, i) => DropWork(s, call, i)
    case DoJudge(call, sourceSame) => Judge(s, call, sourceSame)
    case DoAnnounce(call) => Announce(s, call)
    case DoRevoke => Revoke(s)
    case DoSettle => Settle(s)
    case DoLeave(call) => Leave(s, call)
    case DoDrain(call) => Drain(s, call)
    case DoFinish(call) => Finish(s, call)
    case DoRestart => Restart(s)
  }

  ghost predicate Run(s: State, actions: seq<Action>, t: State)
    decreases |actions|
  {
    if actions == [] then s == t
    else Enabled(s, actions[0]) && Run(Apply(s, actions[0]), actions[1..], t)
  }

  // ---------------------------------------------------------------- invariant

  type Grant = map<(Turn, Expert), ChildId>

  // Children of different calls, and of one call, ask different experts.
  ghost predicate ExpertsApart(r: Records) {
    forall c, i, d, j | Has(r, c, i) && Has(r, d, j) && Kid(r, c, i).expert == Kid(r, d, j).expert :: c == d && i == j
  }

  // Every child is the one its expert was granted to in the current turn.
  ghost predicate ChildrenGranted(r: Records, g: Grant) {
    forall c, i | Has(r, c, i) ::
      && (r[c].parentTurn, Kid(r, c, i).expert) in g
      && g[(r[c].parentTurn, Kid(r, c, i).expert)] == Kid(r, c, i).id
  }

  ghost predicate GrantsInjective(g: Grant) {
    forall k, l | k in g && l in g && g[k] == g[l] :: k == l
  }

  function GrantedIn(g: Grant, turn: Turn): set<Expert> {
    set k | k in g && k.0 == turn :: k.1
  }

  ghost predicate GrantsBounded(g: Grant, turns: set<Turn>, used: set<Expert>, parentTurn: Option<Turn>,
                                parent: Option<Turn>) {
    && (forall k | k in g :: k.0 in turns)
    && (parentTurn.Some? ==> used == GrantedIn(g, parentTurn.value) && parentTurn.value in turns)
    && (parentTurn.None? ==> used == {})
    && (forall t | t in turns :: |GrantedIn(g, t)| <= 2)
    && (parent.Some? ==> parent.value in turns)
    && (parent.Some? && parent != parentTurn ==> GrantedIn(g, parent.value) == {})
  }

  // A task that may still start belongs to a live call whose child waits.
  ghost predicate QueuedWait(r: Records, live: set<CallId>, tasks: map<(CallId, nat), Job>) {
    forall c, i: nat | (c, i) in tasks && tasks[(c, i)] == Queued(false) ::
      c in live && Has(r, c, i) && Kid(r, c, i).state.Waiting?
  }

  // A live task inside the model call has left the waiting state.
  ghost predicate AskingStarted(r: Records, live: set<CallId>, tasks: map<(CallId, nat), Job>) {
    forall c, i: nat | (c, i) in tasks && tasks[(c, i)].Asking? && c in live && Has(r, c, i) ::
      !Kid(r, c, i).state.Waiting?
  }

  ghost predicate AskedGranted(asked: seq<Ask>, g: Grant) {
    && (forall k | 0 <= k < |asked| ::
      (asked[k].turn, asked[k].expert) in g && g[(asked[k].turn, asked[k].expert)] == asked[k].id)
    && (forall k, l | 0 <= k < l < |asked| :: asked[k].id != asked[l].id)
  }

  ghost predicate WaitingUnasked(r: Records, asked: seq<Ask>) {
    forall k, c, i | 0 <= k < |asked| && Has(r, c, i) && asked[k].id == Kid(r, c, i).id ::
      !Kid(r, c, i).state.Waiting?
  }

  ghost predicate OneVerdict(told: set<Event>) {
    forall e, f | e in told && f in told && e.id == f.id && e.state.Terminal() && f.state.Terminal() :: e == f
  }

  ghost predicate ToldGranted(told: set<Event>, g: Grant) {
    forall e | e in told :: e.id in g.Values
  }

  // An emitted verdict is final: its call is over and its child still says the same.
  ghost predicate VerdictsFinal(r: Records, live: set<CallId>, told: set<Event>) {
    forall e, c, i | e in told && e.state.Terminal() && Has(r, c, i) && Kid(r, c, i).id == e.id ::
      c !in live && Kid(r, c, i).state == e.state
  }

  // A worker that ended normally left a verdict, unless its turn is gone for good.
  ghost predicate EndedDecided(r: Records, live: set<CallId>, tasks: map<(CallId, nat), Job>, parent: Option<Turn>) {
    forall c, i: nat | c in live && Has(r, c, i) && (c, i) in tasks && tasks[(c, i)] == Ended(false) ::
      Kid(r, c, i).state.Terminal() || parent != Some(r[c].parentTurn)
  }

  ghost predicate JudgedDecided(r: Records, live: set<CallId>, progress: map<CallId, Progress>) {
    forall c, i | Has(r, c, i) && c in live && c in progress && progress[c] == Judged :: Kid(r, c, i).state.Terminal()
  }

  predicate ChildHonest(c: Child) {
    if c.state.Completed? then c.result.Some? && c.result.value.schema == c.expert && c.error == NoError
    else c.result.None?
  }

  // Only a completed child carries a report, one of its own expert.
  ghost predicate ResultsHonest(r: Records) {
    forall c, i | Has(r, c, i) :: ChildHonest(Kid(r, c, i))
  }

  ghost predicate RecordsShaped(r: Records, parentTurn: Option<Turn>, seen: set<CallId>) {
    forall c | c in r ::
      && 1 <= |r[c].children| <= 2
      && parentTurn == Some(r[c].parentTurn)
      && c in seen
  }

  ghost predicate LiveShaped(r: Records, live: set<CallId>, progress: map<CallId, Progress>) {
    forall c | c in live :: c in r && c in progress && (progress[c].Gathering? || progress[c].Judged?)
  }

  ghost predicate Inv(s: State) {
    && RecordsShaped(s.records, s.parentTurn, s.seen)
    && LiveShaped(s.records, s.live, s.progress)
    && ExpertsApart(s.records)
    && ChildrenGranted(s.records, s.granted)
    && GrantsInjective(s.granted)
    && GrantsBounded(s.granted, s.turns, s.used, s.parentTurn, s.parent)
    && QueuedWait(s.records, s.live, s.tasks)
    && AskingStarted(s.records, s.live, s.tasks)
    && AskedGranted(s.asked, s.granted)
    && WaitingUnasked(s.records, s.asked)
    && OneVerdict(s.told)
    && ToldGranted(s.told, s.granted)
    && VerdictsFinal(s.records, s.live, s.told)
    && EndedDecided(s.records, s.live, s.tasks, s.parent)
    && JudgedDecided(s.records, s.live, s.progress)
    && ResultsHonest(s.records)
  }
}
