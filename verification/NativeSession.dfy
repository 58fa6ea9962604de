// The write-ahead tool loop: lg_cli/native_runtime.py with the expert calls of
// lg_cli/native_delegation.py, as steps cut at every suspension point, with the
// saved checkpoint, crashes and reopening.
module NativeSession {
  import opened Prelude
  import opened ExpertReviews
  import opened Checkpoint

  const ROUNDS := 16
  const MAX_CALLS := 16

  datatype Phase =
    | Idle                                   // no turn
    | Wedged                                 // `run` failed before it made its task
    | Thinking(round: nat)                   // inside the model call
    | Calling(round: nat, calls: seq<ToolCall>, at: nat)    // inside `tools.call`
    | Reviewing(round: nat, calls: seq<ToolCall>, at: nat, cancelled: bool)  // inside `delegations.execute`
    | Delivering(round: nat, calls: seq<ToolCall>, at: nat) // `execute` is about to return
    | Unwinding                              // the task ended, `run` has not resumed
    | Down                                   // no process

  datatype Session = Session(
    messages: seq<Item>,
    pending: seq<CallId>,
    steering: seq<string>,
    reviews: State,
    phase: Phase,
    broken: bool,            // checkpoint_failed
    saved: Option<Image>,    // the checkpoint file
    handed: seq<CallId>,     // every call handed to tools.call or delegations.execute so far
    again: set<Event>        // what was announced while settling reopened checkpoints
  )

  const FIRST: Session := Session([], [], [], EMPTY, Down, false, None, [], {})

  // Every event ever announced, in this process and in those before it.
  function Announced(s: Session): set<Event> {
    s.reviews.told + s.again
  }

  function ImageOf(s: Session): Image {
    Image(s.messages, s.pending, s.reviews.records)
  }

  // A failed write of the file breaks the session. A text that cannot be encoded
  // stays in the history, so it makes every later save fail as well.
  function Save(s: Session, io: Io): Session {
    s.(saved := if io.Lands() then Some(ImageOf(s)) else s.saved, broken := s.broken || io.Raises())
  }

  // ---------------------------------------------------------------- settling expert calls

  function Kept(ids: seq<CallId>, keys: set<CallId>): (kept: seq<CallId>)
    ensures forall id | id in kept :: id in keys
  {
    if ids == [] then []
    else (if ids[0] in keys then [ids[0]] else []) + Kept(ids[1..], keys)
  }

  function Outputs(ids: seq<CallId>, r: Records): seq<Item>
    requires forall id | id in ids :: id in r
  {
    seq(|ids|, i requires 0 <= i < |ids| => Output(ids[i], Interruption(r[ids[i]])))
  }

  function RemoveAll(s: seq<CallId>, ids: seq<CallId>): seq<CallId> {
    if ids == [] then s
    else RemoveFirst(RemoveAll(s, ids[..|ids| - 1]), ids[|ids| - 1])
  }

  // Calls that never reached the history are dropped, all others get a verdict.
  function Settled(s: Session): Session {
    var r := Revoke(s.reviews);
    s.(reviews := Settle(r.(records := map c | c in r.records && c in s.pending :: r.records[c])))
  }

  // Settled calls get an interrupted result in the history.
  function Resolved(s: Session): Session {
    var ids := Kept(s.pending, s.reviews.records.Keys);
    s.(messages := s.messages + Outputs(ids, s.reviews.records), pending := RemoveAll(s.pending, ids), reviews :=
      s.reviews.(records := map[]))
  }

  function SettleInterrupted(s: Session, first: Io, second: Io): Session {
    var s1 := Save(Settled(s), first);
    if first.Raises() then s1 else Save(Resolved(s1), second)
  }

  predicate SettleRaises(first: Io, second: Io) {
    first.Raises() || second.Raises()
  }

  // ---------------------------------------------------------------- a turn

  predicate MayRun(s: Session) {
    s.phase.Idle? && !s.broken && s.pending == []
  }

  function StartTurn(s: Session, turn: Turn, text: string, io: Io): Session {
    var r := NewTurn(s.reviews, turn);
    if !MayBegin(r) then s.(reviews := r, phase := Wedged)
    else
      var s1 := Save(s.(reviews := Begin(r), messages := s.messages + [Message(User, text, None)]), io);
      s1.(phase := if io.Raises() then Wedged else Thinking(0))
  }

  function NextRound(s: Session, round: nat): Session {
    s.(phase := if round + 1 < ROUNDS then Thinking(round + 1) else Unwinding)
  }

  function CallsOf(output: seq<Item>): seq<ToolCall> {
    if output == [] then []
    else (if output[0].Call? then [output[0].call] else []) + CallsOf(output[1..])
  }

  function MessagesOf(output: seq<Item>): seq<Item> {
    if output == [] then []
    else (if output[0].Message? then [output[0]] else []) + MessagesOf(output[1..])
  }

  // The text the model answers with: that of all its messages.
  function FinalText(output: seq<Item>): string {
    if output == [] then ""
    else (if output[0].Message? then output[0].text else "") + FinalText(output[1..])
  }

  function Answer(final: string): seq<Item> {
    if final == "" then [] else [Message(Assistant, final, None)]
  }

  function IdsOf(calls: seq<ToolCall>): seq<CallId> {
    seq(|calls|, i requires 0 <= i < |calls| => calls[i].id)
  }

  function Notes(texts: seq<string>): seq<Item> {
    seq(|texts|, i requires 0 <= i < |texts| => Message(User, texts[i], None))
  }

  // Identities are new, non-empty and distinct, and every tool is known.
  predicate CallsFine(messages: seq<Item>, calls: seq<ToolCall>, tools: set<ToolName>, delegates: bool) {
    && |calls| <= MAX_CALLS
    && (forall i, j | 0 <= i < j < |calls| :: calls[i].id != calls[j].id)
    && (forall i | 0 <= i < |calls| :: calls[i].id != "" && calls[i].id !in CallIds(messages))
    && (forall i | 0 <= i < |calls| :: calls[i].name in tools || (delegates && calls[i].name == DELEGATE))
  }

  predicate Mentioned(messages: seq<Item>, id: CallId) {
    exists i :: 0 <= i < |messages| && Named(messages[i], id)
  }

  // The expert calls of one reply are prepared in order. `limit` is where the host
  // policy refuses, if it does.
  function PrepareAll(r: State, messages: seq<Item>, calls: seq<ToolCall>, kids: seq<seq<ChildId>>, source: string,
                      limit: nat): (State, bool)
    requires |kids| == |calls|
    decreases |calls|
  {
    if calls == [] then (r, true)
    else if calls[0].name != DELEGATE
      then PrepareAll(r, messages, calls[1..], kids[1..], source, if limit == 0 then 0 else limit - 1)
    else if limit == 0 || Mentioned(messages, calls[0].id) || !MayPrepare(r, calls[0].id, calls[0].experts)
      || |kids[0]| != |calls[0].experts| then (r, false)
    else PrepareAll(Prepare(r, calls[0].id, calls[0].experts, kids[0], source), messages, calls[1..], kids[1..], source,
      limit - 1)
  }

  // The child ids of one reply are new, each batch relative to the ones before.
  ghost predicate KidsFresh(r: State, messages: seq<Item>, calls: seq<ToolCall>, kids: seq<seq<ChildId>>,
                            source: string)
    requires |kids| == |calls|
    decreases |calls|
  {
    if calls == [] then true
    else if calls[0].name != DELEGATE then KidsFresh(r, messages, calls[1..], kids[1..], source)
    else
      FreshIds(r, calls[0].experts, kids[0]) &&
      (MayPrepare(r, calls[0].id, calls[0].experts) ==>
        KidsFresh(Prepare(r, calls[0].id, calls[0].experts, kids[0], source), messages, calls[1..], kids[1..], source))
  }

  // The next call of a saved batch is handed over, or the round ends.
  function Hand(s: Session, round: nat, calls: seq<ToolCall>, at: nat): Session
    requires at <= |calls|
  {
    if at == |calls| then NextRound(s, round)
    else
      var id := calls[at].id;
      var s1 := s.(handed := s.handed + [id]);
      if calls[at].name != DELEGATE then s1.(phase := Calling(round, calls, at))
      else if MayLaunch(s.reviews, id) then
        s1.(reviews := Launch(s.reviews, id), phase := Reviewing(round, calls, at, false))
      else s1.(phase := Unwinding)
  }

  // What one model reply leads to, up to the next suspension.
  function Reply(s: Session, output: seq<Item>, schemaOk: bool, tools: set<ToolName>, delegates: bool,
                 kids: seq<seq<ChildId>>, source: string, limit: nat, io: Io): Session
    requires s.phase.Thinking? && |kids| == |CallsOf(output)|
  {
    var calls := CallsOf(output);
    if s.steering != [] then
      var s1 := Save(s.(messages := s.messages + Answer(FinalText(output)) + Notes(s.steering), steering := []), io);
      if io.Raises() then s1.(phase := Unwinding) else NextRound(s1, s.phase.round)
    else if calls == [] then
      if FinalText(output) == "" || !schemaOk then s.(phase := Unwinding)
      else Save(s.(messages := s.messages + MessagesOf(output)), io).(phase := Unwinding)
    else if !CallsFine(s.messages, calls, tools, delegates) then s.(phase := Unwinding)
    else
      var (r, ok) := PrepareAll(s.reviews, s.messages, calls, kids, source, limit);
      if !ok then s.(reviews := r, phase := Unwinding)
      else
        var s1 := Save(s.(reviews := r, messages := s.messages + output, pending := IdsOf(calls)), io);
        if io.Raises() then s1.(phase := Unwinding) else Hand(s1, s.phase.round, calls, 0)
  }

  // A call returned: its result enters the history, it leaves `pending`, and all is saved.
  function Complete(s: Session, data: Data, io: Io): Session
    requires (s.phase.Calling? || s.phase.Delivering?) && s.phase.at < |s.phase.calls|
  {
    var id := s.phase.calls[s.phase.at].id;
    AfterResult(s.(messages := s.messages + [Output(id, data)]), id, io, s.phase.round, s.phase.calls, s.phase.at + 1)
  }

  // A call with its result leaves the pending list and the expert protocol.
  function AfterResult(s: Session, id: CallId, io: Io, round: nat, calls: seq<ToolCall>, at: nat): Session
    requires at <= |calls|
  {
    if id !in s.pending then s.(phase := Unwinding)
    else
      var s1 := s.(pending := RemoveFirst(s.pending, id));
      if id in s.reviews.live then s1.(phase := Unwinding)
      else SavedHand(s1.(reviews := Finish(s.reviews, id)), io, round, calls, at)
  }

  // The next call is handed over once the history is saved.
  function SavedHand(s: Session, io: Io, round: nat, calls: seq<ToolCall>, at: nat): Session
    requires at <= |calls|
  {
    if io.Raises() then Save(s, io).(phase := Unwinding) else Hand(Save(s, io), round, calls, at)
  }

  // ---------------------------------------------------------------- workers

  function ExpertStart(s: Session, call: CallId, i: nat, first: Io, expired: bool, second: Io): Session {
    if !Has(s.reviews.records, call, i) then s.(reviews := StartWork(s.reviews, call, i, false, expired, false)) else
    var s1 := Save(s.(reviews := StartWork(s.reviews, call, i, false, expired, false)), first);
    if first.Raises() then s1 else ExpertContinue(s, s1, call, i, expired, second)
  }

  // The same stretch once its first save succeeded.
  function ExpertContinue(s: Session, s1: Session, call: CallId, i: nat, expired: bool, second: Io): Session
    requires Has(s.reviews.records, call, i)
  {
    var s2 := s1.(reviews := StartWork(s.reviews, call, i, true, expired, !second.Raises()));
    if expired && Some(s.reviews.records[call].parentTurn) == s.reviews.parent && call in s.reviews.live
    then Save(s2, second) else s2
  }

  function ExpertFinish(s: Session, call: CallId, i: nat, answer: Option<Report>, io: Io): Session {
    var s1 := s.(reviews := FinishWork(s.reviews, call, i, answer, !io.Raises()));
    if WorkCounts(s.reviews, call, i) then Save(s1, io) else s1
  }

  function ExpertDrop(s: Session, call: CallId, i: nat): Session {
    s.(reviews := DropWork(s.reviews, call, i))
  }

  function Current(s: Session): CallId
    requires s.phase.Reviewing? && s.phase.at < |s.phase.calls|
  {
    s.phase.calls[s.phase.at].id
  }

  // `execute` fails or is cancelled: settle, leave, and let the exception out.
  function ExpertsAbort(s: Session, first: Io, second: Io): Session
    requires s.phase.Reviewing? && s.phase.at < |s.phase.calls|
  {
    var s1 := SettleInterrupted(s, first, second);
    s1.(reviews := Leave(s1.reviews, Current(s)), phase := Unwinding)
  }

  // Both workers returned while the call is live.
  function ExpertsJudge(s: Session, sourceSame: bool, io: Io, first: Io, second: Io): Session
    requires s.phase.Reviewing? && s.phase.at < |s.phase.calls| && Current(s) in s.reviews.records
  {
    var call := Current(s);
    var s1 := Save(s.(reviews := Judge(s.reviews, call, sourceSame)), io);
    if io.Raises() then ExpertsAbort(s1, first, second)
    else s1.(reviews := Announce(s1.reviews, call), phase := Delivering(s.phase.round, s.phase.calls, s.phase.at))
  }

  // Both workers returned after the call was revoked.
  function ExpertsLeave(s: Session): Session
    requires s.phase.Reviewing? && s.phase.at < |s.phase.calls|
  {
    s.(reviews := Leave(s.reviews, Current(s)), phase := Delivering(s.phase.round, s.phase.calls, s.phase.at))
  }

  // ---------------------------------------------------------------- interruption and recovery

  predicate HasTask(phase: Phase) {
    phase.Thinking? || phase.Calling? || phase.Reviewing? || phase.Delivering? || phase.Unwinding?
  }

  // When settling raises, the task is not cancelled.
  function Interrupt(s: Session, first: Io, second: Io): Session {
    var s1 := if s.reviews.records != map[] then SettleInterrupted(s, first, second) else s;
    if s.reviews.records != map[] && SettleRaises(first, second) then s1
    else if s.phase.Reviewing? then s1.(phase := s.phase.(cancelled := true))
    else s1.(phase := Unwinding)
  }

  // The model or a tool raised, or the turn timed out there.
  function Fail(s: Session): Session {
    s.(phase := Unwinding)
  }

  // The `finally` of `run`.
  function Unwind(s: Session, first: Io, second: Io): Session {
    TurnOver(if s.reviews.records != map[] then SettleInterrupted(s, first, second) else s)
  }

  function TurnOver(s: Session): Session {
    s.(reviews := EndTurn(s.reviews), phase := Idle)
  }

  function Crash(s: Session): Session {
    s.(messages := [], pending := [], steering := [], reviews := Restart(s.reviews), phase := Down, broken := false)
  }

  // A restored session settles its expert calls, which announces every child of the
  // checkpoint as it is settled; a failed save leaves no session, but what was announced stays.
  function Loaded(s: Session, image: Image): Session {
    s.(messages := image.messages, pending := image.pending, reviews := s.reviews.(records := image.records), phase :=
      Idle)
  }

  function Restored(s: Session, image: Image, first: Io, second: Io): Session {
    if image.records == map[] then Loaded(s, image)
    else
      var settled := SettleInterrupted(Loaded(s, image), first, second);
      var again := s.again + AllEvents(InterruptRecords(image.records));
      if SettleRaises(first, second) then s.(saved := settled.saved, again := again)
      else settled.(reviews := s.reviews, again := again)
  }

  // `start` with the checkpoint file, read by the strict reader.
  ghost function Reopen(s: Session, first: Io, second: Io): Session {
    match s.saved
    case None => s.(phase := Idle)
    case Some(image) => if Accepted(image) then Restored(s, image, first, second) else s
  }

  // ---------------------------------------------------------------- runs

  datatype Step =
    | DoStartTurn(turn: Turn, text: string, io: Io)
    | DoReply(output: seq<Item>, schemaOk: bool, tools: set<ToolName>, delegates: bool,
              kids: seq<seq<ChildId>>, source: string, limit: nat, io: Io)
    | DoComplete(data: Data, io: Io)
    | DoExpertStart(call: CallId, i: nat, io: Io, expired: bool, second: Io)
    | DoExpertFinish(call: CallId, i: nat, answer: Option<Report>, io: Io)
    | DoExpertDrop(call: CallId, i: nat)
    | DoExpertsJudge(sourceSame: bool, io: Io, first: Io, second: Io)
    | DoExpertsLeave
    | DoExpertsAbort(first: Io, second: Io)
    | DoSteer(text: string)
    | DoInterrupt(first: Io, second: Io)
    | DoFail
    | DoUnwind(first: Io, second: Io)
    | DoCrash
    | DoReopen(first: Io, second: Io)

  ghost predicate Allowed(s: Session, a: Step) {
    match a
    case DoStartTurn(turn, _, _) => MayRun(s) && turn !in s.reviews.turns
    case DoReply(output, _, _, _, kids, source, _, _) =>
      && s.phase.Thinking?
      && (forall i | 0 <= i < |output| :: !output[i].Output?)
      && |kids| == |CallsOf(output)|
      && KidsFresh(s.reviews, s.messages, CallsOf(output), kids, source)
    case DoComplete(_, _) => (s.phase.Calling? || s.phase.Delivering?) && s.phase.at < |s.phase.calls|
    case DoExpertStart(call, i, _, expired, _) =>
      !s.phase.Down? && ExpertReviews.Enabled(s.reviews, DoStartWork(call, i, false, expired, false))
    case DoExpertFinish(call, i, answer, _) =>
      !s.phase.Down? && ExpertReviews.Enabled(s.reviews, DoFinishWork(call, i, answer, false))
    case DoExpertDrop(call, i) => !s.phase.Down? && ExpertReviews.Enabled(s.reviews, DoDropWork(call, i))
    case DoExpertsJudge(_, _, _, _) =>
      s.phase.Reviewing? && s.phase.at < |s.phase.calls| && !s.phase.cancelled && MayJudge(s.reviews, Current(s))
    case DoExpertsLeave =>
      && s.phase.Reviewing? && s.phase.at < |s.phase.calls| && !s.phase.cancelled
      && Current(s) !in s.reviews.live
      && forall k | k in s.reviews.tasks && k.0 == Current(s) :: s.reviews.tasks[k] == Ended(false)
    case DoExpertsAbort(_, _) => s.phase.Reviewing? && s.phase.at < |s.phase.calls|
    case DoSteer(_) => s.phase.Thinking? || s.phase.Unwinding? || s.phase.Wedged?
    case DoInterrupt(_, _) => HasTask(s.phase)
    case DoFail => s.phase.Thinking? || s.phase.Calling? || s.phase.Delivering?
    case DoUnwind(_, _) => s.phase.Unwinding?
    case DoCrash => !s.phase.Down?
    case DoReopen(_, _) => s.phase.Down?
  }

  ghost function Next(s: Session, a: Step): Session
    requires Allowed(s, a)
  {
    match a
    case DoStartTurn(turn, text, io) => StartTurn(s, turn, text, io)
    case DoReply(output, schemaOk, tools, delegates, kids, source, limit, io) =>
      Reply(s, output, schemaOk, tools, delegates, kids, source, limit, io)
    case DoComplete(data, io) => Complete(s, data, io)
    case DoExpertStart(call, i, io, expired, second) => ExpertStart(s, call, i, io, expired, second)
    case DoExpertFinish(call, i, answer, io) => ExpertFinish(s, call, i, answer, io)
    case DoExpertDrop(call, i) => ExpertDrop(s, call, i)
    case DoExpertsJudge(sourceSame, io, first, second) => ExpertsJudge(s, sourceSame, io, first, second)
    case DoExpertsLeave => ExpertsLeave(s)
    case DoExpertsAbort(first, second) => ExpertsAbort(s, first, second)
    case DoSteer(text) => s.(steering := s.steering + [text])
    case DoInterrupt(first, second) => Interrupt(s, first, second)
    case DoFail => Fail(s)
    case DoUnwind(first, second) => Unwind(s, first, second)
    case DoCrash => Crash(s)
    case DoReopen(first, second) => Reopen(s, first, second)
  }

  ghost predicate Runs(s: Session, steps: seq<Step>, t: Session)
    decreases |steps|
  {
    if steps == [] then s == t
    else Allowed(s, steps[0]) && Runs(Next(s, steps[0]), steps[1..], t)
  }
}
