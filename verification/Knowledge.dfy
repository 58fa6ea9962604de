// Author-confirmed cognition in versioned records: lg_cli/narrative_knowledge.py.
// Reading a saved record back as JSON and validating its shape is the identity on
// valid records.
module Knowledge {
  import opened Prelude
  import opened StoryStore
  import Text

  datatype Audience = CharacterMind | ReaderMind

  datatype Topic = Topic(audience: Audience, holder: Option<DocId>, key: string, start: int)

  datatype Source = Source(document: DocId, version: VersionId)

  datatype Stance = Knows | Believes | Uncertain

  datatype Proposal = Proposal(content: string, stance: Stance, until: Option<int>, sources: seq<Source>,
    rationale: string)

  // A confirmed proposal with the identity of the version that proposed it.
  datatype Confirmation = Confirmation(proposal: Proposal, version: VersionId, number: nat)

  datatype Operation = Propose | Confirm | Withdraw

  datatype Status = Unconfirmed | Confirmed | Withdrawn

  datatype Payload = Payload(operation: Operation, topic: Topic, number: nat, proposal: Proposal,
                             confirmed: Option<Confirmation>, status: Status)

  datatype Content = Prose(text: string) | Record(payload: Payload)

  type Story = Db<Content>

  const REACH := 1000000000

  // ---------------------------------------------------------------- validity

  predicate TopicShaped(topic: Topic) {
    && 1 <= |topic.key| <= 128
    && -REACH <= topic.start <= REACH
    && (topic.holder.Some? ==> topic.holder.value > 0)
  }

  predicate ProposalShaped(p: Proposal) {
    && 1 <= |p.content| <= 12000 && 1 <= |p.rationale| <= 4000 && |p.sources| <= 32
    && forall s | s in p.sources :: s.document > 0 && s.version > 0
  }

  predicate StatementValid(topic: Topic, p: Proposal) {
    && !Text.Blank(p.content) && !Text.Blank(p.rationale)
    && (p.until.Some? ==> topic.start < p.until.value)
    && Distinct(p.sources)
  }

  // The strict reader of saved records.
  predicate PayloadValid(p: Payload) {
    && TopicShaped(p.topic) && !Text.Blank(p.topic.key)
    && (p.topic.audience.ReaderMind? <==> p.topic.holder.None?)
    && (p.status.Confirmed? <==> p.confirmed.Some?)
    && p.number > 0
    && ProposalShaped(p.proposal) && StatementValid(p.topic, p.proposal)
    && (p.confirmed.Some? ==>
          && ProposalShaped(p.confirmed.value.proposal) && StatementValid(p.topic, p.confirmed.value.proposal)
          && p.confirmed.value.version > 0 && p.confirmed.value.number > 0)
  }

  // The valid record in a version, if it holds one.
  predicate Reads(db: Story, v: VersionId) {
    v in db.versions && db.versions[v].content.Record? && PayloadValid(db.versions[v].content.payload)
  }

  function Of(db: Story, v: VersionId): Payload
    requires v in db.versions && db.versions[v].content.Record?
  {
    db.versions[v].content.payload
  }

  predicate IsRecord(db: Story, d: DocId) {
    d in db.docs && db.docs[d].kind.Cognition?
  }

  predicate HeadReads(db: Story, d: DocId) {
    IsRecord(db, d) && db.docs[d].head.Some? && Reads(db, db.docs[d].head.value)
  }

  function Head(db: Story, d: DocId): Payload
    requires HeadReads(db, d)
  {
    Of(db, db.docs[d].head.value)
  }

  predicate HolderFine(db: Story, topic: Topic) {
    match topic.holder
    case None => topic.audience.ReaderMind?
    case Some(h) =>
      topic.audience.CharacterMind? && h > 0 && h in db.docs && db.docs[h].kind.Character? && !db.docs[h].state.Gone()
  }

  function SourcesStatus(db: Story, sources: seq<Source>): SourceState {
    if exists s | s in sources :: SourceStatus(db, s.document, s.version).Unavailable? then Unavailable
    else if exists s | s in sources :: SourceStatus(db, s.document, s.version).Stale? then Stale
    else if exists s | s in sources :: SourceStatus(db, s.document, s.version).Pending? then Pending
    else if sources == [] then Unbound else Current
  }

  predicate Usable(state: SourceState) {
    state.Current? || state.Unbound?
  }

  // ---------------------------------------------------------------- consistency checks on every read

  // The saved proposal is one of this record's proposal versions.
  ghost predicate ProposalFound(db: Story, d: DocId, p: Payload) {
    exists v :: Owns(db, d, v) && db.versions[v].number == p.number && Reads(db, v)
      && Of(db, v).operation.Propose? && Of(db, v).topic == p.topic && Of(db, v).number == p.number
      && Of(db, v).proposal == p.proposal
  }

  ghost predicate ConfirmationFound(db: Story, d: DocId, p: Payload) {
    p.confirmed.Some? ==>
      var c := p.confirmed.value;
      && Owns(db, d, c.version) && db.versions[c.version].number == c.number && Reads(db, c.version)
      && Of(db, c.version).operation.Propose? && Of(db, c.version).topic == p.topic
      && Of(db, c.version).proposal == c.proposal
  }

  // `_snapshot` raises nothing.
  ghost predicate SnapshotFine(db: Story, d: DocId) {
    && HeadReads(db, d)
    && db.docs[d].parent == Head(db, d).topic.holder
    && db.docs[d].sequence == Some(Head(db, d).topic.start)
    && ProposalFound(db, d, Head(db, d))
    && ConfirmationFound(db, d, Head(db, d))
  }

  // ---------------------------------------------------------------- transitions

  // The version and the snapshot of a write; a failed snapshot rolls it back.
  ghost function Write(db: Story, d: DocId, payload: Payload, v: VersionId, number: nat): Option<Story>
    requires d in db.docs
  {
    var t := Grow(db, d, v, number, Record(payload));
    if SnapshotFine(t, d) then Some(t) else None
  }

  ghost predicate SourcesOwned(db: Story, sources: seq<Source>) {
    forall s | s in sources :: Owns(db, s.document, s.version)
  }

  ghost predicate ProposalAllowed(db: Story, title: string, topic: Topic, p: Proposal) {
    && !Text.Blank(title) && TopicShaped(topic) && !Text.Blank(topic.key)
    && ProposalShaped(p) && StatementValid(topic, p)
    && HolderFine(db, topic) && SourcesOwned(db, p.sources)
  }

  // The topic with its key stripped, as it is compared and saved.
  function Clean(topic: Topic): Topic {
    topic.(key := Text.Strip(topic.key))
  }

  ghost predicate TopicTaken(db: Story, topic: Topic) {
    exists d :: HeadReads(db, d) && Head(db, d).topic == topic
  }

  ghost predicate AllRead(db: Story) {
    forall d | IsRecord(db, d) :: HeadReads(db, d)
  }

  // `found` is the document with this slug, `fresh` the identity a new one would get.
  ghost function ProposeIn(db: Story, slug: string, title: string, given: Topic, p: Proposal, expected: nat,
                           found: Option<DocId>, newDoc: DocId, v: VersionId, number: nat): Option<Story>
  {
    var topic := Clean(given);
    if !TopicShaped(given) || !ProposalAllowed(db, title, topic, p) then None
    else match found
      case Some(d) =>
        if !IsRecord(db, d) || db.docs[d].head != Some(expected) || !HeadReads(db, d)
          || Head(db, d).topic != topic || db.docs[d].title != Text.Strip(title) then None
        else Write(db, d, Payload(Propose, topic, number, p, Head(db, d).confirmed, Head(db, d).status), v, number)
      case None =>
        if expected != 0 || !AllRead(db) || TopicTaken(db, topic) then None
        else
          var doc := Doc(Cognition, slug, Text.Strip(title), Draft, topic.holder, Some(topic.start), None);
          Write(db.(docs := db.docs[newDoc := doc]), newDoc, Payload(Propose, topic, number, p, None, Unconfirmed), v,
            number)
  }

  predicate Overlaps(start: int, until: Option<int>, otherStart: int, otherUntil: Option<int>) {
    (until.None? || otherStart < until.value) && (otherUntil.None? || start < otherUntil.value)
  }

  // Another record of the same holder, audience and key is confirmed over some of the time.
  ghost predicate Clashes(db: Story, d: DocId, topic: Topic, until: Option<int>, e: DocId)
    requires HeadReads(db, e)
  {
    var other := Head(db, e);
    && e != d && db.docs[e].parent == topic.holder
    && other.confirmed.Some? && other.topic.audience == topic.audience && other.topic.key == topic.key
    && Overlaps(topic.start, until, other.topic.start, other.confirmed.value.proposal.until)
  }

  // `_overlap` raises nothing.
  ghost predicate ClearOf(db: Story, d: DocId, topic: Topic, until: Option<int>) {
    forall e | IsRecord(db, e) && e != d && db.docs[e].parent == topic.holder ::
      && HeadReads(db, e)
      && db.docs[e].parent == Head(db, e).topic.holder && db.docs[e].sequence == Some(Head(db, e).topic.start)
      && !Clashes(db, d, topic, until, e)
  }

  ghost predicate MayConfirm(db: Story, d: DocId, number: nat, expected: nat, w: VersionId)
    requires w in db.versions
  {
    && IsRecord(db, d) && db.docs[d].head == Some(expected) && number >= 1
    && Reads(db, w) && HeadReads(db, d)
    && Of(db, w).operation.Propose? && Of(db, w).topic == Head(db, d).topic && Of(db, w).number == db.versions[w].number
    && HolderFine(db, Head(db, d).topic)
    && Usable(SourcesStatus(db, Of(db, w).proposal.sources))
    && Head(db, d).confirmed != Some(Confirmation(Of(db, w).proposal, w, db.versions[w].number))
    && ClearOf(db, d, Head(db, d).topic, Of(db, w).proposal.until)
    && SnapshotFine(db, d)
  }

  // `found` is the version of this record with the given number.
  ghost function ConfirmIn(db: Story, d: DocId, number: nat, expected: nat, found: Option<VersionId>,
                           v: VersionId, next: nat): Option<Story>
  {
    if found.None? || found.value !in db.versions || !MayConfirm(db, d, number, expected, found.value) then None
    else
      var w := found.value;
      var confirmed := Confirmation(Of(db, w).proposal, w, db.versions[w].number);
      Write(db, d, Head(db, d).(operation := Confirm, confirmed := Some(confirmed), status := Confirmed), v, next)
  }

  ghost function WithdrawIn(db: Story, d: DocId, expected: nat, v: VersionId, next: nat): Option<Story> {
    if !IsRecord(db, d) || db.docs[d].head != Some(expected) || !HeadReads(db, d)
      || Head(db, d).confirmed.None? || !SnapshotFine(db, d) then None
    else Write(db, d, Head(db, d).(operation := Withdraw, confirmed := None, status := Withdrawn), v, next)
  }

  // ---------------------------------------------------------------- runs

  datatype Step =
    | DoPropose(slug: string, title: string, topic: Topic, proposal: Proposal, expected: nat,
                found: Option<DocId>, newDoc: DocId, v: VersionId, next: nat)
    | DoConfirm(d: DocId, number: nat, expected: nat, at: Option<VersionId>, v: VersionId, next: nat)
    | DoWithdraw(d: DocId, expected: nat, v: VersionId, next: nat)
    | DoElsewhere(after: Story)

  // Every other write of the program refuses records of this kind.
  ghost predicate Elsewhere(db: Story, t: Story) {
    && (forall d :: IsRecord(db, d) <==> IsRecord(t, d))
    && (forall d | IsRecord(db, d) :: t.docs[d] == db.docs[d])
    && (forall v, d | IsRecord(db, d) :: Owns(db, d, v) <==> Owns(t, d, v))
    && (forall v, d | IsRecord(db, d) && Owns(db, d, v) :: t.versions[v] == db.versions[v])
    && (forall v | v in db.versions :: v in t.versions)
  }

  ghost predicate FreshVersion(db: Story, v: VersionId) {
    v > 0 && v !in db.versions
  }

  ghost predicate Allowed(db: Story, a: Step) {
    match a
    case DoPropose(slug, _, _, _, _, found, newDoc, v, next) =>
      && IsNamed(db, slug, found) && FreshVersion(db, v)
      && newDoc > 0 && newDoc !in db.docs && (forall w | w in db.versions :: db.versions[w].owner != newDoc)
      && IsNext(db, if found.Some? then found.value else newDoc, next)
    case DoConfirm(d, number, _, at, v, next) => IsAt(db, d, number, at) && FreshVersion(db, v) && IsNext(db, d, next)
    case DoWithdraw(d, _, v, next) => FreshVersion(db, v) && IsNext(db, d, next)
    case DoElsewhere(after) => Elsewhere(db, after)
  }

  // What the transaction commits, if it commits.
  ghost function Commits(db: Story, a: Step): Option<Story> {
    match a
    case DoPropose(slug, title, topic, proposal, expected, found, newDoc, v, next) =>
      ProposeIn(db, slug, title, topic, proposal, expected, found, newDoc, v, next)
    case DoConfirm(d, number, expected, at, v, next) => ConfirmIn(db, d, number, expected, at, v, next)
    case DoWithdraw(d, expected, v, next) => WithdrawIn(db, d, expected, v, next)
    case DoElsewhere(after) => Some(after)
  }

  ghost function Next(db: Story, a: Step): Story {
    match Commits(db, a) case Some(t) => t case None => db
  }

  ghost predicate Runs(db: Story, steps: seq<Step>, t: Story)
    decreases |steps|
  {
    if steps == [] then db == t
    else Allowed(db, steps[0]) && Runs(Next(db, steps[0]), steps[1..], t)
  }
}
