// Versioned creative choices: lg_cli/creative_decisions.py.
module Decisions {
  import opened Prelude
  import opened StoryStore
  import Text

  datatype Scope = WorkScope | PartScope | ChapterScope

  datatype Topic = Topic(scope: Scope, document: Option<DocId>, key: string)

  datatype Source = Source(document: DocId, version: VersionId)

  datatype Choice = Choice(id: string, title: string, content: string)

  // The chosen option with the version that offered it and everything it was offered with.
  datatype Selection = Selection(version: VersionId, number: nat, choice: Choice, sources: seq<Source>, request: string)

  datatype Operation = Options | Select | Withdraw

  datatype Status = Unselected | Selected | Withdrawn

  datatype Payload = Payload(operation: Operation, topic: Topic, number: nat, options: seq<Choice>,
                             sources: seq<Source>, request: string, selection: Option<Selection>, status: Status)

  datatype Content = Prose(text: string) | Record(payload: Payload)

  type Story = Db<Content>

  predicate IsRecord(db: Story, d: DocId) {
    d in db.docs && db.docs[d].kind.Decision?
  }

  predicate Reads(db: Story, v: VersionId) {
    v in db.versions && db.versions[v].content.Record?
  }

  function Of(db: Story, v: VersionId): Payload
    requires Reads(db, v)
  {
    db.versions[v].content.payload
  }

  predicate HeadReads(db: Story, d: DocId) {
    IsRecord(db, d) && db.docs[d].head.Some? && Reads(db, db.docs[d].head.value)
  }

  function Head(db: Story, d: DocId): Payload
    requires HeadReads(db, d)
  {
    Of(db, db.docs[d].head.value)
  }

  // ---------------------------------------------------------------- sources, now or as projected

  datatype Projection = Projection(version: VersionId, state: Standing)

  datatype Detail = Detail(source: Source, current: bool, active: Option<VersionId>,
                           docState: Option<Standing>, versionState: Option<Standing>)

  predicate StillThere(state: Option<Standing>) {
    state.None? || !state.value.Gone()
  }

  // A projected document counts as if its projected version had been adopted.
  function DetailOf(db: Story, source: Source, projected: map<DocId, Projection>): Detail {
    var row := source.document in db.docs;
    var owned := row && source.version in db.versions;
    var projection := if source.document in projected then Some(projected[source.document]) else None;
    var active := match projection case Some(p) => Some(p.version)
      case None => if row then db.docs[source.document].head else None;
    var docState := match projection case Some(p) => Some(p.state)
      case None => if row then Some(db.docs[source.document].state) else None;
    var stored := if owned then Some(db.versions[source.version].state) else None;
    var versionState :=
      if projection.Some? && projection.value.version == source.version then Some(projection.value.state) else stored;
    var current := owned && db.versions[source.version].owner == source.document
      && active == Some(source.version) && StillThere(docState) && StillThere(versionState);
    Detail(source, current, active, docState, versionState)
  }

  function Details(db: Story, sources: seq<Source>, projected: map<DocId, Projection>): seq<Detail> {
    seq(|sources|, i requires 0 <= i < |sources| => DetailOf(db, sources[i], projected))
  }

  predicate AllCurrent(details: seq<Detail>) {
    forall i | 0 <= i < |details| :: details[i].current
  }

  datatype SourcesState = StaleSources | CurrentSources | NoSources

  function StateOf(details: seq<Detail>): SourcesState {
    if !AllCurrent(details) then StaleSources else if details == [] then NoSources else CurrentSources
  }

  // ---------------------------------------------------------------- transitions

  predicate OptionsShaped(options: seq<Choice>) {
    && |options| == 3
    && (forall c | c in options :: !Text.Blank(c.title) && !Text.Blank(c.content) && IdShaped(c.id))
    && (forall i, j | 0 <= i < j < 3 ::
       options[i].id != options[j].id && Text.Strip(options[i].content) != Text.Strip(options[j].content))
  }

  predicate IdShaped(id: string) {
    1 <= |id| <= 64 && forall c | c in id ::
      'a' <= c <= 'z' || 'A' <= c <= 'Z' || '0' <= c <= '9' || c == '_' || c == '-'
  }

  predicate TargetFine(db: Story, topic: Topic, sources: seq<Source>) {
    match topic.document
    case None => topic.scope.WorkScope?
    case Some(target) =>
      && !topic.scope.WorkScope? && target in db.docs
      && db.docs[target].kind == (if topic.scope.PartScope? then Part else Chapter)
      && exists s | s in sources :: s.document == target
  }

  // The checks of `_normalized`, on a topic with its key stripped.
  predicate Normal(db: Story, topic: Topic, options: seq<Choice>, sources: seq<Source>, request: string) {
    && topic.key != [] && OptionsShaped(options)
    && (forall s | s in sources :: s.document > 0 && s.version > 0)
    && (forall i, j | 0 <= i < j < |sources| :: sources[i].document != sources[j].document)
    && (sources == [] ==> !Text.Blank(request))
    && TargetFine(db, topic, sources)
    && (forall s | s in sources :: s.document in db.docs && !db.docs[s.document].kind.Decision?)
    && AllCurrent(Details(db, sources, map[]))
  }

  // `_snapshot` raises nothing: the version of the saved options is there.
  ghost predicate SnapshotFine(db: Story, d: DocId) {
    HeadReads(db, d) && exists v :: Owns(db, d, v) && db.versions[v].number == Head(db, d).number
  }

  ghost function Write(db: Story, d: DocId, payload: Payload, v: VersionId, number: nat): Option<Story>
    requires d in db.docs
  {
    var t := Grow(db, d, v, number, Record(payload));
    if SnapshotFine(t, d) then Some(t) else None
  }

  ghost predicate AllRead(db: Story) {
    forall d | IsRecord(db, d) :: HeadReads(db, d)
  }

  ghost predicate TopicTaken(db: Story, topic: Topic) {
    exists d :: HeadReads(db, d) && Head(db, d).topic == topic
  }

  function Clean(topic: Topic): Topic {
    topic.(key := Text.Strip(topic.key))
  }

  ghost function OptionsIn(db: Story, slug: string, title: string, given: Topic, options: seq<Choice>,
                           sources: seq<Source>, request: string,
                           expected: nat, found: Option<DocId>, newDoc: DocId, v: VersionId, number: nat): Option<Story>
  {
    var topic := Clean(given);
    if Text.Blank(title) || !Normal(db, topic, options, sources, request) then None
    else match found
      case Some(d) =>
        if !IsRecord(db, d) || db.docs[d].head != Some(expected) || !HeadReads(db, d)
          || Head(db, d).topic != topic || db.docs[d].title != Text.Strip(title) then None
        else Write(db, d,
          Payload(Options, topic, number, options, sources, request, Head(db, d).selection, Head(db, d).status), v,
            number)
      case None =>
        if expected != 0 || !AllRead(db) || TopicTaken(db, topic) then None
        else
          var doc := Doc(Decision, slug, Text.Strip(title), Draft, None, None, None);
          Write(db.(docs := db.docs[newDoc := doc]), newDoc,
                Payload(Options, topic, number, options, sources, request, None, Unselected), v, number)
  }

  function Pick(options: seq<Choice>, id: string): (found: Option<Choice>)
    ensures found.Some? ==> found.value in options && found.value.id == id
  {
    if options == [] then None else if options[0].id == id then Some(options[0]) else Pick(options[1..], id)
  }

  function Chosen(db: Story, w: VersionId, choice: Choice): Selection
    requires Reads(db, w)
  {
    Selection(w, db.versions[w].number, choice, Of(db, w).sources, Of(db, w).request)
  }

  ghost predicate MaySelect(db: Story, d: DocId, number: nat, id: string, expected: nat, w: VersionId) {
    && IsRecord(db, d) && db.docs[d].head == Some(expected) && number >= 1
    && Reads(db, w) && HeadReads(db, d)
    && Of(db, w).operation.Options? && Of(db, w).topic == Head(db, d).topic
    && Pick(Of(db, w).options, id).Some?
    && AllCurrent(Details(db, Of(db, w).sources, map[]))
    && Head(db, d).selection != Some(Chosen(db, w, Pick(Of(db, w).options, id).value))
    && SnapshotFine(db, d)
  }

  ghost function SelectIn(db: Story, d: DocId, number: nat, id: string, expected: nat, found: Option<VersionId>,
                          v: VersionId, next: nat): Option<Story>
  {
    if found.None? || !MaySelect(db, d, number, id, expected, found.value) then None
    else
      var chosen := Chosen(db, found.value, Pick(Of(db, found.value).options, id).value);
      Write(db, d, Head(db, d).(operation := Select, selection := Some(chosen), status := Selected), v, next)
  }

  ghost function WithdrawIn(db: Story, d: DocId, expected: nat, v: VersionId, next: nat): Option<Story> {
    if !IsRecord(db, d) || db.docs[d].head != Some(expected) || !HeadReads(db, d)
      || Head(db, d).selection.None? || !SnapshotFine(db, d) then None
    else Write(db, d, Head(db, d).(operation := Withdraw, selection := None, status := Withdrawn), v, next)
  }

  // ---------------------------------------------------------------- runs

  datatype Step =
    | DoOptions(slug: string, title: string, topic: Topic, options: seq<Choice>, sources: seq<Source>, request: string,
                expected: nat, found: Option<DocId>, newDoc: DocId, v: VersionId, next: nat)
    | DoSelect(d: DocId, number: nat, id: string, expected: nat, at: Option<VersionId>, v: VersionId, next: nat)
    | DoWithdraw(d: DocId, expected: nat, v: VersionId, next: nat)
    | DoElsewhere(after: Story)

  // Every other write refuses records of this kind, and versions keep their documents.
  ghost predicate Elsewhere(db: Story, t: Story) {
    && (forall d :: IsRecord(db, d) <==> IsRecord(t, d))
    && (forall d | IsRecord(db, d) :: t.docs[d] == db.docs[d])
    && (forall v, d | IsRecord(db, d) :: Owns(db, d, v) <==> Owns(t, d, v))
    && (forall v, d | IsRecord(db, d) && Owns(db, d, v) :: t.versions[v] == db.versions[v])
    && (forall v | v in db.versions :: v in t.versions && t.versions[v].owner == db.versions[v].owner)
  }

  ghost predicate FreshVersion(db: Story, v: VersionId) {
    v > 0 && v !in db.versions
  }

  ghost predicate Allowed(db: Story, a: Step) {
    match a
    case DoOptions(slug, _, _, _, _, _, _, found, newDoc, v, next) =>
      && IsNamed(db, slug, found) && FreshVersion(db, v)
      && newDoc > 0 && newDoc !in db.docs && (forall w | w in db.versions :: db.versions[w].owner != newDoc)
      && IsNext(db, if found.Some? then found.value else newDoc, next)
    case DoSelect(d, number, _, _, at, v, next) => IsAt(db, d, number, at) && FreshVersion(db, v) && IsNext(db, d, next)
    case DoWithdraw(d, _, v, next) => FreshVersion(db, v) && IsNext(db, d, next)
    case DoElsewhere(after) => Elsewhere(db, after)
  }

  ghost function Commits(db: Story, a: Step): Option<Story> {
    match a
    case DoOptions(slug, title, topic, options, sources, request, expected, found, newDoc, v, next) =>
      OptionsIn(db, slug, title, topic, options, sources, request, expected, found, newDoc, v, next)
    case DoSelect(d, number, id, expected, at, v, next) => SelectIn(db, d, number, id, expected, at, v, next)
    case DoWithdraw(d, expected, v, next) => WithdrawIn(db, d, expected, v, next)
    case DoElsewhere(after) => Some(after)
  }

  ghost function Next(db: Story, a: Step): Story {
    match Commits(db, a) case Some(t) => t case None => db
  }

  ghost predicate Runs(db: Story, steps: seq<Step>, t: Story)
    decreases |steps|
  {
    if steps == [] then db == t
    else Allowed(db, steps[0]) && Runs(Next(db, steps[0]), steps[1..], t)
  }
}
