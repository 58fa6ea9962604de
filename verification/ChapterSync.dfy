// The chapter file against the database: lg_cli/chapter_sync.py, `ChapterSync`, with
// `edit_chapter_documents` of lg_cli/project_store.py. A digest is the text it was computed
// from, and a version is the position of its content in the append-only `versions`.
module ChapterSync {
  import opened Prelude
  import F = ChapterFile

  datatype Document = Document(id: F.DocId, title: string, state: string, sequence: int, version: Option<nat>)

  // What was in the database and in the file when they last agreed.
  datatype Baseline = Baseline(documents: seq<Document>, text: string)

  datatype State = State(documents: seq<Document>, versions: seq<string>, file: Option<string>,
    baseline: Option<Baseline>)

  datatype Status = Missing | Untracked | Clean | FileEdited | DatabaseChanged | Conflict

  datatype Error = EditsPreserved(status: Status) | NotTracked | ChangedInDatabase | NotParsed

  // Reading a text file turns every line ending into "\n".
  function ReadText(raw: string): string {
    if raw == "" then ""
    else if raw[0] != '\r' then [raw[0]] + ReadText(raw[1..])
    else if |raw| > 1 && raw[1] == '\n' then "\n" + ReadText(raw[2..])
    else "\n" + ReadText(raw[1..])
  }

  predicate VersionsKnown(documents: seq<Document>, versions: seq<string>) {
    forall d | d in documents && d.version.Some? :: d.version.value < |versions|
  }

  function Content(d: Document, versions: seq<string>): string
    requires d.version.Some? ==> d.version.value < |versions|
  {
    if d.version.Some? then versions[d.version.value] else ""
  }

  function Docs(documents: seq<Document>): (docs: seq<F.Doc>)
    ensures |docs| == |documents|
    ensures forall i | 0 <= i < |docs| :: docs[i] == F.Doc(documents[i].id, documents[i].title)
  {
    seq(|documents|, i requires 0 <= i < |documents| => F.Doc(documents[i].id, documents[i].title))
  }

  function Texts(documents: seq<Document>, versions: seq<string>): (contents: F.Contents)
    requires VersionsKnown(documents, versions)
    ensures forall d | d in documents :: d.id in contents
  {
    if documents == [] then map[]
    else Texts(documents[1..], versions)[documents[0].id := Content(documents[0], versions)]
  }

  ghost predicate Whole(documents: seq<Document>, versions: seq<string>) {
    documents != [] && F.IdsApart(Docs(documents)) && VersionsKnown(documents, versions)
  }

  function Rendering(documents: seq<Document>, versions: seq<string>): string
    requires documents != [] && VersionsKnown(documents, versions)
  {
    assert forall d | d in Docs(documents) :: d.id in Texts(documents, versions);
    F.Render(Docs(documents), Texts(documents, versions))
  }

  // The text is what these documents print, up to newlines at its end.
  ghost predicate Renders(documents: seq<Document>, versions: seq<string>, text: string) {
    Whole(documents, versions) && F.StripNewlines(Rendering(documents, versions)) == F.StripNewlines(text)
  }

  ghost predicate Valid(s: State) {
    && Whole(s.documents, s.versions)
    && (s.baseline.Some? ==> Renders(s.baseline.value.documents, s.versions, s.baseline.value.text))
  }

  // ---------------------------------------------------------------- the operations

  function StatusOf(s: State): Status {
    if s.file.None? then Missing
    else if s.baseline.None? then Untracked
    else
      var edited := ReadText(s.file.value) != s.baseline.value.text;
      var changed := s.documents != s.baseline.value.documents;
      if edited && changed then Conflict else if edited then FileEdited else if changed then DatabaseChanged else Clean
  }

  predicate Preserves(status: Status) {
    status == FileEdited || status == Conflict || status == Untracked
  }

  // `written` is false when the program stops between the file and its baseline.
  function Exported(s: State, written: bool): State
    requires s.documents != [] && VersionsKnown(s.documents, s.versions)
  {
    if Preserves(StatusOf(s)) then s
    else
      var text := Rendering(s.documents, s.versions);
      var out := s.(file := Some(text));
      if written then out.(baseline := Some(Baseline(s.documents, text))) else out
  }

  // The revisions of one import: a new version for every document whose content changed.
  datatype Revisions = Revisions(made: map<F.DocId, nat>, versions: seq<string>)

  function Revised(documents: seq<Document>, contents: F.Contents, versions: seq<string>): (r: Revisions)
    requires VersionsKnown(documents, versions) && forall d | d in documents :: d.id in contents
    ensures versions <= r.versions && forall id | id in r.made :: r.made[id] < |r.versions|
  {
    if documents == [] then Revisions(map[], versions)
    else
      var n := |documents| - 1;
      var r, d := Revised(documents[..n], contents, versions), documents[n];
      if contents[d.id] == Content(d, versions) then r
      else Revisions(r.made[d.id := |r.versions|], r.versions + [contents[d.id]])
  }

  function Activated(documents: seq<Document>, made: map<F.DocId, nat>): (out: seq<Document>)
    ensures |out| == |documents|
    ensures forall i | 0 <= i < |out| ::
      out[i] == if documents[i].id in made then documents[i].(version := Some(made[documents[i].id])) else documents[i]
  {
    seq(|documents|, i requires 0 <= i < |documents| =>
      if documents[i].id in made then documents[i].(version := Some(made[documents[i].id])) else documents[i])
  }

  // The identifiers and active versions the import expects to find in its transaction.
  predicate SameHeads(a: seq<Document>, b: seq<Document>) {
    Heads(a) == Heads(b)
  }

  function Heads(documents: seq<Document>): set<(F.DocId, Option<nat>)> {
    set d | d in documents :: (d.id, d.version)
  }

  // What else happens while a file is imported: the database as the transaction finds it, and
  // the file as an editor leaves it.
  datatype Meanwhile = Meanwhile(documents: seq<Document>, added: seq<string>, file: Option<string>)

  ghost predicate Possible(s: State, m: Meanwhile) {
    Whole(m.documents, s.versions + m.added)
  }

  predicate Importable(s: State)
    requires s.documents != []
  {
    && s.baseline.Some? && s.file.Some? && s.documents == s.baseline.value.documents
    && F.Parse(ReadText(s.file.value), Docs(s.documents)).Some?
  }

  function Disturbed(s: State, m: Meanwhile): State {
    s.(documents := m.documents, versions := s.versions + m.added, file := m.file)
  }

  lemma ParsedCovers(text: string, documents: seq<Document>)
    requires documents != [] && F.Parse(text, Docs(documents)).Some?
    ensures var contents := F.Parse(text, Docs(documents)).value;
      && F.Covers(Docs(documents), contents) && F.AllClean(contents)
      && F.StripNewlines(F.Render(Docs(documents), contents)) == F.StripNewlines(text)
      && forall d | d in documents :: d.id in contents
  {
    F.ReadMeans(F.MARKS, text, Docs(documents));
    var contents := F.Parse(text, Docs(documents)).value;
    forall d | d in documents
      ensures d.id in contents
    {
      var i :| 0 <= i < |documents| && documents[i] == d;
      assert Docs(documents)[i] in Docs(documents);
    }
  }

  lemma KnownLonger(documents: seq<Document>, versions: seq<string>, added: seq<string>)
    requires VersionsKnown(documents, versions)
    ensures VersionsKnown(documents, versions + added)
  {
  }

  function Committed(s: State, m: Meanwhile, text: string, r: Revisions, written: bool): State {
    var out := Disturbed(s, m).(documents := Activated(m.documents, r.made), versions := r.versions);
    if written then out.(baseline := Some(Baseline(Activated(s.documents, r.made), text))) else out
  }

  function Imported(s: State, m: Meanwhile, written: bool): State
    requires s.documents != [] && VersionsKnown(s.documents, s.versions)
  {
    if !Importable(s) then s
    else if !SameHeads(s.documents, m.documents) then Disturbed(s, m)
    else
      var text := ReadText(s.file.value);
      ParsedCovers(text, s.documents);
      var contents := F.Parse(text, Docs(s.documents)).value;
      Committed(s, m, text, Revised(s.documents, contents, s.versions + m.added), written)
  }

  // What a file reads as, for the documents of the chapter.
  predicate ReadsAs(s: State, contents: F.Contents)
    requires s.documents != []
  {
    Importable(s) && F.Parse(ReadText(s.file.value), Docs(s.documents)) == Some(contents)
  }

  lemma WhatCommits(s: State, m: Meanwhile, contents: F.Contents)
    requires s.documents != [] && VersionsKnown(s.documents, s.versions)
    requires SameHeads(s.documents, m.documents) && ReadsAs(s, contents)
    ensures forall d | d in s.documents :: d.id in contents
    ensures var r := Revised(s.documents, contents, s.versions + m.added);
      Imported(s, m, true) == Committed(s, m, ReadText(s.file.value), r, true)
  {
    ParsedCovers(ReadText(s.file.value), s.documents);
  }

  // Why an import is refused, if it is.
  function Refusal(s: State, m: Meanwhile): Option<Error>
    requires s.documents != []
  {
    if s.baseline.None? || s.file.None? then Some(NotTracked)
    else if s.documents != s.baseline.value.documents then Some(ChangedInDatabase)
    else if F.Parse(ReadText(s.file.value), Docs(s.documents)).None? then Some(NotParsed)
    else if !SameHeads(s.documents, m.documents) then Some(ChangedInDatabase)
    else None
  }

  // ---------------------------------------------------------------- contents by document

  lemma {:induction false} TextAt(documents: seq<Document>, versions: seq<string>, k: nat)
    requires VersionsKnown(documents, versions) && k < |documents|
    requires forall j | k < j < |documents| :: documents[j].id != documents[k].id
    requires forall j | 0 <= j < k :: documents[j].id != documents[k].id
    ensures Texts(documents, versions)[documents[k].id] == Content(documents[k], versions)
  {
    if k > 0 { TextAt(documents[1..], versions, k - 1); }
  }

  lemma TextOf(documents: seq<Document>, versions: seq<string>, d: Document)
    requires Whole(documents, versions) && d in documents
    ensures Texts(documents, versions)[d.id] == Content(d, versions)
  {
    var k :| 0 <= k < |documents| && documents[k] == d;
    var docs := Docs(documents);
    forall j | 0 <= j < |documents| && j != k
      ensures documents[j].id != documents[k].id
    {
      assert docs[j].id != docs[k].id;
    }
    TextAt(documents, versions, k);
  }

  lemma {:induction false} TextsOnly(documents: seq<Document>, versions: seq<string>, id: F.DocId) returns (k: nat)
    requires VersionsKnown(documents, versions) && id in Texts(documents, versions)
    ensures k < |documents| && documents[k].id == id
  {
    if documents[0].id == id {
      k := 0;
    } else {
      var j := TextsOnly(documents[1..], versions, id);
      k := j + 1;
    }
  }

  // Contents that agree with every document are the contents of the documents.
  lemma TextsAre(documents: seq<Document>, versions: seq<string>, contents: F.Contents)
    requires Whole(documents, versions) && F.Covers(Docs(documents), contents)
    requires forall d | d in documents :: d.id in contents && contents[d.id] == Content(d, versions)
    ensures Texts(documents, versions) == contents
  {
    var texts := Texts(documents, versions);
    forall id | id in contents
      ensures id in texts && texts[id] == contents[id]
    {
      var e :| e in Docs(documents) && e.id == id;
      var k :| 0 <= k < |documents| && Docs(documents)[k] == e;
      TextOf(documents, versions, documents[k]);
    }
    forall id | id in texts
      ensures id in contents
    {
      var k := TextsOnly(documents, versions, id);
      assert documents[k] in documents;
    }
  }

  lemma TextsCover(documents: seq<Document>, versions: seq<string>)
    requires Whole(documents, versions)
    ensures F.Covers(Docs(documents), Texts(documents, versions))
  {
    forall id | id in Texts(documents, versions)
      ensures exists e | e in Docs(documents) :: e.id == id
    {
      var k := TextsOnly(documents, versions, id);
      assert Docs(documents)[k] in Docs(documents);
    }
  }

  // Versions added later change nothing that was printed.
  lemma {:induction false} TextsStable(documents: seq<Document>, versions: seq<string>, added: seq<string>)
    requires VersionsKnown(documents, versions)
    ensures VersionsKnown(documents, versions + added)
    ensures Texts(documents, versions + added) == Texts(documents, versions)
  {
    if documents != [] { TextsStable(documents[1..], versions, added); }
  }

  lemma RendersStill(documents: seq<Document>, versions: seq<string>, later: seq<string>, text: string)
    requires Renders(documents, versions, text) && versions <= later
    ensures Renders(documents, later, text)
  {
    TextsStable(documents, versions, later[|versions|..]);
    assert versions + later[|versions|..] == later;
  }

  // ---------------------------------------------------------------- one import's revisions

  ghost predicate HasChanged(documents: seq<Document>, contents: F.Contents, versions: seq<string>, id: F.DocId)
    requires VersionsKnown(documents, versions)
  {
    id in contents && exists d :: d in documents && d.id == id && contents[id] != Content(d, versions)
  }

  lemma {:induction false} MadeHold(documents: seq<Document>, contents: F.Contents, versions: seq<string>, id: F.DocId)
    requires VersionsKnown(documents, versions) && forall d | d in documents :: d.id in contents
    requires id in Revised(documents, contents, versions).made
    ensures var r := Revised(documents, contents, versions);
      id in contents && |versions| <= r.made[id] < |r.versions| && r.versions[r.made[id]] == contents[id]
  {
    if documents != [] {
      var n := |documents| - 1;
      if id in Revised(documents[..n], contents, versions).made { MadeHold(documents[..n], contents, versions, id); }
    }
  }

  lemma {:induction false} MadeChanged(documents: seq<Document>, contents: F.Contents, versions: seq<string>,
                                       id: F.DocId)
    requires VersionsKnown(documents, versions) && forall d | d in documents :: d.id in contents
    ensures id in Revised(documents, contents, versions).made <==> HasChanged(documents, contents, versions, id)
  {
    if documents != [] {
      var n := |documents| - 1;
      MadeChanged(documents[..n], contents, versions, id);
      assert documents == documents[..n] + [documents[n]];
      assert HasChanged(documents, contents, versions, id) <==>
        HasChanged(documents[..n], contents, versions, id)
        || (id == documents[n].id && contents[id] != Content(documents[n], versions));
    }
  }

  // A document gets a new version exactly when its content changed.
  lemma RevisedWhenChanged(documents: seq<Document>, contents: F.Contents, versions: seq<string>, d: Document)
    requires Whole(documents, versions) && (forall e | e in documents :: e.id in contents) && d in documents
    ensures d.id in Revised(documents, contents, versions).made <==> contents[d.id] != Content(d, versions)
  {
    MadeChanged(documents, contents, versions, d.id);
    if d.id in Revised(documents, contents, versions).made {
      var e :| e in documents && e.id == d.id && contents[d.id] != Content(e, versions);
      SameDocument(documents, versions, e, d);
    }
  }

  lemma SameDocument(documents: seq<Document>, versions: seq<string>, a: Document, b: Document)
    requires Whole(documents, versions) && a in documents && b in documents && a.id == b.id
    ensures a == b
  {
    var i :| 0 <= i < |documents| && documents[i] == a;
    var j :| 0 <= j < |documents| && documents[j] == b;
    assert Docs(documents)[i].id == Docs(documents)[j].id;
  }

  lemma ActivatedIn(documents: seq<Document>, made: map<F.DocId, nat>, e: Document) returns (d: Document)
    requires e in Activated(documents, made)
    ensures d in documents && d.id == e.id && d.title == e.title
    ensures e == if d.id in made then d.(version := Some(made[d.id])) else d
  {
    var k :| 0 <= k < |documents| && Activated(documents, made)[k] == e;
    d := documents[k];
  }

  lemma ActivatedWhole(documents: seq<Document>, versions: seq<string>, made: map<F.DocId, nat>, later: seq<string>)
    requires Whole(documents, versions) && versions <= later && forall id | id in made :: made[id] < |later|
    ensures Whole(Activated(documents, made), later) && Docs(Activated(documents, made)) == Docs(documents)
  {
    var out := Activated(documents, made);
    assert Docs(out) == Docs(documents);
    forall e | e in out && e.version.Some?
      ensures e.version.value < |later|
    {
      var d := ActivatedIn(documents, made, e);
    }
  }

  // The database holds the imported contents, document by document.
  lemma ImportedTexts(documents: seq<Document>, contents: F.Contents, versions: seq<string>)
    requires Whole(documents, versions) && F.Covers(Docs(documents), contents)
    requires forall d | d in documents :: d.id in contents
    ensures var r := Revised(documents, contents, versions); var out := Activated(documents, r.made);
      && Whole(out, r.versions) && Docs(out) == Docs(documents) && Texts(out, r.versions) == contents
  {
    var r := Revised(documents, contents, versions);
    var out := Activated(documents, r.made);
    ActivatedWhole(documents, versions, r.made, r.versions);
    forall e | e in out
      ensures e.id in contents && contents[e.id] == Content(e, r.versions)
    {
      var d := ActivatedIn(documents, r.made, e);
      RevisedWhenChanged(documents, contents, versions, d);
      if d.id in r.made { MadeHold(documents, contents, versions, d.id); }
    }
    TextsAre(out, r.versions, contents);
  }

  // ---------------------------------------------------------------- every step keeps the records honest

  lemma ExportedValid(s: State, written: bool)
    requires Valid(s)
    ensures Valid(Exported(s, written)) && Exported(s, written).versions == s.versions
  {
  }

  lemma ImportedVersions(s: State, m: Meanwhile, written: bool)
    requires s.documents != [] && VersionsKnown(s.documents, s.versions)
    ensures s.versions <= Imported(s, m, written).versions
  {
  }

  lemma HeadsWhole(s: State, m: Meanwhile, made: map<F.DocId, nat>, later: seq<string>)
    requires Possible(s, m) && s.versions + m.added <= later && forall id | id in made :: made[id] < |later|
    ensures Whole(Activated(m.documents, made), later)
  {
    ActivatedWhole(m.documents, s.versions + m.added, made, later);
  }

  lemma ImportedValid(s: State, m: Meanwhile, written: bool)
    requires Valid(s) && Possible(s, m)
    ensures Valid(Imported(s, m, written))
  {
    var out := Imported(s, m, written);
    if s.baseline.Some? {
      ImportedVersions(s, m, written);
      RendersStill(s.baseline.value.documents, s.versions, out.versions, s.baseline.value.text);
    }
    if Importable(s) && SameHeads(s.documents, m.documents) {
      var text := ReadText(s.file.value);
      ParsedCovers(text, s.documents);
      var contents := F.Parse(text, Docs(s.documents)).value;
      KnownLonger(s.documents, s.versions, m.added);
      ImportedTexts(s.documents, contents, s.versions + m.added);
      HeadsWhole(s, m, Revised(s.documents, contents, s.versions + m.added).made, out.versions);
    }
  }

  // ---------------------------------------------------------------- runs

  datatype Step =
    | EditorSaves(file: Option<string>)
    | DatabaseChanges(documents: seq<Document>, added: seq<string>)
    | Exports(written: bool)
    | Imports(meanwhile: Meanwhile, written: bool)

  ghost predicate Enabled(s: State, step: Step) {
    match step
    case EditorSaves(_) => true
    case DatabaseChanges(documents, added) => Whole(documents, s.versions + added)
    case Exports(_) => true
    case Imports(m, _) => Possible(s, m)
  }

  ghost function After(s: State, step: Step): State
    requires Valid(s)
  {
    match step
    case EditorSaves(file) => s.(file := file)
    case DatabaseChanges(documents, added) => s.(documents := documents, versions := s.versions + added)
    case Exports(written) => Exported(s, written)
    case Imports(m, written) => Imported(s, m, written)
  }

  lemma StepKeeps(s: State, step: Step)
    requires Valid(s) && Enabled(s, step)
    ensures Valid(After(s, step)) && s.versions <= After(s, step).versions
  {
    match step
    case EditorSaves(_) =>
    case DatabaseChanges(documents, added) =>
      if s.baseline.Some? {
        RendersStill(s.baseline.value.documents, s.versions, s.versions + added, s.baseline.value.text);
      }
    case Exports(written) => ExportedValid(s, written);
    case Imports(m, written) =>
      ImportedVersions(s, m, written);
      ImportedValid(s, m, written);
  }

  ghost predicate Run(s: State, steps: seq<Step>)
    requires Valid(s)
    decreases |steps|
  {
    steps == [] || (Enabled(s, steps[0]) && (StepKeeps(s, steps[0]); Run(After(s, steps[0]), steps[1..])))
  }

  ghost function End(s: State, steps: seq<Step>): State
    requires Valid(s) && Run(s, steps)
    decreases |steps|
  {
    if steps == [] then s else (StepKeeps(s, steps[0]); End(After(s, steps[0]), steps[1..]))
  }

  lemma {:induction false} RunKeeps(s: State, steps: seq<Step>)
    requires Valid(s) && Run(s, steps)
    ensures Valid(End(s, steps)) && s.versions <= End(s, steps).versions
    decreases |steps|
  {
    if steps != [] {
      StepKeeps(s, steps[0]);
      RunKeeps(After(s, steps[0]), steps[1..]);
    }
  }

  // An export replaces a file only when the file still reads as the recorded baseline; so
  // whatever it replaced is what some documents with recorded versions print, and stays so for
  // the rest of the run. A crash after the file was written makes no difference.
  lemma ReplacedIsRecorded(s: State, written: bool, rest: seq<Step>)
    requires Valid(s) && Valid(Exported(s, written)) && Run(Exported(s, written), rest)
    requires s.file.Some? && Exported(s, written).file != s.file
    ensures exists documents :: Renders(documents, End(Exported(s, written), rest).versions, ReadText(s.file.value))
  {
    var b := s.baseline.value;
    RunKeeps(Exported(s, written), rest);
    RendersStill(b.documents, s.versions, End(Exported(s, written), rest).versions, b.text);
    assert Renders(b.documents, End(Exported(s, written), rest).versions, ReadText(s.file.value));
  }

  // After any run, a chapter reported clean has a file that reads as the database prints it.
  lemma CleanMeansInSync(s: State, steps: seq<Step>)
    requires Valid(s) && Run(s, steps) && StatusOf(End(s, steps)) == Clean
    ensures var e := End(s, steps); Renders(e.documents, e.versions, ReadText(e.file.value))
  {
    RunKeeps(s, steps);
  }

  // ---------------------------------------------------------------- single calls

  lemma {:induction false} ReadTextSame(raw: string)
    ensures |ReadText(raw)| <= |raw|
    ensures ReadText(raw) == raw <==> '\r' !in raw
  {
    if raw != "" {
      if raw[0] != '\r' {
        ReadTextSame(raw[1..]);
        assert ReadText(raw)[1..] == ReadText(raw[1..]);
      } else {
        ReadTextSame(raw[1..]);
        if |raw| > 1 && raw[1] == '\n' { ReadTextSame(raw[2..]); }
        assert ReadText(raw)[0] == '\n';
      }
    }
  }

  // An export that is not refused leaves the chapter clean, except when it prints a carriage
  // return: then the chapter counts as edited the moment it was written.
  lemma ExportOutcome(s: State)
    requires Valid(s) && !Preserves(StatusOf(s))
    ensures var e := Exported(s, true);
      && e.documents == s.documents && e.versions == s.versions
      && e.file == Some(Rendering(s.documents, s.versions))
      && StatusOf(e) == if '\r' in Rendering(s.documents, s.versions) then FileEdited else Clean
  {
    ReadTextSame(Rendering(s.documents, s.versions));
  }

  // Neither an export nor an import goes through.
  ghost predicate Stranded(s: State)
    requires s.documents != []
  {
    Preserves(StatusOf(s)) && !Importable(s)
  }

  // An export cut short after writing the file strands the chapter exactly when there was no
  // baseline, or the new text does not read as the old baseline and either the database had
  // changed since or the new text cannot be read back.
  lemma CutShort(s: State)
    requires Valid(s) && !Preserves(StatusOf(s))
    ensures var e := Exported(s, false); var text := ReadText(Rendering(s.documents, s.versions));
      Stranded(e) <==>
        || s.baseline.None?
        || (text != s.baseline.value.text
            && (s.documents != s.baseline.value.documents || F.Parse(text, Docs(s.documents)).None?))
  {
  }

  // The very first export of a chapter, cut short.
  lemma FirstExportStrands(documents: seq<Document>, versions: seq<string>)
    requires Whole(documents, versions)
    ensures var s := State(documents, versions, None, None);
      Valid(s) && !Preserves(StatusOf(s)) && Stranded(Exported(s, false))
  {
  }

  // An export or an import while neither an editor nor the database acts.
  predicate Undisturbed(s: State, step: Step) {
    match step
    case Exports(_) => true
    case Imports(m, _) => m == Meanwhile(s.documents, [], s.file)
    case _ => false
  }

  // A stranded chapter stays as it is through any number of exports and imports.
  lemma {:induction false} StrandedStays(s: State, steps: seq<Step>)
    requires Valid(s) && Stranded(s) && Run(s, steps) && forall k | 0 <= k < |steps| :: Undisturbed(s, steps[k])
    ensures End(s, steps) == s
    decreases |steps|
  {
    if steps != [] {
      assert After(s, steps[0]) == s;
      assert forall k | 0 <= k < |steps[1..]| :: steps[1..][k] == steps[k + 1];
      StrandedStays(s, steps[1..]);
    }
  }

  lemma HeadIn(documents: seq<Document>, others: seq<Document>, e: Document) returns (d: Document)
    requires SameHeads(documents, others) && e in others
    ensures d in documents && d.id == e.id && d.version == e.version
  {
    assert (e.id, e.version) in Heads(others);
    d :| d in documents && (d.id, d.version) == (e.id, e.version);
  }

  // Rows with the same heads have the same identifiers.
  lemma SameCovers(documents: seq<Document>, others: seq<Document>, contents: F.Contents)
    requires SameHeads(documents, others) && F.Covers(Docs(documents), contents)
    ensures F.Covers(Docs(others), contents) && forall e | e in others :: e.id in contents
  {
    forall e | e in others
      ensures e.id in contents
    {
      var d := HeadIn(documents, others, e);
      var k :| 0 <= k < |documents| && documents[k] == d;
      assert Docs(documents)[k] in Docs(documents);
    }
    forall id | id in contents
      ensures exists e | e in Docs(others) :: e.id == id
    {
      var f :| f in Docs(documents) && f.id == id;
      var k :| 0 <= k < |documents| && Docs(documents)[k] == f;
      var e := HeadIn(others, documents, documents[k]);
      var l :| 0 <= l < |others| && others[l] == e;
      assert Docs(others)[l] in Docs(others);
    }
  }

  // The rows of the transaction, with the new versions, hold the imported contents.
  lemma OthersTexts(documents: seq<Document>, others: seq<Document>, contents: F.Contents, versions: seq<string>)
    requires Whole(documents, versions) && Whole(others, versions) && SameHeads(documents, others)
    requires F.Covers(Docs(documents), contents) && forall d | d in documents :: d.id in contents
    ensures var r := Revised(documents, contents, versions); var out := Activated(others, r.made);
      && Whole(out, r.versions) && Docs(out) == Docs(others) && Texts(out, r.versions) == contents
  {
    var r := Revised(documents, contents, versions);
    var out := Activated(others, r.made);
    ActivatedWhole(others, versions, r.made, r.versions);
    SameCovers(documents, others, contents);
    forall e | e in out
      ensures e.id in contents && contents[e.id] == Content(e, r.versions)
    {
      var o := ActivatedIn(others, r.made, e);
      var d := HeadIn(documents, others, o);
      RevisedWhenChanged(documents, contents, versions, d);
      if d.id in r.made { MadeHold(documents, contents, versions, d.id); }
    }
    TextsAre(out, r.versions, contents);
  }

  // An import that goes through stores the file's contents: each document whose content
  // changed gets a new version and every other keeps its own; titles, states and the order are
  // those the transaction found.
  lemma ImportOutcome(s: State, m: Meanwhile, contents: F.Contents)
    requires Valid(s) && Possible(s, m) && SameHeads(s.documents, m.documents) && ReadsAs(s, contents)
    ensures var e := Imported(s, m, true);
      && Whole(e.documents, e.versions) && Docs(e.documents) == Docs(m.documents)
      && Texts(e.documents, e.versions) == contents
  {
    ParsedCovers(ReadText(s.file.value), s.documents);
    KnownLonger(s.documents, s.versions, m.added);
    WhatCommits(s, m, contents);
    OthersTexts(s.documents, m.documents, contents, s.versions + m.added);
  }

  lemma MadeFor(documents: seq<Document>, others: seq<Document>, contents: F.Contents, versions: seq<string>, i: nat)
    requires Whole(documents, versions) && (forall d | d in documents :: d.id in contents)
    requires VersionsKnown(others, versions) && SameHeads(documents, others) && i < |others|
    ensures var e := others[i];
      e.id in contents
      && (Activated(others, Revised(documents, contents, versions).made)[i] == e <==>
         contents[e.id] == Content(e, versions))
  {
    var d := HeadIn(documents, others, others[i]);
    RevisedWhenChanged(documents, contents, versions, d);
    if d.id in Revised(documents, contents, versions).made { MadeHold(documents, contents, versions, d.id); }
  }

  lemma ImportedHeads(s: State, m: Meanwhile, contents: F.Contents, i: nat)
    requires Whole(s.documents, s.versions) && Possible(s, m) && SameHeads(s.documents, m.documents)
    requires i < |m.documents| && ReadsAs(s, contents)
    ensures var d, e := m.documents[i], Imported(s, m, true).documents;
      |e| == |m.documents| && d.id in contents && (e[i] == d <==> contents[d.id] == Content(d, s.versions + m.added))
  {
    WhatCommits(s, m, contents);
    KnownLonger(s.documents, s.versions, m.added);
    MadeFor(s.documents, m.documents, contents, s.versions + m.added, i);
  }

  predicate SameInOrder(a: seq<Document>, b: seq<Document>) {
    |a| == |b| && forall i | 0 <= i < |a| :: a[i].id == b[i].id && a[i].version == b[i].version
  }

  // A file saved while it was imported is reported as edited afterwards; so is a title or an
  // order changed meanwhile as a changed database.
  lemma ImportStatus(s: State, m: Meanwhile, contents: F.Contents)
    requires s.documents != [] && VersionsKnown(s.documents, s.versions)
    requires SameInOrder(s.documents, m.documents) && ReadsAs(s, contents)
    ensures var edited := m.file.Some? && ReadText(m.file.value) != ReadText(s.file.value);
      var changed := s.documents != m.documents;
      StatusOf(Imported(s, m, true)) == if m.file.None? then Missing else if edited && changed then Conflict
        else if edited then FileEdited else if changed then DatabaseChanged else Clean
  {
    InOrderHeads(s.documents, m.documents);
    WhatCommits(s, m, contents);
    CommittedStatus(s, m, ReadText(s.file.value), Revised(s.documents, contents, s.versions + m.added));
  }

  lemma CommittedStatus(s: State, m: Meanwhile, text: string, r: Revisions)
    requires SameInOrder(s.documents, m.documents)
    ensures var edited := m.file.Some? && ReadText(m.file.value) != text;
      var changed := s.documents != m.documents;
      StatusOf(Committed(s, m, text, r, true)) == if m.file.None? then Missing else if edited && changed then Conflict
        else if edited then FileEdited else if changed then DatabaseChanged else Clean
  {
    SameActivated(s.documents, m.documents, r.made);
  }

  lemma InOrderHeads(a: seq<Document>, b: seq<Document>)
    requires SameInOrder(a, b)
    ensures SameHeads(a, b)
  {
    HeadsWithin(a, b);
    HeadsWithin(b, a);
  }

  lemma HeadsWithin(a: seq<Document>, b: seq<Document>)
    requires SameInOrder(a, b)
    ensures Heads(a) <= Heads(b)
  {
    forall h | h in Heads(a)
      ensures h in Heads(b)
    {
      var d :| d in a && h == (d.id, d.version);
      var i :| 0 <= i < |a| && a[i] == d;
      assert b[i] in b;
    }
  }

  lemma SameActivated(a: seq<Document>, b: seq<Document>, made: map<F.DocId, nat>)
    requires SameInOrder(a, b)
    ensures Activated(a, made) == Activated(b, made) <==> a == b
  {
    if Activated(a, made) == Activated(b, made) {
      forall i | 0 <= i < |a|
        ensures a[i] == b[i]
      {
        assert Activated(a, made)[i] == Activated(b, made)[i];
      }
    }
  }

  // A document changed in the database between the reading and the transaction stops the
  // import: nothing the other writer did is lost.
  lemma ChangedHeadStops(s: State, m: Meanwhile, written: bool, d: Document)
    requires s.documents != [] && VersionsKnown(s.documents, s.versions) && Importable(s)
    requires d in m.documents && forall e | e in s.documents && e.id == d.id :: e.version != d.version
    ensures Imported(s, m, written) == Disturbed(s, m)
  {
    assert (d.id, d.version) in Heads(m.documents);
    assert (d.id, d.version) !in Heads(s.documents);
  }

  // ---------------------------------------------------------------- export, then import

  lemma {:induction false} NothingRevised(documents: seq<Document>, contents: F.Contents, versions: seq<string>)
    requires VersionsKnown(documents, versions)
    requires forall d | d in documents :: d.id in contents && contents[d.id] == Content(d, versions)
    ensures Revised(documents, contents, versions) == Revisions(map[], versions)
  {
    if documents != [] { NothingRevised(documents[..|documents| - 1], contents, versions); }
  }

  lemma OwnTexts(documents: seq<Document>, versions: seq<string>)
    requires Whole(documents, versions)
    ensures var contents := Texts(documents, versions);
      Revised(documents, contents, versions) == Revisions(map[], versions) && Activated(documents, map[]) == documents
  {
    var contents := Texts(documents, versions);
    forall d | d in documents
      ensures contents[d.id] == Content(d, versions)
    {
      TextOf(documents, versions, d);
    }
    NothingRevised(documents, contents, versions);
  }

  // An exported file that nobody touched reads as the contents in the database exactly when
  // every content is clean; for a single-line title and no carriage return.
  lemma ExportReadsBack(s: State)
    requires Valid(s) && !Preserves(StatusOf(s)) && '\r' !in Rendering(s.documents, s.versions)
    requires F.SingleLine(s.documents[0].title)
    ensures var texts := Texts(s.documents, s.versions); ReadsAs(Exported(s, true), texts) <==> F.AllClean(texts)
  {
    ReadTextSame(Rendering(s.documents, s.versions));
    TextsCover(s.documents, s.versions);
    F.RoundTripIff(Docs(s.documents), Texts(s.documents, s.versions));
  }

  // Importing it then changes nothing: no version, no head, no file, no record.
  lemma ExportThenImport(s: State)
    requires Valid(s) && !Preserves(StatusOf(s)) && '\r' !in Rendering(s.documents, s.versions)
    requires F.SingleLine(s.documents[0].title) && F.AllClean(Texts(s.documents, s.versions))
    ensures var e := Exported(s, true); Imported(e, Meanwhile(e.documents, [], e.file), true) == e
  {
    var e := Exported(s, true);
    ExportReadsBack(s);
    ReadTextSame(Rendering(s.documents, s.versions));
    ImportNothing(e, Texts(s.documents, s.versions));
  }

  lemma ImportNothing(e: State, texts: F.Contents)
    requires Whole(e.documents, e.versions) && ReadsAs(e, texts) && texts == Texts(e.documents, e.versions)
    requires e.baseline == Some(Baseline(e.documents, ReadText(e.file.value)))
    ensures Imported(e, Meanwhile(e.documents, [], e.file), true) == e
  {
    assert SameHeads(e.documents, e.documents);
    WhatCommits(e, Meanwhile(e.documents, [], e.file), texts);
    OwnTexts(e.documents, e.versions);
    assert e.versions + [] == e.versions;
  }
}
