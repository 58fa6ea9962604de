// The chapter synchronizer as an object: lg_cli/chapter_sync.py, `ChapterSync.status`,
// `export` and `import_file`, over the documents of one chapter. What other writers do during
// an import is a parameter of the call.
module ChapterSyncStore {
  import opened Prelude
  import F = ChapterFile
  import opened ChapterSync

  // One chapter's rows, its file and the record of their last agreement.
  class Chapter {
    var documents: seq<Document>
    var versions: seq<string>
    var file: Option<string>
    var baseline: Option<Baseline>

    ghost function Now(): State
      reads this
    {
      State(documents, versions, file, baseline)
    }

    constructor (documents: seq<Document>, versions: seq<string>)
      requires Whole(documents, versions)
      ensures Now() == State(documents, versions, None, None) && Valid(Now())
    {
      this.documents, this.versions, this.file, this.baseline := documents, versions, None, None;
    }

    method Status() returns (status: Status)
      ensures status == StatusOf(Now())
    {
      if file.None? { return Missing; }
      if baseline.None? { return Untracked; }
      var edited := ReadText(file.value) != baseline.value.text;
      var changed := documents != baseline.value.documents;
      status := if edited && changed then Conflict else if edited then FileEdited
        else if changed then DatabaseChanged else Clean;
    }

    method Export() returns (r: Result<Status, Error>)
      requires Valid(Now())
      modifies this
      ensures Valid(Now()) && Now() == Exported(old(Now()), true)
      ensures r == if Preserves(StatusOf(old(Now()))) then Err(EditsPreserved(StatusOf(old(Now()))))
        else Ok(StatusOf(Now()))
    {
      var status := Status();
      if Preserves(status) { return Err(EditsPreserved(status)); }
      var text := Rendering(documents, versions);
      file := Some(text);
      baseline := Some(Baseline(documents, text));
      status := Status();
      r := Ok(status);
    }

    // One new version for every listed document whose content changed, in one transaction.
    method EditDocuments(listed: seq<Document>, contents: F.Contents) returns (r: Result<map<F.DocId, nat>, Error>)
      requires Whole(documents, versions) && Whole(listed, versions) && forall d | d in listed :: d.id in contents
      modifies this`documents, this`versions
      ensures !SameHeads(listed, old(documents)) ==>
        r == Err(ChangedInDatabase) && documents == old(documents) && versions == old(versions)
      ensures SameHeads(listed, old(documents)) ==>
        var made := Revised(listed, contents, old(versions));
        r == Ok(made.made) && versions == made.versions && documents == Activated(old(documents), made.made)
    {
      var same := SameHeads(listed, documents);
      if !same { return Err(ChangedInDatabase); }
      var made: map<F.DocId, nat> := map[];
      ghost var start, began := documents, versions;
      NothingActivated(documents);
      for i := 0 to |listed|
        invariant |documents| == |start| && Known(listed[..i], contents, began)
        invariant Revised(listed[..i], contents, began) == Revisions(made, versions) && began <= versions
        invariant documents == Activated(start, made)
      {
        var id := listed[i].id;
        RevisedStep(listed, contents, began, i);
        CurrentHead(listed, contents, began, start, i);
        var current := HeadOf(documents, id);
        var changed := contents[id] != if current.Some? then versions[current.value] else "";
        if changed {
          ActivatedTwice(start, made, id, |versions|);
          documents := Activated(documents, map[id := |versions|]);
          made := made[id := |versions|];
          versions := versions + [contents[id]];
        }
      }
      assert listed[..|listed|] == listed;
      r := Ok(made);
    }

    // The transaction of an import and the record of it.
    method Commit(listed: seq<Document>, contents: F.Contents, text: string) returns (r: Result<Status, Error>)
      requires Whole(documents, versions) && Whole(listed, versions) && forall d | d in listed :: d.id in contents
      modifies this
      ensures !SameHeads(listed, old(documents)) ==> r == Err(ChangedInDatabase) && Now() == old(Now())
      ensures SameHeads(listed, old(documents)) ==>
        var v := Revised(listed, contents, old(versions));
        && r == Ok(StatusOf(Now())) && file == old(file) && versions == v.versions
        && documents == Activated(old(documents), v.made)
        && baseline == Some(Baseline(Activated(listed, v.made), text))
    {
      var edit := EditDocuments(listed, contents);
      if edit.Err? { return Err(edit.error); }
      baseline := Some(Baseline(Activated(listed, edit.value), text));
      var status := Status();
      r := Ok(status);
    }

    method ImportFile(meanwhile: Meanwhile) returns (r: Result<Status, Error>)
      requires Valid(Now()) && Possible(Now(), meanwhile)
      modifies this
      ensures Now() == Imported(old(Now()), meanwhile, true)
      ensures match Refusal(old(Now()), meanwhile)
        case Some(error) => r == Err(error)
        case None => r == Ok(StatusOf(Now()))
    {
      if baseline.None? || file.None? { return Err(NotTracked); }
      if documents != baseline.value.documents { return Err(ChangedInDatabase); }
      var listed, text := documents, ReadText(file.value);
      var parsed := F.Parse(text, Docs(listed));
      if parsed.None? { return Err(NotParsed); }
      ParsedCovers(text, listed);
      // Other writers act here, before the transaction and while it runs.
      KnownLonger(listed, versions, meanwhile.added);
      documents, versions, file := meanwhile.documents, versions + meanwhile.added, meanwhile.file;
      r := Commit(listed, parsed.value, text);
    }
  }

  // The active version of a document, found by its identifier.
  function HeadOf(documents: seq<Document>, id: F.DocId): Option<nat> {
    if documents == [] then None
    else if documents[0].id == id then documents[0].version
    else HeadOf(documents[1..], id)
  }

  lemma {:induction false} HeadIs(documents: seq<Document>, id: F.DocId, k: nat)
    requires k < |documents| && documents[k].id == id && forall j | 0 <= j < k :: documents[j].id != id
    ensures HeadOf(documents, id) == documents[k].version
  {
    if k > 0 { HeadIs(documents[1..], id, k - 1); }
  }

  predicate Known(documents: seq<Document>, contents: F.Contents, versions: seq<string>) {
    VersionsKnown(documents, versions) && forall d | d in documents :: d.id in contents
  }

  lemma NothingActivated(documents: seq<Document>)
    ensures Activated(documents, map[]) == documents
  {
  }

  lemma ActivatedTwice(documents: seq<Document>, made: map<F.DocId, nat>, id: F.DocId, version: nat)
    ensures Activated(Activated(documents, made), map[id := version]) == Activated(documents, made[id := version])
  {
  }

  lemma RevisedStep(listed: seq<Document>, contents: F.Contents, versions: seq<string>, i: nat)
    requires Known(listed, contents, versions) && i < |listed|
    ensures Known(listed[..i], contents, versions) && Known(listed[..i + 1], contents, versions)
    ensures var r, d := Revised(listed[..i], contents, versions), listed[i];
      Revised(listed[..i + 1], contents, versions) ==
        if contents[d.id] == Content(d, versions) then r
        else Revisions(r.made[d.id := |r.versions|], r.versions + [contents[d.id]])
  {
    assert listed[..i + 1][..i] == listed[..i] && listed[..i + 1][i] == listed[i];
  }

  lemma NotYetMade(listed: seq<Document>, contents: F.Contents, versions: seq<string>, i: nat)
    requires Whole(listed, versions) && Known(listed, contents, versions) && i < |listed|
    ensures Known(listed[..i], contents, versions)
    ensures listed[i].id !in Revised(listed[..i], contents, versions).made
  {
    MadeChanged(listed[..i], contents, versions, listed[i].id);
    forall d | d in listed[..i]
      ensures d.id != listed[i].id
    {
      var j :| 0 <= j < i && listed[j] == d;
      assert Docs(listed)[j].id != Docs(listed)[i].id;
    }
  }

  // While the listed documents are edited one by one, the next one still has the head that
  // was listed.
  lemma CurrentHead(listed: seq<Document>, contents: F.Contents, versions: seq<string>, start: seq<Document>, i: nat)
    requires Whole(listed, versions) && Known(listed, contents, versions) && i < |listed|
    requires SameHeads(listed, start) && Whole(start, versions)
    ensures Known(listed[..i], contents, versions)
    ensures HeadOf(Activated(start, Revised(listed[..i], contents, versions).made), listed[i].id) == listed[i].version
  {
    NotYetMade(listed, contents, versions, i);
    var made := Revised(listed[..i], contents, versions).made;
    assert (listed[i].id, listed[i].version) in Heads(listed);
    var e :| e in start && (e.id, e.version) == (listed[i].id, listed[i].version);
    var k :| 0 <= k < |start| && start[k] == e;
    HeadKept(start, versions, made, k);
  }

  lemma HeadKept(start: seq<Document>, versions: seq<string>, made: map<F.DocId, nat>, k: nat)
    requires Whole(start, versions) && k < |start| && start[k].id !in made
    ensures HeadOf(Activated(start, made), start[k].id) == start[k].version
  {
    forall j | 0 <= j < k
      ensures Activated(start, made)[j].id != start[k].id
    {
      assert Docs(start)[j].id != Docs(start)[k].id;
    }
    HeadIs(Activated(start, made), start[k].id, k);
  }
}
