// Where a plan puts each file (lg_cli/book_assets.py, `_organize_book`), by its root, its name
// and its content, when there is no plan, when one is refused, and what the index adds.
module AssetShelves {
  import opened Prelude
  import opened AssetMigration
  import opened AssetPlan

  // ---------------------------------------------------------------- names

  predicate Stands(name: string, part: string, i: int) {
    0 <= i <= |name| - |part| && name[i..i + |part|] == part
  }

  predicate Ends(name: string, end: string) {
    |end| <= |name| && Stands(name, end, |name| - |end|)
  }

  ghost predicate Mentions(name: string, part: string) {
    exists i :: Stands(name, part, i)
  }

  lemma EndsIff(name: string, end: string)
    ensures EndsWith(name, end) <==> Ends(name, end)
  {
  }

  lemma {:induction false} MentionsIff(name: string, part: string)
    ensures Contains(name, part) <==> Mentions(name, part)
  {
    if |part| <= |name| && name[..|part|] == part {
      assert Stands(name, part, 0);
    } else if name != [] {
      MentionsIff(name[1..], part);
      if i :| Stands(name[1..], part, i) {
        StandsLater(name, part, i);
      }
      if i :| Stands(name, part, i) {
        StandsLater(name, part, i - 1);
      }
    }
  }

  lemma StandsLater(name: string, part: string, i: int)
    requires name != [] && i >= 0
    ensures Stands(name[1..], part, i) <==> Stands(name, part, i + 1)
  {
    if i + |part| <= |name| - 1 {
      RestSlice(name, i, i + |part|);
    }
  }

  lemma RestSlice(name: string, i: nat, j: nat)
    requires i <= j < |name|
    ensures name[1..][i..j] == name[i + 1..j + 1]
  {
  }

  // ---------------------------------------------------------------- shelves

  // The text a new book starts with under this name, or an empty file it does not start with.
  predicate IsStock(texts: map<string, string>, name: string, content: string) {
    if name in texts then content == texts[name] else content == ""
  }

  function FolderOf(kind: Kind): Path {
    match kind
    case Memory => [".literarygiant", "memory"]
    case Output => [".literarygiant", "output"]
    case Analysis => [".literarygiant", "analysis"]
    case Reference => ["ReferenceLibrary"]
  }

  // A file of the reference library goes by the first of these that fits its name.
  ghost predicate ReferenceShelf(name: string, shelf: Path) {
    if Ends(name, "-execution-plan.md") then shelf == ["plans", "chapters"]
    else if Mentions(name, "editorial-corrections") then shelf == ["reviews", "editorial"]
    else if Mentions(name, "review-challenge") then shelf == ["reviews", "discussions"]
    else if name == "production-plan.json" then shelf == ["plans"]
    else if name == "accepted-timeline.json" then shelf == ["bible"]
    else shelf == ["sources", "imported"]
  }

  // The target of the file at `relative` below the folder of its kind.
  ghost predicate Shelved(kind: Kind, relative: Path, content: string, stock: Stock, to: Path)
    requires relative != []
  {
    var name := relative[|relative| - 1];
    match kind
    case Memory =>
      if IsStock(stock.memory, name, content) then to == ["ReferenceLibrary", "archive", "placeholders"] + relative
      else to == ["ReferenceLibrary", "bible"] + relative
    case Analysis => to == ["ReferenceLibrary", "analyses"] + relative
    case Reference => exists shelf :: ReferenceShelf(name, shelf) && to == ["ReferenceLibrary"] + shelf + relative
    case Output =>
      if relative[0] == "conversations" then to == [".literarygiant", "conversation-artifacts", name]
      else if IsStock(stock.output, name, content)
      then to == ["ReferenceLibrary", "archive", "placeholders", "output"] + relative
      else if relative[0] == "exports" then to == ["ReferenceLibrary", "archive"] + relative
      else to == ["ReferenceLibrary", "drafts"] + relative
  }

  lemma GroupShelved(kind: Kind, relative: Path, content: string, stock: Stock)
    requires relative != []
    ensures Shelved(kind, relative, content, stock, Destination(kind, relative, content, stock))
  {
    var name := relative[|relative| - 1];
    var to := Destination(kind, relative, content, stock);
    if kind.Reference? {
      EndsIff(name, "-execution-plan.md");
      MentionsIff(name, "editorial-corrections");
      MentionsIff(name, "review-challenge");
      var shelf := ReferenceGroup(name);
      assert ReferenceShelf(name, shelf);
      assert to == ["ReferenceLibrary"] + shelf + relative;
    } else if kind.Output? && relative[0] == "conversations" {
    } else {
      var group := Group(kind, relative, content, stock);
      assert to == ["ReferenceLibrary"] + group + relative;
    }
  }

  // A move takes one file from below its folder to its shelf.
  ghost predicate Shelves(m: Move, stock: Stock) {
    exists kind, relative :: Below(m, stock, kind, relative)
  }

  ghost predicate Below(m: Move, stock: Stock, kind: Kind, relative: Path) {
    relative != [] && m.from == FolderOf(kind) + relative && Shelved(kind, relative, m.digest, stock, m.to)
  }

  // Every move of a plan takes the file that stands at its source to the shelf for it.
  lemma PlanShelves(files: Files, listings: Listings, stock: Stock)
    requires Lists(files, listings) && PlanOf(files, listings, stock, KINDS).Some?
    ensures var moves := PlanOf(files, listings, stock, KINDS).value;
      forall i | 0 <= i < |moves| ::
        moves[i].from in files && files[moves[i].from] == File(moves[i].digest) && Shelves(moves[i], stock)
  {
    PlanSources(files, listings, stock, KINDS);
    PlanPlanned(files, listings, stock, KINDS);
    var moves := PlanOf(files, listings, stock, KINDS).value;
    forall i | 0 <= i < |moves|
      ensures Shelves(moves[i], stock)
    {
      assert IsPlanned(moves[i], stock);
      MoveShelves(moves[i], stock);
    }
  }

  lemma MoveShelves(m: Move, stock: Stock)
    requires IsPlanned(m, stock)
    ensures Shelves(m, stock)
  {
    var kind :| Under(kind, m.from) && m == MoveOf(kind, m.from, m.digest, stock);
    KindShelves(m, stock, kind);
  }

  lemma KindShelves(m: Move, stock: Stock, kind: Kind)
    requires Under(kind, m.from) && m == MoveOf(kind, m.from, m.digest, stock)
    ensures Shelves(m, stock)
  {
    var relative := m.from[|Root(kind)|..];
    FolderIsRoot(kind);
    assert m.from == m.from[..|Root(kind)|] + relative;
    GroupShelved(kind, relative, m.digest, stock);
    assert Below(m, stock, kind, relative);
  }

  lemma FolderIsRoot(kind: Kind)
    ensures FolderOf(kind) == Root(kind)
  {
  }

  // ---------------------------------------------------------------- refusal

  // Below the folder of a kind; of the reference library only what is directly in it.
  predicate Within(kind: Kind, path: Path) {
    && |FolderOf(kind)| < |path|
    && FolderOf(kind) <= path
    && (kind == Reference ==> |path| == 2)
  }

  ghost predicate Linked(files: Files, kind: Kind) {
    || (FolderOf(kind) in files && files[FolderOf(kind)].Link?)
    || exists path :: path in files && Within(kind, path) && files[path].Link?
  }

  lemma {:induction false} MovesNone(files: Files, kind: Kind, listed: seq<Path>, stock: Stock)
    requires AllBelow(files, kind, listed)
    ensures MovesOf(files, kind, listed, stock).None? <==>
      exists i :: 0 <= i < |listed| && files[listed[i]].Link?
  {
    if listed != [] {
      var n := |listed| - 1;
      MovesNone(files, kind, listed[..n], stock);
      assert forall i | 0 <= i < n :: listed[..n][i] == listed[i];
    }
  }

  lemma WithinIff(kind: Kind, path: Path)
    ensures Within(kind, path) <==> Under(kind, path)
  {
  }

  lemma KindLinked(files: Files, kind: Kind, listed: seq<Path>, stock: Stock)
    requires Listing(files, kind, listed)
    ensures RootLinked(files, kind) || MovesOf(files, kind, listed, stock).None? <==> Linked(files, kind)
  {
    MovesNone(files, kind, listed, stock);
    if i :| 0 <= i < |listed| && files[listed[i]].Link? {
      WithinIff(kind, listed[i]);
    }
    if path :| path in files && Within(kind, path) && files[path].Link? {
      WithinIff(kind, path);
      assert path in listed;
    }
  }

  lemma {:induction false} PlanNone(files: Files, listings: Listings, stock: Stock, kinds: seq<Kind>)
    requires Lists(files, listings)
    ensures PlanOf(files, listings, stock, kinds).None? <==> exists kind :: kind in kinds && Linked(files, kind)
  {
    if kinds != [] {
      var n := |kinds| - 1;
      PlanNone(files, listings, stock, kinds[..n]);
      KindLinked(files, kinds[n], listings.Of(kinds[n]), stock);
      assert kinds == kinds[..n] + [kinds[n]];
    }
  }

  // There is no plan exactly when one of the four folders, or something planned in it, is a
  // symbolic link.
  lemma PlanRefusedIff(files: Files, listings: Listings, stock: Stock)
    requires Lists(files, listings)
    ensures PlanOf(files, listings, stock, KINDS).None? <==> exists kind :: Linked(files, kind)
  {
    PlanNone(files, listings, stock, KINDS);
    forall kind: Kind
      ensures kind in KINDS
    {
      match kind
      case Memory => assert KINDS[0] == kind;
      case Output => assert KINDS[1] == kind;
      case Analysis => assert KINDS[2] == kind;
      case Reference => assert KINDS[3] == kind;
    }
  }

  // Exactly one of source and target exists, as the file the plan was made for, and neither is
  // a symbolic link.
  predicate Movable(files: Files, m: Move) {
    && (m.from in files ==> files[m.from] == File(m.digest) && m.to !in files)
    && (m.from !in files ==> m.to in files && files[m.to] == File(m.digest))
  }

  // A plan passes the check exactly when every move is one of those and no target comes twice.
  lemma SafeIff(files: Files, moves: seq<Move>)
    ensures Safe(files, moves) <==>
      && (forall i | 0 <= i < |moves| :: Movable(files, moves[i]))
      && (forall i, j | 0 <= i < j < |moves| :: moves[i].to != moves[j].to)
  {
    assert forall i | 0 <= i < |moves| :: Movable(files, moves[i]) <==> Fine(files, moves[i]);
  }

  // ---------------------------------------------------------------- the index

  // A migration that runs through leaves the files its moves lead to, and beside them only the
  // index of the library, unless there was one, and the folder it is in.
  lemma IndexAdds(files: Files, moves: seq<Move>, text: string, found: seq<Move>)
    requires Safe(files, moves) && Applied(files, moves).Some?
    ensures var (book, error) := Organized(Book(files, Some(Manifest(moves, false))), found, text, Never);
      var index, moved := ["ReferenceLibrary", "README.md"], Applied(files, moves).value;
      && error.None?
      && book.manifest == Some(Manifest(moves, true))
      && index in book.files
      && book.files[index] == (if index in moved then moved[index] else File(text))
      && (forall path | path in moved :: path in book.files && book.files[path] == moved[path])
      && (forall path | path in book.files && path !in moved ::
            index !in moved && (path == index || (path == ["ReferenceLibrary"] && book.files[path] == Folder)))
  {
  }
}
