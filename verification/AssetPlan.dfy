// The plan of a migration and the organizer that carries it out: lg_cli/book_assets.py,
// `_organize_book`. What a directory listing returns, and the stock texts of new books, are
// parameters.
module AssetPlan {
  import opened Prelude
  import opened AssetMigration

  datatype Kind = Memory | Output | Analysis | Reference

  function Root(kind: Kind): Path {
    match kind
    case Memory => [".literarygiant", "memory"]
    case Output => [".literarygiant", "output"]
    case Analysis => [".literarygiant", "analysis"]
    case Reference => ["ReferenceLibrary"]
  }

  // Below a root, at any depth; for the reference library only one level.
  predicate Under(kind: Kind, path: Path) {
    var root := Root(kind);
    |path| > |root| && path[..|root|] == root && (kind.Reference? ==> |path| == 2)
  }

  // A listing names everything below the root, each path once.
  ghost predicate Listing(files: Files, kind: Kind, listed: seq<Path>) {
    Distinct(listed) && forall path :: path in listed <==> path in files && Under(kind, path)
  }

  // The texts a new book starts with, by file name.
  datatype Stock = Stock(memory: map<string, string>, output: map<string, string>)

  function TextOf(texts: map<string, string>, name: string): string {
    if name in texts then texts[name] else ""
  }

  predicate EndsWith(s: string, end: string) {
    |end| <= |s| && s[|s| - |end|..] == end
  }

  predicate Contains(s: string, part: string) {
    |part| <= |s| && (s[..|part|] == part || (s != "" && Contains(s[1..], part)))
  }

  function ReferenceGroup(name: string): Path {
    if EndsWith(name, "-execution-plan.md") then ["plans", "chapters"]
    else if Contains(name, "editorial-corrections") then ["reviews", "editorial"]
    else if Contains(name, "review-challenge") then ["reviews", "discussions"]
    else if name == "production-plan.json" then ["plans"]
    else if name == "accepted-timeline.json" then ["bible"]
    else ["sources", "imported"]
  }

  function Group(kind: Kind, relative: Path, content: string, stock: Stock): (group: Path)
    requires relative != []
    ensures group != [] && group[0] in SHELVES
  {
    var name := relative[|relative| - 1];
    match kind
    case Reference => ReferenceGroup(name)
    case Memory => if content == TextOf(stock.memory, name) then ["archive", "placeholders"] else ["bible"]
    case Analysis => ["analyses"]
    case Output =>
      if content == TextOf(stock.output, name) then ["archive", "placeholders", "output"]
      else if relative[0] == "exports" then ["archive"] else ["drafts"]
  }

  // The folders of the reference library that files are moved into.
  const SHELVES: set<string> := {"plans", "reviews", "bible", "sources", "archive", "analyses", "drafts"}

  function Destination(kind: Kind, relative: Path, content: string, stock: Stock): Path
    requires relative != []
  {
    if kind.Output? && relative[0] == "conversations"
    then [".literarygiant", "conversation-artifacts", relative[|relative| - 1]]
    else ["ReferenceLibrary"] + (Group(kind, relative, content, stock) + relative)
  }

  function MoveOf(kind: Kind, source: Path, content: string, stock: Stock): Move
    requires Under(kind, source)
  {
    Move(source, Destination(kind, source[|Root(kind)|..], content, stock), content)
  }

  predicate AllBelow(files: Files, kind: Kind, listed: seq<Path>) {
    forall path | path in listed :: path in files && Under(kind, path)
  }

  // One move for every file listed; a symbolic link is refused.
  function MovesOf(files: Files, kind: Kind, listed: seq<Path>, stock: Stock): Option<seq<Move>>
    requires AllBelow(files, kind, listed)
  {
    if listed == [] then Some([])
    else
      var n := |listed| - 1;
      var before, node := MovesOf(files, kind, listed[..n], stock), files[listed[n]];
      if before.None? || node.Link? then None
      else if node.Folder? then before
      else Some(before.value + [MoveOf(kind, listed[n], node.content, stock)])
  }

  datatype Listings = Listings(memory: seq<Path>, output: seq<Path>, analysis: seq<Path>, reference: seq<Path>) {
    function Of(kind: Kind): seq<Path> {
      match kind
      case Memory => memory
      case Output => output
      case Analysis => analysis
      case Reference => reference
    }
  }

  ghost predicate Lists(files: Files, listings: Listings) {
    forall kind :: Listing(files, kind, listings.Of(kind))
  }

  const KINDS: seq<Kind> := [Memory, Output, Analysis, Reference]

  predicate RootLinked(files: Files, kind: Kind) {
    Root(kind) in files && files[Root(kind)].Link?
  }

  function PlanOf(files: Files, listings: Listings, stock: Stock, kinds: seq<Kind>): Option<seq<Move>>
    requires forall kind | kind in kinds :: AllBelow(files, kind, listings.Of(kind))
  {
    if kinds == [] then Some([])
    else
      var n := |kinds| - 1;
      var before := PlanOf(files, listings, stock, kinds[..n]);
      var more := if RootLinked(files, kinds[n]) then None else MovesOf(files, kinds[n], listings.Of(kinds[n]), stock);
      if before.None? || more.None? then None else Some(before.value + more.value)
  }

  // ---------------------------------------------------------------- what a plan is

  // The plan has exactly one move for every file below the root.
  lemma {:induction false} MovesAre(files: Files, kind: Kind, listed: seq<Path>, stock: Stock)
    requires Distinct(listed) && AllBelow(files, kind, listed)
    requires MovesOf(files, kind, listed, stock).Some?
    ensures var moves := MovesOf(files, kind, listed, stock).value;
      && (forall i | 0 <= i < |moves| :: moves[i].from in listed && files[moves[i].from] == File(moves[i].digest)
            && moves[i] == MoveOf(kind, moves[i].from, moves[i].digest, stock))
      && (forall i, j | 0 <= i < j < |moves| :: moves[i].from != moves[j].from)
      && (forall path | path in listed && files[path].File? :: IsSource(moves, path))
  {
    if listed != [] {
      var n := |listed| - 1;
      MovesAre(files, kind, listed[..n], stock);
      var before := MovesOf(files, kind, listed[..n], stock).value;
      assert listed == listed[..n] + [listed[n]];
      assert listed[n] !in listed[..n];
      if files[listed[n]].File? {
        var m := MoveOf(kind, listed[n], files[listed[n]].content, stock);
        forall path | path in listed && files[path].File?
          ensures IsSource(before + [m], path)
        {
          SourceSnoc(before, m, path);
        }
      }
    }
  }

  lemma RootsApart(a: Kind, b: Kind, path: Path)
    requires Under(a, path) && Under(b, path)
    ensures a == b
  {
    var x, y := Root(a), Root(b);
    assert path[..|x|][0] == path[0] == path[..|y|][0];
    if |x| == 2 && |y| == 2 {
      assert path[..2][1] == path[1];
    }
  }

  ghost predicate FromKind(m: Move, kinds: seq<Kind>) {
    exists kind :: kind in kinds && Under(kind, m.from)
  }

  ghost predicate FromKinds(moves: seq<Move>, kinds: seq<Kind>) {
    forall i | 0 <= i < |moves| :: FromKind(moves[i], kinds)
  }

  ghost predicate SourcesOnce(files: Files, moves: seq<Move>) {
    && (forall i | 0 <= i < |moves| :: moves[i].from in files && files[moves[i].from] == File(moves[i].digest))
    && (forall i, j | 0 <= i < j < |moves| :: moves[i].from != moves[j].from)
  }

  lemma SourcesJoin(files: Files, a: seq<Move>, b: seq<Move>, kinds: seq<Kind>, kind: Kind)
    requires SourcesOnce(files, a) && SourcesOnce(files, b) && FromKinds(a, kinds) && FromKinds(b, [kind])
    requires kind !in kinds
    ensures SourcesOnce(files, a + b)
  {
    forall i, j | 0 <= i < |a| && 0 <= j < |b|
      ensures a[i].from != b[j].from
    {
      assert FromKind(a[i], kinds) && FromKind(b[j], [kind]);
      var k :| k in kinds && Under(k, a[i].from);
      var l :| l in [kind] && Under(l, b[j].from);
      if a[i].from == b[j].from { RootsApart(k, l, a[i].from); }
    }
  }

  lemma KindsJoin(a: seq<Move>, b: seq<Move>, kinds: seq<Kind>, kind: Kind)
    requires FromKinds(a, kinds) && FromKinds(b, [kind])
    ensures FromKinds(a + b, kinds + [kind])
  {
    forall i | 0 <= i < |a + b|
      ensures FromKind((a + b)[i], kinds + [kind])
    {
      if i < |a| {
        assert (a + b)[i] == a[i];
        var k :| k in kinds && Under(k, a[i].from);
        assert k in kinds + [kind];
      } else {
        assert (a + b)[i] == b[i - |a|];
        var k :| k in [kind] && Under(k, b[i - |a|].from);
        assert k in kinds + [kind];
      }
    }
  }

  lemma KindMoves(files: Files, kind: Kind, listed: seq<Path>, stock: Stock)
    requires Listing(files, kind, listed) && MovesOf(files, kind, listed, stock).Some?
    ensures var moves := MovesOf(files, kind, listed, stock).value;
      SourcesOnce(files, moves) && FromKinds(moves, [kind])
      && forall path | path in listed && files[path].File? :: IsSource(moves, path)
  {
    MovesAre(files, kind, listed, stock);
    var moves := MovesOf(files, kind, listed, stock).value;
    forall i | 0 <= i < |moves|
      ensures FromKind(moves[i], [kind])
    {
      assert kind in [kind] && Under(kind, moves[i].from);
    }
  }

  // A plan moves each file below the four roots exactly once, from where it is.
  lemma {:induction false} PlanSources(files: Files, listings: Listings, stock: Stock, kinds: seq<Kind>)
    requires Lists(files, listings) && Distinct(kinds) && PlanOf(files, listings, stock, kinds).Some?
    ensures var moves := PlanOf(files, listings, stock, kinds).value;
      SourcesOnce(files, moves) && FromKinds(moves, kinds)
      && forall kind, path | kind in kinds && path in files && Under(kind, path) && files[path].File? ::
         IsSource(moves, path)
  {
    if kinds != [] {
      var n := |kinds| - 1;
      var kind := kinds[n];
      PlanSources(files, listings, stock, kinds[..n]);
      KindMoves(files, kind, listings.Of(kind), stock);
      var a, b := PlanOf(files, listings, stock, kinds[..n]).value,
        MovesOf(files, kind, listings.Of(kind), stock).value;
      SourcesJoin(files, a, b, kinds[..n], kind);
      KindsJoin(a, b, kinds[..n], kind);
      assert kinds == kinds[..n] + [kind];
      forall k, path | k in kinds && path in files && Under(k, path) && files[path].File?
        ensures IsSource(a + b, path)
      {
        SourceJoin(a, b, path);
      }
    }
  }

  lemma SourceJoin(a: seq<Move>, b: seq<Move>, path: Path)
    ensures IsSource(a, path) || IsSource(b, path) ==> IsSource(a + b, path)
  {
    if IsSource(a, path) {
      var i :| 0 <= i < |a| && a[i].from == path;
      assert (a + b)[i].from == path;
    } else if IsSource(b, path) {
      var i :| 0 <= i < |b| && b[i].from == path;
      assert (a + b)[|a| + i].from == path;
    }
  }

  // A plan that passes the check is one a run can start from.
  lemma PlanReady(files: Files, listings: Listings, stock: Stock)
    requires Lists(files, listings) && PlanOf(files, listings, stock, KINDS).Some?
    ensures var moves := PlanOf(files, listings, stock, KINDS).value; Safe(files, moves) <==> Ready(files, moves)
  {
    PlanSources(files, listings, stock, KINDS);
    var moves := PlanOf(files, listings, stock, KINDS).value;
    forall i | 0 <= i < |moves|
      ensures Fine(files, moves[i]) <==> moves[i].to !in files
    {
      assert files[moves[i].from] == File(moves[i].digest);
    }
  }

  // ---------------------------------------------------------------- names that stand in the way

  lemma Toward(kind: Kind, source: Path, content: string, stock: Stock, q: Path)
    requires Under(kind, source) && Above(q, MoveOf(kind, source, content, stock).to)
    ensures q[0] == "ReferenceLibrary" && |q| >= 2 ==> q[1] in SHELVES
    ensures q[0] == ".literarygiant" ==> q == [".literarygiant"] || q == [".literarygiant", "conversation-artifacts"]
    ensures q[0] == "ReferenceLibrary" || q[0] == ".literarygiant"
  {
    var to := MoveOf(kind, source, content, stock).to;
    assert q[0] == to[0];
    if |q| >= 2 { assert q[1] == to[1]; }
    if q[0] == ".literarygiant" && |q| == 2 { assert q == [q[0], q[1]]; }
    if q[0] == ".literarygiant" && |q| == 1 { assert q == [q[0]]; }
  }

  ghost predicate IsPlanned(m: Move, stock: Stock) {
    exists kind :: Under(kind, m.from) && m == MoveOf(kind, m.from, m.digest, stock)
  }

  ghost predicate AllPlanned(moves: seq<Move>, stock: Stock) {
    forall i | 0 <= i < |moves| :: IsPlanned(moves[i], stock)
  }

  // The shelf a target is put on: its folder directly below the reference library.
  predicate ShelfTaken(files: Files, to: Path) {
    |to| > 2 && to[0] == "ReferenceLibrary" && to[..2] in files && files[to[..2]].File?
  }

  lemma NoShelfTaken(files: Files, moves: seq<Move>, stock: Stock)
    requires SourcesOnce(files, moves) && AllPlanned(moves, stock)
    requires forall j | 0 <= j < |moves| :: !ShelfTaken(files, moves[j].to)
    ensures SourcesApart(moves)
  {
    forall i, j | 0 <= i < |moves| && 0 <= j < |moves|
      ensures !Above(moves[i].from, moves[j].to)
    {
      var source, to := moves[i].from, moves[j].to;
      assert IsPlanned(moves[i], stock) && IsPlanned(moves[j], stock);
      var k :| Under(k, source) && moves[i] == MoveOf(k, source, moves[i].digest, stock);
      var l :| Under(l, moves[j].from) && moves[j] == MoveOf(l, moves[j].from, moves[j].digest, stock);
      SourceStart(k, source);
      if Above(source, to) {
        Toward(l, moves[j].from, moves[j].digest, stock, source);
        FirstTwo(k, source, to);
      }
    }
  }

  lemma FirstTwo(kind: Kind, source: Path, to: Path)
    requires Under(kind, source) && Above(source, to)
    ensures kind.Reference? ==> |to| > 2 && to[0] == "ReferenceLibrary" && to[..2] == source
  {
    SourceStart(kind, source);
    assert to[0] == to[..|source|][0];
  }

  // A plan has a source above a target exactly when a file of the library stands where the
  // shelf of a target is to be.
  lemma OnlyShelfNames(files: Files, listings: Listings, stock: Stock)
    requires Lists(files, listings) && PlanOf(files, listings, stock, KINDS).Some?
    ensures var moves := PlanOf(files, listings, stock, KINDS).value;
      SourcesApart(moves) <==> forall j | 0 <= j < |moves| :: !ShelfTaken(files, moves[j].to)
  {
    PlanSources(files, listings, stock, KINDS);
    PlanPlanned(files, listings, stock, KINDS);
    ShelvesIff(files, PlanOf(files, listings, stock, KINDS).value, stock);
  }

  lemma ShelvesIff(files: Files, moves: seq<Move>, stock: Stock)
    requires SourcesOnce(files, moves) && AllPlanned(moves, stock)
    requires forall path | path in files && Under(Reference, path) && files[path].File? :: IsSource(moves, path)
    ensures SourcesApart(moves) <==> forall j | 0 <= j < |moves| :: !ShelfTaken(files, moves[j].to)
  {
    if forall j | 0 <= j < |moves| :: !ShelfTaken(files, moves[j].to) {
      NoShelfTaken(files, moves, stock);
    } else {
      var j :| 0 <= j < |moves| && ShelfTaken(files, moves[j].to);
      assert Under(Reference, moves[j].to[..2]);
      TakenStands(moves, j);
    }
  }

  lemma TakenStands(moves: seq<Move>, j: nat)
    requires j < |moves| && |moves[j].to| > 2 && IsSource(moves, moves[j].to[..2])
    ensures !SourcesApart(moves)
  {
    var i :| 0 <= i < |moves| && moves[i].from == moves[j].to[..2];
    assert Above(moves[i].from, moves[j].to);
  }

  lemma SourceStart(kind: Kind, source: Path)
    requires Under(kind, source)
    ensures |source| >= 2
    ensures kind.Reference? ==> source[0] == "ReferenceLibrary" && |source| == 2
    ensures !kind.Reference? ==>
      source[0] == ".literarygiant" && |source| >= 3 && source[1] in {"memory", "output", "analysis"}
  {
    assert source[..|Root(kind)|][0] == source[0];
    if |Root(kind)| == 2 { assert source[..2][1] == source[1]; }
  }

  lemma {:induction false} MovesPlanned(files: Files, kind: Kind, listed: seq<Path>, stock: Stock)
    requires Listing(files, kind, listed) && MovesOf(files, kind, listed, stock).Some?
    ensures AllPlanned(MovesOf(files, kind, listed, stock).value, stock)
  {
    MovesAre(files, kind, listed, stock);
  }

  lemma {:induction false} PlanPlanned(files: Files, listings: Listings, stock: Stock, kinds: seq<Kind>)
    requires Lists(files, listings) && PlanOf(files, listings, stock, kinds).Some?
    ensures AllPlanned(PlanOf(files, listings, stock, kinds).value, stock)
  {
    if kinds != [] {
      var n := |kinds| - 1;
      PlanPlanned(files, listings, stock, kinds[..n]);
      MovesPlanned(files, kinds[n], listings.Of(kinds[n]), stock);
      var a, b := PlanOf(files, listings, stock, kinds[..n]).value,
        MovesOf(files, kinds[n], listings.Of(kinds[n]), stock).value;
      forall i | 0 <= i < |a + b|
        ensures IsPlanned((a + b)[i], stock)
      {
        assert (a + b)[i] == if i < |a| then a[i] else b[i - |a|];
      }
    }
  }

  // A checked plan that can be carried out can be stopped anywhere and resumed exactly when no
  // such file exists.
  lemma PlanResumes(files: Files, listings: Listings, stock: Stock)
    requires Lists(files, listings) && PlanOf(files, listings, stock, KINDS).Some?
    requires Safe(files, PlanOf(files, listings, stock, KINDS).value)
    requires Applied(files, PlanOf(files, listings, stock, KINDS).value).Some?
    ensures var moves := PlanOf(files, listings, stock, KINDS).value;
      EveryStopResumes(files, moves) <==> forall j | 0 <= j < |moves| :: !ShelfTaken(files, moves[j].to)
  {
    PlanReady(files, listings, stock);
    OnlyShelfNames(files, listings, stock);
    ResumesIff(files, PlanOf(files, listings, stock, KINDS).value);
  }

  // ---------------------------------------------------------------- the organizer

  class Library {
    var files: Files
    var manifest: Option<Manifest>

    ghost function Now(): Book
      reads this
    {
      Book(files, manifest)
    }

    constructor (files: Files)
      ensures Now() == Book(files, None)
    {
      this.files, this.manifest := files, None;
    }

    method PlanRoot(kind: Kind, listed: seq<Path>, stock: Stock) returns (moves: Option<seq<Move>>)
      requires AllBelow(files, kind, listed)
      ensures moves == MovesOf(files, kind, listed, stock)
    {
      var found: seq<Move> := [];
      for i := 0 to |listed|
        invariant AllBelow(files, kind, listed[..i])
        invariant MovesOf(files, kind, listed[..i], stock) == Some(found)
      {
        var source := listed[i];
        assert listed[..i + 1][..i] == listed[..i];
        if files[source].Link? {
          LinkRefused(files, kind, listed, stock, i);
          return None;
        }
        if files[source].File? {
          found := found + [MoveOf(kind, source, files[source].content, stock)];
        }
      }
      assert listed[..|listed|] == listed;
      moves := Some(found);
    }

    method Plan(listings: Listings, stock: Stock) returns (moves: Option<seq<Move>>)
      requires Lists(files, listings)
      ensures moves == PlanOf(files, listings, stock, KINDS)
    {
      var found: seq<Move> := [];
      for i := 0 to |KINDS|
        invariant PlanOf(files, listings, stock, KINDS[..i]) == Some(found)
      {
        var kind := KINDS[i];
        assert KINDS[..i + 1][..i] == KINDS[..i];
        if RootLinked(files, kind) {
          RootRefused(files, listings, stock, KINDS, i);
          return None;
        }
        var more := PlanRoot(kind, listings.Of(kind), stock);
        if more.None? {
          RootRefused(files, listings, stock, KINDS, i);
          return None;
        }
        found := found + more.value;
      }
      assert KINDS[..|KINDS|] == KINDS;
      moves := Some(found);
    }

    method Check(moves: seq<Move>) returns (fine: bool)
      ensures fine <==> Safe(files, moves)
    {
      var targets: set<Path> := {};
      for i := 0 to |moves|
        invariant targets == set j | 0 <= j < i :: moves[j].to
        invariant Safe(files, moves[..i])
      {
        var m := moves[i];
        if m.to in targets {
          var j :| 0 <= j < i && moves[j].to == m.to;
          return false;
        }
        if !Fine(files, m) { return false; }
        targets := targets + {m.to};
      }
      assert moves[..|moves|] == moves;
      fine := true;
    }

    method Carry(moves: seq<Move>) returns (done: bool)
      modifies this`files
      ensures done <==> Applied(old(files), moves).Some?
      ensures files == if done then Applied(old(files), moves).value else Farthest(old(files), moves)
    {
      for i := 0 to |moves|
        invariant Applied(old(files), moves[..i]) == Some(files)
      {
        var m := moves[i];
        assert moves[..i + 1][..i] == moves[..i];
        if m.from in files {
          var blocked := Blocked(files, m);
          if blocked {
            StuckHere(old(files), moves, i);
            return false;
          }
          files := Made(files, m.to, Parents(m));
          files := Renamed(files, m);
        }
      }
      assert moves[..|moves|] == moves;
      done := true;
    }

    // The whole call; without `apply` it only reports the plan.
    method Organize(listings: Listings, stock: Stock, text: string, apply: bool) returns (r: Result<Manifest, Error>)
      requires Lists(files, listings)
      modifies this
      ensures !apply ==> Now() == old(Now())
      ensures var found := PlanOf(old(files), listings, stock, KINDS);
        if old(manifest).None? && found.None? then r == Err(Refused) && Now() == old(Now())
        else
          var plan := if found.Some? then found.value else [];
          var (after, failure) := Organized(old(Now()), plan, text, Never);
          && (apply ==> Now() == after)
          && (r == Err(Refused) <==> failure == Some(Refused))
          && (apply ==> (r.Ok? <==> failure.None?) && (r.Ok? ==> Some(r.value) == manifest))
    {
      if manifest.Some? && manifest.value.complete { return Ok(manifest.value); }
      var moves;
      if manifest.Some? {
        moves := manifest.value.moves;
      } else {
        var found := Plan(listings, stock);
        if found.None? { return Err(Refused); }
        moves := found.value;
      }
      var fine := Check(moves);
      if !fine { return Err(Refused); }
      if !apply { return Ok(Manifest(moves, false)); }
      manifest := Some(Manifest(moves, false));
      var done := Carry(moves);
      if !done { return Err(Failed); }
      manifest := Some(Manifest(moves, true));
      files := Indexed(files, text);
      r := Ok(manifest.value);
    }
  }

  lemma {:induction false} LinkRefused(files: Files, kind: Kind, listed: seq<Path>, stock: Stock, i: nat)
    requires AllBelow(files, kind, listed) && i < |listed| && files[listed[i]].Link?
    ensures MovesOf(files, kind, listed, stock).None?
  {
    if i < |listed| - 1 { LinkRefused(files, kind, listed[..|listed| - 1], stock, i); }
  }

  lemma {:induction false} RootRefused(files: Files, listings: Listings, stock: Stock, kinds: seq<Kind>, i: nat)
    requires Lists(files, listings) && i < |kinds|
    requires RootLinked(files, kinds[i]) || MovesOf(files, kinds[i], listings.Of(kinds[i]), stock).None?
    ensures PlanOf(files, listings, stock, kinds).None?
  {
    if i < |kinds| - 1 { RootRefused(files, listings, stock, kinds[..|kinds| - 1], i); }
  }

  // A move that fails ends the run there.
  lemma {:induction false} StuckHere(start: Files, moves: seq<Move>, i: nat)
    requires i < |moves| && Applied(start, moves[..i]).Some? && Moved(Applied(start, moves[..i]).value, moves[i]).None?
    ensures Applied(start, moves).None? && Farthest(start, moves) == Applied(start, moves[..i]).value
  {
    if i < |moves| - 1 {
      assert moves[..|moves| - 1][..i] == moves[..i];
      StuckHere(start, moves[..|moves| - 1], i);
    } else {
      assert moves[..i] == moves[..|moves| - 1];
    }
  }
}
