// A migration that a stop strands: a reference library that holds a file called `plans` beside
// an execution plan. The plan is carried out when nothing stops it, but once both files were
// moved a folder stands where the first one was, and every rerun refuses the plan.
module AssetStranded {
  import opened Prelude
  import opened AssetMigration
  import opened AssetPlan

  const SHELF: Path := ["ReferenceLibrary", "plans"]
  const EXECUTION: string := "-execution-plan.md"
  const BOOKED: Path := ["ReferenceLibrary", "volume" + EXECUTION]
  const IMPORTED: Path := ["ReferenceLibrary", "sources", "imported", "plans"]
  const PLANNED: Path := ["ReferenceLibrary", "plans", "chapters", "volume" + EXECUTION]

  function Shelves(first: string, second: string): Files {
    map[["ReferenceLibrary"] := Folder, SHELF := File(first), BOOKED := File(second)]
  }

  const LISTED: Listings := Listings([], [], [], [SHELF, BOOKED])

  function Found(first: string, second: string): seq<Move> {
    [Move(SHELF, IMPORTED, first), Move(BOOKED, PLANNED, second)]
  }

  lemma Listed(first: string, second: string)
    ensures Lists(Shelves(first, second), LISTED)
  {
    var files := Shelves(first, second);
    forall kind
      ensures Listing(files, kind, LISTED.Of(kind))
    {
      forall path | path in files
        ensures Under(kind, path) <==> kind.Reference? && (path == SHELF || path == BOOKED)
      {
        assert SHELF[..1] == ["ReferenceLibrary"] && BOOKED[..1] == ["ReferenceLibrary"];
        if |path| > |Root(kind)| { assert path[..|Root(kind)|][0] == path[0]; }
      }
    }
  }

  lemma Names()
    ensures SHELF[1..] == ["plans"] && BOOKED[1..] == ["volume" + EXECUTION]
    ensures ReferenceGroup("plans") == ["sources", "imported"]
    ensures ReferenceGroup("volume" + EXECUTION) == ["plans", "chapters"]
  {
    var name := "volume" + EXECUTION;
    assert name[|name| - |EXECUTION|..] == EXECUTION;
  }

  lemma MovesFound(first: string, second: string, stock: Stock)
    requires AllBelow(Shelves(first, second), Reference, LISTED.reference)
    ensures MovesOf(Shelves(first, second), Reference, LISTED.reference, stock) == Some(Found(first, second))
  {
    var files, found := Shelves(first, second), Found(first, second);
    var one := LISTED.reference[..1];
    Names();
    assert one == [SHELF] && one[..0] == [];
    assert MovesOf(files, Reference, one[..0], stock) == Some([]);
    assert MoveOf(Reference, SHELF, first, stock) == found[0];
    assert MoveOf(Reference, BOOKED, second, stock) == found[1];
    assert [] + [found[0]] == [found[0]];
    assert MovesOf(files, Reference, one, stock) == Some([found[0]]);
    assert [found[0]] + [found[1]] == found;
  }

  // A plan of a library without legacy folders is that of its reference files.
  lemma KindsAdd(files: Files, listings: Listings, stock: Stock, moves: seq<Move>)
    requires forall k :: AllBelow(files, k, listings.Of(k))
    requires forall kind :: !RootLinked(files, kind)
    requires listings.memory == [] && listings.output == [] && listings.analysis == []
    requires MovesOf(files, Reference, listings.Of(Reference), stock) == Some(moves)
    ensures PlanOf(files, listings, stock, KINDS) == Some(moves)
  {
    var k1, k2, k3 := KINDS[..1], KINDS[..2], KINDS[..3];
    assert k1[..0] == [] && k2[..1] == k1 && k3[..2] == k2 && KINDS[..3] == k3;
    NoMore(files, listings, stock, k1[..0], k1, Memory);
    NoMore(files, listings, stock, k1, k2, Output);
    NoMore(files, listings, stock, k2, k3, Analysis);
    assert [] + moves == moves;
  }

  lemma NoMore(files: Files, listings: Listings, stock: Stock, before: seq<Kind>, kinds: seq<Kind>, kind: Kind)
    requires forall k :: AllBelow(files, k, listings.Of(k))
    requires !RootLinked(files, kind) && listings.Of(kind) == []
    requires kinds != [] && kinds[|kinds| - 1] == kind && kinds[..|kinds| - 1] == before
    requires PlanOf(files, listings, stock, before) == Some([])
    ensures PlanOf(files, listings, stock, kinds) == Some([])
  {
    var none: seq<Move> := [];
    assert none + none == none;
  }

  lemma PlanIs(first: string, second: string, stock: Stock)
    ensures Lists(Shelves(first, second), LISTED)
    ensures PlanOf(Shelves(first, second), LISTED, stock, KINDS) == Some(Found(first, second))
  {
    Listed(first, second);
    var files := Shelves(first, second);
    forall k
      ensures AllBelow(files, k, LISTED.Of(k))
    {
      assert Listing(files, k, LISTED.Of(k));
    }
    assert LISTED.Of(Reference) == LISTED.reference;
    MovesFound(first, second, stock);
    forall kind
      ensures !RootLinked(files, kind)
    {
      assert |Root(kind)| == 2 ==> Root(kind)[0] == ".literarygiant";
    }
    KindsAdd(files, LISTED, stock, Found(first, second));
  }

  lemma OnlyTheShelf(first: string, second: string, q: Path)
    requires q in Shelves(first, second) && !Shelves(first, second)[q].Folder?
    ensures !Above(q, IMPORTED) && (Above(q, PLANNED) ==> q == SHELF)
  {
    assert q == SHELF || q == BOOKED;
    assert IMPORTED[..2][1] == "sources" && SHELF[1] == "plans" && PLANNED[..2][1] == "plans";
    assert |BOOKED[1]| > |"sources"| > |"plans"|;
  }

  lemma Open(first: string, second: string)
    ensures Ready(Shelves(first, second), Found(first, second))
    ensures Applied(Shelves(first, second), Found(first, second)).Some?
  {
    var files, moves := Shelves(first, second), Found(first, second);
    assert IMPORTED[1] == "sources" && PLANNED[1] == "plans" && SHELF[1] == "plans";
    assert |BOOKED[1]| > |SHELF[1]|;
    assert |IMPORTED| == 4 && |PLANNED| == 4;
    forall j, q | 0 <= j < 2 && q in files && Above(q, moves[j].to) && !files[q].Folder?
      ensures IsSource(moves[..j], q)
    {
      OnlyTheShelf(first, second, q);
      assert moves[..1][0].from == SHELF;
    }
    CompletesIff(files, moves);
  }

  // The plan the program makes of this library is ready and completes, but it cannot be resumed
  // from every stop.
  lemma StrandedPlan(first: string, second: string, stock: Stock)
    ensures var files, moves := Shelves(first, second), Found(first, second);
      && Lists(files, LISTED) && PlanOf(files, LISTED, stock, KINDS) == Some(moves)
      && Ready(files, moves) && Applied(files, moves).Some? && !EveryStopResumes(files, moves)
  {
    var files, moves := Shelves(first, second), Found(first, second);
    PlanIs(first, second, stock);
    Open(first, second);
    ReadySafe(files, moves);
    PlanResumes(files, LISTED, stock);
    assert PLANNED[..2] == SHELF;
    assert ShelfTaken(files, moves[1].to);
  }
}
