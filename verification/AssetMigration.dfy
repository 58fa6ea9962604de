// Moving a book's assets: lg_cli/book_assets.py, `_organize_book`. A path is its parts below
// the workspace, a digest is the content it was computed from, and the manifest is kept apart
// from the other files. A run may stop at any point between two changes of the file system.
module AssetMigration {
  import opened Prelude

  type Path = seq<string>

  datatype Node = File(content: string) | Folder | Link

  type Files = map<Path, Node>

  datatype Move = Move(from: Path, to: Path, digest: string)

  // ---------------------------------------------------------------- the check

  // What the check of one move accepts.
  predicate Fine(files: Files, m: Move) {
    && !(m.from in files && files[m.from].Link?) && !(m.to in files && files[m.to].Link?)
    && !(m.from in files && m.to in files)
    && (m.from in files || m.to in files)
    && files[if m.from in files then m.from else m.to] == File(m.digest)
  }

  predicate TargetsDiffer(moves: seq<Move>) {
    forall i, j | 0 <= i < j < |moves| :: moves[i].to != moves[j].to
  }

  predicate Safe(files: Files, moves: seq<Move>) {
    TargetsDiffer(moves) && forall i | 0 <= i < |moves| :: Fine(files, moves[i])
  }

  // ---------------------------------------------------------------- the moves

  predicate Above(q: Path, path: Path) {
    0 < |q| < |path| && q == path[..|q|]
  }

  // The folders above a path, down to the given depth.
  function Lineage(path: Path, levels: nat): (above: set<Path>)
    requires levels <= |path|
    ensures forall q :: q in above <==> 0 < |q| <= levels && q == path[..|q|]
  {
    if levels == 0 then {} else Lineage(path, levels - 1) + {path[..levels]}
  }

  function Made(files: Files, path: Path, levels: nat): Files
    requires levels <= |path|
  {
    map q | q in files.Keys + Lineage(path, levels) :: if q in files then files[q] else Folder
  }

  // `mkdir` of the parents fails at anything that is no folder; `rename` onto a folder fails.
  predicate Blocked(files: Files, m: Move) {
    || (exists q | q in files :: Above(q, m.to) && !files[q].Folder?)
    || (m.to in files && files[m.to].Folder?)
  }

  function Renamed(files: Files, m: Move): Files
    requires m.from in files
  {
    (map q | q in files && q != m.from :: files[q])[m.to := files[m.from]]
  }

  function Parents(m: Move): nat {
    if m.to == [] then 0 else |m.to| - 1
  }

  function Moved(files: Files, m: Move): Option<Files> {
    if m.from !in files then Some(files)
    else if Blocked(files, m) then None
    else
      var made := Made(files, m.to, Parents(m));
      Some(Renamed(made, m))
  }

  // The files after the moves, or None when one of them failed.
  function Applied(files: Files, moves: seq<Move>): Option<Files> {
    if moves == [] then Some(files)
    else
      var before := Applied(files, moves[..|moves| - 1]);
      if before.None? then None else Moved(before.value, moves[|moves| - 1])
  }

  predicate StopPoint(moves: seq<Move>, k: nat, levels: nat) {
    k <= |moves| && if k < |moves| then levels <= Parents(moves[k]) else levels == 0
  }

  // A run that stopped after `k` moves, with some of the folders for the next one made.
  function Stopped(files: Files, moves: seq<Move>, k: nat, levels: nat): Option<Files>
    requires StopPoint(moves, k, levels)
  {
    var done := Applied(files, moves[..k]);
    if levels == 0 || done.None? then done
    else if moves[k].from !in done.value || Blocked(done.value, moves[k]) then done
    else Some(Made(done.value, moves[k].to, levels))
  }

  // ---------------------------------------------------------------- where a run starts

  // A plan just made and checked: every file is at its source and no target exists.
  predicate Ready(files: Files, moves: seq<Move>) {
    && TargetsDiffer(moves)
    && (forall i, j | 0 <= i < j < |moves| :: moves[i].from != moves[j].from)
    && forall i | 0 <= i < |moves| ::
       moves[i].from in files && files[moves[i].from] == File(moves[i].digest) && moves[i].to !in files
  }

  ghost predicate IsSource(moves: seq<Move>, q: Path) {
    exists j :: 0 <= j < |moves| && moves[j].from == q
  }

  ghost predicate IsTarget(moves: seq<Move>, q: Path) {
    exists j :: 0 <= j < |moves| && moves[j].to == q
  }

  ghost predicate OverTarget(moves: seq<Move>, q: Path) {
    exists j :: 0 <= j < |moves| && Above(q, moves[j].to)
  }

  // Every asset that is no source is as it was.
  ghost predicate Kept(files: Files, start: Files, moves: seq<Move>) {
    forall q | q in start && !IsSource(moves, q) :: q in files && files[q] == start[q]
  }

  // Every planned file is at its target.
  ghost predicate Placed(files: Files, moves: seq<Move>) {
    forall j | 0 <= j < |moves| :: moves[j].to in files && files[moves[j].to] == File(moves[j].digest)
  }

  // The folders above the targets are there.
  ghost predicate Housed(files: Files, moves: seq<Move>) {
    forall j, q | 0 <= j < |moves| && Above(q, moves[j].to) :: q in files && files[q].Folder?
  }

  // What is new, or is where a source was, is a target or a folder above one.
  ghost predicate NothingElse(files: Files, start: Files, moves: seq<Move>) {
    forall q | q in files && (q !in start || IsSource(moves, q)) ::
      IsTarget(moves, q) || (files[q].Folder? && OverTarget(moves, q))
  }

  // Every path after `moves` were all made, starting from `start`.
  ghost predicate Explained(files: Files, start: Files, moves: seq<Move>) {
    Kept(files, start, moves) && Placed(files, moves) && Housed(files, moves) && NothingElse(files, start, moves)
  }

  lemma ReadySafe(files: Files, moves: seq<Move>)
    requires Ready(files, moves)
    ensures Safe(files, moves)
  {
  }

  // ---------------------------------------------------------------- one move

  lemma Snoc(moves: seq<Move>)
    requires moves != []
    ensures moves == moves[..|moves| - 1] + [moves[|moves| - 1]]
  {
  }

  lemma SourceSnoc(moves: seq<Move>, m: Move, q: Path)
    ensures IsSource(moves + [m], q) <==> IsSource(moves, q) || m.from == q
    ensures IsTarget(moves + [m], q) <==> IsTarget(moves, q) || m.to == q
    ensures OverTarget(moves + [m], q) <==> OverTarget(moves, q) || Above(q, m.to)
  {
    var all := moves + [m];
    assert all[|moves|] == m;
    if IsSource(moves, q) { var j :| 0 <= j < |moves| && moves[j].from == q; assert all[j].from == q; }
    if IsTarget(moves, q) { var j :| 0 <= j < |moves| && moves[j].to == q; assert all[j].to == q; }
    if OverTarget(moves, q) { var j :| 0 <= j < |moves| && Above(q, moves[j].to); assert Above(q, all[j].to); }
  }

  lemma ReadyPrefix(files: Files, moves: seq<Move>, k: nat)
    requires Ready(files, moves) && k <= |moves|
    ensures Ready(files, moves[..k])
  {
  }

  lemma OnlyOnce(start: Files, moves: seq<Move>, m: Move)
    requires Ready(start, moves + [m])
    ensures !IsSource(moves, m.from) && !IsTarget(moves, m.to)
    ensures m.from in start && start[m.from] == File(m.digest) && m.to !in start
    ensures forall j | 0 <= j < |moves| :: moves[j].to !in start && moves[j].to != m.to && moves[j].to != m.from
  {
    var all := moves + [m];
    assert all[|moves|] == m;
    forall j | 0 <= j < |moves|
      ensures moves[j].from != m.from && moves[j].to != m.to && moves[j].to !in start
    {
      assert all[j] == moves[j];
    }
  }

  // Before its turn a file is still at its source and nothing is at its target.
  lemma NextMove(files: Files, start: Files, moves: seq<Move>, m: Move)
    requires Ready(start, moves + [m]) && Kept(files, start, moves) && NothingElse(files, start, moves)
    ensures m.from in files && files[m.from] == File(m.digest) && m.from != m.to
    ensures !Blocked(files, m) ==> m.to !in files && !Above(m.from, m.to)
  {
    OnlyOnce(start, moves, m);
  }

  // One successful move, path by path.
  lemma MovedAt(files: Files, m: Move, q: Path)
    requires m.from in files && !Blocked(files, m) && m.to !in files && m.from != m.to && !Above(m.from, m.to)
    ensures Moved(files, m).Some?
    ensures var after := Moved(files, m).value;
      if q == m.to then q in after && after[q] == files[m.from]
      else if q == m.from then q !in after
      else if q in files then q in after && after[q] == files[q]
      else if Above(q, m.to) then q in after && after[q].Folder?
      else q !in after
  {
    assert q in Lineage(m.to, Parents(m)) <==> Above(q, m.to);
  }

  lemma MoveKeeps(files: Files, start: Files, moves: seq<Move>, m: Move)
    requires Ready(start, moves + [m]) && Explained(files, start, moves) && !Blocked(files, m)
    ensures Moved(files, m).Some? && Kept(Moved(files, m).value, start, moves + [m])
  {
    NextMove(files, start, moves, m);
    OnlyOnce(start, moves, m);
    MovedAt(files, m, m.to);
    var after := Moved(files, m).value;
    forall q | q in start && !IsSource(moves + [m], q)
      ensures q in after && after[q] == start[q]
    {
      SourceSnoc(moves, m, q);
      MovedAt(files, m, q);
    }
  }

  lemma MovePlaces(files: Files, start: Files, moves: seq<Move>, m: Move)
    requires Ready(start, moves + [m]) && Explained(files, start, moves) && !Blocked(files, m)
    ensures Moved(files, m).Some? && Placed(Moved(files, m).value, moves + [m])
  {
    var all := moves + [m];
    NextMove(files, start, moves, m);
    OnlyOnce(start, moves, m);
    MovedAt(files, m, m.to);
    var after := Moved(files, m).value;
    forall j | 0 <= j < |all|
      ensures all[j].to in after && after[all[j].to] == File(all[j].digest)
    {
      MovedAt(files, m, all[j].to);
      if j < |moves| { assert all[j] == moves[j]; }
    }
  }

  lemma MoveHouses(files: Files, moves: seq<Move>, m: Move)
    requires Housed(files, moves) && m.from in files && files[m.from].File? && !Blocked(files, m)
    requires m.to !in files && m.from != m.to && !Above(m.from, m.to)
    ensures Moved(files, m).Some? && Housed(Moved(files, m).value, moves + [m])
  {
    var all := moves + [m];
    MovedAt(files, m, m.to);
    var after := Moved(files, m).value;
    forall j, q | 0 <= j < |all| && Above(q, all[j].to)
      ensures q in after && after[q].Folder?
    {
      MovedAt(files, m, q);
      if j < |moves| { assert all[j] == moves[j]; }
    }
  }

  lemma MoveAddsNoMore(files: Files, start: Files, moves: seq<Move>, m: Move)
    requires Ready(start, moves + [m]) && Explained(files, start, moves) && !Blocked(files, m)
    ensures Moved(files, m).Some? && NothingElse(Moved(files, m).value, start, moves + [m])
  {
    NextMove(files, start, moves, m);
    MovedAt(files, m, m.to);
    var after := Moved(files, m).value;
    forall q | q in after && (q !in start || IsSource(moves + [m], q))
      ensures IsTarget(moves + [m], q) || (after[q].Folder? && OverTarget(moves + [m], q))
    {
      SourceSnoc(moves, m, q);
      MovedAt(files, m, q);
    }
  }

  lemma {:induction false} RunExplained(start: Files, moves: seq<Move>)
    requires Ready(start, moves) && Applied(start, moves).Some?
    ensures Explained(Applied(start, moves).value, start, moves)
  {
    if moves != [] {
      var n := |moves| - 1;
      ReadyPrefix(start, moves, n);
      RunExplained(start, moves[..n]);
      var files, m := Applied(start, moves[..n]).value, moves[n];
      Snoc(moves);
      NextMove(files, start, moves[..n], m);
      MoveKeeps(files, start, moves[..n], m);
      MovePlaces(files, start, moves[..n], m);
      MoveHouses(files, moves[..n], m);
      MoveAddsNoMore(files, start, moves[..n], m);
    }
  }

  // ---------------------------------------------------------------- when a run completes

  ghost predicate TargetsApart(moves: seq<Move>) {
    forall i, j | 0 <= i < |moves| && 0 <= j < |moves| :: !Above(moves[i].to, moves[j].to)
  }

  ghost predicate SourcesApart(moves: seq<Move>) {
    forall i, j | 0 <= i < |moves| && 0 <= j < |moves| :: !Above(moves[i].from, moves[j].to)
  }

  // Nothing but folders, and files moved away before, stands above a target.
  ghost predicate WaysOpen(start: Files, moves: seq<Move>) {
    forall j, q | 0 <= j < |moves| && q in start && Above(q, moves[j].to) && !start[q].Folder? ::
      IsSource(moves[..j], q)
  }

  lemma PassablePrefix(start: Files, moves: seq<Move>, k: nat)
    requires k <= |moves| && TargetsApart(moves) && WaysOpen(start, moves)
    ensures TargetsApart(moves[..k]) && WaysOpen(start, moves[..k])
  {
    forall j, q | 0 <= j < k && q in start && Above(q, moves[..k][j].to) && !start[q].Folder?
      ensures IsSource(moves[..k][..j], q)
    {
      assert moves[..k][..j] == moves[..j];
    }
  }

  lemma NotBlocked(files: Files, start: Files, moves: seq<Move>, m: Move)
    requires Ready(start, moves + [m]) && Explained(files, start, moves)
    requires TargetsApart(moves + [m]) && WaysOpen(start, moves + [m])
    ensures !Blocked(files, m)
  {
    var all := moves + [m];
    assert all[|moves|] == m && all[..|moves|] == moves;
    OnlyOnce(start, moves, m);
    forall j | 0 <= j < |moves|
      ensures !Above(m.to, moves[j].to) && !Above(moves[j].to, m.to)
    {
      assert all[j] == moves[j];
    }
    assert m.to in files ==> IsTarget(moves, m.to) || OverTarget(moves, m.to);
    forall q | q in files && Above(q, m.to)
      ensures files[q].Folder?
    {
      assert q in start && !IsSource(moves, q) ==> files[q] == start[q];
      assert q in start && !start[q].Folder? ==> IsSource(moves, q);
    }
  }

  lemma {:induction false} PassableCompletes(start: Files, moves: seq<Move>)
    requires Ready(start, moves) && TargetsApart(moves) && WaysOpen(start, moves)
    ensures Applied(start, moves).Some?
  {
    if moves != [] {
      var n := |moves| - 1;
      ReadyPrefix(start, moves, n);
      PassablePrefix(start, moves, n);
      PassableCompletes(start, moves[..n]);
      RunExplained(start, moves[..n]);
      Snoc(moves);
      NotBlocked(Applied(start, moves[..n]).value, start, moves[..n], moves[n]);
    }
  }

  lemma PassedOver(files: Files, start: Files, moves: seq<Move>, m: Move)
    requires Ready(start, moves + [m]) && Explained(files, start, moves) && !Blocked(files, m)
    ensures forall j | 0 <= j < |moves| :: !Above(m.to, moves[j].to) && !Above(moves[j].to, m.to)
    ensures forall q | q in start && Above(q, m.to) && !start[q].Folder? :: IsSource(moves, q)
  {
  }

  lemma {:induction false} CompletedPassable(start: Files, moves: seq<Move>)
    requires Ready(start, moves) && Applied(start, moves).Some?
    ensures TargetsApart(moves) && WaysOpen(start, moves)
  {
    if moves != [] {
      var n := |moves| - 1;
      ReadyPrefix(start, moves, n);
      CompletedPassable(start, moves[..n]);
      RunExplained(start, moves[..n]);
      Snoc(moves);
      NextMove(Applied(start, moves[..n]).value, start, moves[..n], moves[n]);
      PassedOver(Applied(start, moves[..n]).value, start, moves[..n], moves[n]);
      JoinPassable(start, moves, n);
    }
  }

  lemma JoinPassable(start: Files, moves: seq<Move>, n: nat)
    requires |moves| == n + 1 && TargetsApart(moves[..n]) && WaysOpen(start, moves[..n])
    requires forall j | 0 <= j < n :: !Above(moves[n].to, moves[..n][j].to) && !Above(moves[..n][j].to, moves[n].to)
    requires forall q | q in start && Above(q, moves[n].to) && !start[q].Folder? :: IsSource(moves[..n], q)
    ensures TargetsApart(moves) && WaysOpen(start, moves)
  {
    forall j, q | 0 <= j < |moves| && q in start && Above(q, moves[j].to) && !start[q].Folder?
      ensures IsSource(moves[..j], q)
    {
      if j < n {
        assert moves[..n][j] == moves[j] && moves[..n][..j] == moves[..j];
      }
    }
    forall i, j | 0 <= i < |moves| && 0 <= j < |moves|
      ensures !Above(moves[i].to, moves[j].to)
    {
      if i < n { assert moves[..n][i] == moves[i]; }
      if j < n { assert moves[..n][j] == moves[j]; }
    }
  }

  // A checked plan is carried out to the end exactly when no target lies below another target
  // and nothing but folders, or files that were moved away before, stands above a target.
  lemma CompletesIff(start: Files, moves: seq<Move>)
    requires Ready(start, moves)
    ensures Applied(start, moves).Some? <==> TargetsApart(moves) && WaysOpen(start, moves)
  {
    if Applied(start, moves).Some? {
      CompletedPassable(start, moves);
    } else if TargetsApart(moves) && WaysOpen(start, moves) {
      PassableCompletes(start, moves);
    }
  }

  // A completed migration: every planned file is at its target, every other asset is as it
  // was, and nothing else but folders above targets is new.
  lemma Completed(start: Files, moves: seq<Move>)
    requires Ready(start, moves) && Applied(start, moves).Some?
    ensures var files := Applied(start, moves).value;
      && (forall j | 0 <= j < |moves| :: moves[j].to in files && files[moves[j].to] == start[moves[j].from])
      && (forall q | q in start && !IsSource(moves, q) :: q in files && files[q] == start[q])
      && (forall q | q in files && (q !in start || IsSource(moves, q)) ::
            IsTarget(moves, q) || (files[q].Folder? && OverTarget(moves, q)))
  {
    RunExplained(start, moves);
  }

  // ---------------------------------------------------------------- stopping and starting again

  lemma {:induction false} AppliedPrefix(start: Files, moves: seq<Move>, k: nat)
    requires k <= |moves| && Applied(start, moves).Some?
    ensures Applied(start, moves[..k]).Some?
  {
    if k < |moves| {
      AppliedPrefix(start, moves[..|moves| - 1], k);
      assert moves[..|moves| - 1][..k] == moves[..k];
    } else {
      assert moves[..k] == moves;
    }
  }

  // How the files look at a point where a run may stop.
  lemma AtStop(start: Files, moves: seq<Move>, k: nat, levels: nat)
    requires Ready(start, moves) && Applied(start, moves).Some? && StopPoint(moves, k, levels)
    ensures Applied(start, moves[..k]).Some? && Explained(Applied(start, moves[..k]).value, start, moves[..k])
    ensures var done := Applied(start, moves[..k]).value;
      Stopped(start, moves, k, levels) == Some(if k < |moves| then Made(done, moves[k].to, levels) else done)
    ensures k < |moves| ==> var done := Applied(start, moves[..k]).value;
      && moves[k].from in done && !Blocked(done, moves[k]) && Applied(start, moves[..k + 1]) == Moved(done, moves[k])
  {
    AppliedPrefix(start, moves, k);
    ReadyPrefix(start, moves, k);
    RunExplained(start, moves[..k]);
    if k < |moves| {
      AppliedPrefix(start, moves, k + 1);
      ReadyPrefix(start, moves, k + 1);
      Snoc(moves[..k + 1]);
      assert moves[..k + 1][..k] == moves[..k];
      NextMove(Applied(start, moves[..k]).value, start, moves[..k], moves[k]);
      if levels == 0 { MadeNone(Applied(start, moves[..k]).value, moves[k].to); }
    }
  }

  lemma StopStands(start: Files, moves: seq<Move>, k: nat, levels: nat)
    requires Ready(start, moves) && Applied(start, moves).Some? && StopPoint(moves, k, levels)
    ensures Stopped(start, moves, k, levels).Some?
  {
    AtStop(start, moves, k, levels);
  }

  lemma StepAt(start: Files, moves: seq<Move>, k: nat, levels: nat)
    requires Ready(start, moves) && Applied(start, moves).Some? && StopPoint(moves, k, levels) && k < |moves|
    ensures Applied(start, moves[..k]).Some?
    ensures var done := Applied(start, moves[..k]).value;
      && Stopped(start, moves, k, levels) == Some(Made(done, moves[k].to, levels))
      && moves[k].from in done && !Blocked(done, moves[k]) && Applied(start, moves[..k + 1]) == Moved(done, moves[k])
  {
    AtStop(start, moves, k, levels);
  }

  lemma MadeNone(files: Files, path: Path)
    ensures Made(files, path, 0) == files
  {
  }

  lemma MadeTwice(files: Files, path: Path, a: nat, b: nat)
    requires a <= |path| && b <= |path|
    ensures Made(Made(files, path, a), path, b) == Made(files, path, if a < b then b else a)
  {
    assert forall q :: q in Lineage(path, if a < b then b else a) <==> q in Lineage(path, a) || q in Lineage(path, b);
  }

  lemma StoppedAt(start: Files, moves: seq<Move>, k: nat, levels: nat, q: Path)
    requires Ready(start, moves) && Applied(start, moves).Some? && StopPoint(moves, k, levels)
    requires Stopped(start, moves, k, levels).Some?
    ensures var done, files := Applied(start, moves[..k]), Stopped(start, moves, k, levels).value;
      && done.Some? && Explained(done.value, start, moves[..k])
      && (if q in done.value then q in files && files[q] == done.value[q]
          else q in files ==> k < |moves| && Above(q, moves[k].to) && files[q].Folder?)
  {
    AtStop(start, moves, k, levels);
  }

  // A move already made finds its source gone; a move still to be made finds everything as
  // planned.
  lemma FineAt(start: Files, moves: seq<Move>, k: nat, levels: nat, j: nat)
    requires Ready(start, moves) && Applied(start, moves).Some? && StopPoint(moves, k, levels)
    requires SourcesApart(moves) && j < |moves|
    ensures Stopped(start, moves, k, levels).Some?
    ensures var files := Stopped(start, moves, k, levels).value;
      Fine(files, moves[j]) && (moves[j].from in files <==> k <= j)
  {
    AtStop(start, moves, k, levels);
    CompletedPassable(start, moves);
    var m := moves[j];
    StoppedAt(start, moves, k, levels, m.from);
    StoppedAt(start, moves, k, levels, m.to);
    if j < k {
      assert moves[..k][j] == m;
      assert IsSource(moves[..k], m.from);
      NotOverOrAt(start, moves, k, m.from);
    } else {
      NotYet(start, moves, k, j);
    }
  }

  lemma NotOverOrAt(start: Files, moves: seq<Move>, k: nat, q: Path)
    requires Ready(start, moves) && k <= |moves| && SourcesApart(moves) && IsSource(moves, q)
    ensures !IsTarget(moves[..k], q) && !OverTarget(moves[..k], q)
  {
  }

  lemma NotYet(start: Files, moves: seq<Move>, k: nat, j: nat)
    requires Ready(start, moves) && TargetsApart(moves) && k <= j < |moves|
    ensures !IsSource(moves[..k], moves[j].from) && !IsTarget(moves[..k], moves[j].to)
    ensures !OverTarget(moves[..k], moves[j].to)
  {
  }

  // The check of a rerun passes.
  lemma StoppedSafe(start: Files, moves: seq<Move>, k: nat, levels: nat)
    requires Ready(start, moves) && Applied(start, moves).Some? && StopPoint(moves, k, levels) && SourcesApart(moves)
    ensures Stopped(start, moves, k, levels).Some? && Safe(Stopped(start, moves, k, levels).value, moves)
  {
    AtStop(start, moves, k, levels);
    forall j | 0 <= j < |moves|
      ensures Fine(Stopped(start, moves, k, levels).value, moves[j])
    {
      FineAt(start, moves, k, levels, j);
    }
  }

  // A rerun skips what was done ...
  lemma {:induction false} Skipped(files: Files, moves: seq<Move>)
    requires forall i | 0 <= i < |moves| :: moves[i].from !in files
    ensures Applied(files, moves) == Some(files)
  {
    if moves != [] { Skipped(files, moves[..|moves| - 1]); }
  }

  lemma RerunSkips(start: Files, moves: seq<Move>, k: nat, levels: nat, j: nat)
    requires Ready(start, moves) && Applied(start, moves).Some? && StopPoint(moves, k, levels) && SourcesApart(moves)
    requires j <= k
    ensures Stopped(start, moves, k, levels).Some?
    ensures Applied(Stopped(start, moves, k, levels).value, moves[..j]) == Stopped(start, moves, k, levels)
  {
    StopStands(start, moves, k, levels);
    forall i | 0 <= i < j
      ensures moves[..j][i].from !in Stopped(start, moves, k, levels).value
    {
      FineAt(start, moves, k, levels, i);
    }
    Skipped(Stopped(start, moves, k, levels).value, moves[..j]);
  }

  // ... does the interrupted move ...
  lemma SameMove(done: Files, m: Move, levels: nat)
    requires levels <= Parents(m) && m.from in done && !Blocked(done, m) && m.to !in done && !Above(m.from, m.to)
    ensures m.from in Made(done, m.to, levels) && !Blocked(Made(done, m.to, levels), m)
    ensures Moved(Made(done, m.to, levels), m) == Moved(done, m)
  {
    var made := Made(done, m.to, levels);
    forall q | q in made && Above(q, m.to)
      ensures made[q].Folder?
    {
    }
    MadeTwice(done, m.to, levels, Parents(m));
  }

  lemma FreeWhenOpen(files: Files, start: Files, moves: seq<Move>, k: nat)
    requires Ready(start, moves) && k < |moves| && !Blocked(files, moves[k])
    requires Kept(files, start, moves[..k]) && NothingElse(files, start, moves[..k])
    ensures moves[k].to !in files && !Above(moves[k].from, moves[k].to)
  {
    assert moves[..k + 1] == moves[..k] + [moves[k]];
    NextMove(files, start, moves[..k], moves[k]);
  }

  lemma TargetFree(start: Files, moves: seq<Move>, k: nat)
    requires Ready(start, moves) && Applied(start, moves).Some? && k < |moves|
    ensures Applied(start, moves[..k]).Some?
    ensures moves[k].to !in Applied(start, moves[..k]).value && !Above(moves[k].from, moves[k].to)
  {
    AtStop(start, moves, k, 0);
    FreeWhenOpen(Applied(start, moves[..k]).value, start, moves, k);
  }

  lemma RerunStep(start: Files, moves: seq<Move>, k: nat, levels: nat)
    requires Ready(start, moves) && Applied(start, moves).Some? && StopPoint(moves, k, levels) && SourcesApart(moves)
    requires k < |moves|
    ensures Stopped(start, moves, k, levels).Some?
    ensures Applied(Stopped(start, moves, k, levels).value, moves[..k + 1]) == Applied(start, moves[..k + 1])
  {
    StepAt(start, moves, k, levels);
    RerunSkips(start, moves, k, levels, k);
    TargetFree(start, moves, k);
    SameMove(Applied(start, moves[..k]).value, moves[k], levels);
    assert moves[..k + 1][..k] == moves[..k] && moves[..k + 1][k] == moves[k];
  }

  // ... and goes on as the uninterrupted run did.
  lemma {:induction false} SameFromThere(a: Files, b: Files, moves: seq<Move>, k: nat, j: nat)
    requires k <= j <= |moves| && Applied(a, moves[..k]) == Applied(b, moves[..k])
    ensures Applied(a, moves[..j]) == Applied(b, moves[..j])
  {
    if k < j {
      SameFromThere(a, b, moves, k, j - 1);
      assert moves[..j][..j - 1] == moves[..j - 1];
    }
  }

  lemma RerunJoins(start: Files, moves: seq<Move>, k: nat, levels: nat, j: nat)
    requires Ready(start, moves) && Applied(start, moves).Some? && StopPoint(moves, k, levels) && SourcesApart(moves)
    requires k < j <= |moves|
    ensures Stopped(start, moves, k, levels).Some?
    ensures Applied(Stopped(start, moves, k, levels).value, moves[..j]) == Applied(start, moves[..j])
  {
    RerunStep(start, moves, k, levels);
    SameFromThere(Stopped(start, moves, k, levels).value, start, moves, k + 1, j);
  }

  // A rerun after a stop at any point ends with the same files as a run that never stopped.
  lemma RerunCompletes(start: Files, moves: seq<Move>, k: nat, levels: nat)
    requires Ready(start, moves) && Applied(start, moves).Some? && StopPoint(moves, k, levels) && SourcesApart(moves)
    ensures Stopped(start, moves, k, levels).Some? && Safe(Stopped(start, moves, k, levels).value, moves)
    ensures Applied(Stopped(start, moves, k, levels).value, moves) == Applied(start, moves)
  {
    StoppedSafe(start, moves, k, levels);
    assert moves[..|moves|] == moves;
    if k < |moves| {
      RerunJoins(start, moves, k, levels, |moves|);
    } else {
      RerunSkips(start, moves, k, levels, |moves|);
    }
  }

  // A source above a target: once both were moved, a folder stands where the source was, and
  // every rerun refuses the plan.
  lemma SourceAboveTargetStrands(start: Files, moves: seq<Move>, i: nat, j: nat)
    requires Ready(start, moves) && Applied(start, moves).Some? && i < |moves| && j < |moves|
    requires Above(moves[i].from, moves[j].to)
    ensures !Safe(Applied(start, moves).value, moves)
  {
    RunExplained(start, moves);
    BothThere(Applied(start, moves).value, moves, i, j);
  }

  lemma BothThere(files: Files, moves: seq<Move>, i: nat, j: nat)
    requires Housed(files, moves) && Placed(files, moves)
    requires i < |moves| && j < |moves| && Above(moves[i].from, moves[j].to)
    ensures !Safe(files, moves)
  {
    assert !Fine(files, moves[i]);
  }

  ghost predicate EveryStopResumes(start: Files, moves: seq<Move>) {
    forall k: nat, levels: nat | StopPoint(moves, k, levels) ::
      var stopped := Stopped(start, moves, k, levels);
      stopped.Some? && Safe(stopped.value, moves) && Applied(stopped.value, moves) == Applied(start, moves)
  }

  // Stopping at any point is harmless exactly when no source stands above a target.
  lemma ResumesIff(start: Files, moves: seq<Move>)
    requires Ready(start, moves) && Applied(start, moves).Some?
    ensures EveryStopResumes(start, moves) <==> SourcesApart(moves)
  {
    if SourcesApart(moves) {
      forall k: nat, levels: nat | StopPoint(moves, k, levels)
        ensures Stopped(start, moves, k, levels).Some? && Safe(Stopped(start, moves, k, levels).value, moves)
        ensures Applied(Stopped(start, moves, k, levels).value, moves) == Applied(start, moves)
      {
        RerunCompletes(start, moves, k, levels);
      }
    } else {
      var i, j :| 0 <= i < |moves| && 0 <= j < |moves| && Above(moves[i].from, moves[j].to);
      SourceAboveTargetStrands(start, moves, i, j);
      assert moves[..|moves|] == moves;
      assert StopPoint(moves, |moves|, 0);
      assert Stopped(start, moves, |moves|, 0) == Applied(start, moves);
    }
  }

  // Where a rerun that is stopped again stands is a point the first run could have reached.
  lemma StopsCompose(start: Files, moves: seq<Move>, k: nat, levels: nat, k': nat, levels': nat)
    returns (at: nat, depth: nat)
    requires Ready(start, moves) && Applied(start, moves).Some? && SourcesApart(moves)
    requires StopPoint(moves, k, levels) && StopPoint(moves, k', levels') && Stopped(start, moves, k, levels).Some?
    ensures StopPoint(moves, at, depth)
    ensures Stopped(Stopped(start, moves, k, levels).value, moves, k', levels') == Stopped(start, moves, at, depth)
  {
    var files := Stopped(start, moves, k, levels).value;
    AtStop(start, moves, k, levels);
    if k' <= k {
      RerunSkips(start, moves, k, levels, k');
      if k' < |moves| { FineAt(start, moves, k, levels, k'); }
      if k' == k < |moves| {
        at, depth := k, if levels < levels' then levels' else levels;
        AtStop(start, moves, k, depth);
        AgainHere(start, moves, k, levels, levels');
      } else {
        at, depth := k, levels;
      }
    } else {
      RerunJoins(start, moves, k, levels, k');
      at, depth := k', levels';
    }
  }

  lemma AgainHere(start: Files, moves: seq<Move>, k: nat, levels: nat, levels': nat)
    requires Ready(start, moves) && Applied(start, moves).Some? && SourcesApart(moves)
    requires k < |moves| && StopPoint(moves, k, levels) && StopPoint(moves, k, levels')
    requires Stopped(start, moves, k, levels).Some?
    ensures var depth := if levels < levels' then levels' else levels;
      Stopped(Stopped(start, moves, k, levels).value, moves, k, levels') == Stopped(start, moves, k, depth)
  {
    var done, depth := Applied(start, moves[..k]), if levels < levels' then levels' else levels;
    AtStop(start, moves, k, levels);
    AtStop(start, moves, k, depth);
    RerunSkips(start, moves, k, levels, k);
    TargetFree(start, moves, k);
    SameMove(done.value, moves[k], levels);
    MadeTwice(done.value, moves[k].to, levels, levels');
    MadeNone(Made(done.value, moves[k].to, levels), moves[k].to);
  }

  // The files after runs that were each stopped.
  function AfterStops(start: Files, moves: seq<Move>, stops: seq<(nat, nat)>): Option<Files>
    requires forall s | s in stops :: StopPoint(moves, s.0, s.1)
  {
    if stops == [] then Some(start)
    else
      var n := |stops| - 1;
      var before := AfterStops(start, moves, stops[..n]);
      if before.None? then None
      else
        assert stops[n] in stops && StopPoint(moves, stops[n].0, stops[n].1);
        Stopped(before.value, moves, stops[n].0, stops[n].1)
  }

  lemma {:induction false} StopsReach(start: Files, moves: seq<Move>, stops: seq<(nat, nat)>)
    returns (at: nat, depth: nat)
    requires Ready(start, moves) && Applied(start, moves).Some? && SourcesApart(moves)
    requires forall s | s in stops :: StopPoint(moves, s.0, s.1)
    ensures StopPoint(moves, at, depth) && Stopped(start, moves, at, depth).Some?
    ensures AfterStops(start, moves, stops) == Stopped(start, moves, at, depth)
  {
    if stops == [] {
      at, depth := 0, 0;
      assert moves[..0] == [];
    } else {
      var n := |stops| - 1;
      var k, levels := StopsReach(start, moves, stops[..n]);
      assert stops[n] in stops;
      at, depth := StopsCompose(start, moves, k, levels, stops[n].0, stops[n].1);
      AtStop(start, moves, at, depth);
    }
  }

  // However often the migration is stopped and started again, the last run ends as one
  // uninterrupted run would have.
  lemma CrashesDoNotMatter(start: Files, moves: seq<Move>, stops: seq<(nat, nat)>)
    requires Ready(start, moves) && Applied(start, moves).Some? && SourcesApart(moves)
    requires forall s | s in stops :: StopPoint(moves, s.0, s.1)
    ensures var files := AfterStops(start, moves, stops);
      files.Some? && Safe(files.value, moves) && Applied(files.value, moves) == Applied(start, moves)
  {
    var at, depth := StopsReach(start, moves, stops);
    RerunCompletes(start, moves, at, depth);
  }

  // No file is replaced: when a move is about to be made, nothing is at its target; and no
  // content is lost, whether the moves before it were the last ones or not.
  lemma NothingOverwritten(start: Files, moves: seq<Move>, k: nat)
    requires Ready(start, moves) && k < |moves| && Applied(start, moves[..k]).Some?
    ensures var files := Applied(start, moves[..k]).value;
      && (!Blocked(files, moves[k]) ==> moves[k].to !in files)
      && (forall j | 0 <= j < |moves| :: var at := if j < k then moves[j].to else moves[j].from;
            at in files && files[at] == start[moves[j].from])
  {
    var files := Applied(start, moves[..k]).value;
    ReadyPrefix(start, moves, k);
    RunExplained(start, moves[..k]);
    ReadyPrefix(start, moves, k + 1);
    assert moves[..k + 1] == moves[..k] + [moves[k]];
    NextMove(files, start, moves[..k], moves[k]);
    forall j | 0 <= j < |moves|
      ensures var at := if j < k then moves[j].to else moves[j].from; at in files && files[at] == start[moves[j].from]
    {
      if j < k {
        assert moves[..k][j] == moves[j];
      } else {
        assert !IsSource(moves[..k], moves[j].from);
      }
    }
  }

  // ---------------------------------------------------------------- the whole operation

  datatype Manifest = Manifest(moves: seq<Move>, complete: bool)

  datatype Book = Book(files: Files, manifest: Option<Manifest>)

  datatype Error = Refused | Failed

  // Where a run stops: before anything was written, among the moves, before the index of the
  // reference library, or not at all.
  datatype Stop = AtOnce | Among(k: nat, levels: nat) | BeforeIndex | Never

  const INDEX: Path := ["ReferenceLibrary", "README.md"]

  function Indexed(files: Files, text: string): Files {
    if INDEX in files then files else Made(files, INDEX, 1)[INDEX := File(text)]
  }

  function Planned(book: Book, found: seq<Move>): seq<Move> {
    if book.manifest.Some? then book.manifest.value.moves else found
  }

  predicate Finished(book: Book) {
    book.manifest.Some? && book.manifest.value.complete
  }

  predicate StopIn(moves: seq<Move>, stop: Stop) {
    stop.Among? ==> StopPoint(moves, stop.k, stop.levels)
  }

  // How far the moves got.
  function Farthest(files: Files, moves: seq<Move>): Files {
    if moves == [] then files
    else
      var before := moves[..|moves| - 1];
      if Applied(files, before).None? then Farthest(files, before)
      else
        var done := Applied(files, before).value;
        var next := Moved(done, moves[|moves| - 1]);
        if next.None? then done else next.value
  }

  // One call with `apply`, whose plan is what was found in the legacy folders unless a
  // manifest was written before.
  function Organized(book: Book, found: seq<Move>, text: string, stop: Stop): (r: (Book, Option<Error>))
    requires StopIn(Planned(book, found), stop)
  {
    var moves := Planned(book, found);
    if Finished(book) then (book, None)
    else if !Safe(book.files, moves) then (book, Some(Refused))
    else if stop == AtOnce then (book, None)
    else
      var planned := Some(Manifest(moves, false));
      var all := Applied(book.files, moves);
      if stop.Among? && Stopped(book.files, moves, stop.k, stop.levels).Some? then
        (Book(Stopped(book.files, moves, stop.k, stop.levels).value, planned), None)
      else if all.None? then (Book(Farthest(book.files, moves), planned), Some(Failed))
      else if stop.BeforeIndex? then (Book(all.value, Some(Manifest(moves, true))), None)
      else (Book(Indexed(all.value, text), Some(Manifest(moves, true))), None)
  }

  // A refused call changes nothing.
  lemma RefusedChangesNothing(book: Book, found: seq<Move>, text: string, stop: Stop)
    requires StopIn(Planned(book, found), stop)
    ensures Organized(book, found, text, stop).1 == Some(Refused) <==>
      !Finished(book) && !Safe(book.files, Planned(book, found))
    ensures Organized(book, found, text, stop).1 == Some(Refused) ==> Organized(book, found, text, stop).0 == book
  {
  }

  // What a finished migration leaves: the files and the manifest.
  function Outcome(start: Files, moves: seq<Move>, text: string): Book
    requires Applied(start, moves).Some?
  {
    Book(Indexed(Applied(start, moves).value, text), Some(Manifest(moves, true)))
  }

  // From a stop at any point before the manifest was marked complete, the next call ends with
  // the same files and manifest as a first call that was not stopped, whatever the next call
  // would have planned itself.
  lemma ResumedIsUninterrupted(files: Files, moves: seq<Move>, text: string, stop: Stop, found: seq<Move>)
    requires Ready(files, moves) && Applied(files, moves).Some? && SourcesApart(moves)
    requires stop.Among? && StopPoint(moves, stop.k, stop.levels)
    ensures Organized(Book(files, None), moves, text, Never) == (Outcome(files, moves, text), None)
    ensures var stopped := Organized(Book(files, None), moves, text, stop).0;
      stopped.manifest == Some(Manifest(moves, false))
        && Organized(stopped, found, text, Never) == (Outcome(files, moves, text), None)
  {
    ReadySafe(files, moves);
    RerunCompletes(files, moves, stop.k, stop.levels);
  }

  // But a stop between the completed manifest and the index is final: no later call writes
  // the index of the reference library.
  lemma IndexNeverWritten(files: Files, moves: seq<Move>, text: string, found: seq<Move>)
    requires Ready(files, moves) && Applied(files, moves).Some? && INDEX !in Applied(files, moves).value
    ensures var stopped := Organized(Book(files, None), moves, text, BeforeIndex).0;
      && Organized(stopped, found, text, Never) == (stopped, None)
      && INDEX !in stopped.files && INDEX in Outcome(files, moves, text).files
  {
    ReadySafe(files, moves);
  }
}
