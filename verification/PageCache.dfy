// Frozen histories read page by page: lg_cli/backend_history.py, `SnapshotPages`. Keys are
// fresh for every freeze; the ordered dictionary is a sequence, oldest use first. `uses` logs
// the key of every insertion and of every page served.
module PageCache {
  import opened Prelude

  type Key = nat

  type Data = seq<nat>

  datatype Snapshot = Snapshot(session: string, cursor: nat, data: Data)

  datatype Entry = Entry(key: Key, snapshot: Snapshot, expires: int)

  datatype Error = Expired | OtherSession | NoSuchPage

  datatype Page = Page(key: Key, index: nat, pages: nat, cursor: nat, data: Data, next: Option<nat>)

  datatype Cache = Cache(entries: seq<Entry>, uses: seq<Key>)

  const PAGE_BYTES := 256 * 1024
  const CACHE_LIMIT := 4
  const TTL_SECONDS := 180

  function Pages(data: Data): nat {
    (|data| + PAGE_BYTES - 1) / PAGE_BYTES
  }

  function Chunk(data: Data, index: nat): Data {
    var from, to := index * PAGE_BYTES, (index + 1) * PAGE_BYTES;
    data[if from < |data| then from else |data|..if to < |data| then to else |data|]
  }

  function PageFor(key: Key, snapshot: Snapshot, index: nat): Page {
    var pages := Pages(snapshot.data);
    Page(key, index, pages, snapshot.cursor, Chunk(snapshot.data, index), if index + 1 < pages then Some(index + 1)
      else None)
  }

  // ---------------------------------------------------------------- the operations

  function Unexpired(entries: seq<Entry>, now: int): seq<Entry> {
    if entries == [] then []
    else
      var last := entries[|entries| - 1];
      Unexpired(entries[..|entries| - 1], now) + if last.expires <= now then [] else [last]
  }

  function Trimmed(entries: seq<Entry>): seq<Entry> {
    if |entries| >= CACHE_LIMIT then entries[|entries| - (CACHE_LIMIT - 1)..] else entries
  }

  function Find(entries: seq<Entry>, key: Key): (at: Option<nat>)
    ensures at.Some? ==> at.value < |entries| && entries[at.value].key == key
    ensures at.None? ==> forall i | 0 <= i < |entries| :: entries[i].key != key
  {
    if entries == [] then None
    else if entries[|entries| - 1].key == key then Some(|entries| - 1)
    else Find(entries[..|entries| - 1], key)
  }

  function Without(entries: seq<Entry>, i: nat): seq<Entry>
    requires i < |entries|
  {
    entries[..i] + entries[i + 1..]
  }

  function Served(c: Cache, session: string, key: Key, index: int, now: int): (r: (Cache, Result<Page, Error>)) {
    match Find(c.entries, key)
    case None => (c, Err(Expired))
    case Some(i) =>
      var e := c.entries[i];
      if e.expires <= now then (c.(entries := Without(c.entries, i)), Err(Expired))
      else if e.snapshot.session != session then (c, Err(OtherSession))
      else if !(0 <= index < Pages(e.snapshot.data)) then (c, Err(NoSuchPage))
      else (Cache(Without(c.entries, i) + [e], c.uses + [key]), Ok(PageFor(key, e.snapshot, index)))
  }

  function Inserted(c: Cache, key: Key, snapshot: Snapshot, now: int): Cache {
    Cache(Trimmed(Unexpired(c.entries, now)) + [Entry(key, snapshot, now + TTL_SECONDS)], c.uses + [key])
  }

  // The clock is read once for the insertion and again for the first page.
  function Frozen(c: Cache, key: Key, snapshot: Snapshot, now: int, later: int): (r: (Cache, Result<Page, Error>)) {
    Served(Inserted(c, key, snapshot, now), snapshot.session, key, 0, later)
  }

  // ---------------------------------------------------------------- the order of use

  // One more than the position of the last use; zero when there was none.
  function LastUse(uses: seq<Key>, key: Key): (n: nat)
    ensures n <= |uses| && (n > 0 <==> key in uses) && (n > 0 ==> uses[n - 1] == key)
  {
    if uses == [] then 0
    else if uses[|uses| - 1] == key then |uses|
    else
      assert uses == uses[..|uses| - 1] + [uses[|uses| - 1]];
      LastUse(uses[..|uses| - 1], key)
  }

  predicate InOrder(entries: seq<Entry>, uses: seq<Key>) {
    && (forall i | 0 <= i < |entries| :: entries[i].key in uses)
    && (forall i, j | 0 <= i < j < |entries| :: LastUse(uses, entries[i].key) < LastUse(uses, entries[j].key))
  }

  predicate Good(c: Cache) {
    |c.entries| <= CACHE_LIMIT && InOrder(c.entries, c.uses)
  }

  lemma UsedLast(uses: seq<Key>, key: Key, other: Key)
    ensures LastUse(uses + [key], key) == |uses| + 1
    ensures other != key ==> LastUse(uses + [key], other) == LastUse(uses, other)
  {
    assert (uses + [key])[..|uses|] == uses;
  }

  // An entry used now goes behind the others.
  lemma PutLast(entries: seq<Entry>, uses: seq<Key>, e: Entry)
    requires InOrder(entries, uses) && forall i | 0 <= i < |entries| :: entries[i].key != e.key
    ensures InOrder(entries + [e], uses + [e.key])
  {
    forall i | 0 <= i < |entries| + 1
      ensures (entries + [e])[i].key in uses + [e.key]
      ensures LastUse(uses + [e.key], (entries + [e])[i].key) ==
        if i < |entries| then LastUse(uses, entries[i].key) else |uses| + 1
    {
      UsedLast(uses, e.key, (entries + [e])[i].key);
    }
  }

  lemma Apart(entries: seq<Entry>, uses: seq<Key>)
    requires InOrder(entries, uses)
    ensures forall i, j | 0 <= i < j < |entries| :: entries[i].key != entries[j].key
  {
  }

  lemma WithoutInOrder(entries: seq<Entry>, uses: seq<Key>, i: nat)
    requires InOrder(entries, uses) && i < |entries|
    ensures InOrder(Without(entries, i), uses)
    ensures forall j | 0 <= j < |Without(entries, i)| :: Without(entries, i)[j].key != entries[i].key
  {
    var rest := Without(entries, i);
    assert forall j | 0 <= j < |rest| :: rest[j] == entries[if j < i then j else j + 1];
  }

  lemma {:induction false} UnexpiredAre(entries: seq<Entry>, now: int)
    ensures |Unexpired(entries, now)| <= |entries|
    ensures forall e :: e in Unexpired(entries, now) <==> e in entries && e.expires > now
  {
    if entries != [] {
      UnexpiredAre(entries[..|entries| - 1], now);
      assert entries == entries[..|entries| - 1] + [entries[|entries| - 1]];
    }
  }

  lemma OneBehind(entries: seq<Entry>, uses: seq<Key>, e: Entry)
    requires InOrder(entries, uses) && e.key in uses
    requires forall x | x in entries :: LastUse(uses, x.key) < LastUse(uses, e.key)
    ensures InOrder(entries + [e], uses)
  {
  }

  lemma {:induction false} UnexpiredOrdered(entries: seq<Entry>, uses: seq<Key>, now: int)
    requires InOrder(entries, uses)
    ensures InOrder(Unexpired(entries, now), uses)
  {
    if entries != [] {
      var n := |entries| - 1;
      UnexpiredOrdered(entries[..n], uses, now);
      UnexpiredAre(entries[..n], now);
      forall x | x in entries[..n]
        ensures LastUse(uses, x.key) < LastUse(uses, entries[n].key)
      {
        var k :| 0 <= k < n && entries[k] == x;
      }
      OneBehind(Unexpired(entries[..n], now), uses, entries[n]);
    }
  }

  lemma UnexpiredInOrder(entries: seq<Entry>, uses: seq<Key>, now: int)
    requires InOrder(entries, uses)
    ensures InOrder(Unexpired(entries, now), uses) && |Unexpired(entries, now)| <= |entries|
    ensures forall e :: e in Unexpired(entries, now) <==> e in entries && e.expires > now
  {
    UnexpiredOrdered(entries, uses, now);
    UnexpiredAre(entries, now);
  }

  lemma ServedGood(c: Cache, session: string, key: Key, index: int, now: int)
    requires Good(c)
    ensures Good(Served(c, session, key, index, now).0)
    ensures c.uses <= Served(c, session, key, index, now).0.uses
  {
    match Find(c.entries, key)
    case None =>
    case Some(i) =>
      WithoutInOrder(c.entries, c.uses, i);
      PutLast(Without(c.entries, i), c.uses, c.entries[i]);
  }

  lemma InsertedGood(c: Cache, key: Key, snapshot: Snapshot, now: int)
    requires Good(c) && key !in c.uses
    ensures Good(Inserted(c, key, snapshot, now))
  {
    UnexpiredInOrder(c.entries, c.uses, now);
    var kept := Trimmed(Unexpired(c.entries, now));
    PutLast(kept, c.uses, Entry(key, snapshot, now + TTL_SECONDS));
  }

  // ---------------------------------------------------------------- runs

  datatype Step =
    | Freeze(key: Key, snapshot: Snapshot, now: int, later: int)
    | Read(session: string, key: Key, index: int, now: int)
    | Clear

  function After(c: Cache, step: Step): Cache {
    match step
    case Freeze(key, snapshot, now, later) => Frozen(c, key, snapshot, now, later).0
    case Read(session, key, index, now) => Served(c, session, key, index, now).0
    case Clear => c.(entries := [])
  }

  function End(steps: seq<Step>): Cache {
    if steps == [] then Cache([], []) else After(End(steps[..|steps| - 1]), steps[|steps| - 1])
  }

  // Every freeze draws a new key.
  predicate FreshKeys(steps: seq<Step>) {
    forall i, j | 0 <= i < j < |steps| && steps[i].Freeze? && steps[j].Freeze? :: steps[i].key != steps[j].key
  }

  predicate Froze(steps: seq<Step>, key: Key) {
    exists i | 0 <= i < |steps| :: steps[i].Freeze? && steps[i].key == key
  }

  // What a key stands for: the snapshot it was drawn for.
  ghost predicate Means(steps: seq<Step>, key: Key, snapshot: Snapshot) {
    exists i | 0 <= i < |steps| :: steps[i].Freeze? && steps[i].key == key && steps[i].snapshot == snapshot
  }

  ghost predicate Faithful(c: Cache, steps: seq<Step>) {
    && (forall e | e in c.entries :: Means(steps, e.key, e.snapshot))
    && (forall key | key in c.uses :: Froze(steps, key))
  }

  lemma MeansLater(steps: seq<Step>, step: Step, key: Key, snapshot: Snapshot)
    ensures Means(steps, key, snapshot) ==> Means(steps + [step], key, snapshot)
    ensures Froze(steps, key) ==> Froze(steps + [step], key)
    ensures step.Freeze? ==> Means(steps + [step], step.key, step.snapshot) && Froze(steps + [step], step.key)
  {
    var all := steps + [step];
    assert all[|steps|] == step;
    if Means(steps, key, snapshot) {
      var i :| 0 <= i < |steps| && steps[i].Freeze? && steps[i].key == key && steps[i].snapshot == snapshot;
      assert all[i] == steps[i];
    }
    if Froze(steps, key) {
      var i :| 0 <= i < |steps| && steps[i].Freeze? && steps[i].key == key;
      assert all[i] == steps[i];
    }
  }

  lemma FaithfulLater(c: Cache, steps: seq<Step>, step: Step)
    requires Faithful(c, steps)
    ensures Faithful(c, steps + [step])
  {
    forall e | e in c.entries
      ensures Means(steps + [step], e.key, e.snapshot)
    {
      MeansLater(steps, step, e.key, e.snapshot);
    }
    forall key | key in c.uses
      ensures Froze(steps + [step], key)
    {
      assert Froze(steps, key);
      var i :| 0 <= i < |steps| && steps[i].Freeze? && steps[i].key == key;
      MeansLater(steps, step, key, steps[i].snapshot);
    }
  }

  lemma ServedFaithful(c: Cache, session: string, key: Key, index: int, now: int, steps: seq<Step>)
    requires Faithful(c, steps)
    ensures Faithful(Served(c, session, key, index, now).0, steps)
  {
    var at := Find(c.entries, key);
    if at.Some? {
      assert c.entries[at.value] in c.entries && Means(steps, key, c.entries[at.value].snapshot);
      assert Froze(steps, key);
    }
  }

  lemma InsertedFaithful(c: Cache, key: Key, snapshot: Snapshot, now: int, later: int, steps: seq<Step>)
    requires Good(c) && Faithful(c, steps)
    ensures Faithful(Inserted(c, key, snapshot, now), steps + [Freeze(key, snapshot, now, later)])
  {
    var step := Freeze(key, snapshot, now, later);
    FaithfulLater(c, steps, step);
    MeansLater(steps, step, key, snapshot);
    UnexpiredInOrder(c.entries, c.uses, now);
  }

  lemma {:induction false} RunGood(steps: seq<Step>)
    requires FreshKeys(steps)
    ensures Good(End(steps)) && Faithful(End(steps), steps)
  {
    if steps != [] {
      var n := |steps| - 1;
      var c, step := End(steps[..n]), steps[n];
      RunGood(steps[..n]);
      assert steps == steps[..n] + [step];
      match step
      case Freeze(key, snapshot, now, later) =>
        NewKey(steps, c.uses, n);
        InsertedGood(c, key, snapshot, now);
        InsertedFaithful(c, key, snapshot, now, later, steps[..n]);
        ServedGood(Inserted(c, key, snapshot, now), snapshot.session, key, 0, later);
        ServedFaithful(Inserted(c, key, snapshot, now), snapshot.session, key, 0, later, steps);
      case Read(session, key, index, now) =>
        FaithfulLater(c, steps[..n], step);
        ServedGood(c, session, key, index, now);
        ServedFaithful(c, session, key, index, now, steps);
      case Clear =>
        FaithfulLater(c, steps[..n], step);
    }
  }

  lemma NewKey(steps: seq<Step>, uses: seq<Key>, n: nat)
    requires FreshKeys(steps) && n < |steps| && steps[n].Freeze? && forall key | key in uses :: Froze(steps[..n], key)
    ensures steps[n].key !in uses
  {
    forall i | 0 <= i < n && steps[i].Freeze?
      ensures steps[..n][i].key != steps[n].key
    {
    }
  }

  // ---------------------------------------------------------------- what is promised

  // At most four snapshots are ever held.
  lemma AtMostFour(steps: seq<Step>)
    requires FreshKeys(steps)
    ensures |End(steps).entries| <= CACHE_LIMIT
  {
    RunGood(steps);
  }

  lemma {:induction false} MeansOne(steps: seq<Step>, key: Key, a: Snapshot, b: Snapshot)
    requires FreshKeys(steps) && Means(steps, key, a) && Means(steps, key, b)
    ensures a == b
  {
    var i :| 0 <= i < |steps| && steps[i].Freeze? && steps[i].key == key && steps[i].snapshot == a;
    var j :| 0 <= j < |steps| && steps[j].Freeze? && steps[j].key == key && steps[j].snapshot == b;
    assert i == j;
  }

  // Whatever happened in between, a page served shows its piece of the data that were frozen
  // under its key; there is one such snapshot.
  lemma ServedIsFrozen(steps: seq<Step>, session: string, key: Key, index: int, now: int)
    returns (snapshot: Snapshot)
    requires FreshKeys(steps) && Served(End(steps), session, key, index, now).1.Ok?
    ensures Means(steps, key, snapshot) && forall other | Means(steps, key, other) :: other == snapshot
    ensures snapshot.session == session
    ensures Served(End(steps), session, key, index, now).1.value == PageFor(key, snapshot, index)
  {
    RunGood(steps);
    var c := End(steps);
    var e := c.entries[Find(c.entries, key).value];
    snapshot := e.snapshot;
    assert e in c.entries && Means(steps, key, e.snapshot);
    forall other | Means(steps, key, other)
      ensures other == snapshot
    {
      MeansOne(steps, key, other, snapshot);
    }
  }

  // A snapshot that has not expired is dropped only by a freeze, and only after three other
  // snapshots were used since it was.
  lemma EvictedLate(steps: seq<Step>, step: Step, e: Entry) returns (others: set<Key>)
    requires FreshKeys(steps + [step]) && e in End(steps).entries && !step.Clear? && e.expires > step.now
    requires forall x | x in After(End(steps), step).entries :: x.key != e.key
    requires step.Freeze? ==> step.later < step.now + TTL_SECONDS
    ensures step.Freeze? && |others| == 3
    ensures forall key | key in others :: LastUse(End(steps).uses, key) > LastUse(End(steps).uses, e.key)
  {
    var all := steps + [step];
    assert all[..|steps|] == steps;
    RunGood(steps);
    var c := End(steps);
    match step
    case Read(session, key, index, now) =>
      others := {};
      ReadKeeps(c, session, key, index, now, e);
    case Freeze(key, snapshot, now, later) =>
      NewKey(all, c.uses, |steps|);
      InsertedKeeps(c, key, snapshot, now, later, e);
      UnexpiredInOrder(c.entries, c.uses, now);
      others := ThreeLater(Unexpired(c.entries, now), c.uses);
  }

  lemma ThreeLater(kept: seq<Entry>, uses: seq<Key>) returns (others: set<Key>)
    requires InOrder(kept, uses) && |kept| == 4
    ensures |others| == 3 && forall key | key in others :: LastUse(uses, key) > LastUse(uses, kept[0].key)
  {
    Apart(kept, uses);
    others := {kept[1].key, kept[2].key, kept[3].key};
  }

  lemma ReadKeeps(c: Cache, session: string, key: Key, index: int, now: int, e: Entry)
    requires Good(c) && e in c.entries && e.expires > now
    ensures e in Served(c, session, key, index, now).0.entries
  {
    var at := Find(c.entries, key);
    var k :| 0 <= k < |c.entries| && c.entries[k] == e;
    if at.Some? {
      Apart(c.entries, c.uses);
      assert k < at.value ==> Without(c.entries, at.value)[k] == e;
      assert k > at.value ==> Without(c.entries, at.value)[k - 1] == e;
    }
  }

  // A freeze keeps every unexpired entry that is not trimmed away.
  lemma InsertedKeeps(c: Cache, key: Key, snapshot: Snapshot, now: int, later: int, e: Entry)
    requires Good(c) && key !in c.uses && e in c.entries && e.expires > now && later < now + TTL_SECONDS
    requires forall x | x in Frozen(c, key, snapshot, now, later).0.entries :: x.key != e.key
    ensures var kept := Unexpired(c.entries, now); e in kept && |kept| == 4 && e == kept[0]
  {
    UnexpiredInOrder(c.entries, c.uses, now);
    var kept := Unexpired(c.entries, now);
    var inserted := Inserted(c, key, snapshot, now);
    InsertedGood(c, key, snapshot, now);
    var at :| 0 <= at < |kept| && kept[at] == e;
    if at > 0 || |kept| < CACHE_LIMIT { TrimKeeps(kept, inserted.entries[|inserted.entries| - 1], at); }
    if e in inserted.entries {
      NoneLost(inserted, snapshot.session, key, 0, later, e, |inserted.entries| - 1);
    }
  }

  lemma TrimKeeps(kept: seq<Entry>, new': Entry, at: nat)
    requires at < |kept| <= CACHE_LIMIT && (at > 0 || |kept| < CACHE_LIMIT)
    ensures kept[at] in Trimmed(kept) + [new']
  {
    assert (Trimmed(kept) + [new'])[if |kept| < CACHE_LIMIT then at else at - 1] == kept[at];
  }

  // Serving the entry inserted last drops nothing.
  lemma NoneLost(c: Cache, session: string, key: Key, index: int, now: int, e: Entry, last: nat)
    requires Good(c) && e in c.entries && |c.entries| == last + 1 && c.entries[last].key == key
    requires c.entries[last].expires > now
    ensures e in Served(c, session, key, index, now).0.entries
  {
    Apart(c.entries, c.uses);
    assert Find(c.entries, key) == Some(last);
    assert Without(c.entries, last) + [c.entries[last]] == c.entries;
  }

  // ---------------------------------------------------------------- putting pages together

  // The pages of one snapshot, each reached by the `next` of the one before.
  predicate Followed(pages: seq<Page>, key: Key, snapshot: Snapshot) {
    && pages != []
    && (forall i | 0 <= i < |pages| ::
       pages[i].index < Pages(snapshot.data) && pages[i] == PageFor(key, snapshot, pages[i].index))
    && pages[0].index == 0
    && (forall i | 0 < i < |pages| :: pages[i - 1].next == Some(pages[i].index))
    && pages[|pages| - 1].next.None?
  }

  function Together(pages: seq<Page>): Data {
    if pages == [] then [] else Together(pages[..|pages| - 1]) + pages[|pages| - 1].data
  }

  lemma {:induction false} FollowedIndex(pages: seq<Page>, key: Key, snapshot: Snapshot, i: nat)
    requires Followed(pages, key, snapshot) && i < |pages|
    ensures pages[i].index == i
  {
    if i > 0 { FollowedIndex(pages, key, snapshot, i - 1); }
  }

  lemma {:induction false} TogetherIs(pages: seq<Page>, key: Key, snapshot: Snapshot, n: nat)
    requires Followed(pages, key, snapshot) && n <= |pages|
    ensures Together(pages[..n]) ==
      snapshot.data[..if n * PAGE_BYTES < |snapshot.data| then n * PAGE_BYTES else |snapshot.data|]
  {
    if n > 0 {
      TogetherIs(pages, key, snapshot, n - 1);
      FollowedIndex(pages, key, snapshot, n - 1);
      assert pages[..n][..n - 1] == pages[..n - 1];
      ChunkJoins(snapshot.data, n - 1);
    }
  }

  lemma ChunkJoins(data: Data, i: nat)
    ensures var from, to := i * PAGE_BYTES, (i + 1) * PAGE_BYTES;
      data[..if from < |data| then from else |data|] + Chunk(data, i) == data[..if to < |data| then to else |data|]
  {
  }

  // Following the pages from the first one gives exactly the frozen data, in as many pages as
  // the data fill.
  lemma Reassembled(pages: seq<Page>, key: Key, snapshot: Snapshot)
    requires Followed(pages, key, snapshot)
    ensures Together(pages) == snapshot.data && |pages| == Pages(snapshot.data)
  {
    FollowedIndex(pages, key, snapshot, |pages| - 1);
    TogetherIs(pages, key, snapshot, |pages|);
    assert pages[..|pages|] == pages;
    Enough(|snapshot.data|);
  }

  lemma Enough(length: nat)
    ensures (length + PAGE_BYTES - 1) / PAGE_BYTES * PAGE_BYTES >= length
  {
  }

  // ---------------------------------------------------------------- the object

  class SnapshotPages {
    var snapshots: seq<Entry>
    ghost var uses: seq<Key>

    ghost function Now(): Cache
      reads this
    {
      Cache(snapshots, uses)
    }

    constructor ()
      ensures Now() == Cache([], [])
    {
      snapshots, uses := [], [];
    }

    method Expire(now: int)
      modifies this`snapshots
      ensures snapshots == Unexpired(old(snapshots), now)
    {
      var kept: seq<Entry> := [];
      for i := 0 to |snapshots|
        invariant snapshots == old(snapshots) && kept == Unexpired(snapshots[..i], now)
      {
        assert snapshots[..i + 1][..i] == snapshots[..i];
        if snapshots[i].expires > now { kept := kept + [snapshots[i]]; }
      }
      assert snapshots[..|snapshots|] == snapshots;
      snapshots := kept;
    }

    method Trim()
      modifies this`snapshots
      ensures snapshots == Trimmed(old(snapshots))
    {
      ghost var kept := snapshots;
      while |snapshots| >= CACHE_LIMIT
        invariant |snapshots| <= |kept| && snapshots == kept[|kept| - |snapshots|..]
        invariant |snapshots| >= if |kept| < CACHE_LIMIT then |kept| else CACHE_LIMIT - 1
      {
        snapshots := snapshots[1..];
      }
    }

    method Freeze(snapshot: Snapshot, key: Key, now: int, later: int) returns (r: Result<Page, Error>)
      requires Good(Now()) && key !in uses
      modifies this
      ensures Good(Now()) && (Now(), r) == Frozen(old(Now()), key, snapshot, now, later)
    {
      InsertedGood(Now(), key, snapshot, now);
      Expire(now);
      Trim();
      snapshots := snapshots + [Entry(key, snapshot, now + TTL_SECONDS)];
      uses := uses + [key];
      r := ServePage(snapshot.session, key, 0, later);
    }

    method ServePage(session: string, key: Key, index: int, now: int) returns (r: Result<Page, Error>)
      requires Good(Now())
      modifies this
      ensures Good(Now()) && (Now(), r) == Served(old(Now()), session, key, index, now)
    {
      ServedGood(Now(), session, key, index, now);
      var at := Find(snapshots, key);
      if at.None? { return Err(Expired); }
      var cached := snapshots[at.value];
      if cached.expires <= now {
        snapshots := Without(snapshots, at.value);
        return Err(Expired);
      }
      if cached.snapshot.session != session { return Err(OtherSession); }
      var pages := Pages(cached.snapshot.data);
      if !(0 <= index < pages) { return Err(NoSuchPage); }
      snapshots := Without(snapshots, at.value) + [cached];
      uses := uses + [key];
      r := Ok(Page(key, index, pages, cached.snapshot.cursor, Chunk(cached.snapshot.data, index),
                   if index + 1 < pages then Some(index + 1) else None));
    }
  }
}
