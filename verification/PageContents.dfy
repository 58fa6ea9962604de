// What a page holds, when it is served, and how long a snapshot is kept
// (lg_cli/backend_history.py, `SnapshotPages`).
module PageContents {
  import opened Prelude
  import opened PageCache

  // As many pages of 256 KiB as the data need.
  predicate Fills(pages: nat, length: nat) {
    && length <= pages * 262144
    && (pages > 0 ==> (pages - 1) * 262144 < length)
  }

  // The page of this number: its piece of the data, and which page follows.
  predicate Holds(page: Page, key: Key, snapshot: Snapshot, index: int) {
    && page.key == key
    && page.index == index
    && page.cursor == snapshot.cursor
    && Fills(page.pages, |snapshot.data|)
    && 0 <= index < page.pages
    && (if index + 1 < page.pages then page.next == Some(page.index + 1) else page.next.None?)
    && (if index + 1 < page.pages then |page.data| == 262144 else |page.data| == |snapshot.data| - index * 262144)
    && forall i | 0 <= i < |page.data| ::
         index * 262144 + i < |snapshot.data| && page.data[i] == snapshot.data[index * 262144 + i]
  }

  lemma PagesFill(data: Data)
    ensures Fills(Pages(data), |data|)
  {
  }

  lemma PageHolds(key: Key, snapshot: Snapshot, index: nat)
    requires index < Pages(snapshot.data)
    ensures Holds(PageFor(key, snapshot, index), key, snapshot, index)
  {
    PagesFill(snapshot.data);
    var data, pages := snapshot.data, Pages(snapshot.data);
    assert index * 262144 < |data|;
    assert index + 1 < pages ==> (index + 1) * 262144 <= |data|;
    assert index + 1 == pages ==> |data| <= (index + 1) * 262144;
  }

  // An entry that can be used at this time by this session.
  predicate Live(c: Cache, key: Key, session: string, now: int, e: Entry) {
    e in c.entries && e.key == key && e.expires > now && e.snapshot.session == session
  }

  lemma FindsEntry(c: Cache, key: Key, e: Entry)
    requires Good(c) && e in c.entries && e.key == key
    ensures Find(c.entries, key).Some? && c.entries[Find(c.entries, key).value] == e
  {
    Apart(c.entries, c.uses);
    var i :| 0 <= i < |c.entries| && c.entries[i] == e;
  }

  predicate Numbered(e: Entry, index: int) {
    0 <= index && index * 262144 < |e.snapshot.data|
  }

  lemma NumberedIff(e: Entry, index: int)
    ensures Numbered(e, index) <==> 0 <= index < Pages(e.snapshot.data)
  {
    PagesFill(e.snapshot.data);
  }

  // What is left is what was there, without an entry of this key that has expired.
  ghost predicate Leaves(c: Cache, key: Key, now: int, after: Cache) {
    forall e :: e in after.entries <==> e in c.entries && (e.key != key || e.expires > now)
  }

  lemma ServedHeld(c: Cache, session: string, key: Key, index: int, now: int, e: Entry)
    requires Good(c) && e in c.entries && e.key == key
    ensures var (after, page) := Served(c, session, key, index, now);
      && (page.Ok? <==> Live(c, key, session, now, e) && Numbered(e, index))
      && (page.Ok? ==> Holds(page.value, key, e.snapshot, index))
      && (page.Err? ==> Leaves(c, key, now, after))
  {
    FindsEntry(c, key, e);
    NumberedIff(e, index);
    if 0 <= index < Pages(e.snapshot.data) { PageHolds(key, e.snapshot, index); }
    if e.expires <= now {
      Apart(c.entries, c.uses);
      WithoutHolds(c.entries, Find(c.entries, key).value);
    } else {
      OnlyEntry(c, key, e);
    }
  }

  lemma OnlyEntry(c: Cache, key: Key, e: Entry)
    requires Good(c) && e in c.entries && e.key == key
    ensures forall x | x in c.entries && x.key == key :: x == e
  {
    forall x | x in c.entries && x.key == key
      ensures x == e
    {
      FindsEntry(c, key, x);
      FindsEntry(c, key, e);
    }
  }

  // After any calls a page is served exactly when its snapshot is held, has not expired, was
  // frozen for this session, and has a page of that number; then it is that page. A snapshot
  // found expired is dropped, and any other refusal changes nothing.
  lemma ServesIff(steps: seq<Step>, session: string, key: Key, index: int, now: int)
    requires FreshKeys(steps)
    ensures var c := End(steps);
      var (after, page) := Served(c, session, key, index, now);
      && (page.Ok? <==> exists e :: Live(c, key, session, now, e) && Numbered(e, index))
      && (forall e | page.Ok? && e in c.entries && e.key == key :: Holds(page.value, key, e.snapshot, index))
      && (page.Err? ==> Leaves(c, key, now, after))
  {
    RunGood(steps);
    var c := End(steps);
    forall e | e in c.entries && e.key == key
      ensures var (after, page) := Served(c, session, key, index, now);
        && (page.Ok? <==> Live(c, key, session, now, e) && Numbered(e, index))
        && (page.Ok? ==> Holds(page.value, key, e.snapshot, index))
        && (page.Err? ==> Leaves(c, key, now, after))
    {
      ServedHeld(c, session, key, index, now, e);
    }
    var at := Find(c.entries, key);
    if at.Some? {
      assert c.entries[at.value] in c.entries;
    } else {
      assert forall e | e in c.entries :: e.key != key;
    }
  }

  lemma WithoutHolds(entries: seq<Entry>, i: nat)
    requires i < |entries| && forall j, k | 0 <= j < k < |entries| :: entries[j].key != entries[k].key
    ensures forall e :: e in Without(entries, i) <==> e in entries && e.key != entries[i].key
  {
    var rest := Without(entries, i);
    assert forall j | 0 <= j < |rest| :: rest[j] == entries[if j < i then j else j + 1];
    forall e | e in entries && e.key != entries[i].key
      ensures e in rest
    {
      var j :| 0 <= j < |entries| && entries[j] == e;
      assert rest[if j < i then j else j - 1] == e;
    }
  }

  // A freeze holds its snapshot for three minutes and serves its first page, if there is one.
  lemma FreezeHolds(steps: seq<Step>, step: Step)
    requires FreshKeys(steps + [step]) && step.Freeze? && step.later < step.now + 180
    ensures Entry(step.key, step.snapshot, step.now + 180) in End(steps + [step]).entries
    ensures var page := Frozen(End(steps), step.key, step.snapshot, step.now, step.later).1;
      && (page.Ok? <==> step.snapshot.data != [])
      && (page.Ok? ==> Holds(page.value, step.key, step.snapshot, 0))
  {
    var all := steps + [step];
    assert all[..|steps|] == steps;
    RunGood(steps);
    var c := End(steps);
    NewKey(all, c.uses, |steps|);
    var inserted := Inserted(c, step.key, step.snapshot, step.now);
    InsertedGood(c, step.key, step.snapshot, step.now);
    var e := Entry(step.key, step.snapshot, step.now + 180);
    assert inserted.entries[|inserted.entries| - 1] == e;
    FindsEntry(inserted, step.key, e);
    PagesFill(step.snapshot.data);
    if step.snapshot.data != [] { PageHolds(step.key, step.snapshot, 0); }
    NoneLost(inserted, step.snapshot.session, step.key, 0, step.later, e, |inserted.entries| - 1);
  }
}
