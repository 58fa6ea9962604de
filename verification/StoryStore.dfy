// The part of the story database (lg_cli/project_store.py) that versioned records rely
// on: documents with a head, and append-only versions. Transactions are serial.
module StoryStore {
  import opened Prelude

  type DocId = nat
  type VersionId = nat

  datatype Kind = Chapter | Scene | Part | Character | Cognition | Decision | OtherKind

  datatype Standing = Draft | Candidate | Accepted | Final | Archived | Rejected {
    predicate Gone() { Archived? || Rejected? }
    predicate Adopted() { Accepted? || Final? }
  }

  datatype Doc = Doc(kind: Kind, slug: string, title: string, state: Standing,
                     parent: Option<DocId>, sequence: Option<int>, head: Option<VersionId>)

  datatype Version<C> = Version(owner: DocId, number: nat, state: Standing, content: C)

  datatype Db<C> = Db(docs: map<DocId, Doc>, versions: map<VersionId, Version<C>>)

  predicate Owns<C>(db: Db<C>, d: DocId, v: VersionId) {
    v in db.versions && db.versions[v].owner == d
  }

  // The database keeps the version numbers of one document apart.
  ghost predicate NumbersApart<C>(db: Db<C>, d: DocId) {
    forall v, w | Owns(db, d, v) && Owns(db, d, w) && db.versions[v].number == db.versions[w].number :: v == w
  }

  // The next version number of a document: one more than its greatest.
  predicate IsNext<C>(db: Db<C>, d: DocId, n: nat) {
    && n >= 1
    && (forall v | v in db.versions && db.versions[v].owner == d :: db.versions[v].number < n)
    && (n == 1 || exists v | v in db.versions :: db.versions[v].owner == d && db.versions[v].number == n - 1)
  }

  // The answer to looking up a version by its number.
  predicate IsAt<C>(db: Db<C>, d: DocId, n: nat, found: Option<VersionId>) {
    match found
    case Some(v) => Owns(db, d, v) && db.versions[v].number == n
    case None => forall v | v in db.versions :: !(db.versions[v].owner == d && db.versions[v].number == n)
  }

  // The answer to looking up a document by its slug.
  predicate IsNamed<C>(db: Db<C>, slug: string, found: Option<DocId>) {
    match found
    case Some(d) => d in db.docs && db.docs[d].slug == slug
    case None => forall d | d in db.docs :: db.docs[d].slug != slug
  }

  function InsertVersion<C>(db: Db<C>, v: VersionId, version: Version<C>): Db<C> {
    db.(versions := db.versions[v := version])
  }

  function ActivateVersion<C>(db: Db<C>, d: DocId, v: VersionId, state: Standing): Db<C>
    requires d in db.docs && v in db.versions
  {
    db.(versions := db.versions[v := db.versions[v].(state := state)],
        docs := db.docs[d := db.docs[d].(head := Some(v), state := state)])
  }

  // A managed record grows by one draft version, which becomes its head.
  function Grow<C>(db: Db<C>, d: DocId, v: VersionId, number: nat, content: C): Db<C>
    requires d in db.docs
  {
    ActivateVersion(InsertVersion(db, v, Version(d, number, Draft, content)), d, v, Draft)
  }

  // A new version with the next number keeps the numbers apart.
  lemma GrowKeepsNumbers<C>(db: Db<C>, d: DocId, v: VersionId, number: nat, content: C)
    requires d in db.docs && v !in db.versions && IsNext(db, d, number) && NumbersApart(db, d)
    ensures NumbersApart(Grow(db, d, v, number, content), d)
  {
    var t := Grow(db, d, v, number, content);
    forall x, y | Owns(t, d, x) && Owns(t, d, y) && t.versions[x].number == t.versions[y].number
      ensures x == y
    {
      assert x != v ==> Owns(db, d, x) && db.versions[x].number < number;
      assert y != v ==> Owns(db, d, y) && db.versions[y].number < number;
    }
  }

  // Only the grown record gains a version, and only its head moves.
  lemma GrowOwns<C>(db: Db<C>, d: DocId, v: VersionId, number: nat, content: C)
    requires d in db.docs && v !in db.versions
    ensures var t := Grow(db, d, v, number, content);
      && (forall e, w :: Owns(t, e, w) <==> Owns(db, e, w) || (e == d && w == v))
      && (forall w | w in db.versions :: w in t.versions && t.versions[w] == db.versions[w])
      && t.versions[v] == Version(d, number, Draft, content)
      && t.docs[d] == db.docs[d].(head := Some(v), state := Draft)
      && (forall e | e in db.docs && e != d :: t.docs[e] == db.docs[e]) && t.docs.Keys == db.docs.Keys
  {
  }

  datatype SourceState = Unavailable | Stale | Pending | Current | Unbound

  // The standing of one declared source version.
  function SourceStatus<C>(db: Db<C>, d: DocId, v: VersionId): SourceState {
    if d !in db.docs || v !in db.versions || db.versions[v].owner != d then Unavailable
    else if db.docs[d].state.Gone() || db.versions[v].state.Gone() then Unavailable
    else if !db.versions[v].state.Adopted() || !db.docs[d].state.Adopted() then Pending
    else if db.docs[d].head != Some(v) then Stale
    else Current
  }

  method NextNumber<C>(db: Db<C>, d: DocId) returns (n: nat)
    ensures IsNext(db, d, n)
  {
    n := 1;
    var left := db.versions.Keys;
    while left != {}
      invariant left <= db.versions.Keys && n >= 1
      invariant forall v | v in db.versions && v !in left && db.versions[v].owner == d :: db.versions[v].number < n
      invariant n == 1 || exists v | v in db.versions :: db.versions[v].owner == d && db.versions[v].number == n - 1
    {
      var v :| v in left;
      if db.versions[v].owner == d && db.versions[v].number >= n {
        n := db.versions[v].number + 1;
      }
      left := left - {v};
    }
  }

  method FindVersion<C>(db: Db<C>, d: DocId, n: nat) returns (found: Option<VersionId>)
    ensures IsAt(db, d, n, found)
  {
    var left := db.versions.Keys;
    while left != {}
      invariant left <= db.versions.Keys
      invariant forall v | v in db.versions && v !in left :: !(db.versions[v].owner == d && db.versions[v].number == n)
    {
      var v :| v in left;
      if db.versions[v].owner == d && db.versions[v].number == n {
        return Some(v);
      }
      left := left - {v};
    }
    return None;
  }

  method FindSlug<C>(db: Db<C>, slug: string) returns (found: Option<DocId>)
    ensures IsNamed(db, slug, found)
  {
    var left := db.docs.Keys;
    while left != {}
      invariant left <= db.docs.Keys
      invariant forall d | d in db.docs && d !in left :: db.docs[d].slug != slug
    {
      var d :| d in left;
      if db.docs[d].slug == slug {
        return Some(d);
      }
      left := left - {d};
    }
    return None;
  }
}
