/** Incremental sync from a parent (`sync_from_rhic_serve_blocking`) as a protocol, one step per clock reading, request
    or database access. The parent's identities change at any time, also between the fetch of a page and its import;
    sweeps may overlap, stop early or abort; single identities are looked up meanwhile. */
module ParentSync {
  import opened Wrappers
  import opened ConsumerIdentities
  import opened PageImport
  import opened Runs
  import MongoKeys

  // An identity as the parent has it.
  datatype Identity = Identity(uuid: string, engineeringIds: seq<string>, created: int, modified: int, deleted: bool,
                               deletedDate: Option<int>)

  // It is known by the canonical form of its uuid, and has a deletion date once it is deleted.
  predicate Valid(canon: Canon, x: Identity) {
    canon(x.uuid) == Some(x.uuid) && (x.deleted ==> x.deletedDate.Some?)
  }

  // What it sends: every field, an absent deletion date as an empty value.
  function Sent(x: Identity): Item {
    Item(Some(x.uuid), Some(x.engineeringIds), Given(x.created), Given(x.modified), Some(x.deleted),
         if x.deletedDate.Some? then Given(x.deletedDate.value) else Empty)
  }

  function Page(xs: seq<Identity>): seq<Item> {
    seq(|xs|, i requires 0 <= i < |xs| => Sent(xs[i]))
  }

  // The local document that says the same.
  function Stored(x: Identity): Doc {
    Doc(x.uuid, x.engineeringIds, Some(x.created), Some(x.modified), x.deleted, x.deletedDate)
  }

  // Both say all the parent does: different identities are sent differently and have different documents.
  lemma StoredSaysAll(x: Identity, y: Identity)
    ensures Stored(x) == Stored(y) ==> x == y
    ensures Sent(x) == Sent(y) ==> x == y
  {
  }

  // The document made of it does not depend on the clock.
  lemma SentConverts(canon: Canon, x: Identity, now: int)
    requires Valid(canon, x)
    ensures Convert(canon, Sent(x), now) == Ok(Stored(x))
  {
  }

  // One sweep: it reads the clock, reads the saved watermark, then fetches and imports pages from an offset on, and
  // saves its first clock reading as the new watermark. `fetched` is when the page it holds was fetched, `last`
  // whether the page reached the total the parent gave with it.
  datatype Sweep =
    | Starting(start: int)
    | Fetching(start: int, since: Option<int>, offset: nat)
    | Importing(start: int, since: Option<int>, end: nat, page: seq<Identity>, fetched: int, last: bool, work: Work)
    | Saving(start: int)

  // The import of a page: it asks which uuids are stored, inserts the others at once, and then updates what is left one
  // by one; `target` is the position of the document that was found for the first of them.
  datatype Work =
    | Asking
    | Inserting(ids: set<string>)
    | Updating(rest: seq<Identity>)
    | Found(rest: seq<Identity>, target: Option<nat>)

  // A single identity that was fetched, then the document it belongs to was looked for, and it is not yet stored.
  datatype LookUp =
    | Fetched(found: Identity, fetched: int)
    | Located(found: Identity, fetched: int, target: Option<nat>)

  datatype State = State(parent: seq<Identity>, docs: seq<Doc>, info: MongoKeys.SyncInfo, clock: int,
                         sweeps: map<int, Sweep>, lookUps: map<int, LookUp>)

  // `allowed(fetched, bound)`: what was fetched at the one time may be stored when a sweep that started at the other is
  // under way or saved its watermark. `serial`: the uuids that are stored by one process at a time.
  datatype Config = Config(canon: Canon, host: string, allowed: (int, int) -> bool, serial: set<string>)

  datatype Step =
    | Tick(now: int)
    | Add(item: Identity)
    | Change(at: nat, item: Identity)
    | Begin(sweep: int)
    | ReadWatermark(sweep: int)
    | FetchPage(sweep: int, count: nat)
    | ReadExisting(sweep: int)
    | InsertNew(sweep: int)
    | FindNext(sweep: int)
    | UpdateNext(sweep: int)
    | SaveWatermark(sweep: int)
    | Abort(sweep: int)
    | FetchOne(lookUp: int, at: nat)
    | FindOne(lookUp: int)
    | StoreOne(lookUp: int)
    | GiveUp(lookUp: int)

  function Watermark(c: Config, s: State): Option<int> {
    MongoKeys.LastSync(s.info, c.host)
  }

  // The parent's query `modified_date__gt`, in its own order.
  predicate Matches(since: Option<int>, x: Identity) {
    since.Some? ==> since.value < x.modified
  }

  function Filtered(parent: seq<Identity>, since: Option<int>): seq<Identity> {
    if parent == [] then []
    else
      var n := |parent| - 1;
      Filtered(parent[..n], since) + if Matches(since, parent[n]) then [parent[n]] else []
  }

  // The offset at which the filtered listing shows the identity.
  function Position(parent: seq<Identity>, since: Option<int>, i: nat): nat
    requires i <= |parent|
  {
    |Filtered(parent[..i], since)|
  }

  // ---------------------------------------------------------------------------------------------
  // The database accesses of an import

  // Where the first document of a uuid is.
  function Locate(docs: seq<Doc>, uuid: string): Option<nat> {
    var i := IndexOf(docs, uuid);
    if i < |docs| then Some(i) else None
  }

  // Saves an identity as the document that was found, or as a new one.
  function Put(docs: seq<Doc>, x: Identity, target: Option<nat>): seq<Doc> {
    match target
    case None => docs + [Stored(x)]
    case Some(i) => if i < |docs| then docs[i := Stored(x)] else docs
  }

  function StoredAll(xs: seq<Identity>): seq<Doc> {
    if xs == [] then [] else StoredAll(xs[..|xs| - 1]) + [Stored(xs[|xs| - 1])]
  }

  // The identities of a page whose uuid was, or was not, among those stored.
  function Old(page: seq<Identity>, ids: set<string>): (xs: seq<Identity>)
    ensures forall x :: x in xs <==> x in page && x.uuid in ids
  {
    if page == [] then [] else (if page[0].uuid in ids then [page[0]] else []) + Old(page[1..], ids)
  }

  function Fresh(page: seq<Identity>, ids: set<string>): (xs: seq<Identity>)
    ensures forall x :: x in xs <==> x in page && x.uuid !in ids
  {
    if page == [] then [] else (if page[0].uuid !in ids then [page[0]] else []) + Fresh(page[1..], ids)
  }

  lemma OneFresh(x: Identity)
    ensures Fresh([x], {}) == [x] && Old([x], {}) == [] && StoredAll([x]) == [Stored(x)]
  {
    assert [x][1..] == [] && Fresh([], {}) == [] && Old([], {}) == [];
    assert [x][..0] == [] && StoredAll([]) == [];
  }

  // Between the query that decides how an identity of this uuid is stored, and the save.
  ghost predicate SweepStores(w: Sweep, uuid: string) {
    w.Importing? &&
    match w.work
    case Inserting(ids) => uuid !in ids && exists x :: x in w.page && x.uuid == uuid
    case Found(rest, _) => rest != [] && rest[0].uuid == uuid
    case _ => false
  }

  predicate LookUpStores(l: LookUp, uuid: string) {
    l.Located? && l.found.uuid == uuid
  }

  ghost predicate Storing(s: State, uuid: string) {
    || (exists k :: k in s.sweeps && SweepStores(s.sweeps[k], uuid))
    || (exists k :: k in s.lookUps && LookUpStores(s.lookUps[k], uuid))
  }

  ghost predicate MayAsk(c: Config, s: State, uuid: string) {
    uuid in c.serial ==> !Storing(s, uuid)
  }

  predicate MayStore(c: Config, s: State, fetched: int) {
    && (forall k :: k in s.sweeps ==> c.allowed(fetched, s.sweeps[k].start))
    && (Watermark(c, s).Some? ==> c.allowed(fetched, Watermark(c, s).value))
  }

  // ---------------------------------------------------------------------------------------------
  // The transition system

  // The parent stamps what it adds or changes later than every clock reading so far. A page holds at most what the
  // listing still has; the parent decides how much of it.
  ghost predicate Enabled(c: Config, s: State, e: Step) {
    match e
    case Tick(now) => s.clock <= now
    case Add(x) =>
      Valid(c.canon, x) && s.clock < x.modified && forall y :: y in s.parent ==> y.uuid != x.uuid
    case Change(i, x) =>
      i < |s.parent| && Valid(c.canon, x) && s.clock < x.modified && x.uuid == s.parent[i].uuid
    case Begin(k) => k !in s.sweeps
    case ReadWatermark(k) => k in s.sweeps && s.sweeps[k].Starting?
    case FetchPage(k, n) =>
      k in s.sweeps && s.sweeps[k].Fetching? &&
      (n == 0 || s.sweeps[k].offset + n <= |Filtered(s.parent, s.sweeps[k].since)|)
    case ReadExisting(k) =>
      k in s.sweeps && s.sweeps[k].Importing? && s.sweeps[k].work.Asking? &&
      forall x :: x in s.sweeps[k].page ==> MayAsk(c, s, x.uuid)
    case InsertNew(k) =>
      k in s.sweeps && s.sweeps[k].Importing? && s.sweeps[k].work.Inserting? &&
      (Fresh(s.sweeps[k].page, s.sweeps[k].work.ids) != [] ==> MayStore(c, s, s.sweeps[k].fetched))
    case FindNext(k) =>
      k in s.sweeps && s.sweeps[k].Importing? && s.sweeps[k].work.Updating? && s.sweeps[k].work.rest != [] &&
      MayAsk(c, s, s.sweeps[k].work.rest[0].uuid)
    case UpdateNext(k) =>
      k in s.sweeps && s.sweeps[k].Importing? && s.sweeps[k].work.Found? && s.sweeps[k].work.rest != [] &&
      MayStore(c, s, s.sweeps[k].fetched)
    case SaveWatermark(k) => k in s.sweeps && s.sweeps[k].Saving?
    case Abort(k) => k in s.sweeps
    case FetchOne(k, i) => k !in s.lookUps && i < |s.parent|
    case FindOne(k) => k in s.lookUps && s.lookUps[k].Fetched? && MayAsk(c, s, s.lookUps[k].found.uuid)
    case StoreOne(k) => k in s.lookUps && s.lookUps[k].Located? && MayStore(c, s, s.lookUps[k].fetched)
    case GiveUp(k) => k in s.lookUps
  }

  // A sweep that is sent nothing ends without saving a watermark.
  function Fetch(s: State, k: int, n: nat): State
    requires k in s.sweeps && s.sweeps[k].Fetching?
    requires n == 0 || s.sweeps[k].offset + n <= |Filtered(s.parent, s.sweeps[k].since)|
  {
    s.(sweeps := if n == 0 then s.sweeps - {k} else s.sweeps[k := Holding(s, s.sweeps[k], n)])
  }

  function Holding(s: State, w: Sweep, n: nat): Sweep
    requires w.Fetching? && w.offset + n <= |Filtered(s.parent, w.since)|
  {
    var listing, end := Filtered(s.parent, w.since), w.offset + n;
    Importing(w.start, w.since, end, listing[w.offset..end], s.clock, end >= |listing|, Asking)
  }

  // What a sweep does after it stored its page.
  function Continued(w: Sweep): Sweep
    requires w.Importing?
  {
    if w.last then Saving(w.start) else Fetching(w.start, w.since, w.end)
  }

  function Resumed(w: Sweep, rest: seq<Identity>): Sweep
    requires w.Importing?
  {
    if rest == [] then Continued(w) else w.(work := Updating(rest))
  }

  function Next(c: Config, s: State, e: Step): State
    requires Enabled(c, s, e)
  {
    match e
    case Tick(now) => s.(clock := now)
    case Add(x) => s.(parent := s.parent + [x])
    case Change(i, x) => s.(parent := s.parent[i := x])
    case Begin(k) => s.(sweeps := s.sweeps[k := Starting(s.clock)])
    case ReadWatermark(k) => s.(sweeps := s.sweeps[k := Fetching(s.sweeps[k].start, Watermark(c, s), 0)])
    case FetchPage(k, n) => Fetch(s, k, n)
    case ReadExisting(k) => s.(sweeps := s.sweeps[k := s.sweeps[k].(work := Inserting(Uuids(s.docs)))])
    case InsertNew(k) =>
      var w := s.sweeps[k];
      s.(docs := s.docs + StoredAll(Fresh(w.page, w.work.ids)),
         sweeps := s.sweeps[k := Resumed(w, Old(w.page, w.work.ids))])
    case FindNext(k) =>
      var w := s.sweeps[k];
      s.(sweeps := s.sweeps[k := w.(work := Found(w.work.rest, Locate(s.docs, w.work.rest[0].uuid)))])
    case UpdateNext(k) =>
      var w := s.sweeps[k];
      s.(docs := Put(s.docs, w.work.rest[0], w.work.target), sweeps := s.sweeps[k := Resumed(w, w.work.rest[1..])])
    case SaveWatermark(k) =>
      s.(info := MongoKeys.WithLastSync(s.info, c.host, s.sweeps[k].start), sweeps := s.sweeps - {k})
    case Abort(k) => s.(sweeps := s.sweeps - {k})
    case FetchOne(k, i) => s.(lookUps := s.lookUps[k := Fetched(s.parent[i], s.clock)])
    case FindOne(k) =>
      var l := s.lookUps[k];
      s.(lookUps := s.lookUps[k := Located(l.found, l.fetched, Locate(s.docs, l.found.uuid))])
    case StoreOne(k) =>
      var l := s.lookUps[k];
      s.(docs := Put(s.docs, l.found, l.target), lookUps := s.lookUps - {k})
    case GiveUp(k) => s.(lookUps := s.lookUps - {k})
  }

  ghost predicate DistinctUuids(xs: seq<Identity>) {
    forall i, j :: 0 <= i < j < |xs| ==> xs[i].uuid != xs[j].uuid
  }

  ghost predicate Proper(canon: Canon, xs: seq<Identity>) {
    (forall i :: 0 <= i < |xs| ==> Valid(canon, xs[i])) && DistinctUuids(xs)
  }

  ghost predicate Init(c: Config, s: State) {
    && Idempotent(c.canon) && Proper(c.canon, s.parent) && Canonical(c.canon, s.docs)
    && Watermark(c, s) == None && s.sweeps == map[] && s.lookUps == map[]
  }

  ghost function LeadsTo(c: Config): (State, Step, State) -> bool {
    (s, e, s') => Enabled(c, s, e) && s' == Next(c, s, e)
  }

  ghost predicate Run(c: Config, states: seq<State>, steps: seq<Step>) {
    Path(LeadsTo(c), states, steps) && Init(c, states[0])
  }

  lemma Extend(c: Config, states: seq<State>, steps: seq<Step>, e: Step)
    returns (states': seq<State>, steps': seq<Step>)
    requires Path(LeadsTo(c), states, steps) && Enabled(c, Final(states), e)
    ensures Path(LeadsTo(c), states', steps') && states'[0] == states[0] && Final(states') == Next(c, Final(states), e)
  {
    states', steps' := Runs.Extend(LeadsTo(c), states, steps, e, Next(c, Final(states), e));
  }

  // ---------------------------------------------------------------------------------------------
  // Offsets into a growing listing

  lemma {:induction false} FilteredAt(parent: seq<Identity>, since: Option<int>, i: nat)
    requires i < |parent| && Matches(since, parent[i])
    ensures Position(parent, since, i) < |Filtered(parent, since)|
    ensures Filtered(parent, since)[Position(parent, since, i)] == parent[i]
    decreases parent
  {
    var n := |parent| - 1;
    if i < n {
      FilteredAt(parent[..n], since, i);
      assert parent[..n][..i] == parent[..i];
    }
  }

  /** The filtered listing has exactly the identities that were modified after the watermark, all without one. */
  lemma {:induction false} FilteredMembers(parent: seq<Identity>, since: Option<int>)
    ensures forall x :: x in Filtered(parent, since) <==> x in parent && (since == None || since.value < x.modified)
    decreases parent
  {
    if parent != [] {
      var n := |parent| - 1;
      FilteredMembers(parent[..n], since);
      assert parent == parent[..n] + [parent[n]];
    }
  }

  lemma {:induction false} FilteredDistinct(parent: seq<Identity>, since: Option<int>)
    requires DistinctUuids(parent)
    ensures DistinctUuids(Filtered(parent, since))
    decreases parent
  {
    if parent != [] {
      var n := |parent| - 1;
      var before := Filtered(parent[..n], since);
      FilteredDistinct(parent[..n], since);
      FilteredMembers(parent[..n], since);
      forall i | 0 <= i < |before|
        ensures before[i].uuid != parent[n].uuid
      {
        assert before[i] in parent[..n];
      }
    }
  }

  // A change makes its identity match, so no other identity moves to a smaller offset.
  lemma {:induction false} ChangeMovesForward(parent: seq<Identity>, since: Option<int>, at: nat, x: Identity, i: nat)
    requires at < |parent| && i <= |parent| && Matches(since, x)
    ensures Position(parent, since, i) <= Position(parent[at := x], since, i)
    decreases i
  {
    if i > 0 {
      ChangeMovesForward(parent, since, at, x, i - 1);
      var changed := parent[at := x];
      assert parent[..i][..i - 1] == parent[..i - 1] && changed[..i][..i - 1] == changed[..i - 1];
    }
  }

  lemma AddKeepsPositions(parent: seq<Identity>, since: Option<int>, x: Identity, i: nat)
    requires i <= |parent|
    ensures Position(parent + [x], since, i) == Position(parent, since, i)
  {
    assert (parent + [x])[..i] == parent[..i];
  }

  // A page of the filtered listing is proper and holds current versions of the parent.
  lemma SliceIsProper(canon: Canon, parent: seq<Identity>, since: Option<int>, from: nat, end: nat)
    requires Proper(canon, parent) && from <= end <= |Filtered(parent, since)|
    ensures var page := Filtered(parent, since)[from..end];
      Proper(canon, page) && forall x :: x in page ==> x in parent
  {
    var page := Filtered(parent, since)[from..end];
    FilteredMembers(parent, since);
    FilteredDistinct(parent, since);
    forall i | 0 <= i < |page|
      ensures Valid(canon, page[i])
    {
      assert page[i] in parent;
    }
  }

  // ---------------------------------------------------------------------------------------------
  // What processes hold is well-formed

  // The document that was found is still the first of its uuid: documents are never removed, nor moved to another.
  predicate TargetInv(docs: seq<Doc>, uuid: string, target: Option<nat>) {
    target.Some? ==> Locate(docs, uuid) == target
  }

  ghost predicate WorkInv(canon: Canon, docs: seq<Doc>, work: Work) {
    && (work.Updating? || work.Found? ==> work.rest != [] && Proper(canon, work.rest))
    && (work.Found? ==> TargetInv(docs, work.rest[0].uuid, work.target))
  }

  ghost predicate SweepFormed(canon: Canon, docs: seq<Doc>, w: Sweep) {
    w.Importing? ==>
      && Proper(canon, w.page) && WorkInv(canon, docs, w.work)
      && (w.work.Updating? || w.work.Found? ==> forall x :: x in w.work.rest ==> x in w.page)
  }

  predicate LookUpFormed(canon: Canon, docs: seq<Doc>, l: LookUp) {
    Valid(canon, l.found) && (l.Located? ==> TargetInv(docs, l.found.uuid, l.target))
  }

  ghost predicate Formed(c: Config, s: State) {
    && Idempotent(c.canon) && Proper(c.canon, s.parent) && Canonical(c.canon, s.docs)
    && (forall k :: k in s.sweeps ==> SweepFormed(c.canon, s.docs, s.sweeps[k]))
    && (forall k :: k in s.lookUps ==> LookUpFormed(c.canon, s.docs, s.lookUps[k]))
  }

  // Documents are added behind, and keep their uuids.
  ghost predicate Extends(docs: seq<Doc>, docs': seq<Doc>) {
    |docs| <= |docs'| && forall i :: 0 <= i < |docs| ==> docs'[i].uuid == docs[i].uuid
  }

  lemma LocatedStays(docs: seq<Doc>, docs': seq<Doc>, uuid: string)
    requires Extends(docs, docs')
    ensures Locate(docs, uuid).Some? ==> Locate(docs', uuid) == Locate(docs, uuid)
  {
    if Locate(docs, uuid).Some? {
      IndexIsFirst(docs', uuid, IndexOf(docs, uuid));
    }
  }

  // What a query finds after a save: the saved identity, unless the document found did not exist and does now.
  lemma PutFinds(canon: Canon, docs: seq<Doc>, x: Identity, target: Option<nat>)
    requires Valid(canon, x) && Canonical(canon, docs) && TargetInv(docs, x.uuid, target)
    ensures var docs' := Put(docs, x, target);
      && Extends(docs, docs') && Canonical(canon, docs')
      && (forall u :: u != x.uuid ==> Find(docs', u) == Find(docs, u) && Locate(docs', u) == Locate(docs, u))
      && Find(docs', x.uuid) == if target == Locate(docs, x.uuid) then Some(Stored(x)) else Find(docs, x.uuid)
  {
    var docs' := Put(docs, x, target);
    forall u
      ensures u != x.uuid ==> Find(docs', u) == Find(docs, u) && Locate(docs', u) == Locate(docs, u)
      ensures u == x.uuid ==>
                Find(docs', u) == if target == Locate(docs, u) then Some(Stored(x)) else Find(docs, u)
    {
      LocatedStays(docs, docs', u);
      if Locate(docs, u).None? && u == x.uuid {
        IndexIsFirst(docs', u, |docs|);
      }
    }
  }

  // The same for a bulk insert: each inserted identity is found, unless its uuid was stored before.
  ghost predicate Inserted(docs: seq<Doc>, docs': seq<Doc>, xs: seq<Identity>) {
    && Extends(docs, docs')
    && (forall u :: (forall x :: x in xs ==> x.uuid != u) ==>
          Find(docs', u) == Find(docs, u) && Locate(docs', u) == Locate(docs, u))
    && (forall x :: x in xs ==>
          Find(docs', x.uuid) == if Locate(docs, x.uuid).None? then Some(Stored(x)) else Find(docs, x.uuid))
  }

  lemma InsertOneMore(canon: Canon, docs: seq<Doc>, before: seq<Doc>, xs: seq<Identity>, x: Identity)
    requires Inserted(docs, before, xs) && Canonical(canon, before) && Valid(canon, x)
    requires forall y :: y in xs ==> y.uuid != x.uuid
    ensures Inserted(docs, Put(before, x, None), xs + [x]) && Canonical(canon, Put(before, x, None))
  {
    var docs' := Put(before, x, None);
    PutFinds(canon, before, x, None);
    forall u | forall y :: y in xs + [x] ==> y.uuid != u
      ensures Find(docs', u) == Find(docs, u) && Locate(docs', u) == Locate(docs, u)
    {
      assert x in xs + [x];
      assert forall y :: y in xs ==> y in xs + [x];
    }
  }

  lemma {:induction false} InsertFinds(canon: Canon, docs: seq<Doc>, xs: seq<Identity>)
    requires Proper(canon, xs) && Canonical(canon, docs)
    ensures Inserted(docs, docs + StoredAll(xs), xs) && Canonical(canon, docs + StoredAll(xs))
    decreases xs
  {
    if xs == [] {
      assert docs + [] == docs;
    } else {
      var n := |xs| - 1;
      var before := docs + StoredAll(xs[..n]);
      InsertFinds(canon, docs, xs[..n]);
      assert docs + StoredAll(xs) == Put(before, xs[n], None);
      assert xs == xs[..n] + [xs[n]];
      InsertOneMore(canon, docs, before, xs[..n], xs[n]);
    }
  }

  // ---------------------------------------------------------------------------------------------
  // Every step keeps it

  lemma WorkFormed(canon: Canon, docs: seq<Doc>, docs': seq<Doc>, w: Sweep)
    requires SweepFormed(canon, docs, w) && Extends(docs, docs')
    ensures SweepFormed(canon, docs', w)
  {
    if w.Importing? && w.work.Found? {
      LocatedStays(docs, docs', w.work.rest[0].uuid);
    }
  }

  lemma DocsKeepFormed(c: Config, s: State, docs': seq<Doc>)
    requires Formed(c, s) && Extends(s.docs, docs') && Canonical(c.canon, docs')
    ensures Formed(c, s.(docs := docs'))
  {
    forall k | k in s.sweeps
      ensures SweepFormed(c.canon, docs', s.sweeps[k])
    {
      WorkFormed(c.canon, s.docs, docs', s.sweeps[k]);
    }
    forall k | k in s.lookUps
      ensures LookUpFormed(c.canon, docs', s.lookUps[k])
    {
      LocatedStays(s.docs, docs', s.lookUps[k].found.uuid);
    }
  }

  // A part of a page that is left to do.
  lemma RestIsProper(canon: Canon, xs: seq<Identity>)
    requires Proper(canon, xs) && xs != []
    ensures Proper(canon, xs[1..]) && forall x :: x in xs[1..] ==> x in xs && x.uuid != xs[0].uuid
  {
  }

  lemma {:induction false} PartsAreProper(canon: Canon, page: seq<Identity>, ids: set<string>)
    requires Proper(canon, page)
    ensures Proper(canon, Old(page, ids)) && Proper(canon, Fresh(page, ids))
    decreases page
  {
    if page != [] {
      var rest := page[1..];
      PartsAreProper(canon, rest, ids);
      RestIsProper(canon, page);
      forall i
        ensures 0 <= i < |Old(rest, ids)| ==> Old(rest, ids)[i].uuid != page[0].uuid
        ensures 0 <= i < |Fresh(rest, ids)| ==> Fresh(rest, ids)[i].uuid != page[0].uuid
      {
        assert 0 <= i < |Old(rest, ids)| ==> Old(rest, ids)[i] in rest;
        assert 0 <= i < |Fresh(rest, ids)| ==> Fresh(rest, ids)[i] in rest;
      }
    }
  }

  predicate Writes(e: Step) {
    e.InsertNew? || e.UpdateNext? || e.StoreOne?
  }

  lemma WriteExtends(c: Config, s: State, e: Step)
    requires Formed(c, s) && Enabled(c, s, e) && Writes(e)
    ensures Extends(s.docs, Next(c, s, e).docs) && Canonical(c.canon, Next(c, s, e).docs)
  {
    match e
    case InsertNew(k) =>
      var w := s.sweeps[k];
      assert SweepFormed(c.canon, s.docs, w);
      PartsAreProper(c.canon, w.page, w.work.ids);
      InsertFinds(c.canon, s.docs, Fresh(w.page, w.work.ids));
    case UpdateNext(k) =>
      var w := s.sweeps[k];
      assert SweepFormed(c.canon, s.docs, w);
      PutFinds(c.canon, s.docs, w.work.rest[0], w.work.target);
    case StoreOne(k) => PutFinds(c.canon, s.docs, s.lookUps[k].found, s.lookUps[k].target);
  }

  // The documents after a step that writes some.
  lemma WriteFormed(c: Config, s: State, e: Step)
    requires Formed(c, s) && Enabled(c, s, e) && Writes(e)
    ensures Formed(c, s.(docs := Next(c, s, e).docs))
  {
    WriteExtends(c, s, e);
    DocsKeepFormed(c, s, Next(c, s, e).docs);
  }

  lemma SweepStepFormed(c: Config, s: State, e: Step)
    requires Formed(c, s) && Enabled(c, s, e) && (e.FetchPage? || e.InsertNew? || e.UpdateNext?)
    ensures Formed(c, Next(c, s, e))
  {
    match e
    case FetchPage(k, n) =>
      if n > 0 {
        var w := s.sweeps[k];
        SliceIsProper(c.canon, s.parent, w.since, w.offset, w.offset + n);
      }
    case InsertNew(k) =>
      PartsAreProper(c.canon, s.sweeps[k].page, s.sweeps[k].work.ids);
      WriteFormed(c, s, e);
    case UpdateNext(k) =>
      RestIsProper(c.canon, s.sweeps[k].work.rest);
      WriteFormed(c, s, e);
  }

  lemma StepKeepsFormed(c: Config, s: State, e: Step)
    requires Formed(c, s) && Enabled(c, s, e)
    ensures Formed(c, Next(c, s, e))
  {
    match e
    case FetchPage(_, _) => SweepStepFormed(c, s, e);
    case InsertNew(_) => SweepStepFormed(c, s, e);
    case UpdateNext(_) => SweepStepFormed(c, s, e);
    case StoreOne(_) => WriteFormed(c, s, e);
    case _ =>
  }
}
