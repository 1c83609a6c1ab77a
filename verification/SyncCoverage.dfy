/** What a sync from the parent keeps: an identity that is not stored in its current version was modified after the
    saved watermark; and the exact condition on when what was fetched may still be stored. */
module SyncCoverage {
  import opened Wrappers
  import opened ConsumerIdentities
  import opened PageImport
  import opened ParentSync
  import opened Runs
  import MongoKeys

  predicate InSync(docs: seq<Doc>, x: Identity) {
    Find(docs, x.uuid) == Some(Stored(x))
  }

  // Up to `bound` the local copy has what the parent has: an identity that differs was modified later.
  predicate Covered(docs: seq<Doc>, x: Identity, bound: int) {
    InSync(docs, x) || bound < x.modified
  }

  // The identity is still to be stored by the import of its page; where it will be added, no document is in the way.
  ghost predicate Due(docs: seq<Doc>, page: seq<Identity>, work: Work, x: Identity) {
    match work
    case Asking => x in page
    case Inserting(ids) => x in page && (x.uuid in ids || Find(docs, x.uuid).None?)
    case Updating(rest) => x in rest
    case Found(rest, target) => x in rest && (x == rest[0] ==> target.Some? || Find(docs, x.uuid).None?)
  }

  // What is not covered up to the start of a sweep is on its page, or lies ahead of it.
  ghost predicate Reaches(docs: seq<Doc>, parent: seq<Identity>, w: Sweep, i: nat)
    requires i < |parent|
  {
    match w
    case Starting(_) => true
    case Fetching(start, since, offset) =>
      Covered(docs, parent[i], start) || (Matches(since, parent[i]) && offset <= Position(parent, since, i))
    case Importing(start, since, end, page, _, last, work) =>
      Covered(docs, parent[i], start) || Due(docs, page, work, parent[i]) ||
      (!last && Matches(since, parent[i]) && end <= Position(parent, since, i))
    case Saving(start) => Covered(docs, parent[i], start)
  }

  // Identities fetched at a time: what has changed since is stamped later.
  ghost predicate Current(s: State, page: seq<Identity>, fetched: int) {
    && fetched <= s.clock
    && forall i, x :: 0 <= i < |s.parent| && x in page && x.uuid == s.parent[i].uuid ==>
         x == s.parent[i] || fetched < s.parent[i].modified
  }

  ghost predicate SweepInv(s: State, w: Sweep) {
    && w.start <= s.clock
    && (w.Fetching? || w.Importing? ==> w.since.Some? ==> w.since.value <= s.clock)
    && (w.Importing? ==> Current(s, w.page, w.fetched))
    && forall i :: 0 <= i < |s.parent| ==> Reaches(s.docs, s.parent, w, i)
  }

  ghost predicate CoveredNow(c: Config, s: State) {
    forall i, w :: 0 <= i < |s.parent| && Watermark(c, s) == Some(w) ==> Covered(s.docs, s.parent[i], w)
  }

  ghost predicate Coverage(c: Config, s: State) {
    && (Watermark(c, s).Some? ==> Watermark(c, s).value <= s.clock)
    && CoveredNow(c, s)
    && (forall k :: k in s.sweeps ==> SweepInv(s, s.sweeps[k]))
    && (forall k :: k in s.lookUps ==> Current(s, [s.lookUps[k].found], s.lookUps[k].fetched))
  }

  ghost predicate Inv(c: Config, s: State) {
    Formed(c, s) && Coverage(c, s)
  }

  // What was fetched is stored only while no sweep that started later is under way or has saved its watermark.
  ghost predicate Sound(c: Config) {
    forall fetched, bound :: c.allowed(fetched, bound) ==> bound <= fetched
  }

  // ---------------------------------------------------------------------------------------------
  // Writing what was fetched

  // Whatever a query finds differently afterwards is one of the identities written.
  ghost predicate IsOneOf(docs: seq<Doc>, uuid: string, xs: seq<Identity>) {
    exists x :: x in xs && x.uuid == uuid && Find(docs, uuid) == Some(Stored(x))
  }

  ghost predicate Written(docs: seq<Doc>, docs': seq<Doc>, xs: seq<Identity>) {
    && Extends(docs, docs')
    && forall u :: Find(docs', u) == Find(docs, u) || IsOneOf(docs', u, xs)
  }

  lemma PutWrites(canon: Canon, docs: seq<Doc>, x: Identity, target: Option<nat>, xs: seq<Identity>)
    requires Valid(canon, x) && Canonical(canon, docs) && TargetInv(docs, x.uuid, target) && x in xs
    ensures Written(docs, Put(docs, x, target), xs)
  {
    PutFinds(canon, docs, x, target);
  }

  lemma InsertWrites(canon: Canon, docs: seq<Doc>, added: seq<Identity>, xs: seq<Identity>)
    requires Proper(canon, added) && Canonical(canon, docs) && forall x :: x in added ==> x in xs
    ensures Written(docs, docs + StoredAll(added), xs)
  {
    InsertFinds(canon, docs, added);
    var docs' := docs + StoredAll(added);
    forall u
      ensures Find(docs', u) == Find(docs, u) || IsOneOf(docs', u, xs)
    {
      if x :| x in added && x.uuid == u {
        assert Find(docs', x.uuid) == Some(Stored(x)) || Find(docs', u) == Find(docs, u);
      }
    }
  }

  // A write of current versions uncovers nothing up to when they were fetched, and covers what it changes.
  lemma WriteKeepsCovered(s: State, docs': seq<Doc>, xs: seq<Identity>, fetched: int, i: nat, bound: int)
    requires Written(s.docs, docs', xs) && Current(s, xs, fetched) && i < |s.parent| && bound <= fetched
    ensures Covered(s.docs, s.parent[i], bound) ==> Covered(docs', s.parent[i], bound)
    ensures Find(docs', s.parent[i].uuid) != Find(s.docs, s.parent[i].uuid) ==> Covered(docs', s.parent[i], bound)
  {
  }

  lemma WriteKeepsSweep(s: State, docs': seq<Doc>, xs: seq<Identity>, fetched: int, w: Sweep)
    requires Written(s.docs, docs', xs) && Current(s, xs, fetched) && SweepInv(s, w) && w.start <= fetched
    ensures SweepInv(s.(docs := docs'), w)
  {
    forall i | 0 <= i < |s.parent|
      ensures Reaches(docs', s.parent, w, i)
    {
      assert Reaches(s.docs, s.parent, w, i);
      WriteKeepsCovered(s, docs', xs, fetched, i, w.start);
    }
  }

  // Every sweep, and the watermark, keeps what is said of it when something fetched is written.
  lemma WriteKeepsAll(c: Config, s: State, docs': seq<Doc>, xs: seq<Identity>, fetched: int)
    requires Sound(c) && Inv(c, s) && MayStore(c, s, fetched)
    requires Written(s.docs, docs', xs) && Current(s, xs, fetched)
    ensures forall k :: k in s.sweeps ==> SweepInv(s.(docs := docs'), s.sweeps[k])
    ensures CoveredNow(c, s.(docs := docs'))
  {
    forall k | k in s.sweeps
      ensures SweepInv(s.(docs := docs'), s.sweeps[k])
    {
      WriteKeepsSweep(s, docs', xs, fetched, s.sweeps[k]);
    }
    forall i, w | 0 <= i < |s.parent| && Watermark(c, s) == Some(w)
      ensures Covered(docs', s.parent[i], w)
    {
      WriteKeepsCovered(s, docs', xs, fetched, i, w);
    }
  }

  lemma InsertKeepsAll(c: Config, s: State, k: int)
    requires Sound(c) && Inv(c, s) && Enabled(c, s, InsertNew(k))
    ensures var s1, w := s.(docs := Next(c, s, InsertNew(k)).docs), s.sweeps[k];
      && (forall j :: j in s.sweeps ==> SweepInv(s1, s.sweeps[j])) && CoveredNow(c, s1)
      && Inserted(s.docs, s1.docs, Fresh(w.page, w.work.ids))
  {
    var w := s.sweeps[k];
    var added := Fresh(w.page, w.work.ids);
    assert SweepInv(s, w) && SweepFormed(c.canon, s.docs, w);
    PartsAreProper(c.canon, w.page, w.work.ids);
    InsertFinds(c.canon, s.docs, added);
    if added == [] {
      assert s.docs + StoredAll(added) == s.docs;
    } else {
      InsertWrites(c.canon, s.docs, added, w.page);
      WriteKeepsAll(c, s, s.docs + StoredAll(added), w.page, w.fetched);
    }
  }

  lemma InsertNewKeeps(c: Config, s: State, k: int)
    requires Sound(c) && Inv(c, s) && Enabled(c, s, InsertNew(k))
    ensures Coverage(c, Next(c, s, InsertNew(k)))
  {
    var s', w := Next(c, s, InsertNew(k)), s.sweeps[k];
    InsertKeepsAll(c, s, k);
    NextPartInv(s.(docs := s'.docs), w, Old(w.page, w.work.ids));
    SweepsReplaced(s.(docs := s'.docs), s', k);
  }

  lemma SweepsReplaced(s: State, s': State, k: int)
    requires s'.parent == s.parent && s'.docs == s.docs && s'.clock == s.clock && s'.sweeps - {k} == s.sweeps - {k}
    requires forall j :: j in s.sweeps ==> SweepInv(s, s.sweeps[j])
    ensures forall j :: j in s'.sweeps && j != k ==> SweepInv(s', s'.sweeps[j])
    ensures forall w :: SweepInv(s, w) ==> SweepInv(s', w)
  {
    forall j | j in s'.sweeps && j != k
      ensures SweepInv(s', s'.sweeps[j])
    {
      assert j in s'.sweeps - {k} && j in s.sweeps - {k};
      assert SweepInv(s, s.sweeps[j]);
    }
  }

  // When a part of its page is stored, a sweep goes on with what is still due.
  lemma NextPartInv(s: State, w: Sweep, rest: seq<Identity>)
    requires SweepInv(s, w) && w.Importing?
    requires forall x :: x in s.parent && Due(s.docs, w.page, w.work, x) ==> x in rest || InSync(s.docs, x)
    ensures SweepInv(s, Resumed(w, rest))
  {
    forall i | 0 <= i < |s.parent|
      ensures Reaches(s.docs, s.parent, Resumed(w, rest), i)
    {
      assert Reaches(s.docs, s.parent, w, i) && s.parent[i] in s.parent;
    }
  }

  lemma UpdateKeepsAll(c: Config, s: State, k: int)
    requires Sound(c) && Inv(c, s) && Enabled(c, s, UpdateNext(k))
    ensures var s1, w := s.(docs := Next(c, s, UpdateNext(k)).docs), s.sweeps[k];
      && (forall j :: j in s.sweeps ==> SweepInv(s1, s.sweeps[j])) && CoveredNow(c, s1)
      && Find(s1.docs, w.work.rest[0].uuid) ==
         if w.work.target == Locate(s.docs, w.work.rest[0].uuid) then Some(Stored(w.work.rest[0]))
         else Find(s.docs, w.work.rest[0].uuid)
  {
    var w := s.sweeps[k];
    assert SweepInv(s, w) && SweepFormed(c.canon, s.docs, w);
    PutWrites(c.canon, s.docs, w.work.rest[0], w.work.target, w.page);
    PutFinds(c.canon, s.docs, w.work.rest[0], w.work.target);
    WriteKeepsAll(c, s, Put(s.docs, w.work.rest[0], w.work.target), w.page, w.fetched);
  }

  lemma UpdateNextKeeps(c: Config, s: State, k: int)
    requires Sound(c) && Inv(c, s) && Enabled(c, s, UpdateNext(k))
    ensures Coverage(c, Next(c, s, UpdateNext(k)))
  {
    var s', w := Next(c, s, UpdateNext(k)), s.sweeps[k];
    assert SweepFormed(c.canon, s.docs, w);
    UpdateKeepsAll(c, s, k);
    NextPartInv(s.(docs := s'.docs), w, w.work.rest[1..]);
    SweepsReplaced(s.(docs := s'.docs), s', k);
  }

  lemma StoreOneKeeps(c: Config, s: State, k: int)
    requires Sound(c) && Inv(c, s) && Enabled(c, s, StoreOne(k))
    ensures Coverage(c, Next(c, s, StoreOne(k)))
  {
    var s', l := Next(c, s, StoreOne(k)), s.lookUps[k];
    PutWrites(c.canon, s.docs, l.found, l.target, [l.found]);
    WriteKeepsAll(c, s, s'.docs, [l.found], l.fetched);
  }

  // ---------------------------------------------------------------------------------------------
  // Asking and fetching

  lemma ReadExistingKeeps(c: Config, s: State, k: int)
    requires Inv(c, s) && Enabled(c, s, ReadExisting(k))
    ensures Coverage(c, Next(c, s, ReadExisting(k)))
  {
    var s' := Next(c, s, ReadExisting(k));
    assert SweepInv(s, s.sweeps[k]);
    forall i | 0 <= i < |s.parent|
      ensures Reaches(s.docs, s.parent, s'.sweeps[k], i)
    {
      assert Reaches(s.docs, s.parent, s.sweeps[k], i);
      FoundIffStored(s.docs, s.parent[i].uuid);
    }
    assert SweepInv(s', s'.sweeps[k]);
  }

  lemma FindNextKeeps(c: Config, s: State, k: int)
    requires Inv(c, s) && Enabled(c, s, FindNext(k))
    ensures Coverage(c, Next(c, s, FindNext(k)))
  {
    var s' := Next(c, s, FindNext(k));
    assert SweepInv(s, s.sweeps[k]);
    forall i | 0 <= i < |s.parent|
      ensures Reaches(s.docs, s.parent, s'.sweeps[k], i)
    {
      assert Reaches(s.docs, s.parent, s.sweeps[k], i);
    }
    assert SweepInv(s', s'.sweeps[k]);
  }

  // What the page does not reach lies at its end or beyond; there is none when the listing ends there.
  lemma PageReaches(s: State, w: Sweep, n: nat, i: nat)
    requires w.Fetching? && i < |s.parent| && Reaches(s.docs, s.parent, w, i)
    requires w.offset + n <= |Filtered(s.parent, w.since)|
    ensures Reaches(s.docs, s.parent, Holding(s, w, n), i)
  {
    if !Covered(s.docs, s.parent[i], w.start) {
      var listing, end := Filtered(s.parent, w.since), w.offset + n;
      FilteredAt(s.parent, w.since, i);
      var p := Position(s.parent, w.since, i);
      if p < end {
        assert listing[w.offset..end][p - w.offset] == s.parent[i];
      }
    }
  }

  lemma FetchedIsCurrent(c: Config, s: State, page: seq<Identity>)
    requires Proper(c.canon, s.parent) && forall x :: x in page ==> x in s.parent
    ensures Current(s, page, s.clock)
  {
  }

  lemma FetchPageKeeps(c: Config, s: State, k: int, n: nat)
    requires Inv(c, s) && Enabled(c, s, FetchPage(k, n))
    ensures Coverage(c, Fetch(s, k, n))
  {
    var s', w := Fetch(s, k, n), s.sweeps[k];
    assert SweepInv(s, w);
    if n > 0 {
      SliceIsProper(c.canon, s.parent, w.since, w.offset, w.offset + n);
      FetchedIsCurrent(c, s, Holding(s, w, n).page);
      forall i | 0 <= i < |s.parent|
        ensures Reaches(s.docs, s.parent, Holding(s, w, n), i)
      {
        PageReaches(s, w, n, i);
      }
      assert SweepInv(s', s'.sweeps[k]);
    }
  }

  lemma ReadWatermarkKeeps(c: Config, s: State, k: int)
    requires Inv(c, s) && Enabled(c, s, ReadWatermark(k))
    ensures Coverage(c, Next(c, s, ReadWatermark(k)))
  {
    assert SweepInv(s, s.sweeps[k]);
  }

  // ---------------------------------------------------------------------------------------------
  // Changes at the parent

  ghost predicate Grows(s: State, s': State) {
    && s' == s.(parent := s'.parent) && |s.parent| <= |s'.parent|
    && forall i :: 0 <= i < |s'.parent| ==>
         (i < |s.parent| && s'.parent[i] == s.parent[i]) || s.clock < s'.parent[i].modified
  }

  lemma GrowthKeepsCurrent(s: State, s': State, page: seq<Identity>, fetched: int)
    requires Grows(s, s') && Current(s, page, fetched)
    ensures Current(s', page, fetched)
  {
  }

  lemma GrowthReaches(c: Config, s: State, e: Step, w: Sweep, i: nat)
    requires (e.Add? || e.Change?) && Enabled(c, s, e) && SweepInv(s, w)
    requires i < |Next(c, s, e).parent|
    ensures Reaches(s.docs, Next(c, s, e).parent, w, i)
  {
    var parent' := Next(c, s, e).parent;
    if i < |s.parent| && parent'[i] == s.parent[i] {
      assert Reaches(s.docs, s.parent, w, i);
      if w.Fetching? || w.Importing? {
        match e
        case Add(x) => AddKeepsPositions(s.parent, w.since, x, i);
        case Change(at, x) => ChangeMovesForward(s.parent, w.since, at, x, i);
      }
    }
  }

  lemma GrowthKeeps(c: Config, s: State, e: Step)
    requires Inv(c, s) && (e.Add? || e.Change?) && Enabled(c, s, e)
    ensures Coverage(c, Next(c, s, e))
  {
    var s' := Next(c, s, e);
    assert Grows(s, s');
    forall k | k in s'.sweeps
      ensures SweepInv(s', s'.sweeps[k])
    {
      var w := s.sweeps[k];
      assert SweepInv(s, w);
      if w.Importing? {
        GrowthKeepsCurrent(s, s', w.page, w.fetched);
      }
      forall i | 0 <= i < |s'.parent|
        ensures Reaches(s'.docs, s'.parent, w, i)
      {
        GrowthReaches(c, s, e, w, i);
      }
    }
    forall k | k in s'.lookUps
      ensures Current(s', [s'.lookUps[k].found], s'.lookUps[k].fetched)
    {
      GrowthKeepsCurrent(s, s', [s.lookUps[k].found], s.lookUps[k].fetched);
    }
  }

  // ---------------------------------------------------------------------------------------------
  // The other steps, and every run

  lemma SaveWatermarkKeeps(c: Config, s: State, k: int)
    requires Inv(c, s) && Enabled(c, s, SaveWatermark(k))
    ensures Coverage(c, Next(c, s, SaveWatermark(k)))
  {
    var s' := Next(c, s, SaveWatermark(k));
    var start := s.sweeps[k].start;
    MongoKeys.WatermarkRoundTrip(s.info, c.host, start, c.host);
    assert SweepInv(s, s.sweeps[k]);
    forall i | 0 <= i < |s.parent|
      ensures Covered(s.docs, s.parent[i], start)
    {
      assert Reaches(s.docs, s.parent, s.sweeps[k], i);
    }
    forall j | j in s'.sweeps
      ensures SweepInv(s', s'.sweeps[j])
    {
      assert SweepInv(s, s.sweeps[j]);
    }
    forall j | j in s'.lookUps
      ensures Current(s', [s'.lookUps[j].found], s'.lookUps[j].fetched)
    {
      assert Current(s, [s.lookUps[j].found], s.lookUps[j].fetched);
    }
  }

  lemma TickKeeps(c: Config, s: State, now: int)
    requires Inv(c, s) && Enabled(c, s, Tick(now))
    ensures Coverage(c, Next(c, s, Tick(now)))
  {
    var s' := Next(c, s, Tick(now));
    forall j | j in s'.sweeps
      ensures SweepInv(s', s'.sweeps[j])
    {
      assert SweepInv(s, s.sweeps[j]);
    }
  }

  // Steps that only begin or end something, or locate a document.
  lemma QuietStepKeeps(c: Config, s: State, e: Step)
    requires Inv(c, s) && Enabled(c, s, e)
    requires e.Begin? || e.Abort? || e.FetchOne? || e.FindOne? || e.GiveUp?
    ensures Coverage(c, Next(c, s, e))
  {
    var s' := Next(c, s, e);
    forall j | j in s'.sweeps
      ensures SweepInv(s', s'.sweeps[j])
    {
      if j in s.sweeps {
        assert SweepInv(s, s.sweeps[j]);
      }
    }
    forall j | j in s'.lookUps
      ensures Current(s', [s'.lookUps[j].found], s'.lookUps[j].fetched)
    {
      if j in s.lookUps && !e.FetchOne? {
        assert Current(s, [s.lookUps[j].found], s.lookUps[j].fetched);
      }
    }
  }

  lemma StepKeepsCoverage(c: Config, s: State, e: Step)
    requires Sound(c) && Inv(c, s) && Enabled(c, s, e)
    ensures Coverage(c, Next(c, s, e))
  {
    match e
    case Tick(now) => TickKeeps(c, s, now);
    case Add(_) => GrowthKeeps(c, s, e);
    case Change(_, _) => GrowthKeeps(c, s, e);
    case ReadWatermark(k) => ReadWatermarkKeeps(c, s, k);
    case FetchPage(k, n) => FetchPageKeeps(c, s, k, n);
    case ReadExisting(k) => ReadExistingKeeps(c, s, k);
    case InsertNew(k) => InsertNewKeeps(c, s, k);
    case FindNext(k) => FindNextKeeps(c, s, k);
    case UpdateNext(k) => UpdateNextKeeps(c, s, k);
    case SaveWatermark(k) => SaveWatermarkKeeps(c, s, k);
    case StoreOne(k) => StoreOneKeeps(c, s, k);
    case _ => QuietStepKeeps(c, s, e);
  }

  /** Sync invariant: when what was fetched is stored only while no sweep that started later is under way or has saved
      its watermark, then in every state of every run an identity of the parent either has its current version stored
      locally or was modified after the saved watermark, so the next sweep will ask for it. */
  lemma {:induction false} SyncInvariant(c: Config, states: seq<State>, steps: seq<Step>, n: nat)
    requires Sound(c) && Run(c, states, steps) && n < |states|
    ensures Inv(c, states[n]) && CoveredNow(c, states[n])
    decreases n
  {
    if n > 0 {
      SyncInvariant(c, states, steps, n - 1);
      assert LeadsTo(c)(states[n - 1], steps[n - 1], states[n]);
      StepKeepsFormed(c, states[n - 1], steps[n - 1]);
      StepKeepsCoverage(c, states[n - 1], steps[n - 1]);
    }
  }

  // ---------------------------------------------------------------------------------------------
  // When what was fetched may be stored, exactly

  // What was fetched after every start may always be stored.
  ghost predicate FreshAllowed(c: Config) {
    forall fetched, bound :: bound <= fetched ==> c.allowed(fetched, bound)
  }

  function Version(uuid: string, modified: int): Identity {
    Identity(uuid, [], 0, modified, false, None)
  }

  // An identity is looked up at time `at` and changes right after; later a sweep begins.
  lemma LookUpThenSweep(c: Config, uuid: string, at: int, start: int) returns (states: seq<State>, steps: seq<Step>)
    requires Idempotent(c.canon) && c.canon(uuid) == Some(uuid) && at < start
    ensures Run(c, states, steps)
    ensures Final(states) == State([Version(uuid, at + 1)], [], map[], start, map[1 := Fetching(start, None, 0)],
                                   map[1 := Fetched(Version(uuid, at), at)])
  {
    states, steps := [State([Version(uuid, at)], [], map[], at, map[], map[])], [];
    states, steps := ParentSync.Extend(c, states, steps, FetchOne(1, 0));
    states, steps := ParentSync.Extend(c, states, steps, Change(0, Version(uuid, at + 1)));
    states, steps := ParentSync.Extend(c, states, steps, Tick(start));
    states, steps := ParentSync.Extend(c, states, steps, Begin(1));
    states, steps := ParentSync.Extend(c, states, steps, ReadWatermark(1));
  }

  lemma FilteredOne(x: Identity)
    ensures Filtered([x], None) == [x]
  {
  }

  // The sweep fetches the new version and finds that its uuid is not stored.
  lemma SweepAsks(c: Config, before: seq<State>, taken: seq<Step>, x: Identity, start: int,
                  lookUps: map<int, LookUp>)
    returns (states: seq<State>, steps: seq<Step>)
    requires Path(LeadsTo(c), before, taken) && forall k :: k in lookUps ==> lookUps[k].Fetched?
    requires Final(before) == State([x], [], map[], start, map[1 := Fetching(start, None, 0)], lookUps)
    ensures Path(LeadsTo(c), states, steps) && states[0] == before[0]
    ensures Final(states) == State([x], [], map[], start,
                                   map[1 := Importing(start, None, 1, [x], start, true, Inserting({}))], lookUps)
  {
    FilteredOne(x);
    assert [x][0..1] == [x];
    var w := Importing(start, None, 1, [x], start, true, Asking);
    assert Holding(Final(before), Final(before).sweeps[1], 1) == w;
    states, steps := ParentSync.Extend(c, before, taken, FetchPage(1, 1));
    assert Final(states).sweeps == map[1 := w];
    assert !Storing(Final(states), x.uuid);
    assert Uuids([]) == {};
    states, steps := ParentSync.Extend(c, states, steps, ReadExisting(1));
  }

  // It inserts it.
  lemma SweepImports(c: Config, before: seq<State>, taken: seq<Step>, x: Identity, start: int,
                     lookUps: map<int, LookUp>)
    returns (states: seq<State>, steps: seq<Step>)
    requires Path(LeadsTo(c), before, taken) && c.allowed(start, start)
    requires forall k :: k in lookUps ==> lookUps[k].Fetched?
    requires Final(before) == State([x], [], map[], start, map[1 := Fetching(start, None, 0)], lookUps)
    ensures Path(LeadsTo(c), states, steps) && states[0] == before[0]
    ensures Final(states) == State([x], [Stored(x)], map[], start, map[1 := Saving(start)], lookUps)
  {
    states, steps := SweepAsks(c, before, taken, x, start, lookUps);
    OneFresh(x);
    states, steps := ParentSync.Extend(c, states, steps, InsertNew(1));
  }

  /** Where an identity may be stored though a sweep that started after it was fetched has saved its watermark, there is
      a run in which that replaces a newer version, and no sweep will ask for the newer one again: the next one is under
      way, and its listing is empty. */
  lemma LateLookUpIsNeverRepaired(c: Config, uuid: string, at: int, start: int)
    returns (states: seq<State>, steps: seq<Step>)
    requires Idempotent(c.canon) && c.canon(uuid) == Some(uuid) && FreshAllowed(c)
    requires c.allowed(at, start) && at < start
    ensures Run(c, states, steps)
    ensures var s, x := Final(states), Version(uuid, at + 1);
      && s.parent == [x] && Watermark(c, s) == Some(start) && !Covered(s.docs, x, start)
      && 2 in s.sweeps && s.sweeps[2].Fetching? && Filtered(s.parent, s.sweeps[2].since) == []
  {
    var found, x := Version(uuid, at), Version(uuid, at + 1);
    states, steps := LookUpThenSweep(c, uuid, at, start);
    states, steps := SweepImports(c, states, steps, x, start, map[1 := Fetched(found, at)]);
    MongoKeys.WatermarkRoundTrip(map[], c.host, start, c.host);
    states, steps := ParentSync.Extend(c, states, steps, SaveWatermark(1));
    assert !Storing(Final(states), uuid);
    assert Locate([Stored(x)], uuid) == Some(0);
    states, steps := ParentSync.Extend(c, states, steps, FindOne(1));
    states, steps := ParentSync.Extend(c, states, steps, StoreOne(1));
    assert Final(states).docs == [Stored(found)];
    states, steps := ParentSync.Extend(c, states, steps, Begin(2));
    states, steps := ParentSync.Extend(c, states, steps, ReadWatermark(2));
    assert Filtered([x], Some(start)) == [];
  }

  ghost predicate AlwaysCovered(c: Config) {
    forall states, steps :: Run(c, states, steps) ==> CoveredNow(c, Final(states))
  }

  /** Of all rules on when something fetched may be stored that let in what was fetched after every start, exactly those
      keep the sync invariant that let in nothing else: a store is safe from its fetch time, the starts of the sweeps
      under way and the watermark if and only if none of these is later than the fetch. */
  lemma StoreRuleIsExact(c: Config, uuid: string)
    requires Idempotent(c.canon) && c.canon(uuid) == Some(uuid) && FreshAllowed(c)
    ensures AlwaysCovered(c) <==> Sound(c)
  {
    if Sound(c) {
      forall states, steps | Run(c, states, steps)
        ensures CoveredNow(c, Final(states))
      {
        SyncInvariant(c, states, steps, |states| - 1);
      }
    } else {
      var at, start :| c.allowed(at, start) && at < start;
      var states, steps := LateLookUpIsNeverRepaired(c, uuid, at, start);
      assert !CoveredNow(c, Final(states)) by {
        var s := Final(states);
        assert !Covered(s.docs, s.parent[0], start);
      }
    }
  }
}
