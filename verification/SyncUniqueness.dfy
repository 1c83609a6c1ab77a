/** When a sync from the parent keeps one document per uuid: `ConsumerIdentity` has no unique index, so that is a matter
    of who stores the uuid at the same time. */
module SyncUniqueness {
  import opened Wrappers
  import opened ConsumerIdentities
  import opened PageImport
  import opened ParentSync
  import opened Runs
  import SyncCoverage

  predicate AtMostOne(docs: seq<Doc>, uuid: string) {
    forall i, j :: 0 <= i < j < |docs| ==> docs[i].uuid != uuid || docs[j].uuid != uuid
  }

  // Whoever is about to store the uuid knows what is stored under it.
  ghost predicate SweepKnows(docs: seq<Doc>, w: Sweep, uuid: string) {
    SweepStores(w, uuid) ==>
      match w.work
      case Inserting(_) => Locate(docs, uuid).None?
      case Found(_, target) => Locate(docs, uuid) == target
      case _ => false
  }

  predicate LookUpKnows(docs: seq<Doc>, l: LookUp, uuid: string) {
    LookUpStores(l, uuid) ==> Locate(docs, uuid) == l.target
  }

  // No two processes store the uuid at a time.
  ghost predicate Alone(s: State, uuid: string) {
    && (forall j, k | j in s.sweeps && k in s.sweeps && j != k ::
          !(SweepStores(s.sweeps[j], uuid) && SweepStores(s.sweeps[k], uuid)))
    && (forall j, k | j in s.lookUps && k in s.lookUps && j != k ::
          !(LookUpStores(s.lookUps[j], uuid) && LookUpStores(s.lookUps[k], uuid)))
    && (forall j, k | j in s.sweeps && k in s.lookUps ::
          !(SweepStores(s.sweeps[j], uuid) && LookUpStores(s.lookUps[k], uuid)))
  }

  ghost predicate AllKnow(s: State, uuid: string) {
    && (forall k :: k in s.sweeps ==> SweepKnows(s.docs, s.sweeps[k], uuid))
    && (forall k :: k in s.lookUps ==> LookUpKnows(s.docs, s.lookUps[k], uuid))
  }

  ghost predicate Unique(s: State, uuid: string) {
    AtMostOne(s.docs, uuid) && Alone(s, uuid) && AllKnow(s, uuid)
  }

  // ---------------------------------------------------------------------------------------------
  // Writes

  lemma PutKeepsOne(canon: Canon, docs: seq<Doc>, x: Identity, target: Option<nat>, uuid: string)
    requires Valid(canon, x) && Canonical(canon, docs) && TargetInv(docs, x.uuid, target) && AtMostOne(docs, uuid)
    requires x.uuid == uuid ==> target == Locate(docs, uuid)
    ensures AtMostOne(Put(docs, x, target), uuid)
  {
  }

  lemma {:induction false} InsertKeepsOne(canon: Canon, docs: seq<Doc>, xs: seq<Identity>, uuid: string)
    requires Proper(canon, xs) && Canonical(canon, docs) && AtMostOne(docs, uuid)
    requires forall x :: x in xs && x.uuid == uuid ==> Locate(docs, uuid).None?
    ensures AtMostOne(docs + StoredAll(xs), uuid)
    decreases xs
  {
    if xs == [] {
      assert docs + [] == docs;
    } else {
      var n := |xs| - 1;
      var before := docs + StoredAll(xs[..n]);
      InsertKeepsOne(canon, docs, xs[..n], uuid);
      InsertFinds(canon, docs, xs[..n]);
      assert docs + StoredAll(xs) == Put(before, xs[n], None);
      assert xs == xs[..n] + [xs[n]];
      assert forall x :: x in xs[..n] ==> x.uuid != xs[n].uuid;
      PutKeepsOne(canon, before, xs[n], None, uuid);
    }
  }

  // Whoever was at it keeps at it, and nobody begins to store the uuid.
  ghost predicate NobodyBegins(s: State, s': State, uuid: string) {
    && (forall j :: j in s'.sweeps && SweepStores(s'.sweeps[j], uuid) ==>
          j in s.sweeps && s'.sweeps[j] == s.sweeps[j])
    && (forall j :: j in s'.lookUps && LookUpStores(s'.lookUps[j], uuid) ==>
          j in s.lookUps && s'.lookUps[j] == s.lookUps[j])
  }

  lemma OthersKnow(s: State, s': State, uuid: string)
    requires Alone(s, uuid) && AllKnow(s, uuid) && NobodyBegins(s, s', uuid)
    requires Locate(s'.docs, uuid) == Locate(s.docs, uuid) || !Storing(s', uuid)
    ensures Alone(s', uuid) && AllKnow(s', uuid)
  {
    forall k | k in s'.sweeps
      ensures SweepKnows(s'.docs, s'.sweeps[k], uuid)
    {
      if SweepStores(s'.sweeps[k], uuid) {
        assert SweepKnows(s.docs, s.sweeps[k], uuid);
      }
    }
  }

  lemma InsertedOne(c: Config, s: State, k: int, uuid: string)
    requires Formed(c, s) && Unique(s, uuid) && Enabled(c, s, InsertNew(k))
    ensures var docs' := Next(c, s, InsertNew(k)).docs;
      AtMostOne(docs', uuid) && (SweepStores(s.sweeps[k], uuid) || Locate(docs', uuid) == Locate(s.docs, uuid))
  {
    var w := s.sweeps[k];
    var added := Fresh(w.page, w.work.ids);
    assert SweepFormed(c.canon, s.docs, w) && SweepKnows(s.docs, w, uuid);
    PartsAreProper(c.canon, w.page, w.work.ids);
    InsertFinds(c.canon, s.docs, added);
    InsertKeepsOne(c.canon, s.docs, added, uuid);
  }

  lemma InsertNewKeeps(c: Config, s: State, k: int, uuid: string)
    requires Formed(c, s) && Unique(s, uuid) && Enabled(c, s, InsertNew(k))
    ensures Unique(Next(c, s, InsertNew(k)), uuid)
  {
    InsertedOne(c, s, k, uuid);
    SweepGoesOn(s, Next(c, s, InsertNew(k)), k, uuid, Old(s.sweeps[k].page, s.sweeps[k].work.ids));
  }

  // After its save a sweep is no longer storing.
  lemma SweepGoesOn(s: State, s': State, k: int, uuid: string, rest: seq<Identity>)
    requires Alone(s, uuid) && AllKnow(s, uuid) && k in s.sweeps && s.sweeps[k].Importing?
    requires s'.sweeps == s.sweeps[k := Resumed(s.sweeps[k], rest)] && s'.lookUps == s.lookUps
    requires SweepStores(s.sweeps[k], uuid) || Locate(s'.docs, uuid) == Locate(s.docs, uuid)
    ensures Alone(s', uuid) && AllKnow(s', uuid)
  {
    assert !SweepStores(s'.sweeps[k], uuid);
    OthersKnow(s, s', uuid);
  }

  lemma UpdatedOne(c: Config, s: State, k: int, uuid: string)
    requires Formed(c, s) && Unique(s, uuid) && Enabled(c, s, UpdateNext(k))
    ensures var docs' := Next(c, s, UpdateNext(k)).docs;
      AtMostOne(docs', uuid) && (SweepStores(s.sweeps[k], uuid) || Locate(docs', uuid) == Locate(s.docs, uuid))
  {
    var w := s.sweeps[k];
    assert SweepFormed(c.canon, s.docs, w) && SweepKnows(s.docs, w, uuid);
    PutFinds(c.canon, s.docs, w.work.rest[0], w.work.target);
    PutKeepsOne(c.canon, s.docs, w.work.rest[0], w.work.target, uuid);
  }

  lemma UpdateNextKeeps(c: Config, s: State, k: int, uuid: string)
    requires Formed(c, s) && Unique(s, uuid) && Enabled(c, s, UpdateNext(k))
    ensures Unique(Next(c, s, UpdateNext(k)), uuid)
  {
    UpdatedOne(c, s, k, uuid);
    SweepGoesOn(s, Next(c, s, UpdateNext(k)), k, uuid, s.sweeps[k].work.rest[1..]);
  }

  lemma StoreOneKeeps(c: Config, s: State, k: int, uuid: string)
    requires Formed(c, s) && Unique(s, uuid) && Enabled(c, s, StoreOne(k))
    ensures Unique(Next(c, s, StoreOne(k)), uuid)
  {
    var s', l := Next(c, s, StoreOne(k)), s.lookUps[k];
    PutFinds(c.canon, s.docs, l.found, l.target);
    PutKeepsOne(c.canon, s.docs, l.found, l.target, uuid);
    OthersKnow(s, s', uuid);
  }

  // ---------------------------------------------------------------------------------------------
  // Queries, and the other steps

  lemma ReadExistingKeeps(c: Config, s: State, k: int, uuid: string)
    requires uuid in c.serial && Formed(c, s) && Unique(s, uuid) && Enabled(c, s, ReadExisting(k))
    ensures Unique(Next(c, s, ReadExisting(k)), uuid)
  {
    FoundIffStored(s.docs, uuid);
  }

  lemma QueryKeeps(c: Config, s: State, e: Step, uuid: string)
    requires uuid in c.serial && Formed(c, s) && Unique(s, uuid) && (e.FindNext? || e.FindOne?) && Enabled(c, s, e)
    ensures Unique(Next(c, s, e), uuid)
  {
  }

  lemma QuietStepKeeps(c: Config, s: State, e: Step, uuid: string)
    requires Formed(c, s) && Unique(s, uuid) && Enabled(c, s, e)
    requires !Writes(e) && !e.ReadExisting? && !e.FindNext? && !e.FindOne?
    ensures Unique(Next(c, s, e), uuid)
  {
  }

  lemma StepKeepsUnique(c: Config, s: State, e: Step, uuid: string)
    requires uuid in c.serial && Formed(c, s) && Unique(s, uuid) && Enabled(c, s, e)
    ensures Unique(Next(c, s, e), uuid)
  {
    match e
    case InsertNew(k) => InsertNewKeeps(c, s, k, uuid);
    case UpdateNext(k) => UpdateNextKeeps(c, s, k, uuid);
    case StoreOne(k) => StoreOneKeeps(c, s, k, uuid);
    case ReadExisting(k) => ReadExistingKeeps(c, s, k, uuid);
    case FindNext(_) => QueryKeeps(c, s, e, uuid);
    case FindOne(_) => QueryKeeps(c, s, e, uuid);
    case _ => QuietStepKeeps(c, s, e, uuid);
  }

  lemma {:induction false} RunKeepsUnique(c: Config, states: seq<State>, steps: seq<Step>, n: nat, uuid: string)
    requires uuid in c.serial && Run(c, states, steps) && n < |states| && AtMostOne(states[0].docs, uuid)
    ensures Formed(c, states[n]) && Unique(states[n], uuid)
    decreases n
  {
    if n > 0 {
      RunKeepsUnique(c, states, steps, n - 1, uuid);
      assert LeadsTo(c)(states[n - 1], steps[n - 1], states[n]);
      StepKeepsFormed(c, states[n - 1], steps[n - 1]);
      StepKeepsUnique(c, states[n - 1], steps[n - 1], uuid);
    }
  }

  // ---------------------------------------------------------------------------------------------
  // The failing run, and the exact condition

  // A sweep has asked which uuids are stored, and found none.
  lemma SweepAsks(c: Config, x: Identity) returns (states: seq<State>, steps: seq<Step>)
    requires Idempotent(c.canon) && Valid(c.canon, x)
    ensures Run(c, states, steps) && states[0].docs == []
    ensures Final(states) == State([x], [], map[], 0, map[1 := Importing(0, None, 1, [x], 0, true, Inserting({}))],
                                   map[])
  {
    states, steps := [State([x], [], map[], 0, map[], map[])], [];
    states, steps := ParentSync.Extend(c, states, steps, Begin(1));
    states, steps := ParentSync.Extend(c, states, steps, ReadWatermark(1));
    states, steps := SyncCoverage.SweepAsks(c, states, steps, x, 0, map[]);
  }

  /** Between the existence query and the bulk insert of a page, a lookup stores one of its identities: it is inserted a
      second time. */
  lemma LookUpDuringImport(c: Config, x: Identity) returns (states: seq<State>, steps: seq<Step>)
    requires Idempotent(c.canon) && Valid(c.canon, x) && c.allowed(0, 0) && x.uuid !in c.serial
    ensures Run(c, states, steps) && states[0].docs == []
    ensures Final(states).docs == [Stored(x), Stored(x)]
  {
    states, steps := SweepAsks(c, x);
    var w := Final(states).sweeps[1];
    states, steps := ParentSync.Extend(c, states, steps, FetchOne(1, 0));
    assert Locate([], x.uuid) == None;
    states, steps := ParentSync.Extend(c, states, steps, FindOne(1));
    states, steps := ParentSync.Extend(c, states, steps, StoreOne(1));
    assert Final(states).docs == [Stored(x)];
    OneFresh(x);
    states, steps := ParentSync.Extend(c, states, steps, InsertNew(1));
  }

  ghost predicate AlwaysOne(c: Config, uuid: string) {
    forall states: seq<State>, steps :: Run(c, states, steps) && AtMostOne(states[0].docs, uuid) ==>
      AtMostOne(Final(states).docs, uuid)
  }

  /** One document per uuid: it is kept in all runs if and only if stores of the uuid, each from its query to its save,
      do not overlap. */
  lemma OneDocIffSerial(c: Config, uuid: string)
    requires Idempotent(c.canon) && c.canon(uuid) == Some(uuid) && c.allowed(0, 0)
    ensures AlwaysOne(c, uuid) <==> uuid in c.serial
  {
    if uuid in c.serial {
      forall states: seq<State>, steps | Run(c, states, steps) && AtMostOne(states[0].docs, uuid)
        ensures AtMostOne(Final(states).docs, uuid)
      {
        RunKeepsUnique(c, states, steps, |states| - 1, uuid);
      }
    } else {
      var x := SyncCoverage.Version(uuid, 0);
      var states, steps := LookUpDuringImport(c, x);
      var docs := Final(states).docs;
      assert docs[0].uuid == docs[1].uuid == uuid;
      assert Run(c, states, steps) && AtMostOne(states[0].docs, uuid) && !AtMostOne(docs, uuid);
    }
  }
}
