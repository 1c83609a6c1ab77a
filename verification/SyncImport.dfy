/** The steps by which a sweep imports a page are those of `process_data`: undisturbed, they compute its function. */
module SyncImport {
  import opened Wrappers
  import opened ConsumerIdentities
  import opened PageImport
  import opened ParentSync
  import opened Runs

  // Finding and saving the identities one after the other.
  function UpdateAll(docs: seq<Doc>, rest: seq<Identity>): seq<Doc>
    decreases rest
  {
    if rest == [] then docs else UpdateAll(Put(docs, rest[0], Locate(docs, rest[0].uuid)), rest[1..])
  }

  lemma PageBehind(x: Identity, xs: seq<Identity>)
    ensures Page([x] + xs) == [Sent(x)] + Page(xs)
  {
  }

  lemma PageFirst(page: seq<Identity>)
    requires page != []
    ensures Page(page) == [Sent(page[0])] + Page(page[1..]) && Page(page)[1..] == Page(page[1..])
    ensures Page(page)[0].uuid == Some(page[0].uuid)
  {
  }

  lemma {:induction false} FreshOfPage(page: seq<Identity>, ids: set<string>)
    ensures New(Page(page), ids) == Page(Fresh(page, ids))
    decreases page
  {
    if page != [] {
      PageFirst(page);
      FreshOfPage(page[1..], ids);
      if page[0].uuid in ids {
        assert Fresh(page, ids) == Fresh(page[1..], ids);
      } else {
        PageBehind(page[0], Fresh(page[1..], ids));
      }
    }
  }

  lemma {:induction false} OldOfPage(page: seq<Identity>, ids: set<string>)
    ensures Known(Page(page), ids) == Page(Old(page, ids))
    decreases page
  {
    if page != [] {
      PageFirst(page);
      OldOfPage(page[1..], ids);
      if page[0].uuid in ids {
        PageBehind(page[0], Old(page[1..], ids));
      } else {
        assert Old(page, ids) == Old(page[1..], ids);
      }
    }
  }

  lemma {:induction false} PageConverts(canon: Canon, xs: seq<Identity>, now: int)
    requires Proper(canon, xs)
    ensures ConvertAll(canon, Page(xs), now) == Ok(StoredAll(xs))
    decreases xs
  {
    if xs != [] {
      var n := |xs| - 1;
      PageConverts(canon, xs[..n], now);
      SentConverts(canon, xs[n], now);
      ConvertOne(canon, Sent(xs[n]), now);
      ConvertAppends(canon, Page(xs[..n]), [Sent(xs[n])], now);
      assert Page(xs) == Page(xs[..n]) + [Sent(xs[n])];
    }
  }

  lemma {:induction false} PageUpdates(canon: Canon, docs: seq<Doc>, rest: seq<Identity>, now: int)
    requires Proper(canon, rest)
    ensures ApplyInOrder(canon, docs, Page(rest), now) == Outcome(UpdateAll(docs, rest), false)
    decreases rest
  {
    if rest != [] {
      PageFirst(rest);
      SentConverts(canon, rest[0], now);
      RestIsProper(canon, rest);
      PageUpdates(canon, Put(docs, rest[0], Locate(docs, rest[0].uuid)), rest[1..], now);
    }
  }

  lemma ImportIsUpdateAll(canon: Canon, docs: seq<Doc>, page: seq<Identity>, now: int)
    requires Proper(canon, page)
    ensures var ids := Uuids(docs);
      ImportPage(canon, docs, Page(page), now) ==
      Outcome(UpdateAll(docs + StoredAll(Fresh(page, ids)), Old(page, ids)), false)
  {
    var ids := Uuids(docs);
    FreshOfPage(page, ids);
    OldOfPage(page, ids);
    PartsAreProper(canon, page, ids);
    PageConverts(canon, Fresh(page, ids), now);
    PageUpdates(canon, docs + StoredAll(Fresh(page, ids)), Old(page, ids), now);
  }

  // No other process stores an identity of the page.
  ghost predicate Undisturbed(s: State, k: int, page: seq<Identity>) {
    && (forall j, x :: j in s.sweeps && j != k && x in page ==> !SweepStores(s.sweeps[j], x.uuid))
    && (forall j, x :: j in s.lookUps && x in page ==> !LookUpStores(s.lookUps[j], x.uuid))
  }

  // Some steps lead from the one state to the other.
  ghost predicate Leads(c: Config, s: State, s': State) {
    exists states, steps :: Path(LeadsTo(c), states, steps) && states[0] == s && Final(states) == s'
  }

  lemma LeadsOn(c: Config, s: State, s': State, e: Step)
    requires s == s' || Leads(c, s, s')
    requires Enabled(c, s', e)
    ensures Leads(c, s, Next(c, s', e))
  {
    var states, steps := [s], [];
    if s != s' {
      states, steps :| Path(LeadsTo(c), states, steps) && states[0] == s && Final(states) == s';
    }
    states, steps := ParentSync.Extend(c, states, steps, e);
  }

  // What the sweep does changes neither what may be stored nor who else stores what.
  lemma SameStarts(c: Config, s: State, s': State, k: int, w: Sweep, page: seq<Identity>, rest: seq<Identity>)
    requires k in s.sweeps && s'.sweeps == s.sweeps[k := w] && w.start == s.sweeps[k].start
    requires s'.lookUps == s.lookUps && s'.info == s.info
    requires Undisturbed(s, k, page) && forall x :: x in rest ==> x in page
    ensures Undisturbed(s', k, rest)
    ensures forall fetched :: MayStore(c, s, fetched) ==> MayStore(c, s', fetched)
  {
  }

  // The state in which the sweep has come to some point of its page.
  function At(s: State, docs: seq<Doc>, k: int, w: Sweep): State {
    s.(docs := docs, sweeps := s.sweeps[k := w])
  }

  lemma AtAgain(s: State, docs: seq<Doc>, docs': seq<Doc>, k: int, w: Sweep, w': Sweep)
    ensures At(At(s, docs, k, w), docs', k, w') == At(s, docs', k, w')
  {
    assert s.sweeps[k := w][k := w'] == s.sweeps[k := w'];
  }

  // Finding and saving the next identity.
  lemma SoloUpdate(c: Config, s: State, s1: State, k: int, w: Sweep, rest: seq<Identity>)
    requires (s == s1 || Leads(c, s, s1)) && k in s1.sweeps && w == s1.sweeps[k] && w.Importing?
    requires w.work == Updating(rest) && rest != [] && MayStore(c, s1, w.fetched) && Undisturbed(s1, k, rest)
    ensures Leads(c, s, At(s1, Put(s1.docs, rest[0], Locate(s1.docs, rest[0].uuid)), k, Resumed(w, rest[1..])))
  {
    var found := w.(work := Found(rest, Locate(s1.docs, rest[0].uuid)));
    assert rest[0] in rest;
    LeadsOn(c, s, s1, FindNext(k));
    var s2 := At(s1, s1.docs, k, found);
    assert Next(c, s1, FindNext(k)) == s2;
    SameStarts(c, s1, s2, k, found, rest, []);
    LeadsOn(c, s, s2, UpdateNext(k));
    assert Resumed(found, rest[1..]) == Resumed(w, rest[1..]);
    AtAgain(s1, s1.docs, Put(s1.docs, rest[0], found.work.target), k, found, Resumed(w, rest[1..]));
  }

  lemma {:induction false} SoloUpdates(c: Config, s: State, s1: State, k: int, w: Sweep, rest: seq<Identity>)
    requires (s == s1 || Leads(c, s, s1)) && k in s1.sweeps && w == s1.sweeps[k] && w.Importing?
    requires w.work == Updating(rest) && rest != [] && MayStore(c, s1, w.fetched) && Undisturbed(s1, k, rest)
    ensures Leads(c, s, At(s1, UpdateAll(s1.docs, rest), k, Continued(w)))
    decreases rest
  {
    var docs := Put(s1.docs, rest[0], Locate(s1.docs, rest[0].uuid));
    SoloUpdate(c, s, s1, k, w, rest);
    if rest[1..] == [] {
      assert UpdateAll(s1.docs, rest) == UpdateAll(docs, rest[1..]) == docs;
    } else {
      var w2 := w.(work := Updating(rest[1..]));
      var s2 := At(s1, docs, k, w2);
      SameStarts(c, s1, s2, k, w2, rest, rest[1..]);
      SoloUpdates(c, s, s2, k, w2, rest[1..]);
      assert Continued(w2) == Continued(w);
      AtAgain(s1, docs, UpdateAll(s1.docs, rest), k, w2, Continued(w));
    }
  }

  // Asking which uuids are stored, and inserting the others.
  lemma SoloInsert(c: Config, s: State, k: int, w: Sweep)
    requires k in s.sweeps && w == s.sweeps[k] && w.Importing? && w.work.Asking?
    requires MayStore(c, s, w.fetched) && Undisturbed(s, k, w.page)
    ensures var ids := Uuids(s.docs);
      Leads(c, s, At(s, s.docs + StoredAll(Fresh(w.page, ids)), k, Resumed(w, Old(w.page, ids))))
  {
    var ids := Uuids(s.docs);
    var w1, rest := w.(work := Inserting(ids)), Old(w.page, ids);
    LeadsOn(c, s, s, ReadExisting(k));
    var s1 := At(s, s.docs, k, w1);
    assert Next(c, s, ReadExisting(k)) == s1;
    SameStarts(c, s, s1, k, w1, w.page, []);
    LeadsOn(c, s, s1, InsertNew(k));
    assert Resumed(w1, rest) == Resumed(w, rest);
    AtAgain(s, s.docs, s.docs + StoredAll(Fresh(w.page, ids)), k, w1, Resumed(w, rest));
  }

  /** Undisturbed, the steps of a sweep that holds a page lead to the collection that `process_data` computes. */
  lemma SoloImport(c: Config, s: State, k: int)
    requires Formed(c, s) && k in s.sweeps && s.sweeps[k].Importing? && s.sweeps[k].work.Asking?
    requires MayStore(c, s, s.sweeps[k].fetched) && Undisturbed(s, k, s.sweeps[k].page)
    ensures var w := s.sweeps[k];
      Leads(c, s, s.(docs := ImportPage(c.canon, s.docs, Page(w.page), s.clock).docs,
                     sweeps := s.sweeps[k := Continued(w)]))
  {
    var w, ids := s.sweeps[k], Uuids(s.docs);
    assert SweepFormed(c.canon, s.docs, w);
    ImportIsUpdateAll(c.canon, s.docs, w.page, s.clock);
    SoloInsert(c, s, k, w);
    SoloRest(c, s, k, w, s.docs + StoredAll(Fresh(w.page, ids)), Old(w.page, ids));
  }

  lemma SoloRest(c: Config, s: State, k: int, w: Sweep, docs: seq<Doc>, rest: seq<Identity>)
    requires k in s.sweeps && w == s.sweeps[k] && w.Importing? && MayStore(c, s, w.fetched)
    requires Undisturbed(s, k, w.page) && forall x :: x in rest ==> x in w.page
    requires Leads(c, s, At(s, docs, k, Resumed(w, rest)))
    ensures Leads(c, s, At(s, UpdateAll(docs, rest), k, Continued(w)))
  {
    if rest != [] {
      var w2 := w.(work := Updating(rest));
      var s2 := At(s, docs, k, w2);
      SameStarts(c, s, s2, k, w2, w.page, rest);
      SoloUpdates(c, s, s2, k, w2, rest);
      assert Continued(w2) == Continued(w);
      AtAgain(s, docs, UpdateAll(docs, rest), k, w2, Continued(w));
    }
  }
}
