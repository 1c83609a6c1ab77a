/** End-to-end delivery of product usage: senders query, send, wait and mark; receivers import record by record;
    either side may crash, and a request or its answer may be lost, at any step. */
module UsageDelivery {
  import opened Runs
  import opened UsageUpload

  // An upload at the sender, and the request it leaves at the receiver.
  datatype Phase = Ready | Waiting | Marking(done: nat)

  datatype Upload = Upload(to: Endpoint, batch: seq<int>, phase: Phase)

  datatype Request = Request(at: Endpoint, batch: seq<int>, records: seq<Usage>, done: nat, failed: bool)

  datatype State = State(usages: Usages, stores: map<Endpoint, seq<Usage>>, uploads: map<int, Upload>,
                         requests: map<int, Request>)

  // `sources` are the splice servers whose usage reaches the receivers through this sender only.
  datatype Config = Config(endpoints: set<Endpoint>, limit: nat, sources: set<string>)

  function StoreOf(s: State, e: Endpoint): seq<Usage> {
    if e in s.stores then s.stores[e] else []
  }

  datatype Step =
    | CheckIn(id: int, usage: Usage)
    | Query(upload: int, to: Endpoint, batch: seq<int>)
    | Send(upload: int)
    | ImportOne(upload: int, how: Attempt)
    | Answer(upload: int)
    | MarkOne(upload: int)
    | Finish(upload: int)
    | SenderCrash(upload: int)
    | ReceiverCrash(upload: int)
    | OtherImport(at: Endpoint, record: Usage)

  ghost predicate Enabled(c: Config, s: State, e: Step) {
    match e
    case CheckIn(id, u) =>
      id !in s.usages && u.tracker == {}
      && forall k :: k in s.usages ==> s.usages[k].Key() != u.Key()
    case Query(k, to, batch) =>
      k !in s.uploads && k !in s.requests && to in c.endpoints && IsBatch(s.usages, to.addr, c.limit, batch)
    case Send(k) =>
      k in s.uploads && s.uploads[k].phase == Ready && k !in s.requests
      && forall i :: 0 <= i < |s.uploads[k].batch| ==> s.uploads[k].batch[i] in s.usages
    case ImportOne(k, _) => k in s.requests && s.requests[k].done < |s.requests[k].records|
    case Answer(k) =>
      k in s.requests && s.requests[k].done == |s.requests[k].records|
      && (k in s.uploads ==> s.uploads[k].phase == Waiting)
    case MarkOne(k) =>
      k in s.uploads && s.uploads[k].phase.Marking? && s.uploads[k].phase.done < |s.uploads[k].batch|
    case Finish(k) =>
      k in s.uploads && s.uploads[k].phase == Marking(|s.uploads[k].batch|)
    case SenderCrash(k) => k in s.uploads
    case ReceiverCrash(k) => k in s.requests
    case OtherImport(_, r) => r.spliceServer !in c.sources
  }

  // The request ends with a status. The sender marks what it takes for sent; an answer to one that is gone is lost.
  function Replied(s: State, k: int, status: int): State {
    var s' := s.(requests := s.requests - {k});
    if k !in s.uploads then s'
    else if Concluded(Status(status)) == Sent then s'.(uploads := s.uploads[k := s.uploads[k].(phase := Marking(0))])
    else s'.(uploads := s.uploads - {k})
  }

  function Next(c: Config, s: State, e: Step): State
    requires Enabled(c, s, e)
  {
    match e
    case CheckIn(id, u) => s.(usages := s.usages[id := u])
    case Query(k, to, batch) => s.(uploads := s.uploads[k := Upload(to, batch, Ready)])
    case Send(k) =>
      var u := s.uploads[k];
      s.(uploads := s.uploads[k := u.(phase := Waiting)],
         requests := s.requests[k := Request(u.to, u.batch, Records(s.usages, u.batch), 0, false)])
    case ImportOne(k, how) =>
      // A record that is not valid ends the request.
      if how.Invalid? then Replied(s, k, BAD_REQUEST)
      else
        var q := s.requests[k];
        s.(stores := s.stores[q.at := Save(StoreOf(s, q.at), q.records[q.done], how)],
           requests := s.requests[k := q.(done := q.done + 1, failed := q.failed || how.Fails?)])
    case Answer(k) => Replied(s, k, if s.requests[k].failed then CONFLICT else ACCEPTED)
    case MarkOne(k) =>
      var u := s.uploads[k];
      s.(usages := Mark(s.usages, u.batch[u.phase.done], u.to.addr),
         uploads := s.uploads[k := u.(phase := Marking(u.phase.done + 1))])
    case Finish(k) => s.(uploads := s.uploads - {k})
    case SenderCrash(k) => s.(uploads := s.uploads - {k})
    case ReceiverCrash(k) => s.(requests := s.requests - {k})
    case OtherImport(e, r) => s.(stores := s.stores[e := Save(StoreOf(s, e), r, Works)])
  }

  ghost predicate Init(s: State) {
    s.usages == map[] && s.stores == map[] && s.uploads == map[] && s.requests == map[]
  }

  ghost function LeadsTo(c: Config): (State, Step, State) -> bool {
    (s, e, s') => Enabled(c, s, e) && s' == Next(c, s, e)
  }

  ghost predicate Run(c: Config, states: seq<State>, steps: seq<Step>) {
    Path(LeadsTo(c), states, steps) && Init(states[0])
  }

  // ---------------------------------------------------------------------------------------------
  // The invariant

  // The receiver holds a record of this key; or this very record, as it was sent.
  predicate Has(store: seq<Usage>, u: Usage) {
    u.Key() in Keys(store)
  }

  predicate HasAsSent(store: seq<Usage>, u: Usage) {
    u.Bare() in store
  }

  // Every record marked for an endpoint's address is in that endpoint's store.
  ghost predicate Delivered(c: Config, s: State) {
    forall e, id :: e in c.endpoints && id in s.usages && e.addr in s.usages[id].tracker ==>
      Has(StoreOf(s, e), s.usages[id])
  }

  // No two configured endpoints share an address.
  ghost predicate DistinctAddresses(c: Config) {
    forall e, f :: e in c.endpoints && f in c.endpoints && e.addr == f.addr ==> e == f
  }

  ghost predicate OnePerKeySent(usages: Usages) {
    forall i, j :: i in usages && j in usages && i != j ==> usages[i].Key() != usages[j].Key()
  }

  ghost predicate FromSender(usages: Usages, r: Usage) {
    exists id :: id in usages && usages[id].Bare() == r
  }

  ghost predicate StoreInv(c: Config, usages: Usages, store: seq<Usage>) {
    OnePerKey(store) && forall r :: r in store && r.spliceServer in c.sources ==> FromSender(usages, r)
  }

  ghost predicate RequestInv(c: Config, s: State, q: Request) {
    && q.at in c.endpoints && q.done <= |q.records| && |q.records| == |q.batch|
    && (forall i :: 0 <= i < |q.batch| ==> q.batch[i] in s.usages && q.records[i] == s.usages[q.batch[i]].Bare())
    && (!q.failed ==> forall i :: 0 <= i < q.done ==> Has(StoreOf(s, q.at), q.records[i]))
  }

  ghost predicate UploadInv(c: Config, s: State, k: int, u: Upload) {
    && u.to in c.endpoints
    && (forall i :: 0 <= i < |u.batch| ==> u.batch[i] in s.usages)
    && (u.phase == Waiting && k in s.requests ==> s.requests[k].at == u.to && s.requests[k].batch == u.batch)
    && (u.phase == Ready ==> k !in s.requests)
    && (u.phase.Marking? ==> forall i :: 0 <= i < |u.batch| ==> Has(StoreOf(s, u.to), s.usages[u.batch[i]]))
  }

  ghost predicate Inv(c: Config, s: State) {
    && OnePerKeySent(s.usages)
    && (forall e :: StoreInv(c, s.usages, StoreOf(s, e)))
    && (forall k :: k in s.requests ==> RequestInv(c, s, s.requests[k]))
    && (forall k :: k in s.uploads ==> UploadInv(c, s, k, s.uploads[k]))
    && Delivered(c, s)
  }

  predicate Keeps(usages: Usages, usages': Usages, id: int) {
    id in usages ==> id in usages' && usages'[id].Bare() == usages[id].Bare()
  }

  // What a step may do to a sender's records and the stores without disturbing the invariant's parts.
  ghost predicate Grows(s: State, s': State) {
    && (forall id :: Keeps(s.usages, s'.usages, id))
    && (forall e :: Keys(StoreOf(s, e)) <= Keys(StoreOf(s', e)))
  }

  lemma RequestKept(c: Config, s: State, s': State, q: Request)
    requires Grows(s, s') && RequestInv(c, s, q)
    ensures RequestInv(c, s', q)
  {
    forall i | 0 <= i < |q.batch|
      ensures q.batch[i] in s'.usages && q.records[i] == s'.usages[q.batch[i]].Bare()
    {
      assert Keeps(s.usages, s'.usages, q.batch[i]);
    }
  }

  lemma UploadKept(c: Config, s: State, s': State, k: int, u: Upload)
    requires Grows(s, s') && UploadInv(c, s, k, u)
    requires k in s'.requests ==> k in s.requests && s'.requests[k].at == s.requests[k].at
                                  && s'.requests[k].batch == s.requests[k].batch
    ensures UploadInv(c, s', k, u)
  {
    forall i | 0 <= i < |u.batch|
      ensures u.batch[i] in s'.usages
      ensures u.phase.Marking? ==> Has(StoreOf(s', u.to), s'.usages[u.batch[i]])
    {
      assert Keeps(s.usages, s'.usages, u.batch[i]);
      assert u.phase.Marking? ==> Has(StoreOf(s, u.to), s.usages[u.batch[i]]);
    }
  }

  lemma FromSenderKept(s: State, s': State, r: Usage)
    requires Grows(s, s') && FromSender(s.usages, r)
    ensures FromSender(s'.usages, r)
  {
    var id :| id in s.usages && s.usages[id].Bare() == r;
    assert Keeps(s.usages, s'.usages, id) && s'.usages[id].Bare() == r;
  }

  // ---------------------------------------------------------------------------------------------
  // Each step

  lemma CheckInKeepsInv(c: Config, s: State, id: int, u: Usage)
    requires Inv(c, s) && Enabled(c, s, CheckIn(id, u))
    ensures Inv(c, Next(c, s, CheckIn(id, u)))
  {
    var s' := Next(c, s, CheckIn(id, u));
    assert Grows(s, s');
    PartsKept(c, s, s');
    forall e, k | e in c.endpoints && k in s'.usages && e.addr in s'.usages[k].tracker
      ensures Has(StoreOf(s', e), s'.usages[k])
    {
      assert k in s.usages && Has(StoreOf(s, e), s.usages[k]);
    }
  }

  // Steps that leave requests alone, or only take some away, keep what is said of requests, uploads and stores.
  lemma PartsKept(c: Config, s: State, s': State)
    requires Inv(c, s) && Grows(s, s') && s'.stores == s.stores
    requires forall k :: k in s'.requests ==> k in s.requests && s'.requests[k] == s.requests[k]
    ensures forall k :: k in s'.requests ==> RequestInv(c, s', s'.requests[k])
    ensures forall k :: k in s.uploads ==> UploadInv(c, s', k, s.uploads[k])
    ensures forall e :: StoreInv(c, s'.usages, StoreOf(s', e))
  {
    forall k | k in s'.requests
      ensures RequestInv(c, s', s'.requests[k])
    {
      RequestKept(c, s, s', s.requests[k]);
    }
    forall k | k in s.uploads
      ensures UploadInv(c, s', k, s.uploads[k])
    {
      UploadKept(c, s, s', k, s.uploads[k]);
    }
    forall e
      ensures StoreInv(c, s'.usages, StoreOf(s', e))
    {
      assert StoreInv(c, s.usages, StoreOf(s, e)) && StoreOf(s', e) == StoreOf(s, e);
      forall r | r in StoreOf(s', e) && r.spliceServer in c.sources
        ensures FromSender(s'.usages, r)
      {
        FromSenderKept(s, s', r);
      }
    }
  }

  lemma SendKeepsInv(c: Config, s: State, k: int)
    requires Inv(c, s) && Enabled(c, s, Send(k))
    ensures Inv(c, Next(c, s, Send(k)))
  {
    var s' := Next(c, s, Send(k));
    assert Grows(s, s');
    assert UploadInv(c, s, k, s.uploads[k]);
    forall j | j in s'.uploads
      ensures UploadInv(c, s', j, s'.uploads[j])
    {
      if j != k {
        UploadKept(c, s, s', j, s.uploads[j]);
      }
    }
    forall j | j in s'.requests
      ensures RequestInv(c, s', s'.requests[j])
    {
      if j != k {
        RequestKept(c, s, s', s.requests[j]);
      }
    }
    forall e
      ensures StoreInv(c, s'.usages, StoreOf(s', e))
    {
      assert StoreInv(c, s.usages, StoreOf(s, e));
    }
    DeliveredKept(c, s, s');
  }

  // More in the stores and the same trackers: what was delivered stays delivered.
  lemma DeliveredKept(c: Config, s: State, s': State)
    requires Delivered(c, s) && s'.usages == s.usages && Grows(s, s')
    ensures Delivered(c, s')
  {
  }

  // A save that did not fail leaves the key in the store, and keeps what is there.
  lemma SavedKeyIsThere(store: seq<Usage>, r: Usage, how: Attempt)
    ensures Keys(store) <= Keys(Save(store, r, how))
    ensures how.Works? ==> Has(Save(store, r, how), r)
  {
    KeysOfMore(store, r);
  }

  lemma ImportOneKeepsInv(c: Config, s: State, k: int, how: Attempt)
    requires Inv(c, s) && Enabled(c, s, ImportOne(k, how)) && !how.Invalid?
    ensures Inv(c, Next(c, s, ImportOne(k, how)))
  {
    var s' := Next(c, s, ImportOne(k, how));
    var q := s.requests[k];
    var r := q.records[q.done];
    assert RequestInv(c, s, q) && StoreInv(c, s.usages, StoreOf(s, q.at));
    assert FromSender(s.usages, r) by {
      var id := q.batch[q.done];
      assert id in s.usages && s.usages[id].Bare() == r;
    }
    SavedKeyIsThere(StoreOf(s, q.at), r, how);
    assert Grows(s, s');
    forall j | j in s'.requests
      ensures RequestInv(c, s', s'.requests[j])
    {
      RequestKept(c, s, s', s.requests[j]);
    }
    forall j | j in s'.uploads
      ensures UploadInv(c, s', j, s'.uploads[j])
    {
      UploadKept(c, s, s', j, s.uploads[j]);
    }
    forall e
      ensures StoreInv(c, s'.usages, StoreOf(s', e))
    {
      assert StoreInv(c, s.usages, StoreOf(s, e));
      if e == q.at {
        SaveKeepsKeys(StoreOf(s, e), r, how);
      }
    }
    DeliveredKept(c, s, s');
  }

  lemma OtherImportKeepsInv(c: Config, s: State, at: Endpoint, r: Usage)
    requires Inv(c, s) && Enabled(c, s, OtherImport(at, r))
    ensures Inv(c, Next(c, s, OtherImport(at, r)))
  {
    var s' := Next(c, s, OtherImport(at, r));
    SavedKeyIsThere(StoreOf(s, at), r, Works);
    assert Grows(s, s');
    forall j | j in s'.requests
      ensures RequestInv(c, s', s'.requests[j])
    {
      RequestKept(c, s, s', s.requests[j]);
    }
    forall j | j in s'.uploads
      ensures UploadInv(c, s', j, s'.uploads[j])
    {
      UploadKept(c, s, s', j, s.uploads[j]);
    }
    forall e
      ensures StoreInv(c, s'.usages, StoreOf(s', e))
    {
      assert StoreInv(c, s.usages, StoreOf(s, e));
      if e == at {
        SaveKeepsKeys(StoreOf(s, e), r, Works);
      }
    }
    DeliveredKept(c, s, s');
  }

  lemma AnswerKeepsInv(c: Config, s: State, k: int)
    requires Inv(c, s) && Enabled(c, s, Answer(k))
    ensures Inv(c, Next(c, s, Answer(k)))
  {
    var s' := Next(c, s, Answer(k));
    PartsKept(c, s, s');
    DeliveredKept(c, s, s');
    if k in s'.uploads {
      var u, q := s.uploads[k], s.requests[k];
      assert UploadInv(c, s, k, u) && RequestInv(c, s, q);
      forall i | 0 <= i < |u.batch|
        ensures Has(StoreOf(s', u.to), s'.usages[u.batch[i]])
      {
        assert Has(StoreOf(s, q.at), q.records[i]);
      }
      assert UploadInv(c, s', k, s'.uploads[k]);
    }
  }

  lemma MarkOneKeepsInv(c: Config, s: State, k: int)
    requires DistinctAddresses(c) && Inv(c, s) && Enabled(c, s, MarkOne(k))
    ensures Inv(c, Next(c, s, MarkOne(k)))
  {
    var s' := Next(c, s, MarkOne(k));
    var u := s.uploads[k];
    var marked := u.batch[u.phase.done];
    assert UploadInv(c, s, k, u);
    assert Grows(s, s');
    PartsKept(c, s, s');
    forall j | j in s'.uploads
      ensures UploadInv(c, s', j, s'.uploads[j])
    {
      assert UploadInv(c, s', j, s.uploads[j]);
    }
    forall e, id | e in c.endpoints && id in s'.usages && e.addr in s'.usages[id].tracker
      ensures Has(StoreOf(s', e), s'.usages[id])
    {
      if e.addr in s.usages[id].tracker {
        assert Has(StoreOf(s, e), s.usages[id]);
      } else {
        assert id == marked && e == u.to;
        assert Has(StoreOf(s, u.to), s.usages[marked]);
      }
    }
  }

  lemma QueryKeepsInv(c: Config, s: State, k: int, to: Endpoint, batch: seq<int>)
    requires Inv(c, s) && Enabled(c, s, Query(k, to, batch))
    ensures Inv(c, Next(c, s, Query(k, to, batch)))
  {
    var s' := Next(c, s, Query(k, to, batch));
    PartsKept(c, s, s');
    DeliveredKept(c, s, s');
    assert UploadInv(c, s', k, s'.uploads[k]);
  }

  // A step that only takes an upload or a request away.
  lemma DropKeepsInv(c: Config, s: State, s': State)
    requires Inv(c, s) && s'.usages == s.usages && s'.stores == s.stores
    requires forall k :: k in s'.requests ==> k in s.requests && s'.requests[k] == s.requests[k]
    requires forall k :: k in s'.uploads ==> k in s.uploads && s'.uploads[k] == s.uploads[k]
    ensures Inv(c, s')
  {
    PartsKept(c, s, s');
    DeliveredKept(c, s, s');
  }

  lemma StepKeepsInv(c: Config, s: State, e: Step)
    requires DistinctAddresses(c) && Inv(c, s) && Enabled(c, s, e)
    ensures Inv(c, Next(c, s, e))
  {
    match e
    case CheckIn(id, u) => CheckInKeepsInv(c, s, id, u);
    case Send(k) => SendKeepsInv(c, s, k);
    case ImportOne(k, how) =>
      if how.Invalid? {
        DropKeepsInv(c, s, Next(c, s, e));
      } else {
        ImportOneKeepsInv(c, s, k, how);
      }
    case Answer(k) => AnswerKeepsInv(c, s, k);
    case MarkOne(k) => MarkOneKeepsInv(c, s, k);
    case Query(k, to, batch) => QueryKeepsInv(c, s, k, to, batch);
    case Finish(k) => DropKeepsInv(c, s, Next(c, s, e));
    case SenderCrash(k) => DropKeepsInv(c, s, Next(c, s, e));
    case ReceiverCrash(k) => DropKeepsInv(c, s, Next(c, s, e));
    case OtherImport(at, r) => OtherImportKeepsInv(c, s, at, r);
  }

  lemma {:induction false} RunKeepsInv(c: Config, states: seq<State>, steps: seq<Step>, n: nat)
    requires DistinctAddresses(c) && Run(c, states, steps) && n < |states|
    ensures Inv(c, states[n])
    decreases n
  {
    if n > 0 {
      RunKeepsInv(c, states, steps, n - 1);
      assert LeadsTo(c)(states[n - 1], steps[n - 1], states[n]);
      StepKeepsInv(c, states[n - 1], steps[n - 1]);
    } else {
      forall e
        ensures StoreInv(c, states[0].usages, StoreOf(states[0], e))
      {
      }
    }
  }

  /** Exactly-once effect: in every state of every run a marked record has its key exactly once in the store of the
      endpoint with that address. If the usage of its source reaches the receivers through this sender only, the record
      there is the one that was sent, and that store holds nothing of the source that this sender did not send. */
  lemma ExactlyOnce(c: Config, states: seq<State>, steps: seq<Step>, n: nat, e: Endpoint, id: int)
    requires DistinctAddresses(c) && Run(c, states, steps) && n < |states|
    requires e in c.endpoints && id in states[n].usages && e.addr in states[n].usages[id].tracker
    ensures var store, u := StoreOf(states[n], e), states[n].usages[id];
      && OnePerKey(store)
      && (exists i :: 0 <= i < |store| && store[i].Key() == u.Key()
           && forall j :: 0 <= j < |store| && store[j].Key() == u.Key() ==> j == i)
      && (u.spliceServer in c.sources ==> HasAsSent(store, u))
      && forall r :: r in store && r.spliceServer in c.sources ==> FromSender(states[n].usages, r)
  {
    var s := states[n];
    RunKeepsInv(c, states, steps, n);
    var store, u := StoreOf(s, e), s.usages[id];
    assert StoreInv(c, s.usages, store) && Has(store, u);
    var r :| r in store && r.Key() == u.Key();
    var i :| 0 <= i < |store| && store[i] == r;
    forall j | 0 <= j < |store| && store[j].Key() == u.Key()
      ensures j == i
    {
      assert store[i].Key() == store[j].Key();
    }
    if u.spliceServer in c.sources {
      assert r.spliceServer == u.spliceServer;
      var sent :| sent in s.usages && s.usages[sent].Bare() == r;
      assert s.usages[sent].Key() == u.Key();
    }
  }

  // ---------------------------------------------------------------------------------------------
  // What delivery needs, exactly

  lemma Extend(c: Config, states: seq<State>, steps: seq<Step>, e: Step)
    returns (states': seq<State>, steps': seq<Step>)
    requires Run(c, states, steps) && Enabled(c, Final(states), e)
    ensures Run(c, states', steps') && Final(states') == Next(c, Final(states), e)
  {
    states', steps' := Runs.Extend(LeadsTo(c), states, steps, e, Next(c, Final(states), e));
  }

  lemma CheckInAndSend(c: Config, before: seq<State>, taken: seq<Step>, e: Endpoint, u: Usage)
    returns (states: seq<State>, steps: seq<Step>)
    requires Run(c, before, taken) && Final(before) == State(map[], Final(before).stores, map[], map[])
    requires e in c.endpoints && u.tracker == {}
    ensures Run(c, states, steps)
    ensures Final(states) == State(map[1 := u], Final(before).stores, map[1 := Upload(e, [1], Waiting)],
                                   map[1 := Request(e, [1], [u], 0, false)])
  {
    states, steps := Extend(c, before, taken, CheckIn(1, u));
    assert Pending(map[1 := u], e.addr) == {1};
    assert IsBatch(map[1 := u], e.addr, c.limit, [1]);
    states, steps := Extend(c, states, steps, Query(1, e, [1]));
    assert Records(map[1 := u], [1]) == [u];
    states, steps := Extend(c, states, steps, Send(1));
  }

  // One record is sent to one endpoint and marked with its address.
  lemma DeliverOne(c: Config, before: seq<State>, taken: seq<Step>, e: Endpoint, u: Usage)
    returns (states: seq<State>, steps: seq<Step>)
    requires Run(c, before, taken) && Final(before) == State(map[], Final(before).stores, map[], map[])
    requires e in c.endpoints && u.tracker == {}
    ensures Run(c, states, steps)
    ensures Final(states).usages == map[1 := u.(tracker := {e.addr})]
    ensures Final(states).stores == Final(before).stores[e := Save(StoreOf(Final(before), e), u, Works)]
  {
    states, steps := CheckInAndSend(c, before, taken, e, u);
    states, steps := Extend(c, states, steps, ImportOne(1, Works));
    states, steps := Extend(c, states, steps, Answer(1));
    assert Final(states).uploads[1] == Upload(e, [1], Marking(0));
    states, steps := Extend(c, states, steps, MarkOne(1));
    assert Final(states).usages == Mark(map[1 := u], 1, e.addr);
    assert u.tracker + {e.addr} == {e.addr};
  }

  // A record is sent to `e` and marked with its address; an endpoint `f` with that address is never sent it.
  lemma SharedAddressLoses(c: Config, e: Endpoint, f: Endpoint)
    returns (states: seq<State>, steps: seq<Step>)
    requires e in c.endpoints && f in c.endpoints && e != f && e.addr == f.addr
    ensures Run(c, states, steps) && !Delivered(c, Final(states))
  {
    var u := Usage("consumer", "server", 0, "instance", "", {});
    states, steps := DeliverOne(c, [State(map[], map[], map[], map[])], [], e, u);
    assert !Has(StoreOf(Final(states), f), Final(states).usages[1]);
  }

  ghost predicate AlwaysDelivered(c: Config) {
    forall states, steps :: Run(c, states, steps) ==> Delivered(c, Final(states))
  }

  /** The keys of marked records are delivered in all runs exactly when no two configured endpoints share an
      address, whoever else sends to the receivers. */
  lemma DeliveryNeedsDistinctAddresses(c: Config)
    ensures AlwaysDelivered(c) <==> DistinctAddresses(c)
  {
    if DistinctAddresses(c) {
      forall states, steps | Run(c, states, steps)
        ensures Delivered(c, Final(states))
      {
        RunKeepsInv(c, states, steps, |states| - 1);
      }
    } else {
      var e, f :| e in c.endpoints && f in c.endpoints && e.addr == f.addr && e != f;
      var states, steps := SharedAddressLoses(c, e, f);
    }
  }

  // Marked records of a source are at the endpoints as they were sent.
  ghost predicate AsSent(c: Config, s: State, source: string) {
    forall e, id | e in c.endpoints && id in s.usages && s.usages[id].spliceServer == source ::
      e.addr in s.usages[id].tracker ==> HasAsSent(StoreOf(s, e), s.usages[id])
  }

  ghost predicate AlwaysAsSent(c: Config, source: string) {
    forall states, steps :: Run(c, states, steps) ==> AsSent(c, Final(states), source)
  }

  // Another sender delivers a record of the same key first; this sender's is a duplicate then, and marked.
  lemma OtherSenderWins(c: Config, e: Endpoint, source: string) returns (states: seq<State>, steps: seq<Step>)
    requires e in c.endpoints && source !in c.sources
    ensures Run(c, states, steps) && !AsSent(c, Final(states), source)
  {
    var u := Usage("consumer", source, 0, "instance", "", {});
    var other := u.(facts := "other");
    states, steps := Extend(c, [State(map[], map[], map[], map[])], [], OtherImport(e, other));
    assert StoreOf(Final(states), e) == [other] && other in [other];
    states, steps := DeliverOne(c, states, steps, e, u);
    assert Save([other], u, Works) == [other];
    assert Final(states).usages[1].Bare() == u && !HasAsSent(StoreOf(Final(states), e), Final(states).usages[1]);
  }

  /** Records of a source are delivered as they were sent in all runs exactly when no other sender delivers them. */
  lemma AsSentNeedsOneSender(c: Config, source: string)
    requires DistinctAddresses(c) && c.endpoints != {}
    ensures AlwaysAsSent(c, source) <==> source in c.sources
  {
    if source in c.sources {
      forall states, steps | Run(c, states, steps)
        ensures AsSent(c, Final(states), source)
      {
        forall e, id | e in c.endpoints && id in Final(states).usages && e.addr in Final(states).usages[id].tracker
          && Final(states).usages[id].spliceServer == source
          ensures HasAsSent(StoreOf(Final(states), e), Final(states).usages[id])
        {
          ExactlyOnce(c, states, steps, |states| - 1, e, id);
        }
      }
    } else {
      var e :| e in c.endpoints;
      var states, steps := OtherSenderWins(c, e, source);
    }
  }
}
