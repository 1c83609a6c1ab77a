/** Splice server metadata: a sender with a watermark per address (`upload.py`) composed with the newer-wins receiver
    (`api.py`). The sender reads the watermark, queries, sends, waits and saves the watermark; the receiver looks an
    object up and stores it. Either side may crash, and a request or its answer may be lost, at any step; uploads may
    overlap, and the receivers serve other senders too. */
module MetadataSync {
  import opened NewerWins
  import opened Runs
  import opened Wrappers
  import UsageUpload

  type Endpoint = UsageUpload.Endpoint

  type Server = Object<string, string>

  type Servers = Store<string, string>

  // An upload at the sender: it has read the watermark and not yet queried, or it has sent what the query returned.
  datatype Upload =
    | Reading(to: Endpoint, since: Option<int>)
    | Posted(to: Endpoint, batch: seq<Server>, acknowledged: bool)

  // The request it leaves at the receiver: how many of its objects are merged, and what `get_existing` answered for the
  // next one, once it was asked.
  datatype Asked = NotAsked | Answered(existing: Option<Server>)

  datatype Request = Request(to: Endpoint, batch: seq<Server>, done: nat, asked: Asked)

  // The watermarks are kept by address.
  datatype State = State(servers: Servers, watermarks: map<string, int>, stores: map<Endpoint, Servers>,
                         uploads: map<int, Upload>, requests: map<int, Request>)

  function StoreOf(s: State, e: Endpoint): Servers {
    if e in s.stores then s.stores[e] else map[]
  }

  function Watermark(watermarks: map<string, int>, addr: string): Option<int> {
    if addr in watermarks then Some(watermarks[addr]) else None
  }

  predicate Above(since: Option<int>, updated: int) {
    since.Some? ==> since.value < updated
  }

  // The query: everything above the watermark that was read, by `updated`.
  ghost predicate IsBatch(servers: Servers, since: Option<int>, batch: seq<Server>) {
    && (forall o :: o in batch <==> o.key in servers && servers[o.key] == o && Above(since, o.updated))
    && forall i, j :: 0 <= i < j < |batch| ==> batch[i].updated <= batch[j].updated
  }

  // What is saved as the watermark: the `updated` of the last of the batch.
  function Last(batch: seq<Server>): int
    requires batch != []
  {
    batch[|batch| - 1].updated
  }

  class MetadataSender {
    var servers: Servers
    var watermarks: map<string, int>

    constructor (servers: Servers)
      ensures this.servers == servers && watermarks == map[]
    {
      this.servers, watermarks := servers, map[];
    }

    // `_process_splice_server_metadata_upload`: `batch` is what the query returned, `reply` how the request ended.
    // After a success nothing is left above the watermark.
    method ProcessUpload(addr: string, batch: seq<Server>, reply: UsageUpload.Reply)
      returns (result: UsageUpload.UploadResult)
      requires forall k :: k in servers ==> servers[k].key == k
      requires IsBatch(servers, Watermark(watermarks, addr), batch)
      modifies this`watermarks
      ensures result == if batch == [] then UsageUpload.Sent else UsageUpload.Concluded(reply)
      ensures watermarks == if batch != [] && result.Sent? then old(watermarks)[addr := Last(batch)]
                            else old(watermarks)
      ensures result.Sent? ==> forall k :: k in servers ==> !Above(Watermark(watermarks, addr), servers[k].updated)
    {
      if batch == [] {
        assert forall k :: k in servers && Above(Watermark(watermarks, addr), servers[k].updated) ==>
                             servers[k] in batch;
        return UsageUpload.Sent;
      }
      var last := Last(batch);
      if reply.ConnectionError? {
        return UsageUpload.Raised;
      }
      if reply.code !in {200, 202, 204} {
        return UsageUpload.Refused;
      }
      ghost var before := watermarks;
      watermarks := watermarks[addr := last];
      assert batch[|batch| - 1] in batch;
      forall k | k in servers
        ensures servers[k].updated <= last
      {
        if Above(Watermark(before, addr), servers[k].updated) {
          assert servers[k] in batch;
          var i :| 0 <= i < |batch| && batch[i] == servers[k];
        }
      }
      return UsageUpload.Sent;
    }
  }

  // ---------------------------------------------------------------------------------------------
  // The receiver, step by step

  function Existing(store: Servers, key: string): Option<Server> {
    if key in store then Some(store[key]) else None
  }

  // What storing an object does after `get_existing` answered; the unique index refuses a second object of a key.
  function Stored(store: Servers, existing: Option<Server>, o: Server): Option<Servers> {
    match existing
    case None => if o.key in store then None else Some(store[o.key := o])
    case Some(found) => Some(if found.updated < o.updated then store[o.key := o] else store)
  }

  /** Undisturbed, the two steps are the merge that `NewerWins.Resource.CreateHook` computes. */
  lemma AskThenStoreIsMerge(store: Servers, o: Server)
    ensures Stored(store, Existing(store, o.key), o) == Some(Merge(store, o))
  {
  }

  // ---------------------------------------------------------------------------------------------
  // The transition system

  datatype Step =
    | Save(server: Server)
    | ReadWatermark(upload: int, to: Endpoint)
    | Post(upload: int, batch: seq<Server>)
    | OtherPost(upload: int, to: Endpoint, batch: seq<Server>)
    | Ask(upload: int)
    | StoreOne(upload: int)
    | Acknowledge(upload: int)
    | SaveWatermark(upload: int)
    | SenderCrash(upload: int)
    | ReceiverCrash(upload: int)

  // The receiver has the record, in this version or a newer one.
  predicate Has(store: Servers, o: Server) {
    o.key in store && o.updated <= store[o.key].updated
  }

  ghost predicate InBatch(batch: seq<Server>, o: Server) {
    exists x :: x in batch && x.key == o.key && o.updated <= x.updated
  }

  // The upload was sent and may still end in a saved watermark.
  predicate CanFinish(s: State, k: int) {
    k in s.uploads && s.uploads[k].Posted? && s.uploads[k].batch != [] && (s.uploads[k].acknowledged || k in s.requests)
  }

  // A stamp is above the watermark and above the end of every upload that was sent and may still finish, unless the
  // receiver has, or is about to have, this version or a newer one.
  ghost predicate CoveredBySent(s: State, e: Endpoint, o: Server) {
    && (Above(Watermark(s.watermarks, e.addr), o.updated) || Has(StoreOf(s, e), o))
    && forall k :: CanFinish(s, k) && s.uploads[k].to == e ==>
         Last(s.uploads[k].batch) < o.updated || Has(StoreOf(s, e), o) || InBatch(s.uploads[k].batch, o)
  }

  // A save is covered if its stamp is also above whatever watermark an upload has read that did not yet query.
  ghost predicate Covered(s: State, e: Endpoint, o: Server) {
    && CoveredBySent(s, e, o)
    && forall k :: k in s.uploads && s.uploads[k].Reading? && s.uploads[k].to == e ==>
         Above(s.uploads[k].since, o.updated) || Has(StoreOf(s, e), o)
  }

  // Which saves the sender makes: those that are covered at every endpoint, those that are covered by what was sent,
  // or all above the saved watermarks.
  datatype Rule = AllCovered | AllCoveredBySent | AboveWatermarks

  // `serial`: the endpoints that store objects of one key one after the other.
  datatype Config = Config(endpoints: set<Endpoint>, serial: set<Endpoint>, rule: Rule)

  function NextObject(q: Request): Server
    requires q.done < |q.batch|
  {
    q.batch[q.done]
  }

  // Between the look-up and the save of an object with this key.
  predicate Storing(q: Request, key: string) {
    q.asked.Answered? && q.done < |q.batch| && NextObject(q).key == key
  }

  ghost predicate MaySave(c: Config, s: State, o: Server) {
    match c.rule
    case AllCovered => forall e :: e in c.endpoints ==> Covered(s, e, o)
    case AllCoveredBySent => forall e :: e in c.endpoints ==> CoveredBySent(s, e, o)
    case AboveWatermarks => forall a :: a in s.watermarks ==> s.watermarks[a] < o.updated
  }

  ghost predicate Enabled(c: Config, s: State, e: Step) {
    match e
    case Save(o) => MaySave(c, s, o)
    case ReadWatermark(k, to) => k !in s.uploads && k !in s.requests && to in c.endpoints
    case Post(k, batch) =>
      k in s.uploads && s.uploads[k].Reading? && k !in s.requests && batch != [] &&
      IsBatch(s.servers, s.uploads[k].since, batch)
    case OtherPost(k, _, _) => k !in s.uploads && k !in s.requests
    case Ask(k) =>
      k in s.requests && s.requests[k].asked.NotAsked? && s.requests[k].done < |s.requests[k].batch| &&
      (s.requests[k].to in c.serial ==> !Busy(s, k))
    case StoreOne(k) => k in s.requests && s.requests[k].asked.Answered? && s.requests[k].done < |s.requests[k].batch|
    case Acknowledge(k) =>
      k in s.requests && s.requests[k].done == |s.requests[k].batch| &&
      (k in s.uploads ==> s.uploads[k].Posted? && !s.uploads[k].acknowledged)
    case SaveWatermark(k) =>
      k in s.uploads && s.uploads[k].Posted? && s.uploads[k].acknowledged && s.uploads[k].batch != []
    case SenderCrash(k) => k in s.uploads
    case ReceiverCrash(k) => k in s.requests
  }

  // Another request is storing an object with the key that this one would look up next.
  ghost predicate Busy(s: State, k: int)
    requires k in s.requests && s.requests[k].done < |s.requests[k].batch|
  {
    exists j :: j in s.requests && s.requests[j].to == s.requests[k].to
      && Storing(s.requests[j], NextObject(s.requests[k]).key)
  }

  function Saved(s: State, o: Server): State {
    s.(servers := s.servers[o.key := o])
  }

  // What the receiver answers after a merge that ended, and after a save that was refused.
  const NO_CONTENT := 204
  const SERVER_ERROR := 500

  // The request ends with a status, and the upload goes on if the sender takes it for a success.
  function Replied(s: State, k: int, status: int): State {
    var s' := s.(requests := s.requests - {k});
    if k !in s.uploads then s'
    else if UsageUpload.Concluded(UsageUpload.Status(status)) == UsageUpload.Sent && s.uploads[k].Posted?
    then s'.(uploads := s.uploads[k := s.uploads[k].(acknowledged := true)])
    else s'.(uploads := s.uploads - {k})
  }

  function StoreNext(s: State, k: int): State
    requires k in s.requests && s.requests[k].asked.Answered? && s.requests[k].done < |s.requests[k].batch|
  {
    var q := s.requests[k];
    match Stored(StoreOf(s, q.to), q.asked.existing, NextObject(q))
    case None => Replied(s, k, SERVER_ERROR)
    case Some(store) =>
      s.(stores := s.stores[q.to := store], requests := s.requests[k := q.(done := q.done + 1, asked := NotAsked)])
  }

  // A query that returns nothing ends the upload like a crash: it leaves everything else as it is.
  function Next(c: Config, s: State, e: Step): State
    requires Enabled(c, s, e)
  {
    match e
    case Save(o) => Saved(s, o)
    case ReadWatermark(k, to) => s.(uploads := s.uploads[k := Reading(to, Watermark(s.watermarks, to.addr))])
    case Post(k, batch) =>
      var to := s.uploads[k].to;
      s.(uploads := s.uploads[k := Posted(to, batch, false)],
         requests := s.requests[k := Request(to, batch, 0, NotAsked)])
    case OtherPost(k, to, batch) => s.(requests := s.requests[k := Request(to, batch, 0, NotAsked)])
    case Ask(k) =>
      var q := s.requests[k];
      s.(requests := s.requests[k := q.(asked := Answered(Existing(StoreOf(s, q.to), NextObject(q).key)))])
    case StoreOne(k) => StoreNext(s, k)
    case Acknowledge(k) => Replied(s, k, NO_CONTENT)
    case SaveWatermark(k) =>
      var u := s.uploads[k];
      s.(watermarks := s.watermarks[u.to.addr := Last(u.batch)], uploads := s.uploads - {k})
    case SenderCrash(k) => s.(uploads := s.uploads - {k})
    case ReceiverCrash(k) => s.(requests := s.requests - {k})
  }

  // The receivers may hold anything when the sender starts.
  ghost predicate Init(s: State) {
    && (forall k :: k in s.servers ==> s.servers[k].key == k)
    && s.watermarks == map[] && s.uploads == map[] && s.requests == map[]
  }

  ghost function LeadsTo(c: Config): (State, Step, State) -> bool {
    (s, e, s') => Enabled(c, s, e) && s' == Next(c, s, e)
  }

  ghost predicate Run(c: Config, states: seq<State>, steps: seq<Step>) {
    Path(LeadsTo(c), states, steps) && Init(states[0])
  }

  // ---------------------------------------------------------------------------------------------
  // The invariant of one endpoint

  // No other configured endpoint has its address.
  ghost predicate OwnAddress(c: Config, e: Endpoint) {
    forall f :: f in c.endpoints && f.addr == e.addr ==> f == e
  }

  ghost predicate AllUpTo(s: State, e: Endpoint, bound: Option<int>) {
    bound.Some? ==>
      forall k :: k in s.servers && s.servers[k].updated <= bound.value ==> Has(StoreOf(s, e), s.servers[k])
  }

  // Every record up to the watermark of the endpoint's address is there.
  ghost predicate Delivered(s: State, e: Endpoint) {
    AllUpTo(s, e, Watermark(s.watermarks, e.addr))
  }

  // What was merged is there, and the answer of a look-up still holds.
  ghost predicate RequestInv(s: State, q: Request) {
    && q.done <= |q.batch| && (forall i :: 0 <= i < q.done ==> Has(StoreOf(s, q.to), q.batch[i]))
    && (q.asked.Answered? ==>
          q.done < |q.batch| && q.asked.existing == Existing(StoreOf(s, q.to), NextObject(q).key))
  }

  // Two requests do not store objects of one key at a time.
  predicate Apart(q1: Request, q2: Request) {
    q1.asked.Answered? && q1.done < |q1.batch| ==> !Storing(q2, NextObject(q1).key)
  }

  // What an upload will not query is at the receiver. Up to the end of its batch every record is at the receiver or in
  // the batch; once acknowledged, at the receiver.
  ghost predicate UploadInv(s: State, k: int)
    requires k in s.uploads
  {
    match s.uploads[k]
    case Reading(to, since) => k !in s.requests && AllUpTo(s, to, since)
    case Posted(to, batch, acknowledged) =>
      && (!acknowledged && k in s.requests ==> s.requests[k].to == to && s.requests[k].batch == batch)
      && (acknowledged ==> forall x :: x in batch ==> Has(StoreOf(s, to), x))
      && (CanFinish(s, k) ==> forall j :: j in s.servers && s.servers[j].updated <= Last(batch) ==>
            Has(StoreOf(s, to), s.servers[j]) || (!acknowledged && InBatch(batch, s.servers[j])))
  }

  ghost predicate RequestsInv(s: State, e: Endpoint) {
    && (forall k :: k in s.requests && s.requests[k].to == e ==> RequestInv(s, s.requests[k]))
    && (forall j, k | j in s.requests && k in s.requests && j != k && s.requests[j].to == e == s.requests[k].to
          :: Apart(s.requests[j], s.requests[k]))
  }

  ghost predicate UploadsInv(s: State, e: Endpoint) {
    forall k :: k in s.uploads && s.uploads[k].to == e ==> UploadInv(s, k)
  }

  ghost predicate Keyed(c: Config, s: State) {
    && (forall k :: k in s.servers ==> s.servers[k].key == k)
    && (forall k :: k in s.uploads ==> s.uploads[k].to in c.endpoints)
  }

  ghost predicate Inv(c: Config, s: State, e: Endpoint) {
    Keyed(c, s) && RequestsInv(s, e) && UploadsInv(s, e) && Delivered(s, e)
  }

  // ---------------------------------------------------------------------------------------------
  // Each step keeps it

  lemma SaveKeepsInv(c: Config, s: State, e: Endpoint, o: Server)
    requires Inv(c, s, e) && Covered(s, e, o)
    ensures Inv(c, Saved(s, o), e)
  {
    var s' := Saved(s, o);
    forall k | k in s'.uploads && s'.uploads[k].to == e
      ensures UploadInv(s', k)
    {
      assert UploadInv(s, k);
    }
  }

  // What the receiver at an endpoint has is not taken back.
  ghost predicate StoreGrows(s: State, s': State, e: Endpoint) {
    forall x :: Has(StoreOf(s, e), x) ==> Has(StoreOf(s', e), x)
  }

  lemma UploadKept(s: State, s': State, k: int)
    requires k in s.uploads && k in s'.uploads && s'.uploads[k] == s.uploads[k] && UploadInv(s, k)
    requires s'.servers == s.servers && StoreGrows(s, s', s.uploads[k].to)
    requires k in s'.requests ==>
               && k in s.requests && s'.requests[k].to == s.requests[k].to
               && s'.requests[k].batch == s.requests[k].batch
    ensures UploadInv(s', k)
  {
  }

  lemma RequestsKept(s: State, s': State, e: Endpoint)
    requires RequestsInv(s, e) && StoreOf(s', e) == StoreOf(s, e)
    requires forall k :: k in s'.requests && s'.requests[k].to == e ==>
               s'.requests[k] == Request(e, s'.requests[k].batch, 0, NotAsked) ||
               (k in s.requests && s'.requests[k] == s.requests[k])
    ensures RequestsInv(s', e)
  {
    forall k | k in s'.requests && s'.requests[k].to == e
      ensures RequestInv(s', s'.requests[k])
    {
      if k in s.requests && s'.requests[k] == s.requests[k] {
        assert RequestInv(s, s.requests[k]);
      }
    }
  }

  lemma ReadWatermarkKeepsInv(c: Config, s: State, e: Endpoint, step: Step)
    requires Inv(c, s, e) && step.ReadWatermark? && Enabled(c, s, step)
    ensures Inv(c, Next(c, s, step), e)
  {
    var s' := Next(c, s, step);
    RequestsKept(s, s', e);
    forall k | k in s'.uploads && s'.uploads[k].to == e
      ensures UploadInv(s', k)
    {
      if k != step.upload {
        UploadKept(s, s', k);
      }
    }
  }

  lemma PostKeepsInv(c: Config, s: State, e: Endpoint, step: Step)
    requires Inv(c, s, e) && (step.Post? || step.OtherPost?) && Enabled(c, s, step)
    ensures Inv(c, Next(c, s, step), e)
  {
    var s' := Next(c, s, step);
    RequestsKept(s, s', e);
    forall k | k in s'.uploads && s'.uploads[k].to == e
      ensures UploadInv(s', k)
    {
      if k == step.upload {
        assert UploadInv(s, k);
        BatchCovers(c, s, e, s.uploads[k].since, step.batch);
      } else {
        UploadKept(s, s', k);
      }
    }
  }

  // What the query does not ask for was delivered; all the rest is in the batch.
  lemma BatchCovers(c: Config, s: State, e: Endpoint, since: Option<int>, batch: seq<Server>)
    requires Inv(c, s, e) && AllUpTo(s, e, since) && IsBatch(s.servers, since, batch)
    ensures forall j :: j in s.servers ==> Has(StoreOf(s, e), s.servers[j]) || InBatch(batch, s.servers[j])
  {
    forall j | j in s.servers
      ensures Has(StoreOf(s, e), s.servers[j]) || InBatch(batch, s.servers[j])
    {
      if Above(since, s.servers[j].updated) {
        assert s.servers[j] in batch;
      }
    }
  }

  lemma AskRequests(c: Config, s: State, e: Endpoint, k: int)
    requires e in c.serial && RequestsInv(s, e) && Enabled(c, s, Ask(k))
    ensures RequestsInv(Next(c, s, Ask(k)), e)
  {
    var s' := Next(c, s, Ask(k));
    forall j | j in s'.requests && s'.requests[j].to == e
      ensures RequestInv(s', s'.requests[j])
    {
      assert RequestInv(s, s.requests[j]);
    }
    forall i, j | i in s'.requests && j in s'.requests && i != j && s'.requests[i].to == e == s'.requests[j].to
      ensures Apart(s'.requests[i], s'.requests[j])
    {
      assert Apart(s.requests[i], s.requests[j]);
    }
  }

  lemma AskKeepsInv(c: Config, s: State, e: Endpoint, k: int)
    requires e in c.serial && Inv(c, s, e) && Enabled(c, s, Ask(k))
    ensures Inv(c, Next(c, s, Ask(k)), e)
  {
    var s' := Next(c, s, Ask(k));
    AskRequests(c, s, e, k);
    forall j | j in s'.uploads && s'.uploads[j].to == e
      ensures UploadInv(s', j)
    {
      UploadKept(s, s', j);
    }
  }

  // A save whose look-up still holds is a merge, and takes the receiver back nowhere.
  lemma StoreKeeps(store: Servers, o: Server, x: Server)
    ensures Stored(store, Existing(store, o.key), o).Some?
    ensures var store' := Stored(store, Existing(store, o.key), o).value;
      && Has(store', o) && (Has(store, x) ==> Has(store', x))
      && (x.key != o.key ==> Existing(store', x.key) == Existing(store, x.key))
  {
  }

  lemma StoreOneGrows(s: State, e: Endpoint, k: int)
    requires RequestsInv(s, e) && k in s.requests && s.requests[k].asked.Answered?
    requires s.requests[k].done < |s.requests[k].batch|
    ensures var q, store, store' := s.requests[k], StoreOf(s, e), StoreOf(StoreNext(s, k), e);
      && (q.to != e ==> store' == store)
      && (q.to == e ==> k in StoreNext(s, k).requests && Has(store', NextObject(q)))
      && (forall x :: Has(store, x) ==> Has(store', x))
      && (forall key :: q.to == e && key != NextObject(q).key ==> Existing(store', key) == Existing(store, key))
  {
    var q := s.requests[k];
    if q.to == e {
      assert RequestInv(s, q);
      forall x: Server
        ensures Has(StoreOf(s, e), x) ==> Has(StoreOf(StoreNext(s, k), e), x)
      {
        StoreKeeps(StoreOf(s, e), NextObject(q), x);
      }
    }
  }

  // What a save does to requests: its own goes on or is gone, the others stay.
  lemma StoreOneMoves(s: State, k: int)
    requires k in s.requests && s.requests[k].asked.Answered? && s.requests[k].done < |s.requests[k].batch|
    ensures var s', q := StoreNext(s, k), s.requests[k];
      && s'.requests - {k} == s.requests - {k}
      && (k in s'.requests ==> s'.requests[k] == q.(done := q.done + 1, asked := NotAsked))
      && (forall j :: j in s'.uploads ==> j in s.uploads && s'.uploads[j] == s.uploads[j])
      && s'.servers == s.servers && s'.watermarks == s.watermarks
  {
  }

  lemma StoreOneUploads(s: State, e: Endpoint, k: int)
    requires RequestsInv(s, e) && UploadsInv(s, e) && k in s.requests && s.requests[k].asked.Answered?
    requires s.requests[k].done < |s.requests[k].batch|
    ensures UploadsInv(StoreNext(s, k), e)
  {
    var s' := StoreNext(s, k);
    StoreOneGrows(s, e, k);
    StoreOneMoves(s, k);
    forall j | j in s'.uploads && s'.uploads[j].to == e
      ensures UploadInv(s', j)
    {
      if j in s'.requests && j != k {
        assert j in s'.requests - {k} && j in s.requests - {k};
      }
      UploadKept(s, s', j);
    }
  }

  lemma StoreOneRequest(s: State, e: Endpoint, k: int, j: int)
    requires RequestsInv(s, e) && k in s.requests && s.requests[k].asked.Answered?
    requires s.requests[k].done < |s.requests[k].batch|
    requires j in StoreNext(s, k).requests && StoreNext(s, k).requests[j].to == e
    ensures RequestInv(StoreNext(s, k), StoreNext(s, k).requests[j])
  {
    var s', q := StoreNext(s, k), s.requests[k];
    StoreOneGrows(s, e, k);
    StoreOneMoves(s, k);
    if j == k {
      assert RequestInv(s, q);
    } else {
      assert j in s'.requests - {k} && j in s.requests - {k};
      assert s'.requests[j] == s.requests[j] && RequestInv(s, s.requests[j]);
      if q.to == e {
        assert Apart(s.requests[j], q);
      }
    }
  }

  lemma StoreOneRequests(s: State, e: Endpoint, k: int)
    requires RequestsInv(s, e) && k in s.requests && s.requests[k].asked.Answered?
    requires s.requests[k].done < |s.requests[k].batch|
    ensures RequestsInv(StoreNext(s, k), e)
  {
    var s' := StoreNext(s, k);
    forall j | j in s'.requests && s'.requests[j].to == e
      ensures RequestInv(s', s'.requests[j])
    {
      StoreOneRequest(s, e, k, j);
    }
    forall i, j | i in s'.requests && j in s'.requests && i != j && s'.requests[i].to == e == s'.requests[j].to
      ensures Apart(s'.requests[i], s'.requests[j])
    {
      assert Apart(s.requests[i], s.requests[j]);
    }
  }

  lemma StoreOneKeepsInv(c: Config, s: State, e: Endpoint, k: int)
    requires Inv(c, s, e) && k in s.requests && s.requests[k].asked.Answered?
    requires s.requests[k].done < |s.requests[k].batch|
    ensures Inv(c, StoreNext(s, k), e)
  {
    StoreOneMoves(s, k);
    StoreOneGrows(s, e, k);
    StoreOneRequests(s, e, k);
    StoreOneUploads(s, e, k);
  }

  lemma AcknowledgeKeepsInv(c: Config, s: State, e: Endpoint, k: int)
    requires Inv(c, s, e) && Enabled(c, s, Acknowledge(k))
    ensures Inv(c, Next(c, s, Acknowledge(k)), e)
  {
    var s' := Next(c, s, Acknowledge(k));
    RequestsKept(s, s', e);
    forall j | j in s'.uploads && s'.uploads[j].to == e
      ensures UploadInv(s', j)
    {
      if j == k {
        AcknowledgedHas(c, s, s', e, k);
      } else {
        UploadKept(s, s', j);
      }
    }
  }

  // The whole batch was merged, so all that was in it is there.
  lemma AcknowledgedHas(c: Config, s: State, s': State, e: Endpoint, k: int)
    requires Inv(c, s, e) && k in s.uploads && s.uploads[k].Posted? && s.uploads[k].to == e
    requires !s.uploads[k].acknowledged && k in s.requests && s.requests[k].done == |s.requests[k].batch|
    requires s' == s.(requests := s.requests - {k}, uploads := s.uploads[k := s.uploads[k].(acknowledged := true)])
    ensures UploadInv(s', k)
  {
    var batch := s.uploads[k].batch;
    assert UploadInv(s, k) && RequestInv(s, s.requests[k]);
    forall x | x in batch
      ensures Has(StoreOf(s, e), x)
    {
      var i :| 0 <= i < |batch| && batch[i] == x;
    }
  }

  lemma SaveWatermarkKeepsInv(c: Config, s: State, e: Endpoint, k: int)
    requires OwnAddress(c, e) && Inv(c, s, e) && Enabled(c, s, SaveWatermark(k))
    ensures Inv(c, Next(c, s, SaveWatermark(k)), e)
  {
    var s' := Next(c, s, SaveWatermark(k));
    RequestsKept(s, s', e);
    forall j | j in s'.uploads && s'.uploads[j].to == e
      ensures UploadInv(s', j)
    {
      UploadKept(s, s', j);
    }
    assert s.uploads[k].to == e ==> UploadInv(s, k);
  }

  lemma CrashKeepsInv(c: Config, s: State, e: Endpoint, step: Step)
    requires Inv(c, s, e) && (step.SenderCrash? || step.ReceiverCrash?) && Enabled(c, s, step)
    ensures Inv(c, Next(c, s, step), e)
  {
    var s' := Next(c, s, step);
    RequestsKept(s, s', e);
    forall j | j in s'.uploads && s'.uploads[j].to == e
      ensures UploadInv(s', j)
    {
      UploadKept(s, s', j);
    }
  }

  lemma StepKeepsInv(c: Config, s: State, e: Endpoint, step: Step)
    requires e in c.serial && OwnAddress(c, e) && Inv(c, s, e) && Enabled(c, s, step)
    requires step.Save? ==> Covered(s, e, step.server)
    ensures Inv(c, Next(c, s, step), e)
  {
    match step
    case Save(o) => SaveKeepsInv(c, s, e, o);
    case ReadWatermark(_, _) => ReadWatermarkKeepsInv(c, s, e, step);
    case Post(_, _) => PostKeepsInv(c, s, e, step);
    case OtherPost(_, _, _) => PostKeepsInv(c, s, e, step);
    case Ask(k) => AskKeepsInv(c, s, e, k);
    case StoreOne(k) => StoreOneKeepsInv(c, s, e, k);
    case Acknowledge(k) => AcknowledgeKeepsInv(c, s, e, k);
    case SaveWatermark(k) => SaveWatermarkKeepsInv(c, s, e, k);
    case SenderCrash(_) => CrashKeepsInv(c, s, e, step);
    case ReceiverCrash(_) => CrashKeepsInv(c, s, e, step);
  }

  // The endpoint stores one object of a key at a time, and its address is its own.
  ghost predicate Sound(c: Config, e: Endpoint) {
    e in c.endpoints && e in c.serial && OwnAddress(c, e)
  }

  lemma {:induction false} PathKeepsInv(c: Config, states: seq<State>, steps: seq<Step>, n: nat, e: Endpoint)
    requires Sound(c, e) && c.rule.AllCovered? && Path(LeadsTo(c), states, steps) && n < |states|
    requires Inv(c, states[0], e)
    ensures Inv(c, states[n], e)
    decreases n
  {
    if n > 0 {
      PathKeepsInv(c, states, steps, n - 1, e);
      assert LeadsTo(c)(states[n - 1], steps[n - 1], states[n]);
      StepKeepsInv(c, states[n - 1], e, steps[n - 1]);
    }
  }

  /** Metadata watermark: in every state of every run with covered saves, each record of the sender up to the
      watermark of an endpoint that has its address for itself and stores one object of a key at a time is there in
      this version or a newer one; so whatever is not there will be asked for. */
  lemma WatermarkIsDelivered(c: Config, states: seq<State>, steps: seq<Step>, n: nat, e: Endpoint)
    requires Sound(c, e) && c.rule.AllCovered? && Run(c, states, steps) && n < |states|
    ensures Inv(c, states[n], e) && Delivered(states[n], e)
  {
    PathKeepsInv(c, states, steps, n, e);
  }

  // ---------------------------------------------------------------------------------------------
  // Which saves are safe

  // Some continuation ends with a record that is up to the watermark and not at the receiver.
  ghost predicate MayLose(c: Config, s: State, e: Endpoint) {
    exists states, steps :: Path(LeadsTo(c), states, steps) && states[0] == s && !Delivered(Final(states), e)
  }

  lemma LosesNow(c: Config, s: State, e: Endpoint)
    requires !Delivered(s, e)
    ensures MayLose(c, s, e)
  {
    assert Path(LeadsTo(c), [s], []) && Final([s]) == s;
  }

  lemma LosesAfter(c: Config, s: State, step: Step, e: Endpoint)
    requires Enabled(c, s, step) && MayLose(c, Next(c, s, step), e)
    ensures MayLose(c, s, e)
  {
    var states, steps :|
      Path(LeadsTo(c), states, steps) && states[0] == Next(c, s, step) && !Delivered(Final(states), e);
    states, steps := Prepend(LeadsTo(c), s, step, states, steps);
  }

  // An upload that may still finish, and whose end passes over a record the receiver will not have by then.
  ghost predicate PassesOver(s: State, e: Endpoint, k: int, o: Server) {
    && CanFinish(s, k) && s.uploads[k].to == e && o.updated <= Last(s.uploads[k].batch)
    && o.key in s.servers && s.servers[o.key] == o && !Has(StoreOf(s, e), o) && !InBatch(s.uploads[k].batch, o)
    && (s.uploads[k].acknowledged ||
        (s.requests[k].to == e && s.requests[k].batch == s.uploads[k].batch && RequestInv(s, s.requests[k])))
  }

  // The upload finishes; requests that are in its way crash.
  lemma {:induction false} FinishLoses(c: Config, s: State, e: Endpoint, k: int, o: Server)
    requires PassesOver(s, e, k, o)
    ensures MayLose(c, s, e)
    decreases !s.uploads[k].acknowledged,
              if k in s.requests then |s.requests[k].batch| - s.requests[k].done else 0,
              k in s.requests && s.requests[k].asked.NotAsked?,
              |s.requests|
  {
    var step := FinishStep(c, s, e, k, o);
    if step.SaveWatermark? {
      LosesNow(c, Next(c, s, step), e);
    } else {
      FinishLoses(c, Next(c, s, step), e, k, o);
    }
    LosesAfter(c, s, step, e);
  }

  // One step nearer to the end of the request.
  predicate Nearer(s: State, s': State, k: int)
    requires k in s.requests && k in s'.requests
  {
    var q, q' := s.requests[k], s'.requests[k];
    && q'.batch == q.batch
    && (|| q.done < q'.done
        || (q'.done == q.done && q.asked.NotAsked? && q'.asked.Answered?)
        || (q' == q && |s'.requests| < |s.requests|))
  }

  // The next step towards the watermark.
  lemma FinishStep(c: Config, s: State, e: Endpoint, k: int, o: Server) returns (step: Step)
    requires PassesOver(s, e, k, o)
    ensures Enabled(c, s, step)
    ensures var s' := Next(c, s, step);
      if step.SaveWatermark? then !Delivered(s', e)
      else
        && PassesOver(s', e, k, o) && !s.uploads[k].acknowledged
        && (!s'.uploads[k].acknowledged ==> Nearer(s, s', k))
  {
    if s.uploads[k].acknowledged {
      step := SaveWatermark(k);
    } else {
      var q := s.requests[k];
      if q.done == |q.batch| {
        step := Acknowledge(k);
        AcknowledgeNearer(c, s, e, k, o);
      } else if q.asked.Answered? {
        step := StoreOne(k);
        StoreOneNearer(s, e, k, o);
      } else if Busy(s, k) {
        var j :| j in s.requests && s.requests[j].to == q.to && Storing(s.requests[j], NextObject(q).key);
        step := ReceiverCrash(j);
        CrashNearer(s, e, k, o, j);
      } else {
        step := Ask(k);
        AskNearer(c, s, e, k, o);
      }
    }
  }

  lemma AcknowledgeNearer(c: Config, s: State, e: Endpoint, k: int, o: Server)
    requires PassesOver(s, e, k, o) && !s.uploads[k].acknowledged && s.requests[k].done == |s.requests[k].batch|
    ensures Enabled(c, s, Acknowledge(k))
    ensures var s' := Next(c, s, Acknowledge(k)); PassesOver(s', e, k, o) && s'.uploads[k].acknowledged
  {
  }

  lemma AskNearer(c: Config, s: State, e: Endpoint, k: int, o: Server)
    requires PassesOver(s, e, k, o) && !s.uploads[k].acknowledged && s.requests[k].asked.NotAsked?
    requires s.requests[k].done < |s.requests[k].batch| && !Busy(s, k)
    ensures Enabled(c, s, Ask(k))
    ensures var s' := Next(c, s, Ask(k));
      PassesOver(s', e, k, o) && !s'.uploads[k].acknowledged && Nearer(s, s', k)
  {
  }

  lemma StoreOneNearer(s: State, e: Endpoint, k: int, o: Server)
    requires PassesOver(s, e, k, o) && !s.uploads[k].acknowledged && s.requests[k].asked.Answered?
    ensures PassesOver(StoreNext(s, k), e, k, o) && Nearer(s, StoreNext(s, k), k)
    ensures !StoreNext(s, k).uploads[k].acknowledged
  {
    var s' := StoreNext(s, k);
    var q := s.requests[k];
    assert NextObject(q) in q.batch;
    StoreKeeps(StoreOf(s, e), NextObject(q), o);
    forall i | 0 <= i < s'.requests[k].done
      ensures Has(StoreOf(s', e), q.batch[i])
    {
      StoreKeeps(StoreOf(s, e), NextObject(q), q.batch[i]);
    }
  }

  lemma CrashNearer(s: State, e: Endpoint, k: int, o: Server, j: int)
    requires PassesOver(s, e, k, o) && !s.uploads[k].acknowledged && j != k && j in s.requests
    ensures var s' := s.(requests := s.requests - {j});
      PassesOver(s', e, k, o) && Nearer(s, s', k)
  {
    assert s.requests.Keys == (s.requests - {j}).Keys + {j};
    assert |s.requests.Keys| == |(s.requests - {j}).Keys| + 1;
  }

  // What the sender can tell: the stamp is above the watermark, above the end of every upload that was sent, and above
  // the watermark that any other upload has read.
  predicate StampIsNew(s: State, e: Endpoint, updated: int) {
    && Above(Watermark(s.watermarks, e.addr), updated)
    && forall k :: k in s.uploads && s.uploads[k].to == e ==>
         match s.uploads[k]
         case Reading(_, since) => Above(since, updated)
         case Posted(_, batch, _) => batch != [] ==> Last(batch) < updated
  }

  /** A stamp above the watermark and every upload under way is always enough; and for a record of which the receiver
      has no such version, now or from an upload under way, nothing less is, when all that was sent may still finish. */
  lemma NewStampIsCovered(s: State, e: Endpoint, o: Server)
    ensures StampIsNew(s, e, o.updated) ==> Covered(s, e, o)
    ensures !Has(StoreOf(s, e), o)
      && (forall k :: k in s.uploads && s.uploads[k].to == e && s.uploads[k].Posted? ==>
            CanFinish(s, k) && !InBatch(s.uploads[k].batch, o))
      ==> (Covered(s, e, o) <==> StampIsNew(s, e, o.updated))
  {
  }

  lemma {:induction false} UpperBound(xs: set<int>) returns (n: int)
    ensures forall x :: x in xs ==> x < n
    decreases xs
  {
    if x :| x in xs {
      var bound := UpperBound(xs - {x});
      n := if bound <= x then x + 1 else bound;
      assert forall y :: y in xs ==> y == x || y in xs - {x};
    } else {
      n := 0;
    }
  }

  // Some time is new to every upload and watermark.
  lemma NewStamp(s: State) returns (n: int)
    ensures forall e :: StampIsNew(s, e, n)
    ensures forall a :: a in s.watermarks ==> s.watermarks[a] < n
  {
    var marks := set a | a in s.watermarks :: s.watermarks[a];
    var ends := set k | k in s.uploads && s.uploads[k].Posted? && s.uploads[k].batch != [] :: Last(s.uploads[k].batch);
    var seen := set k | k in s.uploads && s.uploads[k].Reading? && s.uploads[k].since.Some? ::
      s.uploads[k].since.value;
    n := UpperBound(marks + ends + seen);
    forall e
      ensures StampIsNew(s, e, n)
    {
      forall k | k in s.uploads && s.uploads[k].Posted? && s.uploads[k].batch != []
        ensures Last(s.uploads[k].batch) < n
      {
        assert Last(s.uploads[k].batch) in ends;
      }
      forall k | k in s.uploads && s.uploads[k].Reading? && s.uploads[k].since.Some?
        ensures s.uploads[k].since.value < n
      {
        assert s.uploads[k].since.value in seen;
      }
      assert e.addr in s.watermarks ==> s.watermarks[e.addr] in marks;
    }
    assert forall a :: a in s.watermarks ==> s.watermarks[a] in marks;
  }

  predicate Sorted(list: seq<Server>) {
    forall i, j :: 0 <= i < j < |list| ==> list[i].updated <= list[j].updated
  }

  lemma {:induction false} Insert(x: Server, list: seq<Server>) returns (longer: seq<Server>)
    requires Sorted(list)
    ensures Sorted(longer) && forall y :: y in longer <==> y in list || y == x
    decreases list
  {
    if list == [] || x.updated <= list[0].updated {
      longer := [x] + list;
    } else {
      var rest := Insert(x, list[1..]);
      forall y | y in rest
        ensures list[0].updated <= y.updated
      {
        if y != x {
          var i :| 0 <= i < |list[1..]| && list[1..][i] == y;
          assert list[i + 1] == y;
        }
      }
      longer := [list[0]] + rest;
      assert list == [list[0]] + list[1..];
    }
  }

  lemma {:induction false} SortedListing(items: set<Server>) returns (list: seq<Server>)
    ensures Sorted(list) && forall x :: x in list <==> x in items
    decreases items
  {
    list := [];
    if items != {} {
      var x :| x in items;
      list := SortedListing(items - {x});
      list := Insert(x, list);
    }
  }

  // What a query returns.
  lemma QueryReturns(servers: Servers, since: Option<int>) returns (batch: seq<Server>)
    ensures IsBatch(servers, since, batch)
  {
    var found := set k | k in servers && servers[k].key == k && Above(since, servers[k].updated) :: servers[k];
    batch := SortedListing(found);
  }

  // An upload has read a watermark, and a record not above it is not at the receiver. Once a newer record is saved, the
  // upload queries past the one and sends the other.
  lemma ReadingLoses(c: Config, s: State, e: Endpoint, k: int, o: Server)
    requires k in s.uploads && s.uploads[k].Reading? && s.uploads[k].to == e && k !in s.requests
    requires !Above(s.uploads[k].since, o.updated) && !Has(StoreOf(s, e), o)
    requires o.key in s.servers && s.servers[o.key] == o
    ensures MayLose(c, s, e)
  {
    var n := NewStamp(s);
    var d := Object(o.key + "'", n, "");
    assert |d.key| != |o.key|;
    forall f
      ensures Covered(s, f, d) && CoveredBySent(s, f, d)
    {
      NewStampIsCovered(s, f, d);
    }
    var s1 := Saved(s, d);
    assert Next(c, s, Save(d)) == s1;
    assert StampIsNew(s, e, n);
    PastReadingLoses(c, s1, e, k, o, d);
    LosesAfter(c, s, Save(d), e);
  }

  lemma PastReadingLoses(c: Config, s: State, e: Endpoint, k: int, o: Server, d: Server)
    requires k in s.uploads && s.uploads[k].Reading? && s.uploads[k].to == e && k !in s.requests
    requires !Above(s.uploads[k].since, o.updated) && !Has(StoreOf(s, e), o)
    requires o.key in s.servers && s.servers[o.key] == o
    requires d.key in s.servers && s.servers[d.key] == d && Above(s.uploads[k].since, d.updated)
    ensures MayLose(c, s, e)
  {
    var batch := QueryReturns(s.servers, s.uploads[k].since);
    assert d in batch;
    var i :| 0 <= i < |batch| && batch[i] == d;
    assert d.updated <= Last(batch);
    var s1 := Next(c, s, Post(k, batch));
    assert PassesOver(s1, e, k, o);
    FinishLoses(c, s1, e, k, o);
    LosesAfter(c, s, Post(k, batch), e);
  }

  /** Which saves are safe, exactly: after a run with covered saves, a further save can lead to a loss at an endpoint
      if and only if it is not covered there. */
  lemma SaveIsSafeIffCovered(c: Config, states: seq<State>, steps: seq<Step>, e: Endpoint, o: Server)
    requires Sound(c, e) && c.rule.AllCovered? && Run(c, states, steps)
    ensures !MayLose(c, Saved(Final(states), o), e) <==> Covered(Final(states), e, o)
  {
    var s := Final(states);
    WatermarkIsDelivered(c, states, steps, |states| - 1, e);
    if Covered(s, e, o) {
      CoveredIsSafe(c, s, e, o);
    } else {
      UncoveredLoses(c, s, e, o);
    }
  }

  lemma CoveredIsSafe(c: Config, s: State, e: Endpoint, o: Server)
    requires Sound(c, e) && c.rule.AllCovered? && Inv(c, s, e) && Covered(s, e, o)
    ensures !MayLose(c, Saved(s, o), e)
  {
    SaveKeepsInv(c, s, e, o);
    forall states, steps | Path(LeadsTo(c), states, steps) && states[0] == Saved(s, o)
      ensures Delivered(Final(states), e)
    {
      PathKeepsInv(c, states, steps, |states| - 1, e);
    }
  }

  lemma UncoveredLoses(c: Config, s: State, e: Endpoint, o: Server)
    requires Inv(c, s, e) && !Covered(s, e, o)
    ensures MayLose(c, Saved(s, o), e)
  {
    var s' := Saved(s, o);
    if !(Above(Watermark(s.watermarks, e.addr), o.updated) || Has(StoreOf(s, e), o)) {
      LosesNow(c, s', e);
    } else if !CoveredBySent(s, e, o) {
      var k :| CanFinish(s, k) && s.uploads[k].to == e && o.updated <= Last(s.uploads[k].batch)
        && !Has(StoreOf(s, e), o) && !InBatch(s.uploads[k].batch, o);
      assert UploadInv(s, k);
      assert PassesOver(s', e, k, o);
      FinishLoses(c, s', e, k, o);
    } else {
      var k :| k in s.uploads && s.uploads[k].Reading? && s.uploads[k].to == e
        && !Above(s.uploads[k].since, o.updated) && !Has(StoreOf(s, e), o);
      assert UploadInv(s, k);
      ReadingLoses(c, s', e, k, o);
    }
  }

  // ---------------------------------------------------------------------------------------------
  // Failing runs

  lemma Extend(c: Config, states: seq<State>, steps: seq<Step>, step: Step)
    returns (states': seq<State>, steps': seq<Step>)
    requires Run(c, states, steps) && Enabled(c, Final(states), step)
    ensures Run(c, states', steps') && Final(states') == Next(c, Final(states), step)
  {
    states', steps' := Runs.Extend(LeadsTo(c), states, steps, step, Next(c, Final(states), step));
  }

  // A run that reaches a state from which a record may be lost goes on to lose it.
  lemma Lose(c: Config, before: seq<State>, taken: seq<Step>, e: Endpoint)
    returns (states: seq<State>, steps: seq<Step>)
    requires Run(c, before, taken) && MayLose(c, Final(before), e)
    ensures Run(c, states, steps) && !Delivered(Final(states), e)
  {
    var more, rest :| Path(LeadsTo(c), more, rest) && more[0] == Final(before) && !Delivered(Final(more), e);
    states, steps := Join(LeadsTo(c), before, taken, more, rest);
  }

  function Version(at: int): Server {
    Object("a", at, "")
  }

  function Holding(e: Endpoint, at: int): map<Endpoint, Servers> {
    map[e := map["a" := Version(at)]]
  }

  function Sent(e: Endpoint, at: int): Request {
    Request(e, [Version(at)], 0, NotAsked)
  }

  function Looked(e: Endpoint, at: int): Request {
    Request(e, [Version(at)], 0, Answered(Some(Version(3))))
  }

  // The receiver holds version 3. The sender posts version 5 and crashes.
  lemma FirstRequest(c: Config, e: Endpoint) returns (states: seq<State>, steps: seq<Step>)
    requires c.rule.AllCovered? && e in c.endpoints
    ensures Run(c, states, steps)
    ensures Final(states) == State(map["a" := Version(5)], map[], Holding(e, 3), map[], map[1 := Sent(e, 5)])
  {
    states, steps := [State(map["a" := Version(3)], map[], Holding(e, 3), map[], map[])], [];
    states, steps := Extend(c, states, steps, Save(Version(5)));
    assert Final(states).servers == map["a" := Version(5)];
    states, steps := Extend(c, states, steps, ReadWatermark(1, e));
    states, steps := Extend(c, states, steps, Post(1, [Version(5)]));
    states, steps := Extend(c, states, steps, SenderCrash(1));
  }

  // It saves version 7 and posts that too.
  lemma SecondRequest(c: Config, e: Endpoint) returns (states: seq<State>, steps: seq<Step>)
    requires c.rule.AllCovered? && e in c.endpoints
    ensures Run(c, states, steps)
    ensures Final(states) == State(map["a" := Version(7)], map[], Holding(e, 3),
                                   map[2 := Posted(e, [Version(7)], false)],
                                   map[1 := Sent(e, 5), 2 := Sent(e, 7)])
  {
    states, steps := FirstRequest(c, e);
    states, steps := Extend(c, states, steps, Save(Version(7)));
    assert Final(states).servers == map["a" := Version(7)];
    states, steps := Extend(c, states, steps, ReadWatermark(2, e));
    states, steps := Extend(c, states, steps, Post(2, [Version(7)]));
  }

  // Both requests look the object up and find version 3.
  lemma BothLook(c: Config, e: Endpoint) returns (states: seq<State>, steps: seq<Step>)
    requires e !in c.serial && c.rule.AllCovered? && e in c.endpoints
    ensures Run(c, states, steps)
    ensures Final(states) == State(map["a" := Version(7)], map[], Holding(e, 3),
                                   map[2 := Posted(e, [Version(7)], false)],
                                   map[1 := Looked(e, 5), 2 := Looked(e, 7)])
  {
    states, steps := SecondRequest(c, e);
    states, steps := Extend(c, states, steps, Ask(1));
    assert Final(states).requests == map[1 := Looked(e, 5), 2 := Sent(e, 7)];
    states, steps := Extend(c, states, steps, Ask(2));
    assert Final(states).requests == map[1 := Looked(e, 5), 2 := Looked(e, 7)];
  }

  lemma StoresVersion(s: State, e: Endpoint, k: int, held: int, at: int)
    requires k in s.requests && s.requests[k] == Looked(e, at) && s.stores == Holding(e, held) && 3 < at
    ensures StoreNext(s, k) == s.(stores := Holding(e, at),
                                  requests := s.requests[k := Request(e, [Version(at)], 1, NotAsked)])
  {
    var store := map["a" := Version(held)];
    assert store["a" := Version(at)] == map["a" := Version(at)];
    assert Stored(store, Some(Version(3)), Version(at)) == Some(map["a" := Version(at)]);
    assert s.stores[e := map["a" := Version(at)]] == Holding(e, at);
  }

  // Version 5 is stored last.
  lemma BothStore(c: Config, e: Endpoint) returns (states: seq<State>, steps: seq<Step>)
    requires e !in c.serial && c.rule.AllCovered? && e in c.endpoints
    ensures Run(c, states, steps)
    ensures var s := Final(states);
      && s.servers == map["a" := Version(7)] && s.stores == Holding(e, 5)
      && s.uploads == map[2 := Posted(e, [Version(7)], false)]
      && 2 in s.requests && s.requests[2] == Request(e, [Version(7)], 1, NotAsked)
  {
    states, steps := BothLook(c, e);
    StoresVersion(Final(states), e, 2, 3, 7);
    states, steps := Extend(c, states, steps, StoreOne(2));
    StoresVersion(Final(states), e, 1, 7, 5);
    states, steps := Extend(c, states, steps, StoreOne(1));
  }

  /** Where two requests may store objects of one key at a time, an old version can overwrite a new one that was
      acknowledged, and no upload will send it again. */
  lemma OverlappingMergesLose(c: Config, e: Endpoint) returns (states: seq<State>, steps: seq<Step>)
    requires e !in c.serial && c.rule.AllCovered? && e in c.endpoints
    ensures Run(c, states, steps) && !Delivered(Final(states), e)
  {
    states, steps := BothStore(c, e);
    states, steps := Extend(c, states, steps, Acknowledge(2));
    states, steps := Extend(c, states, steps, SaveWatermark(2));
    assert !Has(StoreOf(Final(states), e), Final(states).servers["a"]);
  }

  // An upload that has read its watermark sends the only record there is, and the receiver looks it up.
  lemma SendOne(c: Config, before: seq<State>, taken: seq<Step>, k: int, e: Endpoint, at: int)
    returns (states: seq<State>, steps: seq<Step>)
    requires Run(c, before, taken)
    requires var s := Final(before);
      && s.servers == map["a" := Version(at)] && s.requests == map[]
      && k in s.uploads && s.uploads[k].Reading? && s.uploads[k].to == e && Above(s.uploads[k].since, at)
    ensures Run(c, states, steps)
    ensures var s := Final(before);
      Final(states) == s.(uploads := s.uploads[k := Posted(e, [Version(at)], false)],
                          requests := map[k := Request(e, [Version(at)], 0, Answered(Existing(StoreOf(s, e), "a")))])
  {
    states, steps := Extend(c, before, taken, Post(k, [Version(at)]));
    assert Final(states).requests == map[k := Sent(e, at)];
    states, steps := Extend(c, states, steps, Ask(k));
  }

  // It is stored and acknowledged.
  lemma Transfer(c: Config, before: seq<State>, taken: seq<Step>, k: int, e: Endpoint, at: int)
    returns (states: seq<State>, steps: seq<Step>)
    requires Run(c, before, taken)
    requires var s := Final(before);
      && s.servers == map["a" := Version(at)] && s.requests == map[]
      && k in s.uploads && s.uploads[k].Reading? && s.uploads[k].to == e && Above(s.uploads[k].since, at)
      && !Has(StoreOf(s, e), Version(at))
    ensures Run(c, states, steps)
    ensures var s := Final(before);
      Final(states) == s.(stores := s.stores[e := StoreOf(s, e)["a" := Version(at)]],
                          uploads := s.uploads[k := Posted(e, [Version(at)], true)])
  {
    var s := Final(before);
    var store := StoreOf(s, e)["a" := Version(at)];
    states, steps := SendOne(c, before, taken, k, e, at);
    assert Stored(StoreOf(s, e), Existing(StoreOf(s, e), "a"), Version(at)) == Some(store);
    states, steps := Extend(c, states, steps, StoreOne(k));
    var stored := map[k := Request(e, [Version(at)], 1, NotAsked)];
    assert Final(states).requests == stored;
    states, steps := Extend(c, states, steps, Acknowledge(k));
    assert stored - {k} == map[];
    TwiceUpdated(s.uploads, k, Posted(e, [Version(at)], false), Posted(e, [Version(at)], true));
  }

  lemma TwiceUpdated(uploads: map<int, Upload>, k: int, u: Upload, u': Upload)
    ensures uploads[k := u][k := u'] == uploads[k := u']
  {
  }

  /** Where another endpoint has the same address, what was sent there moves the watermark of both. */
  lemma SharedAddressLoses(c: Config, e: Endpoint, f: Endpoint) returns (states: seq<State>, steps: seq<Step>)
    requires c.rule.AllCovered? && e in c.endpoints && f in c.endpoints && e != f && e.addr == f.addr
    ensures Run(c, states, steps) && !Delivered(Final(states), e)
  {
    states, steps := [State(map["a" := Version(5)], map[], map[], map[], map[])], [];
    states, steps := Extend(c, states, steps, ReadWatermark(1, f));
    states, steps := Transfer(c, states, steps, 1, f, 5);
    states, steps := Extend(c, states, steps, SaveWatermark(1));
    assert !Has(StoreOf(Final(states), e), Final(states).servers["a"]);
  }

  ghost predicate AlwaysDelivered(c: Config, e: Endpoint) {
    forall states, steps :: Run(c, states, steps) ==> Delivered(Final(states), e)
  }

  /** Delivery to an endpoint holds in all runs with covered saves if and only if no other endpoint has its address and
      its receiver does not store two objects of one key at a time. */
  lemma DeliveredIffSound(c: Config, e: Endpoint)
    requires c.rule.AllCovered? && e in c.endpoints
    ensures AlwaysDelivered(c, e) <==> Sound(c, e)
  {
    if Sound(c, e) {
      forall states, steps | Run(c, states, steps)
        ensures Delivered(Final(states), e)
      {
        WatermarkIsDelivered(c, states, steps, |states| - 1, e);
      }
    } else if e !in c.serial {
      var states, steps := OverlappingMergesLose(c, e);
    } else {
      var f :| f in c.endpoints && f.addr == e.addr && f != e;
      var states, steps := SharedAddressLoses(c, e, f);
    }
  }

  const EARLY: Server := Object("a", 5, "")
  const LATE: Server := Object("b", 3, "")

  // While an upload is under way a record is saved with a stamp below the end of its batch.
  lemma SaveDuringUpload(c: Config, e: Endpoint) returns (states: seq<State>, steps: seq<Step>)
    requires c.rule.AboveWatermarks? && e in c.endpoints
    ensures Run(c, states, steps)
    ensures Final(states) == State(map["a" := EARLY, "b" := LATE], map[], map[],
                                   map[1 := Posted(e, [EARLY], false)],
                                   map[1 := Request(e, [EARLY], 0, NotAsked)])
  {
    states, steps := [State(map["a" := EARLY], map[], map[], map[], map[])], [];
    states, steps := Extend(c, states, steps, ReadWatermark(1, e));
    assert IsBatch(Final(states).servers, None, [EARLY]);
    states, steps := Extend(c, states, steps, Post(1, [EARLY]));
    states, steps := Extend(c, states, steps, Save(LATE));
  }

  /** A stamp that is only above the saved watermarks is not enough: a record saved while an upload is under way, with
      a stamp below the end of its batch, is passed over for good. */
  lemma LateStampIsLost(c: Config, e: Endpoint) returns (states: seq<State>, steps: seq<Step>)
    requires c.rule.AboveWatermarks? && e in c.endpoints
    ensures Run(c, states, steps) && !Delivered(Final(states), e)
  {
    states, steps := SaveDuringUpload(c, e);
    assert PassesOver(Final(states), e, 1, LATE);
    FinishLoses(c, Final(states), e, 1, LATE);
    states, steps := Lose(c, states, steps, e);
  }

  // One upload is acknowledged and has not saved its watermark.
  lemma FirstAcknowledged(c: Config, e: Endpoint) returns (states: seq<State>, steps: seq<Step>)
    requires c.rule.AllCoveredBySent? && e in c.endpoints
    ensures Run(c, states, steps)
    ensures Final(states) == State(map["a" := Version(5)], map[], Holding(e, 5),
                                   map[1 := Posted(e, [Version(5)], true)], map[])
  {
    states, steps := [State(map["a" := Version(5)], map[], map[], map[], map[])], [];
    states, steps := Extend(c, states, steps, ReadWatermark(1, e));
    states, steps := Transfer(c, states, steps, 1, e, 5);
    assert map[]["a" := Version(5)] == map["a" := Version(5)];
  }

  // Another saves a later one.
  lemma TwoWatermarks(c: Config, e: Endpoint) returns (states: seq<State>, steps: seq<Step>)
    requires c.rule.AllCoveredBySent? && e in c.endpoints
    ensures Run(c, states, steps)
    ensures var s := Final(states);
      && s.servers == map["a" := Version(7)] && s.watermarks == map[e.addr := 7] && s.requests == map[]
      && StoreOf(s, e) == map["a" := Version(7)] && s.uploads == map[1 := Posted(e, [Version(5)], true)]
  {
    states, steps := FirstAcknowledged(c, e);
    states, steps := Extend(c, states, steps, Save(Version(7)));
    assert Final(states).servers == map["a" := Version(7)];
    states, steps := Extend(c, states, steps, ReadWatermark(2, e));
    states, steps := Transfer(c, states, steps, 2, e, 7);
    states, steps := Extend(c, states, steps, SaveWatermark(2));
  }

  // A third reads the later watermark; then the first saves the earlier one, and a record is saved between the two.
  lemma SaveBetween(c: Config, e: Endpoint) returns (states: seq<State>, steps: seq<Step>)
    requires c.rule.AllCoveredBySent? && e in c.endpoints
    ensures Run(c, states, steps)
    ensures var s, o := Final(states), Object("b", 6, "");
      && "b" in s.servers && s.servers["b"] == o && !Has(StoreOf(s, e), o) && s.requests == map[]
      && s.uploads == map[3 := Reading(e, Some(7))]
  {
    states, steps := TwoWatermarks(c, e);
    states, steps := Extend(c, states, steps, ReadWatermark(3, e));
    states, steps := Extend(c, states, steps, SaveWatermark(1));
    assert Final(states).uploads == map[3 := Reading(e, Some(7))] && Final(states).watermarks == map[e.addr := 5];
    states, steps := Extend(c, states, steps, Save(Object("b", 6, "")));
  }

  /** A stamp above the watermark and above the end of all that was sent is not enough either: an upload may have read a
      later watermark than the one that is saved now, and will not ask for the record. */
  lemma StampBelowReadIsLost(c: Config, e: Endpoint) returns (states: seq<State>, steps: seq<Step>)
    requires c.rule.AllCoveredBySent? && e in c.endpoints
    ensures Run(c, states, steps) && !Delivered(Final(states), e)
  {
    states, steps := SaveBetween(c, e);
    ReadingLoses(c, Final(states), e, 3, Object("b", 6, ""));
    states, steps := Lose(c, states, steps, e);
  }

  /** The receivers serve other senders too: any object can come to any receiver though this sender has none. */
  lemma OtherSendersStore(c: Config, e: Endpoint, o: Server) returns (states: seq<State>, steps: seq<Step>)
    ensures Run(c, states, steps) && Final(states).servers == map[]
    ensures StoreOf(Final(states), e) == map[o.key := o] && Final(states).uploads == map[]
  {
    states, steps := [State(map[], map[], map[], map[], map[])], [];
    states, steps := Extend(c, states, steps, OtherPost(1, e, [o]));
    states, steps := Extend(c, states, steps, Ask(1));
    states, steps := Extend(c, states, steps, StoreOne(1));
  }
}
