/** Upload of product usage with a per-address tracker (`upload.py`), and its idempotent import at the receiver
    (`apis.py`, `api.py`). The sender sends at least once; the receiver's unique key makes that exactly once. */
module UsageUpload {
  import opened Wrappers

  // A server uploads go to, as configured.
  datatype Endpoint = Endpoint(addr: string, port: int, url: string)

  // The four unique fields, everything else a record says, and the addresses it was sent to.
  datatype Usage = Usage(consumer: string, spliceServer: string, date: int, instance: string, facts: string,
                         tracker: set<string>)
  {
    function Key(): (string, string, int, string) {
      (consumer, spliceServer, date, instance)
    }

    // What is sent: the tracker is private to the sender.
    function Bare(): Usage {
      this.(tracker := {})
    }
  }

  // The sender's collection, by object id.
  type Usages = map<int, Usage>

  function Keys(store: seq<Usage>): set<(string, string, int, string)> {
    set r | r in store :: r.Key()
  }

  ghost predicate OnePerKey(store: seq<Usage>) {
    forall i, j :: 0 <= i < j < |store| ==> store[i].Key() != store[j].Key()
  }

  // ---------------------------------------------------------------------------------------------
  // The receiver

  // How one `save` goes: it works as far as the database is concerned, the database fails, or the record is not valid.
  datatype Attempt = Works | Fails | Invalid

  // How it ends: the unique index refuses a second record with one key.
  datatype Saved = Stored | Duplicate | Failed | Rejected

  function SaveResult(store: seq<Usage>, r: Usage, how: Attempt): Saved {
    match how
    case Invalid => Rejected
    case Fails => Failed
    case Works => if r.Key() in Keys(store) then Duplicate else Stored
  }

  function Save(store: seq<Usage>, r: Usage, how: Attempt): seq<Usage> {
    if SaveResult(store, r, how) == Stored then store + [r] else store
  }

  // `import_hook` over a list of records; `how(i)` says how saving record `i` goes. An invalid record ends it.
  datatype Import = Import(store: seq<Usage>, errors: seq<Usage>, dups: seq<Usage>, raised: bool)

  function ImportAll(store: seq<Usage>, records: seq<Usage>, how: nat -> Attempt): Import
    decreases records
  {
    if records == [] then Import(store, [], [], false)
    else
      var n := |records| - 1;
      var before := ImportAll(store, records[..n], how);
      var r := records[n];
      if before.raised then before
      else match SaveResult(before.store, r, how(n))
        case Stored => before.(store := before.store + [r])
        case Duplicate => before.(dups := before.dups + [r])
        case Failed => before.(errors := before.errors + [r])
        case Rejected => before.(raised := true)
  }

  lemma {:induction false} RaisedStays(store: seq<Usage>, records: seq<Usage>, how: nat -> Attempt, i: nat)
    requires i <= |records| && ImportAll(store, records[..i], how).raised
    ensures ImportAll(store, records, how) == ImportAll(store, records[..i], how)
    decreases records
  {
    if i == |records| {
      assert records[..i] == records;
    } else {
      var n := |records| - 1;
      assert records[..n][..i] == records[..i];
      RaisedStays(store, records[..n], how, i);
    }
  }

  // ---------------------------------------------------------------------------------------------
  // What an import stores, without running it

  // How many records come before the first that is not valid.
  function ValidCount(records: seq<Usage>, how: nat -> Attempt): (m: nat)
    ensures m <= |records|
  {
    if records == [] then 0
    else
      var n := |records| - 1;
      var before := ValidCount(records[..n], how);
      if before == n && how(n) != Invalid then n + 1 else before
  }

  // Record `i` is the first sent of its key whose save works, and the key is new.
  ghost predicate IsFirstNew(store: seq<Usage>, records: seq<Usage>, how: nat -> Attempt, i: nat)
    requires i < |records|
  {
    && how(i) == Works
    && (forall old' :: old' in store ==> old'.Key() != records[i].Key())
    && forall j :: 0 <= j < i && how(j) == Works ==> records[j].Key() != records[i].Key()
  }

  ghost function FirstNew(store: seq<Usage>, records: seq<Usage>, how: nat -> Attempt, m: nat): seq<Usage>
    requires m <= |records|
  {
    if m == 0 then []
    else FirstNew(store, records, how, m - 1) + if IsFirstNew(store, records, how, m - 1) then [records[m - 1]] else []
  }

  function Failing(records: seq<Usage>, how: nat -> Attempt, m: nat): seq<Usage>
    requires m <= |records|
  {
    if m == 0 then [] else Failing(records, how, m - 1) + if how(m - 1) == Fails then [records[m - 1]] else []
  }

  // Saving one record after the other.
  function SaveAll(store: seq<Usage>, records: seq<Usage>, how: nat -> Attempt, m: nat): seq<Usage>
    requires m <= |records|
  {
    if m == 0 then store else Save(SaveAll(store, records, how, m - 1), records[m - 1], how(m - 1))
  }

  const ACCEPTED := 202
  const BAD_REQUEST := 400
  const CONFLICT := 409

  // What `post_list` answers after an import.
  function ImportStatus(r: Import): int {
    if r.raised then BAD_REQUEST else if r.errors == [] then ACCEPTED else CONFLICT
  }

  class UsageReceiver {
    var store: seq<Usage>

    constructor ()
      ensures store == []
    {
      store := [];
    }

    method ImportHook(records: seq<Usage>, how: nat -> Attempt) returns (errors: seq<Usage>, raised: bool)
      modifies this
      ensures store == ImportAll(old(store), records, how).store
      ensures errors == ImportAll(old(store), records, how).errors
      ensures raised == ImportAll(old(store), records, how).raised
      ensures var m := ValidCount(records, how);
        && store == old(store) + FirstNew(old(store), records, how, m) && errors == Failing(records, how, m)
        && (raised <==> m < |records|)
    {
      var dups: seq<Usage> := [];
      errors := [];
      for i := 0 to |records|
        invariant Import(store, errors, dups, false) == ImportAll(old(store), records[..i], how)
      {
        var r := records[i];
        assert records[..i + 1][..i] == records[..i];
        match how(i)
        case Invalid =>
          RaisedStays(old(store), records, how, i + 1);
          ImportIsExactly(old(store), records, how);
          return errors, true;
        case Fails =>
          errors := errors + [r];
        case Works =>
          if r.Key() in (set s | s in store :: s.Key()) {
            dups := dups + [r];
          } else {
            store := store + [r];
          }
      }
      assert records[..|records|] == records;
      ImportIsExactly(old(store), records, how);
      raised := false;
    }

    // Accepted when nothing failed; duplicates count as imported. `body` is what can be read from the request: nothing
    // if it is empty or not a list of records. A record that is not valid is answered like that, but what precedes it
    // has been imported.
    method PostList(body: Option<seq<Usage>>, how: nat -> Attempt) returns (status: int)
      modifies this
      ensures status in {ACCEPTED, BAD_REQUEST, CONFLICT}
      ensures body.None? ==> store == old(store)
      ensures body.Some? ==> store == ImportAll(old(store), body.value, how).store
      ensures status == BAD_REQUEST <==> body.None? || exists i :: 0 <= i < |body.value| && how(i) == Invalid
      ensures status == ACCEPTED <==> body.Some? && forall i :: 0 <= i < |body.value| ==> how(i) == Works
      ensures body.Some? ==>
                store == old(store) + FirstNew(old(store), body.value, how, ValidCount(body.value, how))
      ensures status == if body.None? then BAD_REQUEST else ImportStatus(ImportAll(old(store), body.value, how))
      ensures status == ACCEPTED ==> forall r :: r in body.value ==> r.Key() in Keys(store)
      ensures old(store) <= store
      ensures OnePerKey(old(store)) ==> OnePerKey(store)
    {
      if body.None? {
        return BAD_REQUEST;
      }
      var records := body.value;
      var errors, raised := ImportHook(records, how);
      status := if raised then BAD_REQUEST else if errors == [] then ACCEPTED else CONFLICT;
      ImportIsComplete(old(store), records, how);
      if OnePerKey(old(store)) {
        ImportKeepsKeys(old(store), records, how);
      }
    }
  }

  lemma KeysOfMore(store: seq<Usage>, r: Usage)
    ensures Keys(store + [r]) == Keys(store) + {r.Key()}
  {
  }

  // An import never drops a record.
  lemma {:induction false} ImportGrows(store: seq<Usage>, records: seq<Usage>, how: nat -> Attempt)
    ensures var r := ImportAll(store, records, how).store; store <= r && Keys(store) <= Keys(r)
    decreases records
  {
    if records != [] {
      var n := |records| - 1;
      ImportGrows(store, records[..n], how);
      KeysOfMore(ImportAll(store, records[..n], how).store, records[n]);
    }
  }

  lemma {:induction false} RaisedIsInvalid(store: seq<Usage>, records: seq<Usage>, how: nat -> Attempt)
    ensures ImportAll(store, records, how).raised <==> exists i :: 0 <= i < |records| && how(i) == Invalid
    decreases records
  {
    if records != [] {
      RaisedIsInvalid(store, records[..|records| - 1], how);
    }
  }

  lemma {:induction false} ErrorsAreFailures(store: seq<Usage>, records: seq<Usage>, how: nat -> Attempt)
    ensures var r := ImportAll(store, records, how);
      r.errors == [] && !r.raised <==> forall i :: 0 <= i < |records| ==> how(i) == Works
    decreases records
  {
    if records != [] {
      ErrorsAreFailures(store, records[..|records| - 1], how);
    }
  }

  lemma {:induction false} ImportedAreThere(store: seq<Usage>, records: seq<Usage>, how: nat -> Attempt)
    requires ImportAll(store, records, how).errors == [] && !ImportAll(store, records, how).raised
    ensures forall x :: x in records ==> x.Key() in Keys(ImportAll(store, records, how).store)
    decreases records
  {
    if records != [] {
      var n := |records| - 1;
      ImportedAreThere(store, records[..n], how);
      KeysOfMore(ImportAll(store, records[..n], how).store, records[n]);
      assert records == records[..n] + [records[n]];
    }
  }

  lemma {:induction false} PrefixSaves(store: seq<Usage>, records: seq<Usage>, how: nat -> Attempt, n: nat, m: nat)
    requires m <= n <= |records|
    ensures SaveAll(store, records[..n], how, m) == SaveAll(store, records, how, m)
    decreases m
  {
    if m > 0 {
      PrefixSaves(store, records, how, n, m - 1);
    }
  }

  lemma {:induction false} PrefixFails(records: seq<Usage>, how: nat -> Attempt, n: nat, m: nat)
    requires m <= n <= |records|
    ensures Failing(records[..n], how, m) == Failing(records, how, m)
    decreases m
  {
    if m > 0 {
      PrefixFails(records, how, n, m - 1);
    }
  }

  // The keys stored are the old ones and those of the records whose save worked.
  lemma {:induction false} KeysSaved(store: seq<Usage>, records: seq<Usage>, how: nat -> Attempt, m: nat)
    requires m <= |records|
    ensures forall k :: k in Keys(SaveAll(store, records, how, m)) <==>
              k in Keys(store) || exists j :: 0 <= j < m && how(j) == Works && records[j].Key() == k
    decreases m
  {
    if m > 0 {
      KeysSaved(store, records, how, m - 1);
      KeysOfMore(SaveAll(store, records, how, m - 1), records[m - 1]);
      forall k
        ensures k in Keys(SaveAll(store, records, how, m)) <==>
                k in Keys(store) || exists j :: 0 <= j < m && how(j) == Works && records[j].Key() == k
      {
      }
    }
  }

  lemma {:induction false} SaveAllIsFirstNew(store: seq<Usage>, records: seq<Usage>, how: nat -> Attempt, m: nat)
    requires m <= |records|
    ensures SaveAll(store, records, how, m) == store + FirstNew(store, records, how, m)
    decreases m
  {
    if m > 0 {
      SaveAllIsFirstNew(store, records, how, m - 1);
      KeysSaved(store, records, how, m - 1);
      assert records[m - 1].Key() in Keys(store) <==> exists x :: x in store && x.Key() == records[m - 1].Key();
    }
  }

  lemma {:induction false} ImportRaises(store: seq<Usage>, records: seq<Usage>, how: nat -> Attempt)
    ensures ImportAll(store, records, how).raised <==> ValidCount(records, how) < |records|
    decreases records
  {
    if records != [] {
      ImportRaises(store, records[..|records| - 1], how);
    }
  }

  lemma {:induction false} ImportSaves(store: seq<Usage>, records: seq<Usage>, how: nat -> Attempt)
    ensures ImportAll(store, records, how).store == SaveAll(store, records, how, ValidCount(records, how))
    decreases records
  {
    if records != [] {
      var n := |records| - 1;
      var front := records[..n];
      ImportSaves(store, front, how);
      ImportRaises(store, front, how);
      PrefixSaves(store, records, how, n, ValidCount(front, how));
      SavesOneMore(store, records, how);
    }
  }

  // The last record: it is saved if all before it were valid.
  lemma SavesOneMore(store: seq<Usage>, records: seq<Usage>, how: nat -> Attempt)
    requires records != []
    ensures var before := ImportAll(store, records[..|records| - 1], how);
      ImportAll(store, records, how).store ==
      if before.raised then before.store else Save(before.store, records[|records| - 1], how(|records| - 1))
  {
  }

  lemma {:induction false} ImportReports(store: seq<Usage>, records: seq<Usage>, how: nat -> Attempt)
    ensures ImportAll(store, records, how).errors == Failing(records, how, ValidCount(records, how))
    decreases records
  {
    if records != [] {
      var n := |records| - 1;
      var front := records[..n];
      ImportReports(store, front, how);
      ImportRaises(store, front, how);
      PrefixFails(records, how, n, ValidCount(front, how));
      ReportsOneMore(store, records, how);
    }
  }

  lemma ReportsOneMore(store: seq<Usage>, records: seq<Usage>, how: nat -> Attempt)
    requires records != []
    ensures var before := ImportAll(store, records[..|records| - 1], how);
      ImportAll(store, records, how).errors ==
      before.errors + if !before.raised && how(|records| - 1) == Fails then [records[|records| - 1]] else []
  {
  }

  /** Exactly what an import does: it saves the records before the first invalid one, one after the other. So to what
      was there it adds, unchanged and in order, for each new key the first record of that key whose save worked; it
      reports exactly the records whose save failed; and it raises exactly when one is not valid. */
  lemma ImportIsExactly(store: seq<Usage>, records: seq<Usage>, how: nat -> Attempt)
    ensures var r, m := ImportAll(store, records, how), ValidCount(records, how);
      && r.store == SaveAll(store, records, how, m) == store + FirstNew(store, records, how, m)
      && r.errors == Failing(records, how, m) && (r.raised <==> m < |records|)
  {
    ImportSaves(store, records, how);
    ImportReports(store, records, how);
    ImportRaises(store, records, how);
    SaveAllIsFirstNew(store, records, how, ValidCount(records, how));
  }

  /** Two records are both stored if and only if they differ in consumer, splice server, date or instance. */
  lemma BothAreStored(a: Usage, b: Usage)
    ensures ImportAll([], [a, b], i => Works).store ==
            if a.consumer != b.consumer || a.spliceServer != b.spliceServer || a.date != b.date
               || a.instance != b.instance then [a, b] else [a]
  {
    var how := i => Works;
    ImportIsExactly([], [a, b], how);
    assert [a, b][..1] == [a] && [a][..0] == [];
    assert ValidCount([], how) == 0 && ValidCount([a], how) == 1 && ValidCount([a, b], how) == 2;
    assert FirstNew([], [a, b], how, 0) == [];
    assert FirstNew([], [a, b], how, 1) == [a];
  }

  /** An import ends without error exactly when every save worked, and then the receiver has every key it was sent; it
      raises exactly when a record is not valid. It never drops a record it had. */
  lemma ImportIsComplete(store: seq<Usage>, records: seq<Usage>, how: nat -> Attempt)
    ensures var r := ImportAll(store, records, how);
      && (r.errors == [] && !r.raised <==> forall i :: 0 <= i < |records| ==> how(i) == Works)
      && (r.errors == [] && !r.raised ==> forall x :: x in records ==> x.Key() in Keys(r.store))
      && (r.raised <==> exists i :: 0 <= i < |records| && how(i) == Invalid)
      && store <= r.store && Keys(store) <= Keys(r.store)
  {
    ImportGrows(store, records, how);
    RaisedIsInvalid(store, records, how);
    ErrorsAreFailures(store, records, how);
    if ImportAll(store, records, how).errors == [] && !ImportAll(store, records, how).raised {
      ImportedAreThere(store, records, how);
    }
  }

  /** An import never stores two records with one key. */
  lemma {:induction false} ImportKeepsKeys(store: seq<Usage>, records: seq<Usage>, how: nat -> Attempt)
    requires OnePerKey(store)
    ensures OnePerKey(ImportAll(store, records, how).store)
    decreases records
  {
    if records != [] {
      var n := |records| - 1;
      ImportKeepsKeys(store, records[..n], how);
      SaveKeepsKeys(ImportAll(store, records[..n], how).store, records[n], how(n));
    }
  }

  lemma SaveKeepsKeys(store: seq<Usage>, r: Usage, how: Attempt)
    requires OnePerKey(store)
    ensures OnePerKey(Save(store, r, how))
  {
    forall i | 0 <= i < |store|
      ensures store[i].Key() in Keys(store)
    {
      assert store[i] in store;
    }
  }

  /** Sending a batch again has no effect once it was imported without error. */
  lemma {:induction false} ImportTwiceIsOnce(store: seq<Usage>, records: seq<Usage>, how: nat -> Attempt)
    requires forall r :: r in records ==> r.Key() in Keys(store)
    ensures ImportAll(store, records, how).store == store
    decreases records
  {
    if records != [] {
      var n := |records| - 1;
      forall r | r in records[..n]
        ensures r.Key() in Keys(store)
      {
        assert r in records;
      }
      ImportTwiceIsOnce(store, records[..n], how);
    }
  }

  // ---------------------------------------------------------------------------------------------
  // The sender

  function Pending(usages: Usages, addr: string): set<int> {
    set id | id in usages && addr !in usages[id].tracker
  }

  function Mark(usages: Usages, id: int, addr: string): Usages {
    if id in usages then usages[id := usages[id].(tracker := usages[id].tracker + {addr})] else usages
  }

  function MarkAll(usages: Usages, ids: seq<int>, addr: string): Usages {
    map id | id in usages ::
      if id in ids then usages[id].(tracker := usages[id].tracker + {addr}) else usages[id]
  }

  function UnmarkAll(usages: Usages, ids: seq<int>, addr: string): Usages {
    map id | id in usages ::
      if id in ids then usages[id].(tracker := usages[id].tracker - {addr}) else usages[id]
  }

  // What the query for an address returns: the pending records by date, at most `limit` of them (all if 0).
  ghost predicate IsBatch(usages: Usages, addr: string, limit: nat, batch: seq<int>) {
    var pending := Pending(usages, addr);
    && (forall i :: 0 <= i < |batch| ==> batch[i] in pending)
    && (forall i, j :: 0 <= i < j < |batch| ==> batch[i] != batch[j])
    && |batch| == (if limit == 0 || |pending| < limit then |pending| else limit)
    && (forall i, j :: 0 <= i < j < |batch| ==> usages[batch[i]].date <= usages[batch[j]].date)
    && forall id, other :: id in batch && other in pending && other !in batch ==> usages[id].date <= usages[other].date
  }

  // How a request ends for the sender: an HTTP status, or an exception of the connection.
  datatype Reply = Status(code: int) | ConnectionError

  datatype UploadResult = Sent | Refused | Raised

  // The statuses the client takes for a success: 200, 202 and 204.
  function Concluded(reply: Reply): UploadResult {
    if reply.ConnectionError? then UploadResult.Raised else if reply.code in {200, 202, 204} then Sent else Refused
  }

  class UsageSender {
    var usages: Usages

    constructor ()
      ensures usages == map[]
    {
      usages := map[];
    }

    method MarkSent(ids: seq<int>, addr: string)
      modifies this
      ensures usages == MarkAll(old(usages), ids, addr)
    {
      for i := 0 to |ids|
        invariant usages == MarkAll(old(usages), ids[..i], addr)
      {
        var id := ids[i];
        assert forall x :: x in ids[..i + 1] <==> x in ids[..i] || x == id;
        if id in usages {
          usages := usages[id := usages[id].(tracker := usages[id].tracker + {addr})];
        }
      }
      assert ids[..|ids|] == ids;
    }

    method UnmarkSent(ids: seq<int>, addr: string)
      modifies this
      ensures usages == UnmarkAll(old(usages), ids, addr)
    {
      for i := 0 to |ids|
        invariant usages == UnmarkAll(old(usages), ids[..i], addr)
      {
        var id := ids[i];
        assert forall x :: x in ids[..i + 1] <==> x in ids[..i] || x == id;
        if id in usages {
          assert usages[id].tracker - {addr} == old(usages)[id].tracker - {addr};
          usages := usages[id := usages[id].(tracker := usages[id].tracker - {addr})];
        }
      }
      assert ids[..|ids|] == ids;
    }

    // `_process_product_usage_upload`: `batch` is what the query returned, `reply` how the request ended.
    method ProcessUpload(addr: string, ghost limit: nat, batch: seq<int>, reply: Reply) returns (result: UploadResult)
      requires IsBatch(usages, addr, limit, batch)
      modifies this
      ensures result == if batch == [] then Sent else Concluded(reply)
      ensures result == Sent ==> usages == MarkAll(old(usages), batch, addr)
      ensures result == Sent ==> Pending(usages, addr) == Pending(old(usages), addr) - (set id | id in batch)
      ensures result != Sent ==> usages == old(usages)
    {
      if batch == [] {
        return Sent;
      }
      if reply.ConnectionError? {
        return UploadResult.Raised;
      }
      if reply.code !in {200, 202, 204} {
        return Refused;
      }
      MarkSent(batch, addr);
      return Sent;
    }
  }

  // What is sent of a batch.
  function Records(usages: Usages, batch: seq<int>): seq<Usage>
    requires forall i :: 0 <= i < |batch| ==> batch[i] in usages
  {
    seq(|batch|, i requires 0 <= i < |batch| => usages[batch[i]].Bare())
  }

  /** Which statuses are a success to the client; none that an import with an error or an invalid record ends with. */
  lemma SuccessStatuses(status: int)
    ensures Concluded(Status(status)) == Sent <==> status == 200 || status == 202 || status == 204
    ensures Concluded(Status(BAD_REQUEST)) == Concluded(Status(CONFLICT)) == Refused
  {
  }

  /** The two sides together: the sender concludes that the batch was sent if and only if every save of the receiver
      worked. So what it marks is at the receiver, under its key, and otherwise it marks nothing. */
  lemma SentIffAllWorked(usages: Usages, batch: seq<int>, addr: string, store: seq<Usage>, how: nat -> Attempt)
    requires forall i :: 0 <= i < |batch| ==> batch[i] in usages
    ensures var imported := ImportAll(store, Records(usages, batch), how);
      var concluded := Concluded(Status(ImportStatus(imported)));
      var usages' := if concluded == Sent then MarkAll(usages, batch, addr) else usages;
      && (concluded == Sent <==> forall i :: 0 <= i < |batch| ==> how(i) == Works)
      && (concluded != Sent ==> concluded == Refused)
      && forall id :: id in usages' && addr in usages'[id].tracker && addr !in usages[id].tracker ==>
           id in batch && usages[id].Key() in Keys(imported.store)
  {
    var records := Records(usages, batch);
    ImportIsComplete(store, records, how);
    forall id | id in batch
      ensures usages[id].Bare() in records && usages[id].Bare().Key() == usages[id].Key()
    {
      var i :| 0 <= i < |batch| && batch[i] == id;
      assert records[i] == usages[id].Bare();
    }
  }

  /** Unmarking takes back a marking exactly when none of the records was marked before. */
  lemma UnmarkUndoesMark(usages: Usages, ids: seq<int>, addr: string)
    ensures UnmarkAll(MarkAll(usages, ids, addr), ids, addr) == usages
       <==> forall id :: id in ids && id in usages ==> addr !in usages[id].tracker
  {
    var back := UnmarkAll(MarkAll(usages, ids, addr), ids, addr);
    if id :| id in ids && id in usages && addr in usages[id].tracker {
      assert addr !in back[id].tracker;
    } else {
      forall id | id in usages
        ensures back[id] == usages[id]
      {
        if id in ids {
          assert usages[id].tracker + {addr} - {addr} == usages[id].tracker;
        }
      }
    }
  }

  // ---------------------------------------------------------------------------------------------
  // Draining

  // Successive successful uploads to one address, with no new records.
  ghost predicate Uploads(us: seq<Usages>, batches: seq<seq<int>>, addr: string, limit: nat) {
    && |us| == |batches| + 1
    && forall i :: 0 <= i < |batches| ==>
         IsBatch(us[i], addr, limit, batches[i]) && us[i + 1] == MarkAll(us[i], batches[i], addr)
  }

  lemma BatchLeaves(usages: Usages, addr: string, limit: nat, batch: seq<int>)
    requires IsBatch(usages, addr, limit, batch)
    ensures var sent := set id | id in batch;
      && Pending(MarkAll(usages, batch, addr), addr) == Pending(usages, addr) - sent
      && |Pending(MarkAll(usages, batch, addr), addr)| == |Pending(usages, addr)| - |batch|
  {
    var sent := set id | id in batch;
    DistinctSize(batch);
    assert sent <= Pending(usages, addr);
    assert Pending(usages, addr) == sent + (Pending(usages, addr) - sent);
  }

  lemma {:induction false} DistinctSize(ids: seq<int>)
    requires forall i, j :: 0 <= i < j < |ids| ==> ids[i] != ids[j]
    ensures |set id | id in ids| == |ids|
    decreases ids
  {
    if ids != [] {
      DistinctSize(ids[1..]);
      assert (set id | id in ids) == (set id | id in ids[1..]) + {ids[0]};
      assert ids[0] !in ids[1..];
    }
  }

  /** Drain: after `k` successful uploads `k * limit` records are sent, or all; so nothing is pending after
      n/limit uploads, rounded up, and with limit 0 after one. No record is sent twice. */
  lemma {:induction false} UploadsDrain(us: seq<Usages>, batches: seq<seq<int>>, addr: string, limit: nat, k: nat)
    requires Uploads(us, batches, addr, limit) && k <= |batches|
    ensures var n := |Pending(us[0], addr)|;
      |Pending(us[k], addr)| ==
        if limit == 0 then (if k == 0 then n else 0) else if n <= k * limit then 0 else n - k * limit
    ensures forall i, id :: 0 <= i < k && id in batches[i] ==> id !in Pending(us[k], addr)
    ensures Pending(us[k], addr) <= Pending(us[0], addr)
    decreases k
  {
    if k > 0 {
      UploadsDrain(us, batches, addr, limit, k - 1);
      BatchLeaves(us[k - 1], addr, limit, batches[k - 1]);
      assert k * limit == (k - 1) * limit + limit;
    }
  }

  /** Oldest first: no record is sent after a younger one. */
  lemma OldestFirst(us: seq<Usages>, batches: seq<seq<int>>, addr: string, limit: nat, i: nat, j: nat, id: int,
                    later: int)
    requires Uploads(us, batches, addr, limit) && i < j < |batches|
    requires id in batches[i] && later in batches[j]
    ensures id in us[0] && later in us[0] && us[0][id].date <= us[0][later].date
  {
    UploadsDrain(us, batches, addr, limit, j);
    UploadsDrain(us, batches, addr, limit, i);
    PendingShrinks(us, batches, addr, limit, i, j);
    DatesKept(us, batches, addr, limit, i);
    assert later in Pending(us[i], addr) && later !in batches[i] by {
      if later in batches[i] {
        BatchesDisjoint(us, batches, addr, limit, i, j, later);
      }
    }
  }

  // What is pending later was pending before, and marking changes no date.
  lemma {:induction false} PendingShrinks(us: seq<Usages>, batches: seq<seq<int>>, addr: string, limit: nat, i: nat,
                                          j: nat)
    requires Uploads(us, batches, addr, limit) && i <= j <= |batches|
    ensures Pending(us[j], addr) <= Pending(us[i], addr)
    decreases j - i
  {
    if i < j {
      PendingShrinks(us, batches, addr, limit, i, j - 1);
      BatchLeaves(us[j - 1], addr, limit, batches[j - 1]);
    }
  }

  lemma {:induction false} DatesKept(us: seq<Usages>, batches: seq<seq<int>>, addr: string, limit: nat, k: nat)
    requires Uploads(us, batches, addr, limit) && k <= |batches|
    ensures us[k].Keys == us[0].Keys && forall id :: id in us[0] ==> us[k][id].date == us[0][id].date
    decreases k
  {
    if k > 0 {
      DatesKept(us, batches, addr, limit, k - 1);
    }
  }

  lemma BatchesDisjoint(us: seq<Usages>, batches: seq<seq<int>>, addr: string, limit: nat, i: nat, j: nat, id: int)
    requires Uploads(us, batches, addr, limit) && i < j < |batches|
    requires id in batches[i]
    ensures id !in batches[j]
  {
    UploadsDrain(us, batches, addr, limit, j);
  }
}
