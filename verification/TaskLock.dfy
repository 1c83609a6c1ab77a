/** The single-instance task lock of `enforce_single_tasks.py`.

    A `SingleTaskInfo` collection with a unique index on `task_id` is a map from task ids to records.
    The first part gives each database operation as a function and the methods that use them; the second
    part lets any number of processes run `lock`, the task body and `release`, one database or clock access
    per step, in any interleaving. */
module TaskLock {
  import opened Wrappers

  datatype Record = Record(owner: int, created: int)

  type Records = map<string, Record>

  // `find_and_modify` on (task_id, owner_pid) with removal: one atomic step.
  function DeleteOwned(records: Records, task: string, pid: int): Records {
    if task in records && records[task].owner == pid then records - {task} else records
  }

  // `find_and_modify` on task_id and `created <= threshold` with removal: one atomic step.
  function DeleteExpired(records: Records, task: string, threshold: int): Records {
    if task in records && records[task].created <= threshold then records - {task} else records
  }

  // The record that stands between before and after a deletion.
  function Removed(before: Records, after: Records, task: string): Option<Record> {
    if task in before && task !in after then Some(before[task]) else None
  }

  // An existing record keeps a caller out exactly when its owner runs and it is younger than the expiry.
  predicate Held(records: Records, task: string, alive: set<int>, expiry: int, now: int) {
    task in records && records[task].owner in alive && now - expiry < records[task].created
  }

  // How a call of the decorated function ends. `LogRaised` is the TypeError of the misplaced parenthesis
  // in the branch taken when the lock is not obtained: the body has not run.
  datatype Outcome = Returned | BodyRaised | LogRaised

  class EnforceSingleTask {
    var records: Records

    constructor ()
      ensures records == map[]
    {
      records := map[];
    }

    method RemoveByOwner(task: string, pid: int) returns (removed: Option<Record>)
      modifies this
      ensures records == DeleteOwned(old(records), task, pid)
      ensures removed == Removed(old(records), records, task)
    {
      removed := None;
      if task in records && records[task].owner == pid {
        removed := Some(records[task]);
        records := records - {task};
      }
    }

    // `alive` is what probing a pid with signal 0 finds.
    method RemoveNotRunning(task: string, alive: set<int>) returns (removed: Option<Record>)
      modifies this
      ensures task in old(records) && old(records)[task].owner !in alive ==>
                records == old(records) - {task} && removed == Some(old(records)[task])
      ensures !(task in old(records) && old(records)[task].owner !in alive) ==>
                records == old(records) && removed == None
    {
      removed := None;
      if task in records {
        var existing := records[task];
        if existing.owner !in alive {
          removed := RemoveByOwner(task, existing.owner);
        }
      }
    }

    method RemoveExpired(task: string, expiry: int, now: int) returns (removed: Option<Record>)
      modifies this
      ensures records == DeleteExpired(old(records), task, now - expiry)
      ensures removed == Removed(old(records), records, task)
    {
      var threshold := now - expiry;
      removed := None;
      if task in records && records[task].created <= threshold {
        removed := Some(records[task]);
        records := records - {task};
      }
    }

    // An undisturbed call: `now` is read for the threshold, `stamp` when the new record is built.
    method Lock(task: string, expiry: int, pid: int, alive: set<int>, now: int, stamp: int)
      returns (obtained: bool)
      modifies this
      ensures obtained <==> !Held(old(records), task, alive, expiry, now)
      ensures obtained ==> records == old(records)[task := Record(pid, stamp)]
      ensures !obtained ==> records == old(records)
    {
      var _ := RemoveNotRunning(task, alive);
      var _ := RemoveExpired(task, expiry, now);
      if task in records {
        return false;
      }
      records := records[task := Record(pid, stamp)];
      return true;
    }

    method Release(task: string, pid: int) returns (removed: Option<Record>)
      modifies this
      ensures records == DeleteOwned(old(records), task, pid)
      ensures removed == Removed(old(records), records, task)
    {
      removed := RemoveByOwner(task, pid);
    }

    // The wrapper around a task body, undisturbed. The body leaves this collection alone and either
    // returns or raises.
    method Run(task: string, expiry: int, pid: int, alive: set<int>, now: int, stamp: int, bodyRaises: bool)
      returns (outcome: Outcome)
      modifies this
      ensures outcome == LogRaised <==> Held(old(records), task, alive, expiry, now)
      ensures outcome == LogRaised ==> records == old(records)
      ensures outcome != LogRaised ==> records == old(records) - {task}
      ensures outcome != LogRaised ==> (outcome == BodyRaised <==> bodyRaises)
    {
      var obtained := Lock(task, expiry, pid, alive, now, stamp);
      if obtained {
        outcome := if bodyRaises then BodyRaised else Returned;
        var _ := Release(task, pid);
      } else {
        outcome := LogRaised;
      }
    }
  }

  // ---------------------------------------------------------------------------------------------
  // Any interleaving of any number of processes

  // What a process does next for one task id.
  datatype Phase =
    | Idle
    | ReadRecord
    | CheckOwner(owner: int)
    | DeleteDead(owner: int)
    | ReadClock
    | DeleteStale(threshold: int)
    | Stamp
    | Save(created: int)
    | Body(created: int)
    | Releasing(created: int)
    | Refused

  // `used` holds every pid ever given to a process, `alive` those still running.
  datatype State = State(records: Records, phases: map<(string, int), Phase>, alive: set<int>, used: set<int>,
                         clock: int)

  function PhaseOf(s: State, task: string, pid: int): Phase {
    if (task, pid) in s.phases then s.phases[(task, pid)] else Idle
  }

  datatype Step =
    | Tick(now: int)
    | Spawn(pid: int)
    | Die(pid: int)
    | Call(task: string, caller: int)
    | Advance(task: string, runner: int)

  // Clocks do not run backwards, pids are not reused, and a process makes one attempt at a time per task id.
  predicate Enabled(s: State, e: Step) {
    match e
    case Tick(now) => s.clock <= now
    case Spawn(pid) => pid !in s.used
    case Die(pid) => pid in s.alive
    case Call(task, pid) => pid in s.alive && PhaseOf(s, task, pid) in {Idle, Refused}
    case Advance(task, pid) => pid in s.alive && PhaseOf(s, task, pid) !in {Idle, Refused}
  }

  function MoveTo(s: State, task: string, pid: int, p: Phase): State {
    s.(phases := s.phases[(task, pid) := p])
  }

  // One database access, pid probe or clock reading of process `pid` working on `task`.
  function Work(expiry: string -> int, s: State, task: string, pid: int): State {
    match PhaseOf(s, task, pid)
    case Idle | Refused => s
    case ReadRecord =>
      MoveTo(s, task, pid, if task in s.records then CheckOwner(s.records[task].owner) else ReadClock)
    case CheckOwner(owner) =>
      MoveTo(s, task, pid, if owner in s.alive then ReadClock else DeleteDead(owner))
    case DeleteDead(owner) =>
      MoveTo(s.(records := DeleteOwned(s.records, task, owner)), task, pid, ReadClock)
    case ReadClock => MoveTo(s, task, pid, DeleteStale(s.clock - expiry(task)))
    case DeleteStale(threshold) =>
      MoveTo(s.(records := DeleteExpired(s.records, task, threshold)), task, pid, Stamp)
    case Stamp => MoveTo(s, task, pid, Save(s.clock))
    case Save(created) =>
      if task in s.records then MoveTo(s, task, pid, Refused)
      else MoveTo(s.(records := s.records[task := Record(pid, created)]), task, pid, Body(created))
    case Body(created) => MoveTo(s, task, pid, Releasing(created))
    case Releasing(_) => MoveTo(s.(records := DeleteOwned(s.records, task, pid)), task, pid, Idle)
  }

  function Next(expiry: string -> int, s: State, e: Step): State {
    match e
    case Tick(now) => s.(clock := now)
    case Spawn(pid) => s.(alive := s.alive + {pid}, used := s.used + {pid})
    case Die(pid) => s.(alive := s.alive - {pid})
    case Call(task, pid) => MoveTo(s, task, pid, ReadRecord)
    case Advance(task, pid) => Work(expiry, s, task, pid)
  }

  // Records may be left from processes that are gone.
  predicate Init(s: State) {
    && s.phases == map[]
    && s.alive == {}
    && forall t :: t in s.records ==> s.records[t].owner in s.used
  }

  // `Reached(expiry, s, steps)` is the state after the steps; `Valid` says that each was enabled in turn.
  function Reached(expiry: string -> int, s: State, steps: seq<Step>): State {
    if steps == [] then s
    else Next(expiry, Reached(expiry, s, steps[..|steps| - 1]), steps[|steps| - 1])
  }

  predicate Valid(expiry: string -> int, s: State, steps: seq<Step>) {
    steps == [] ||
    (Valid(expiry, s, steps[..|steps| - 1]) &&
     Enabled(Reached(expiry, s, steps[..|steps| - 1]), steps[|steps| - 1]))
  }

  // The process works under the lock: in the body, and still within the expiry of its record's stamp.
  predicate Protected(expiry: string -> int, s: State, task: string, pid: int) {
    && pid in s.alive
    && PhaseOf(s, task, pid).Body?
    && s.clock < PhaseOf(s, task, pid).created + expiry(task)
  }

  // A process that took the lock and has not released it.
  predicate TookLock(p: Phase) {
    p.Body? || p.Releasing?
  }

  // A record whose owner lives is the one its owner stamped when it took the lock.
  predicate RecordInv(s: State, t: string) {
    t in s.records ==>
      var r := s.records[t];
      r.owner in s.used &&
      (r.owner in s.alive ==> TookLock(PhaseOf(s, t, r.owner)) && PhaseOf(s, t, r.owner).created == r.created)
  }

  predicate PhaseInv(expiry: string -> int, s: State, t: string, p: int) {
    var ph := PhaseOf(s, t, p);
    && (ph != Idle ==> p in s.used)
    && (ph.CheckOwner? ==> ph.owner in s.used)
    && (ph.DeleteDead? ==> ph.owner in s.used && ph.owner !in s.alive)
    && (ph.DeleteStale? ==> ph.threshold <= s.clock - expiry(t))
    && (TookLock(ph) && p in s.alive && s.clock < ph.created + expiry(t) ==>
          t in s.records && s.records[t] == Record(p, ph.created))
  }

  ghost predicate Inv(expiry: string -> int, s: State) {
    && s.alive <= s.used
    && (forall t :: RecordInv(s, t))
    && (forall t, p :: PhaseInv(expiry, s, t, p))
  }

  lemma WorkKeepsRecord(expiry: string -> int, s: State, task: string, pid: int, t: string)
    requires Inv(expiry, s) && Enabled(s, Advance(task, pid))
    ensures RecordInv(Work(expiry, s, task, pid), t)
  {
    assert RecordInv(s, t) && PhaseInv(expiry, s, task, pid);
  }

  lemma WorkKeepsPhase(expiry: string -> int, s: State, task: string, pid: int, t: string, p: int)
    requires Inv(expiry, s) && Enabled(s, Advance(task, pid))
    ensures PhaseInv(expiry, Work(expiry, s, task, pid), t, p)
  {
    assert RecordInv(s, t) && PhaseInv(expiry, s, task, pid) && PhaseInv(expiry, s, t, p);
  }

  lemma StepKeepsInv(expiry: string -> int, s: State, e: Step)
    requires Inv(expiry, s) && Enabled(s, e)
    ensures Inv(expiry, Next(expiry, s, e))
  {
    var s' := Next(expiry, s, e);
    forall t
      ensures RecordInv(s', t)
    {
      assert RecordInv(s, t);
      if e.Advance? {
        WorkKeepsRecord(expiry, s, e.task, e.runner, t);
      }
    }
    forall t, p
      ensures PhaseInv(expiry, s', t, p)
    {
      assert PhaseInv(expiry, s, t, p);
      if e.Advance? {
        WorkKeepsPhase(expiry, s, e.task, e.runner, t, p);
      }
    }
  }

  lemma {:induction false} ReachedKeepsInv(expiry: string -> int, s: State, steps: seq<Step>)
    requires Init(s) && Valid(expiry, s, steps)
    ensures Inv(expiry, Reached(expiry, s, steps))
  {
    if steps != [] {
      var before := steps[..|steps| - 1];
      ReachedKeepsInv(expiry, s, before);
      StepKeepsInv(expiry, Reached(expiry, s, before), steps[|steps| - 1]);
    }
  }

  /** Mutual exclusion: in every reachable state at most one process works under the lock of a task id. */
  lemma MutualExclusion(expiry: string -> int, init: State, steps: seq<Step>, task: string, p: int, q: int)
    requires Init(init) && Valid(expiry, init, steps)
    requires Protected(expiry, Reached(expiry, init, steps), task, p)
    requires Protected(expiry, Reached(expiry, init, steps), task, q)
    ensures p == q
  {
    var s := Reached(expiry, init, steps);
    ReachedKeepsInv(expiry, init, steps);
    assert PhaseInv(expiry, s, task, p) && PhaseInv(expiry, s, task, q);
  }

  /** A process in the body keeps its record until the record expires, whatever the others do. */
  lemma RecordLostOnlyByExpiry(expiry: string -> int, init: State, steps: seq<Step>, task: string, pid: int)
    requires Init(init) && Valid(expiry, init, steps)
    requires pid in Reached(expiry, init, steps).alive && PhaseOf(Reached(expiry, init, steps), task, pid).Body?
    ensures var s := Reached(expiry, init, steps);
      var created := PhaseOf(s, task, pid).created;
      (task in s.records && s.records[task] == Record(pid, created)) || created + expiry(task) <= s.clock
  {
    ReachedKeepsInv(expiry, init, steps);
    assert PhaseInv(expiry, Reached(expiry, init, steps), task, pid);
  }

  /** Ownership: outside body and release a live process owns no record of the task, so none is left
      behind when the wrapper ends; and a record a live process does own carries its own stamp. */
  lemma NoRecordLeft(expiry: string -> int, init: State, steps: seq<Step>, task: string, pid: int)
    requires Init(init) && Valid(expiry, init, steps)
    requires pid in Reached(expiry, init, steps).alive
    ensures var s := Reached(expiry, init, steps);
      task in s.records && s.records[task].owner == pid ==>
        TookLock(PhaseOf(s, task, pid)) && PhaseOf(s, task, pid).created == s.records[task].created
  {
    ReachedKeepsInv(expiry, init, steps);
    assert RecordInv(Reached(expiry, init, steps), task);
  }

  /** Release: a process that releases removes its own record and no other, expired or not. In particular one whose lock
      expired and was taken over leaves its successor's record; and whoever works under the lock still has the record
      and still does. */
  lemma ReleaseSparesSuccessor(expiry: string -> int, init: State, steps: seq<Step>, task: string, late: int,
                               holder: int)
    requires Init(init) && Valid(expiry, init, steps)
    requires late in Reached(expiry, init, steps).alive && PhaseOf(Reached(expiry, init, steps), task, late).Releasing?
    ensures var s := Reached(expiry, init, steps);
      var s' := Work(expiry, s, task, late);
      && (forall t :: t != task || (t in s.records && s.records[t].owner != late) ==>
            (t in s'.records <==> t in s.records) && (t in s.records ==> s'.records[t] == s.records[t]))
      && (task in s'.records ==> s'.records[task].owner != late)
      && (Protected(expiry, s', task, holder) <==> Protected(expiry, s, task, holder))
      && (Protected(expiry, s, task, holder) ==>
            s'.records == s.records && task in s.records && s.records[task].owner == holder)
  {
    var s := Reached(expiry, init, steps);
    ReachedKeepsInv(expiry, init, steps);
    assert PhaseInv(expiry, s, task, holder);
  }

  // ---------------------------------------------------------------------------------------------
  // The method is the undisturbed run of the steps

  function Solo(expiry: string -> int, s: State, task: string, pid: int, n: nat): State
    decreases n
  {
    if n == 0 then s else Solo(expiry, Work(expiry, s, task, pid), task, pid, n - 1)
  }

  /** An undisturbed `lock`, step by step, ends as `EnforceSingleTask.Lock` says: it is refused exactly when
      the record's owner is alive and the record unexpired, and otherwise inserts the caller's record. */
  lemma SoloLock(expiry: string -> int, s: State, task: string, pid: int)
    requires PhaseOf(s, task, pid) == ReadRecord
    ensures exists n: nat ::
      var s' := Solo(expiry, s, task, pid, n);
      if Held(s.records, task, s.alive, expiry(task), s.clock)
      then PhaseOf(s', task, pid) == Refused && s'.records == s.records
      else PhaseOf(s', task, pid) == Body(s.clock) && s'.records == s.records[task := Record(pid, s.clock)]
  {
    var s1 := Work(expiry, s, task, pid);
    if task !in s.records {
      SoloTail(expiry, s1, task, pid);
      assert Solo(expiry, s, task, pid, 5) == Solo(expiry, s1, task, pid, 4);
    } else {
      var s2 := Work(expiry, s1, task, pid);
      assert Solo(expiry, s, task, pid, 6) == Solo(expiry, s1, task, pid, 5) == Solo(expiry, s2, task, pid, 4);
      if s.records[task].owner in s.alive {
        SoloTail(expiry, s2, task, pid);
      } else {
        var s3 := Work(expiry, s2, task, pid);
        SoloTail(expiry, s3, task, pid);
        assert Solo(expiry, s, task, pid, 7) == Solo(expiry, s1, task, pid, 6) == Solo(expiry, s2, task, pid, 5)
            == Solo(expiry, s3, task, pid, 4);
      }
    }
  }

  // Nothing but the records and the phase of one process at one task differs.
  ghost predicate OnlyMoved(s: State, s': State, task: string, pid: int) {
    && s'.alive == s.alive && s'.used == s.used && s'.clock == s.clock
    && forall t, p :: (t, p) != (task, pid) ==> PhaseOf(s', t, p) == PhaseOf(s, t, p)
  }

  lemma WorkMoves(expiry: string -> int, s: State, task: string, pid: int)
    ensures OnlyMoved(s, Work(expiry, s, task, pid), task, pid)
  {
  }

  // From the clock reading on: threshold, removal of a stale record, stamp, insertion.
  lemma SoloTail(expiry: string -> int, s: State, task: string, pid: int)
    requires PhaseOf(s, task, pid) == ReadClock
    ensures var s' := Solo(expiry, s, task, pid, 4);
      if task in s.records && s.clock - expiry(task) < s.records[task].created
      then PhaseOf(s', task, pid) == Refused && s'.records == s.records
      else PhaseOf(s', task, pid) == Body(s.clock) && s'.records == s.records[task := Record(pid, s.clock)]
  {
  }

  // ---------------------------------------------------------------------------------------------
  // Why the claim is limited to unexpired records

  ghost predicate Reachable(expiry: string -> int, init: State, s: State) {
    exists steps :: Valid(expiry, init, steps) && Reached(expiry, init, steps) == s
  }

  lemma Extend(expiry: string -> int, init: State, s: State, e: Step)
    requires Reachable(expiry, init, s) && Enabled(s, e)
    ensures Reachable(expiry, init, Next(expiry, s, e))
  {
    var steps :| Valid(expiry, init, steps) && Reached(expiry, init, steps) == s;
    var more := steps + [e];
    assert more[..|more| - 1] == steps;
    assert Valid(expiry, init, more) && Reached(expiry, init, more) == Next(expiry, s, e);
  }

  lemma {:induction false} ExtendSolo(expiry: string -> int, init: State, s: State, task: string, pid: int, n: nat)
    requires Reachable(expiry, init, s) && pid in s.alive
    requires forall m: nat | m < n :: PhaseOf(Solo(expiry, s, task, pid, m), task, pid) !in {Idle, Refused}
    ensures Reachable(expiry, init, Solo(expiry, s, task, pid, n))
    ensures OnlyMoved(s, Solo(expiry, s, task, pid, n), task, pid)
    decreases n
  {
    if n > 0 {
      var s1 := Work(expiry, s, task, pid);
      assert Solo(expiry, s, task, pid, 0) == s;
      Extend(expiry, init, s, Advance(task, pid));
      WorkMoves(expiry, s, task, pid);
      forall m: nat | m < n - 1
        ensures PhaseOf(Solo(expiry, s1, task, pid, m), task, pid) !in {Idle, Refused}
      {
        assert Solo(expiry, s, task, pid, m + 1) == Solo(expiry, s1, task, pid, m);
      }
      ExtendSolo(expiry, init, s1, task, pid, n - 1);
    }
  }

  // A process at its clock reading takes the lock when no unexpired record keeps it out.
  lemma TakeLock(expiry: string -> int, init: State, s: State, task: string, pid: int) returns (s': State)
    requires Reachable(expiry, init, s) && pid in s.alive && PhaseOf(s, task, pid) == ReadClock
    requires !(task in s.records && s.clock - expiry(task) < s.records[task].created)
    ensures Reachable(expiry, init, s') && OnlyMoved(s, s', task, pid)
    ensures PhaseOf(s', task, pid) == Body(s.clock)
    ensures s'.records == s.records[task := Record(pid, s.clock)]
  {
    SoloTail(expiry, s, task, pid);
    var s1 := Work(expiry, s, task, pid);
    var s2 := Work(expiry, s1, task, pid);
    var s3 := Work(expiry, s2, task, pid);
    assert Solo(expiry, s, task, pid, 0) == s && Solo(expiry, s, task, pid, 1) == s1
        && Solo(expiry, s, task, pid, 2) == s2 && Solo(expiry, s, task, pid, 3) == s3;
    forall m: nat | m < 4
      ensures PhaseOf(Solo(expiry, s, task, pid, m), task, pid) !in {Idle, Refused}
    {
      assert m == 0 || m == 1 || m == 2 || m == 3;
    }
    ExtendSolo(expiry, init, s, task, pid, 4);
    s' := Solo(expiry, s, task, pid, 4);
  }

  // A new process starts, calls the task and reads the record.
  lemma Arrive(expiry: string -> int, init: State, s: State, task: string, pid: int) returns (s': State)
    requires Reachable(expiry, init, s) && pid !in s.used && PhaseOf(s, task, pid) == Idle
    ensures Reachable(expiry, init, s')
    ensures s'.records == s.records && s'.clock == s.clock
    ensures s'.alive == s.alive + {pid} && s'.used == s.used + {pid}
    ensures s'.phases == s.phases[(task, pid) :=
              if task in s.records then CheckOwner(s.records[task].owner) else ReadClock]
  {
    Extend(expiry, init, s, Spawn(pid));
    var s1 := Next(expiry, s, Spawn(pid));
    Extend(expiry, init, s1, Call(task, pid));
    var s2 := Next(expiry, s1, Call(task, pid));
    Extend(expiry, init, s2, Advance(task, pid));
    s' := Next(expiry, s2, Advance(task, pid));
  }

  // Two live processes are in the body of a task at a time, the earlier with this stamp.
  ghost predicate Overlap(s: State, task: string, created: int, now: int) {
    s.clock == now &&
    exists p, q :: p != q && p in s.alive && q in s.alive && PhaseOf(s, task, p).Body? && PhaseOf(s, task, q).Body?
      && PhaseOf(s, task, p).created == created <= PhaseOf(s, task, q).created
  }

  ghost predicate OverlapReachable(expiry: string -> int, task: string, created: int, now: int) {
    exists init, s :: Init(init) && Reachable(expiry, init, s) && Overlap(s, task, created, now)
  }

  predicate Stamped(s: State, t: string, p: int) {
    var ph := PhaseOf(s, t, p);
    ph.Save? || TookLock(ph) ==> ph.created <= s.clock
  }

  lemma StepKeepsStamped(expiry: string -> int, s: State, e: Step, t: string, p: int)
    requires Stamped(s, t, p) && Enabled(s, e)
    ensures Stamped(Next(expiry, s, e), t, p)
  {
  }

  lemma {:induction false} StampsArePast(expiry: string -> int, s: State, steps: seq<Step>, t: string, p: int)
    requires Init(s) && Valid(expiry, s, steps)
    ensures Stamped(Reached(expiry, s, steps), t, p)
    decreases steps
  {
    if steps != [] {
      var before := steps[..|steps| - 1];
      StampsArePast(expiry, s, before, t, p);
      StepKeepsStamped(expiry, Reached(expiry, s, before), steps[|steps| - 1], t, p);
    }
  }

  // Another process takes the lock of one in the body whose record has expired.
  lemma TakeOver(expiry: string -> int, task: string, created: int, now: int)
    requires created <= now && created + expiry(task) <= now
    ensures OverlapReachable(expiry, task, created, now)
  {
    var init := State(map[], map[], {}, {}, created);
    assert Valid(expiry, init, []) && Reached(expiry, init, []) == init;
    var s1 := Arrive(expiry, init, init, task, 1);
    var s2 := TakeLock(expiry, init, s1, task, 1);
    Extend(expiry, init, s2, Tick(now));
    var s3 := Next(expiry, s2, Tick(now));
    var s4 := Arrive(expiry, init, s3, task, 2);
    Extend(expiry, init, s4, Advance(task, 2));
    var s5 := Work(expiry, s4, task, 2);
    var s6 := TakeLock(expiry, init, s5, task, 2);
    assert PhaseOf(s6, task, 1) == Body(created) && PhaseOf(s6, task, 2) == Body(now);
    assert Reachable(expiry, init, s6) && Overlap(s6, task, created, now);
  }

  /** The moment from which the lock no longer excludes: two live processes can be in the body together at a time, the
      earlier with a given stamp, if and only if the expiry has passed since that stamp. */
  lemma OverlapAfterExpiry(expiry: string -> int, task: string, created: int, now: int)
    ensures OverlapReachable(expiry, task, created, now) <==> created <= now && created + expiry(task) <= now
  {
    if OverlapReachable(expiry, task, created, now) {
      var init, s :| Init(init) && Reachable(expiry, init, s) && Overlap(s, task, created, now);
      var steps :| Valid(expiry, init, steps) && Reached(expiry, init, steps) == s;
      var p, q :| p != q && p in s.alive && q in s.alive && PhaseOf(s, task, p).Body? && PhaseOf(s, task, q).Body?
        && PhaseOf(s, task, p).created == created <= PhaseOf(s, task, q).created;
      ReachedKeepsInv(expiry, init, steps);
      StampsArePast(expiry, init, steps, task, p);
      assert PhaseInv(expiry, s, task, p) && PhaseInv(expiry, s, task, q);
    } else if created <= now && created + expiry(task) <= now {
      TakeOver(expiry, task, created, now);
    }
  }
}
