/** The calls on lookup records, access by access (`identity.py`, `identity_lookup.py`): a call loads the record of its
    uuid and judges it, removes it if it has expired, and saves. Meanwhile other calls and the purge of expired records
    do the same.

    A record has a database id. Removing, and saving what was loaded, go by that id, and such a save changes the fields
    that were assigned and creates nothing; a new record is refused if there is one of its uuid. */
module LookupRaces {
  import opened Wrappers
  import LookupTasks

  type Task = LookupTasks.Task

  datatype Doc = Doc(id: nat, task: Task)

  type Docs = map<string, Doc>

  // What a call is about: reading, `update_rhic_lookup_task`, or `complete_rhic_lookup_task`.
  datatype Purpose = Look | Refresh(taskId: string) | Finish(status: int)

  // A call that has loaded: the ids of the record it goes by, or of the one it found expired. `removed` says that it is
  // past the removal.
  datatype Call = Call(uuid: string, live: Option<nat>, dead: Option<nat>, purpose: Purpose, removed: bool)

  datatype Purging = Purging(uuid: string, dead: Option<nat>)

  datatype State = State(docs: Docs, calls: map<int, Call>, purges: map<int, Purging>, nextId: nat, clock: int)

  // `apart`: purging a record and a call on it do not overlap.
  datatype Config = Config(times: LookupTasks.Config, apart: bool)

  datatype Step =
    | List(now: int)
    | Load(call: int, uuid: string, now: int, purpose: Purpose)
    | Remove(call: int)
    | Store(call: int, stamp: int)
    | Drop(call: int)
    | PurgeLoad(purge: int, uuid: string, now: int)
    | PurgeRemove(purge: int)
  {
    predicate IsPurge() {
      PurgeLoad? || PurgeRemove?
    }
  }

  predicate IsLive(c: Config, docs: Docs, u: string, now: int) {
    u in docs && !LookupTasks.Expired(c.times, docs[u].task, now)
  }

  function LiveId(c: Config, docs: Docs, u: string, now: int): Option<nat> {
    if IsLive(c, docs, u, now) then Some(docs[u].id) else None
  }

  function DeadId(c: Config, docs: Docs, u: string, now: int): Option<nat> {
    if u in docs && !IsLive(c, docs, u, now) then Some(docs[u].id) else None
  }

  function RemoveId(docs: Docs, u: string, id: Option<nat>): Docs {
    if u in docs && id == Some(docs[u].id) then docs - {u} else docs
  }

  // The fields a save assigns.
  function Assigned(t: Task, p: Purpose, stamp: int): Task {
    match p
    case Look => t
    case Refresh(id) => t.(taskId := Some(id), modified := stamp, completed := false)
    case Finish(status) => t.(taskId := None, modified := stamp, status := Some(status), completed := status != 202)
  }

  function Saved(docs: Docs, k: Call, stamp: int, nextId: nat): Docs {
    match k.live
    case Some(id) =>
      if k.uuid !in docs || docs[k.uuid].id != id then docs
      else if k.purpose.Finish? && k.purpose.status !in {202, 404} then docs - {k.uuid}
      else docs[k.uuid := Doc(id, Assigned(docs[k.uuid].task, k.purpose, stamp))]
    case None =>
      if !k.purpose.Refresh? || k.uuid in docs then docs
      else docs[k.uuid := Doc(nextId, LookupTasks.Task(Some(k.purpose.taskId), stamp, stamp, false, None))]
  }

  predicate Refused(docs: Docs, k: Call) {
    k.purpose.Refresh? && k.live.None? && k.uuid in docs
  }

  predicate PurgePending(s: State, u: string) {
    exists p :: p in s.purges && s.purges[p].uuid == u
  }

  predicate CallPending(s: State, u: string) {
    exists k :: k in s.calls && s.calls[k].uuid == u
  }

  predicate Enabled(c: Config, s: State, e: Step) {
    match e
    case List(now) => s.clock <= now
    case Load(k, u, now, _) => s.clock <= now && k !in s.calls && (c.apart ==> !PurgePending(s, u))
    case Remove(k) => k in s.calls && !s.calls[k].removed
    case Store(k, stamp) => s.clock <= stamp && k in s.calls && s.calls[k].removed && !s.calls[k].purpose.Look?
    case Drop(k) => k in s.calls
    case PurgeLoad(p, u, now) => s.clock <= now && p !in s.purges && (c.apart ==> !CallPending(s, u))
    case PurgeRemove(p) => p in s.purges
  }

  function Next(c: Config, s: State, e: Step): State
    requires Enabled(c, s, e)
  {
    match e
    case List(now) => s.(clock := now)
    case Load(k, u, now, purpose) =>
      var call := Call(u, LiveId(c, s.docs, u, now), DeadId(c, s.docs, u, now), purpose, false);
      s.(calls := s.calls[k := call], clock := now)
    case Remove(k) =>
      var call := s.calls[k];
      s.(docs := RemoveId(s.docs, call.uuid, call.dead), calls := s.calls[k := call.(removed := true)])
    case Store(k, stamp) =>
      s.(docs := Saved(s.docs, s.calls[k], stamp, s.nextId), calls := s.calls - {k}, nextId := s.nextId + 1,
         clock := stamp)
    case Drop(k) => s.(calls := s.calls - {k})
    case PurgeLoad(p, u, now) => s.(purges := s.purges[p := Purging(u, DeadId(c, s.docs, u, now))], clock := now)
    case PurgeRemove(p) =>
      s.(docs := RemoveId(s.docs, s.purges[p].uuid, s.purges[p].dead), purges := s.purges - {p})
  }

  // What the caller gets: the lookups in progress, the record it goes by, or whether its save was refused.
  datatype Answer = Listed(tasks: map<string, Task>) | Current(task: Option<Task>) | NotUnique | Done

  function Answered(c: Config, s: State, e: Step): Answer
    requires Enabled(c, s, e)
  {
    match e
    case List(now) =>
      Listed(map u | u in s.docs && IsLive(c, s.docs, u, now) && !s.docs[u].task.completed :: s.docs[u].task)
    case Load(_, u, now, _) => Current(if IsLive(c, s.docs, u, now) then Some(s.docs[u].task) else None)
    case Store(k, _) => if Refused(s.docs, s.calls[k]) then NotUnique else Done
    case _ => Done
  }

  predicate Init(s: State) {
    && s.calls == map[] && s.purges == map[]
    && forall u :: u in s.docs ==> s.docs[u].id < s.nextId
  }

  // ---------------------------------------------------------------------------------------------
  // Runs, with and without their purges

  predicate Valid(c: Config, s: State, steps: seq<Step>)
    decreases steps
  {
    steps == [] || (Enabled(c, s, steps[0]) && Valid(c, Next(c, s, steps[0]), steps[1..]))
  }

  function Answers(c: Config, s: State, steps: seq<Step>): seq<Answer>
    requires Valid(c, s, steps)
    decreases steps
  {
    if steps == [] then []
    else
      (if steps[0].IsPurge() then [] else [Answered(c, s, steps[0])]) + Answers(c, Next(c, s, steps[0]), steps[1..])
  }

  function WithoutPurges(steps: seq<Step>): seq<Step> {
    if steps == [] then []
    else (if steps[0].IsPurge() then [] else [steps[0]]) + WithoutPurges(steps[1..])
  }

  // ---------------------------------------------------------------------------------------------
  // The run without purges, beside the run with them

  // A record that only the run without purges still has: it has expired, and every call on its uuid has seen that.
  predicate Extra(c: Config, s1: State, s2: State, u: string) {
    u in s2.docs && u !in s1.docs ==>
      && LookupTasks.Expired(c.times, s2.docs[u].task, s1.clock)
      && forall k :: k in s2.calls && s2.calls[k].uuid == u ==>
           !s2.calls[k].removed && s2.calls[k].live.None? && s2.calls[k].dead == Some(s2.docs[u].id)
  }

  predicate SameCall(s1: State, k1: Call, k2: Call) {
    && k2 == k1.(dead := k2.dead)
    && (k1.dead == k2.dead ||
        (k1.dead.None? && k2.dead.Some? && (k1.uuid in s1.docs ==> k2.dead != Some(s1.docs[k1.uuid].id))))
  }

  predicate IdsUsed(s: State) {
    && (forall u :: u in s.docs ==> s.docs[u].id < s.nextId)
    && (forall k :: k in s.calls && s.calls[k].dead.Some? ==> s.calls[k].dead.value < s.nextId)
  }

  // A record that is being purged has expired, and no call is on it.
  predicate PurgeInv(c: Config, s: State, p: Purging) {
    && !CallPending(s, p.uuid)
    && (p.uuid in s.docs && p.dead == Some(s.docs[p.uuid].id) ==>
          LookupTasks.Expired(c.times, s.docs[p.uuid].task, s.clock))
  }

  ghost predicate Beside(c: Config, s1: State, s2: State) {
    && s2.clock <= s1.clock && s1.nextId == s2.nextId && s2.purges == map[]
    && IdsUsed(s1) && IdsUsed(s2)
    && s1.calls.Keys == s2.calls.Keys
    && (forall k :: k in s1.calls ==> SameCall(s1, s1.calls[k], s2.calls[k]))
    && (forall u :: u in s1.docs ==> u in s2.docs && s2.docs[u] == s1.docs[u])
    && (forall u :: Extra(c, s1, s2, u))
    && (forall p :: p in s1.purges ==> PurgeInv(c, s1, s1.purges[p]))
  }

  lemma PurgeKeepsBeside(c: Config, s1: State, s2: State, e: Step)
    requires c.apart && Beside(c, s1, s2) && e.IsPurge() && Enabled(c, s1, e)
    ensures Beside(c, Next(c, s1, e), s2)
  {
    var s1' := Next(c, s1, e);
    forall u
      ensures Extra(c, s1', s2, u)
    {
      assert Extra(c, s1, s2, u);
    }
  }

  lemma ListBeside(c: Config, s1: State, s2: State, e: Step)
    requires Beside(c, s1, s2) && e.List? && Enabled(c, s1, e)
    ensures Enabled(c, s2, e) && Answered(c, s1, e) == Answered(c, s2, e)
    ensures Beside(c, Next(c, s1, e), Next(c, s2, e))
  {
    forall u
      ensures IsLive(c, s1.docs, u, e.now) <==> IsLive(c, s2.docs, u, e.now)
    {
      assert Extra(c, s1, s2, u);
    }
    assert Answered(c, s1, e).tasks == Answered(c, s2, e).tasks;
    var s1', s2' := Next(c, s1, e), Next(c, s2, e);
    forall u
      ensures Extra(c, s1', s2', u)
    {
      assert Extra(c, s1, s2, u);
    }
  }

  lemma LoadBeside(c: Config, s1: State, s2: State, e: Step)
    requires c.apart && Beside(c, s1, s2) && e.Load? && Enabled(c, s1, e)
    ensures Enabled(c, s2, e) && Answered(c, s1, e) == Answered(c, s2, e)
    ensures Beside(c, Next(c, s1, e), Next(c, s2, e))
  {
    assert Extra(c, s1, s2, e.uuid);
    var s1', s2' := Next(c, s1, e), Next(c, s2, e);
    forall u
      ensures Extra(c, s1', s2', u)
    {
      assert Extra(c, s1, s2, u);
    }
  }

  lemma RemoveBeside(c: Config, s1: State, s2: State, e: Step)
    requires Beside(c, s1, s2) && e.Remove? && Enabled(c, s1, e)
    ensures Enabled(c, s2, e) && Answered(c, s1, e) == Answered(c, s2, e)
    ensures Beside(c, Next(c, s1, e), Next(c, s2, e))
  {
    var s1', s2' := Next(c, s1, e), Next(c, s2, e);
    forall u
      ensures Extra(c, s1', s2', u)
    {
      assert Extra(c, s1, s2, u);
    }
  }

  // A save does the same to both where both have, or lack, the record of its uuid.
  lemma SavedAlike(docs1: Docs, docs2: Docs, k1: Call, k2: Call, stamp: int, nextId: nat)
    requires forall u :: u in docs1 ==> u in docs2 && docs2[u] == docs1[u]
    requires k2 == k1.(dead := k2.dead) && (k1.uuid in docs2 ==> k1.uuid in docs1)
    ensures var docs1', docs2' := Saved(docs1, k1, stamp, nextId), Saved(docs2, k2, stamp, nextId);
      && (forall u :: u in docs1' ==> u in docs2' && docs2'[u] == docs1'[u])
      && (forall u :: u in docs2' && u !in docs1' ==> u in docs2 && u !in docs1 && docs2'[u] == docs2[u])
      && (forall u :: u in docs1' ==> docs1'[u].id == nextId || (u in docs1 && docs1'[u].id == docs1[u].id))
      && (forall u :: u in docs2' ==> docs2'[u].id == nextId || (u in docs2 && docs2'[u].id == docs2[u].id))
      && (forall u :: u != k1.uuid ==> (u in docs1' <==> u in docs1) && (u in docs1 ==> docs1'[u] == docs1[u]))
  {
  }

  lemma StoreBeside(c: Config, s1: State, s2: State, e: Step)
    requires Beside(c, s1, s2) && e.Store? && Enabled(c, s1, e)
    ensures Enabled(c, s2, e) && Answered(c, s1, e) == Answered(c, s2, e)
    ensures Beside(c, Next(c, s1, e), Next(c, s2, e))
  {
    var s1', s2' := Next(c, s1, e), Next(c, s2, e);
    var k := s1.calls[e.call];
    assert SameCall(s1, k, s2.calls[e.call]) && Extra(c, s1, s2, k.uuid);
    SavedAlike(s1.docs, s2.docs, k, s2.calls[e.call], e.stamp, s1.nextId);
    forall u
      ensures Extra(c, s1', s2', u)
    {
      assert Extra(c, s1, s2, u);
    }
    forall p | p in s1'.purges
      ensures PurgeInv(c, s1', s1'.purges[p])
    {
      assert PurgeInv(c, s1, s1.purges[p]);
    }
  }

  lemma DropBeside(c: Config, s1: State, s2: State, e: Step)
    requires Beside(c, s1, s2) && e.Drop? && Enabled(c, s1, e)
    ensures Enabled(c, s2, e) && Answered(c, s1, e) == Answered(c, s2, e)
    ensures Beside(c, Next(c, s1, e), Next(c, s2, e))
  {
    var s1', s2' := Next(c, s1, e), Next(c, s2, e);
    forall u
      ensures Extra(c, s1', s2', u)
    {
      assert Extra(c, s1, s2, u);
    }
  }

  lemma StepBeside(c: Config, s1: State, s2: State, e: Step)
    requires c.apart && Beside(c, s1, s2) && !e.IsPurge() && Enabled(c, s1, e)
    ensures Enabled(c, s2, e) && Answered(c, s1, e) == Answered(c, s2, e)
    ensures Beside(c, Next(c, s1, e), Next(c, s2, e))
  {
    match e
    case List(_) => ListBeside(c, s1, s2, e);
    case Load(_, _, _, _) => LoadBeside(c, s1, s2, e);
    case Remove(_) => RemoveBeside(c, s1, s2, e);
    case Store(_, _) => StoreBeside(c, s1, s2, e);
    case Drop(_) => DropBeside(c, s1, s2, e);
  }

  lemma {:induction false} RunBeside(c: Config, s1: State, s2: State, steps: seq<Step>)
    requires c.apart && Beside(c, s1, s2) && Valid(c, s1, steps)
    ensures Valid(c, s2, WithoutPurges(steps))
    ensures Answers(c, s1, steps) == Answers(c, s2, WithoutPurges(steps))
    decreases steps
  {
    if steps != [] {
      var e := steps[0];
      if e.IsPurge() {
        PurgeKeepsBeside(c, s1, s2, e);
        RunBeside(c, Next(c, s1, e), s2, steps[1..]);
        assert WithoutPurges(steps) == WithoutPurges(steps[1..]);
      } else {
        StepBeside(c, s1, s2, e);
        RunBeside(c, Next(c, s1, e), Next(c, s2, e), steps[1..]);
        var rest := WithoutPurges(steps);
        assert rest[0] == e && rest[1..] == WithoutPurges(steps[1..]);
      }
    }
  }

  // ---------------------------------------------------------------------------------------------
  // Purges that fall into a call

  ghost predicate PurgesShowNothing(c: Config) {
    forall s, steps :: Init(s) && Valid(c, s, steps) ==>
      Valid(c, s, WithoutPurges(steps)) && Answers(c, s, steps) == Answers(c, s, WithoutPurges(steps))
  }

  lemma AnswersFirst(c: Config, s: State, e: Step, rest: seq<Step>)
    requires Enabled(c, s, e) && Valid(c, Next(c, s, e), rest)
    ensures Valid(c, s, [e] + rest)
    ensures Answers(c, s, [e] + rest) ==
            (if e.IsPurge() then [] else [Answered(c, s, e)]) + Answers(c, Next(c, s, e), rest)
    ensures WithoutPurges([e] + rest) == (if e.IsPurge() then [] else [e]) + WithoutPurges(rest)
  {
    assert ([e] + rest)[1..] == rest;
  }

  function InProgress(c: Config, u: string): State {
    State(map[u := Doc(0, LookupTasks.Task(Some("id"), 0, 0, false, None))], map[], map[], 1, 0)
  }

  // The call that finds a 404, once it is past the removal.
  function Finishing(c: Config, u: string): State {
    InProgress(c, u).(calls := map[1 := Call(u, Some(0), None, Finish(404), true)])
  }

  lemma LoadsLive(c: Config, u: string)
    requires c.times.timeoutMinutes >= 0
    ensures var s, load := InProgress(c, u), Load(1, u, 0, Finish(404));
      Init(s) && Enabled(c, s, load) && Enabled(c, Next(c, s, load), Remove(1)) &&
      Next(c, Next(c, s, load), Remove(1)) == Finishing(c, u)
  {
  }

  // It saves, and the next reader is shown the 404 if the record was there to save.
  function SaveAndLook(u: string, late: int): seq<Step> {
    [Store(1, late), Load(2, u, late, Look)]
  }

  lemma ShownIfThere(c: Config, s: State, u: string, late: int)
    requires c.times.cacheHours >= 0 && s.clock <= late && s.purges == map[]
    requires s.calls == map[1 := Call(u, Some(0), None, Finish(404), true)]
    requires s.docs == map[] || s.docs == InProgress(c, u).docs
    ensures Valid(c, s, SaveAndLook(u, late))
    ensures Answers(c, s, SaveAndLook(u, late)) ==
            [Done, Current(if s.docs == map[] then None
                           else Some(LookupTasks.Task(None, 0, late, true, Some(404))))]
  {
    var s1 := Next(c, s, Store(1, late));
    var load := Load(2, u, late, Look);
    assert s1.docs == if s.docs == map[] then map[]
                      else map[u := Doc(0, LookupTasks.Task(None, 0, late, true, Some(404)))];
    assert Valid(c, Next(c, s1, load), []);
    AnswersFirst(c, s1, load, []);
    AnswersFirst(c, s, Store(1, late), [load]);
    assert [Store(1, late)] + [load] == SaveAndLook(u, late);
  }

  // The purges in a run change what its callers get.
  ghost predicate PurgesShow(c: Config, s: State, steps: seq<Step>) {
    && Valid(c, s, steps) && Valid(c, s, WithoutPurges(steps))
    && Answers(c, s, steps) != Answers(c, s, WithoutPurges(steps))
  }

  lemma ShowsBefore(c: Config, s: State, e: Step, rest: seq<Step>)
    requires !e.IsPurge() && Enabled(c, s, e) && PurgesShow(c, Next(c, s, e), rest)
    ensures PurgesShow(c, s, [e] + rest)
  {
    AnswersFirst(c, s, e, rest);
    AnswersFirst(c, s, e, WithoutPurges(rest));
    var s' := Next(c, s, e);
    var with, without := Answers(c, s', rest), Answers(c, s', WithoutPurges(rest));
    assert ([Answered(c, s, e)] + with)[1..] == with && ([Answered(c, s, e)] + without)[1..] == without;
  }

  lemma NoPurges(u: string, late: int)
    ensures WithoutPurges(SaveAndLook(u, late)) == SaveAndLook(u, late)
  {
    var tail := SaveAndLook(u, late);
    assert tail[1..] == [tail[1]] && tail[1..][1..] == [];
    assert WithoutPurges([]) == [];
    assert WithoutPurges([tail[1]]) == [tail[1]];
  }

  // Between the removal and the save of the completion, the record expires and is purged.
  lemma PurgeInBetween(c: Config, u: string) returns (steps: seq<Step>)
    requires !c.apart && c.times.timeoutMinutes >= 0 && c.times.cacheHours >= 0
    ensures PurgesShow(c, Finishing(c, u), steps)
  {
    var late := c.times.Timeout() + 1;
    var s, tail := Finishing(c, u), SaveAndLook(u, late);
    var s1 := Next(c, s, PurgeLoad(1, u, late));
    var s2 := Next(c, s1, PurgeRemove(1));
    assert s1.purges[1] == Purging(u, Some(0)) && s2.docs == map[] && s2.purges == map[];
    ShownIfThere(c, s, u, late);
    ShownIfThere(c, s2, u, late);
    NoPurges(u, late);
    AnswersFirst(c, s1, PurgeRemove(1), tail);
    AnswersFirst(c, s, PurgeLoad(1, u, late), [PurgeRemove(1)] + tail);
    steps := [PurgeLoad(1, u, late)] + ([PurgeRemove(1)] + tail);
    assert WithoutPurges(steps) == tail;
    assert Answers(c, s, steps)[1] != Answers(c, s, tail)[1];
  }

  /** A lookup is completed with 404 while a purge runs: the record expires and is removed between the load and the
      save of the completion, which then has no effect, and the 404 is not cached. */
  lemma PurgeLosesAnswer(c: Config, u: string) returns (steps: seq<Step>)
    requires !c.apart && c.times.timeoutMinutes >= 0 && c.times.cacheHours >= 0
    ensures Init(InProgress(c, u)) && PurgesShow(c, InProgress(c, u), steps)
  {
    LoadsLive(c, u);
    var load := Load(1, u, 0, Finish(404));
    steps := PurgeInBetween(c, u);
    ShowsBefore(c, Next(c, InProgress(c, u), load), Remove(1), steps);
    steps := [Remove(1)] + steps;
    ShowsBefore(c, InProgress(c, u), load, steps);
    steps := [load] + steps;
  }

  /** Lazy expiry refines eager expiry access by access: purges change no answer in any run if and only if the purge of
      a record and the calls on it, each from its load to its end, do not overlap. */
  lemma LazyRefinesEagerIffApart(c: Config)
    requires c.times.timeoutMinutes >= 0 && c.times.cacheHours >= 0
    ensures PurgesShowNothing(c) <==> c.apart
  {
    if c.apart {
      forall s, steps | Init(s) && Valid(c, s, steps)
        ensures Valid(c, s, WithoutPurges(steps)) && Answers(c, s, steps) == Answers(c, s, WithoutPurges(steps))
      {
        RunBeside(c, s, s, steps);
      }
    } else {
      var steps := PurgeLosesAnswer(c, "u");
    }
  }

  // ---------------------------------------------------------------------------------------------
  // Undisturbed, a call is what it is as one step

  function Tasks(docs: Docs): LookupTasks.Store {
    map u | u in docs :: docs[u].task
  }

  // Load, removal and save, with nothing in between.
  function Alone(c: Config, s: State, k: int, u: string, purpose: Purpose, now: int, stamp: int): State
    requires k !in s.calls && s.clock <= now <= stamp && !PurgePending(s, u) && !purpose.Look?
  {
    Next(c, Next(c, Next(c, s, Load(k, u, now, purpose)), Remove(k)), Store(k, stamp))
  }

  lemma AloneIsUpdate(c: Config, s: State, k: int, u: string, id: string, now: int, stamp: int)
    requires k !in s.calls && s.clock <= now <= stamp && !PurgePending(s, u)
    ensures Tasks(Alone(c, s, k, u, Refresh(id), now, stamp).docs) ==
            LookupTasks.Updated(c.times, Tasks(s.docs), u, id, now, stamp)
  {
  }

  lemma AloneIsComplete(c: Config, s: State, k: int, u: string, status: int, now: int, stamp: int)
    requires k !in s.calls && s.clock <= now <= stamp && !PurgePending(s, u)
    ensures Tasks(Alone(c, s, k, u, Finish(status), now, stamp).docs) ==
            LookupTasks.Completed(c.times, Tasks(s.docs), u, status, now, stamp)
  {
  }

  /** The same for readers: undisturbed, load, removal and end of a look return and leave what the whole call does, and
      a listing lists what it lists there. */
  lemma AloneIsLook(c: Config, s: State, k: int, u: string, now: int)
    requires k !in s.calls && s.clock <= now && !PurgePending(s, u)
    ensures var load := Load(k, u, now, Look);
      && Answered(c, s, load) == Current(LookupTasks.Current(c.times, Tasks(s.docs), u, now))
      && Tasks(Next(c, Next(c, Next(c, s, load), Remove(k)), Drop(k)).docs) ==
         LookupTasks.Swept(c.times, Tasks(s.docs), u, now)
    ensures Answered(c, s, List(now)) == Listed(LookupTasks.InProgress(c.times, Tasks(s.docs), now))
  {
    assert forall u :: u in Tasks(s.docs) <==> u in s.docs;
  }

  /** And for the purge of one record. */
  lemma AloneIsPurge(c: Config, s: State, p: int, u: string, now: int)
    requires p !in s.purges && s.clock <= now && !CallPending(s, u)
    ensures Tasks(Next(c, Next(c, s, PurgeLoad(p, u, now)), PurgeRemove(p)).docs) ==
            LookupTasks.Swept(c.times, Tasks(s.docs), u, now)
  {
  }

  lemma RefusedBefore(c: Config, s: State, e: Step, rest: seq<Step>)
    requires Enabled(c, s, e) && Valid(c, Next(c, s, e), rest) && NotUnique in Answers(c, Next(c, s, e), rest)
    ensures Valid(c, s, [e] + rest) && NotUnique in Answers(c, s, [e] + rest)
  {
    AnswersFirst(c, s, e, rest);
  }

  /** Two calls that both find no record both insert one, and the second is refused. */
  lemma SecondInsertIsRefused(c: Config, s: State, u: string, id: string, now: int) returns (steps: seq<Step>)
    requires s.calls == map[] && s.purges == map[] && s.clock <= now && u !in s.docs
    ensures Valid(c, s, steps) && NotUnique in Answers(c, s, steps)
  {
    var load1, load2 := Load(1, u, now, Refresh(id)), Load(2, u, now, Refresh(id));
    var s1 := Next(c, s, load1);
    var s2 := Next(c, s1, load2);
    var s3 := Next(c, s2, Remove(1));
    var s4 := Next(c, s3, Remove(2));
    var s5 := Next(c, s4, Store(1, now));
    assert u in s5.docs && Answered(c, s5, Store(2, now)) == NotUnique;
    AnswersFirst(c, s5, Store(2, now), []);
    steps := [Store(2, now)] + [];
    RefusedBefore(c, s4, Store(1, now), steps);
    steps := [Store(1, now)] + steps;
    RefusedBefore(c, s3, Remove(2), steps);
    steps := [Remove(2)] + steps;
    RefusedBefore(c, s2, Remove(1), steps);
    steps := [Remove(1)] + steps;
    RefusedBefore(c, s1, load2, steps);
    steps := [load2] + steps;
    RefusedBefore(c, s, load1, steps);
    steps := [load1] + steps;
  }
}
