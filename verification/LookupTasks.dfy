/** The RHIC lookup tasks of `identity.py`, `identity_lookup.py`, `tasks.py`, `apis.py` and `checkin.py`:
    a negative cache whose records expire by one rule while in progress and by another once completed, and
    are deleted lazily by whoever reads them.

    `RHICLookupTask` has a unique index on `uuid`, so the collection is a map. Times are seconds. A call reads
    the clock when it judges expiry (`now`, and a check-in once more: `again`) and for what it writes (`stamp`). */
module LookupTasks {
  import opened Wrappers

  datatype Task = Task(taskId: Option<string>, initiated: int, modified: int, completed: bool, status: Option<int>)

  type Store = map<string, Task>

  datatype Config = Config(timeoutMinutes: int, cacheHours: int) {
    function Timeout(): int { 60 * timeoutMinutes }

    function CacheTime(): int { 3600 * cacheHours }
  }

  predicate Expired(c: Config, t: Task, now: int) {
    if !t.completed then t.initiated + c.Timeout() < now else t.modified < now - c.CacheTime()
  }

  // The records a reader at `now` still honours: what an eager purge would leave.
  function Live(c: Config, s: Store, now: int): Store {
    map u | u in s && !Expired(c, s[u], now) :: s[u]
  }

  function InProgress(c: Config, s: Store, now: int): Store {
    map u | u in s && !s[u].completed && !Expired(c, s[u], now) :: s[u]
  }

  // `get_current_rhic_lookup_tasks`: the record it returns and the store it leaves.
  function Current(c: Config, s: Store, u: string, now: int): Option<Task> {
    if u in s && !Expired(c, s[u], now) then Some(s[u]) else None
  }

  function Swept(c: Config, s: Store, u: string, now: int): Store {
    if u in s && Expired(c, s[u], now) then s - {u} else s
  }

  function CachedStatus(t: Option<Task>): Option<int> {
    if t.Some? && t.value.completed then t.value.status else None
  }

  // `update_rhic_lookup_task`
  function Updated(c: Config, s: Store, u: string, id: string, now: int, stamp: int): Store {
    var base := match Current(c, s, u, now)
      case Some(t) => t
      case None => Task(None, stamp, stamp, false, None);
    Swept(c, s, u, now)[u := base.(taskId := Some(id), modified := stamp, completed := false)]
  }

  // `complete_rhic_lookup_task`
  function Completed(c: Config, s: Store, u: string, status: int, now: int, stamp: int): Store {
    match Current(c, s, u, now)
    case None => Swept(c, s, u, now)
    case Some(t) =>
      if status == 202 || status == 404
      then s[u := t.(taskId := None, modified := stamp, status := Some(status), completed := status != 202)]
      else s - {u}
  }

  // What `get_identity_object` raises when the identity is not in the database.
  datatype Refusal = NotFound | UnexpectedStatus(code: int) | Unknown

  // ---------------------------------------------------------------------------------------------
  // Runs

  datatype Event =
    | Purge(now: int)
    | ListInProgress(now: int)
    | Cached(uuid: string, now: int)
    | Handle(uuid: string, id: string, now: int, stamp: int)
    | Checkin(uuid: string, id: string, now: int, again: int, stamp: int)
    | Update(uuid: string, id: string, now: int, stamp: int)
    | Complete(uuid: string, status: int, now: int, stamp: int)
  {
    function End(): int {
      if Purge? || ListInProgress? || Cached? then now else stamp
    }

    // The clock does not run backwards during the call.
    predicate InOrder() {
      now <= End() && (Checkin? ==> now <= again <= stamp)
    }
  }

  datatype Answer = Done | Tasks(tasks: Store) | Status(status: Option<int>) | Code(code: int) | Raise(why: Refusal)

  datatype Result = Result(store: Store, answer: Answer)

  function Step(c: Config, s: Store, e: Event): Result {
    match e
    case Purge(now) => Result(Live(c, s, now), Done)
    case ListInProgress(now) => Result(s, Tasks(InProgress(c, s, now)))
    case Cached(u, now) => Result(Swept(c, s, u, now), Status(CachedStatus(Current(c, s, u, now))))
    case Handle(u, id, now, stamp) =>
      (match Current(c, s, u, now)
       case Some(t) =>
         if !t.completed then Result(s, Code(202))
         else Result(s, Code(if t.status.Some? && t.status.value != 0 then t.status.value else 404))
       case None => Result(Updated(c, s, u, id, now, stamp), Code(202)))
    case Checkin(u, id, now, again, stamp) =>
      var cached := CachedStatus(Current(c, s, u, now));
      if cached == Some(404) then Result(s, Raise(NotFound))
      else if cached.Some? && cached.value != 0 then Result(s, Raise(UnexpectedStatus(cached.value)))
      else Result(Updated(c, Swept(c, s, u, now), u, id, again, stamp), Raise(Unknown))
    case Update(u, id, now, stamp) => Result(Updated(c, s, u, id, now, stamp), Done)
    case Complete(u, status, now, stamp) => Result(Completed(c, s, u, status, now, stamp), Done)
  }

  // The clock never runs backwards, from `from` on.
  predicate Monotone(es: seq<Event>, from: int) {
    es == [] || (from <= es[0].now && es[0].InOrder() && Monotone(es[1..], es[0].End()))
  }

  function EndTime(es: seq<Event>, from: int): int {
    if es == [] then from else EndTime(es[1..], es[0].End())
  }

  function Final(c: Config, s: Store, es: seq<Event>): Store
    decreases es
  {
    if es == [] then s else Final(c, Step(c, s, es[0]).store, es[1..])
  }

  // What the callers see; a purge shows nothing.
  function Answers(c: Config, s: Store, es: seq<Event>): seq<Answer>
    decreases es
  {
    if es == [] then []
    else
      var r := Step(c, s, es[0]);
      (if es[0].Purge? then [] else [r.answer]) + Answers(c, r.store, es[1..])
  }

  function WithoutPurges(es: seq<Event>): seq<Event> {
    if es == [] then []
    else (if es[0].Purge? then [] else [es[0]]) + WithoutPurges(es[1..])
  }

  // ---------------------------------------------------------------------------------------------
  // The retry pass

  // One pass: when it purges, when it lists, and per uuid the two clock readings of an update. `busy` says which Celery
  // ids are RUNNING or PENDING, `dispatch` which id a new lookup of a uuid gets.
  datatype Pass = Pass(purgeAt: int, listAt: int, now: string -> int, stamp: string -> int, busy: string -> bool,
                       dispatch: string -> string)

  predicate Running(t: Task, p: Pass) {
    t.taskId.Some? && t.taskId.value != "" && p.busy(t.taskId.value)
  }

  // One listed record through the retry loop; it may expire before its turn comes.
  function Retry(c: Config, t: Task, u: string, p: Pass): Task {
    if Running(t, p) then t
    else if Expired(c, t, p.now(u)) then Task(Some(p.dispatch(u)), p.stamp(u), p.stamp(u), false, None)
    else t.(taskId := Some(p.dispatch(u)), modified := p.stamp(u), completed := false)
  }

  function Retried(c: Config, s: Store, p: Pass): Store {
    map u | u in Live(c, s, p.purgeAt) :: if u in InProgress(c, s, p.listAt) then Retry(c, s[u], u, p) else s[u]
  }

  lemma RetryIsUpdate(c: Config, s: Store, u: string, p: Pass)
    requires u in s && !s[u].completed && !Running(s[u], p)
    ensures Updated(c, s, u, p.dispatch(u), p.now(u), p.stamp(u)) == s[u := Retry(c, s[u], u, p)]
  {
  }

  // ---------------------------------------------------------------------------------------------
  // The calls in their imperative form

  class LookupStore {
    var tasks: Store

    constructor ()
      ensures tasks == map[]
    {
      tasks := map[];
    }

    method GetCurrent(c: Config, uuid: string, now: int) returns (task: Option<Task>)
      modifies this
      ensures task == Current(c, old(tasks), uuid, now)
      ensures tasks == Swept(c, old(tasks), uuid, now)
      ensures task.Some? ==> tasks == old(tasks) && uuid in tasks && tasks[uuid] == task.value
      ensures task.None? ==> tasks == old(tasks) - {uuid}
    {
      if uuid !in tasks {
        return None;
      }
      var found := tasks[uuid];
      if Expired(c, found, now) {
        tasks := tasks - {uuid};
        return None;
      }
      return Some(found);
    }

    method Purge(c: Config, now: int)
      modifies this
      ensures tasks == Live(c, old(tasks), now)
      ensures forall u :: u in tasks <==> u in old(tasks) && !Expired(c, old(tasks)[u], now)
      ensures forall u :: u in tasks ==> tasks[u] == old(tasks)[u]
    {
      var todo := tasks.Keys;
      while todo != {}
        invariant todo <= tasks.Keys
        invariant forall u :: u in tasks <==> u in old(tasks) && (u in todo || !Expired(c, old(tasks)[u], now))
        invariant forall u :: u in tasks ==> tasks[u] == old(tasks)[u]
        decreases todo
      {
        var u :| u in todo;
        if Expired(c, tasks[u], now) {
          tasks := tasks - {u};
        }
        todo := todo - {u};
      }
    }

    method GetCachedStatusCode(c: Config, uuid: string, now: int) returns (status: Option<int>)
      modifies this
      ensures status == CachedStatus(Current(c, old(tasks), uuid, now))
      ensures status.Some? ==>
                uuid in old(tasks) && !Expired(c, old(tasks)[uuid], now) && old(tasks)[uuid].completed && uuid in tasks
      ensures tasks == Swept(c, old(tasks), uuid, now)
      ensures tasks == old(tasks) || (tasks == old(tasks) - {uuid} && status.None?)
    {
      var t := GetCurrent(c, uuid, now);
      if t.Some? && t.value.completed {
        return t.value.status;
      }
      return None;
    }

    method Update(c: Config, uuid: string, id: string, now: int, stamp: int)
      modifies this
      ensures tasks == Updated(c, old(tasks), uuid, id, now, stamp)
      ensures uuid in InProgress(c, tasks, now) || tasks[uuid].initiated + c.Timeout() < now
      ensures tasks[uuid].taskId == Some(id) && tasks[uuid].modified == stamp
      ensures tasks[uuid].status == if Current(c, old(tasks), uuid, now).Some? then old(tasks)[uuid].status else None
      ensures tasks[uuid].initiated ==
                if Current(c, old(tasks), uuid, now).Some? then old(tasks)[uuid].initiated else stamp
      ensures forall u :: u != uuid ==>
                (u in tasks <==> u in old(tasks)) && (u in tasks ==> tasks[u] == old(tasks)[u])
    {
      var current := GetCurrent(c, uuid, now);
      var task := if current.Some? then current.value else Task(None, stamp, stamp, false, None);
      task := task.(taskId := Some(id));
      task := task.(modified := stamp);
      task := task.(completed := false);
      tasks := tasks[uuid := task];
    }

    method Complete(c: Config, uuid: string, status: int, now: int, stamp: int)
      modifies this
      ensures tasks == Completed(c, old(tasks), uuid, status, now, stamp)
      ensures Current(c, old(tasks), uuid, now).None? || status !in {202, 404} ==> tasks == old(tasks) - {uuid}
      ensures Current(c, old(tasks), uuid, now).Some? && status in {202, 404} ==>
                && tasks.Keys == old(tasks).Keys && (forall u :: u in tasks && u != uuid ==> tasks[u] == old(tasks)[u])
                && tasks[uuid] == Task(None, old(tasks)[uuid].initiated, stamp, status == 404, Some(status))
    {
      var current := GetCurrent(c, uuid, now);
      if current.None? {
        return;
      }
      if status in [202, 404] {
        var task := current.value.(taskId := None, modified := stamp, status := Some(status), completed := true);
        if status == 202 {
          task := task.(completed := false);
        }
        tasks := tasks[uuid := task];
      } else {
        tasks := tasks - {uuid};
      }
    }

    // `id` is the id Celery gives a dispatched lookup, if one is dispatched.
    method HandleLookup(c: Config, uuid: string, id: string, now: int, stamp: int) returns (code: int)
      modifies this
      ensures Result(tasks, Code(code)) == Step(c, old(tasks), Handle(uuid, id, now, stamp))
      ensures match Current(c, old(tasks), uuid, now)
              case None => code == 202 && uuid in tasks && tasks[uuid].taskId == Some(id)
              case Some(t) =>
                tasks == old(tasks) &&
                code == if !t.completed then 202 else if t.status in {None, Some(0)} then 404 else t.status.value
    {
      var task := GetCurrent(c, uuid, now);
      if task.Some? {
        if task.value.completed {
          code := 404;
          if task.value.status.Some? && task.value.status.value != 0 {
            code := task.value.status.value;
          }
          return;
        }
        return 202;
      }
      Update(c, uuid, id, now, stamp);
      return 202;
    }

    // The update judges expiry again, at a later clock reading.
    method FindIdentity(c: Config, uuid: string, id: string, now: int, again: int, stamp: int) returns (why: Refusal)
      modifies this
      ensures Result(tasks, Raise(why)) == Step(c, old(tasks), Checkin(uuid, id, now, again, stamp))
      ensures var t := Current(c, old(tasks), uuid, now);
              if t.Some? && t.value.completed && t.value.status !in {None, Some(0)}
              then tasks == old(tasks) && why == if t.value.status == Some(404) then NotFound
                                                 else UnexpectedStatus(t.value.status.value)
              else why == Unknown && uuid in tasks && tasks[uuid].taskId == Some(id)
    {
      var cached := GetCachedStatusCode(c, uuid, now);
      if cached.Some? && cached.value != 0 {
        if cached.value == 404 {
          return NotFound;
        }
        return UnexpectedStatus(cached.value);
      }
      Update(c, uuid, id, again, stamp);
      return Unknown;
    }

    // `process_running_rhic_lookup_tasks`
    method RetryPass(c: Config, p: Pass)
      requires p.purgeAt <= p.listAt
      modifies this
      ensures tasks == Retried(c, old(tasks), p)
    {
      Purge(c, p.purgeAt);
      ghost var purged := tasks;
      var listed := map u | u in tasks && !tasks[u].completed && !Expired(c, tasks[u], p.listAt) :: tasks[u];
      var todo := listed.Keys;
      while todo != {}
        invariant todo <= listed.Keys
        invariant tasks.Keys == purged.Keys
        invariant forall u :: u in purged ==>
          tasks[u] == if u in listed && u !in todo then Retry(c, purged[u], u, p) else purged[u]
        decreases todo
      {
        var u :| u in todo;
        var t := listed[u];
        todo := todo - {u};
        if t.taskId.Some? && t.taskId.value != "" && p.busy(t.taskId.value) {
          continue;
        }
        RetryIsUpdate(c, tasks, u, p);
        Update(c, u, p.dispatch(u), p.now(u), p.stamp(u));
      }
    }
  }

  /** Retry pass: completed records and those not in progress are as they were, each listed record is in progress with a
      task id that is new or still running, and its start time is kept unless it expired before its turn. */
  lemma RetryPassKeepsProgress(c: Config, s: Store, p: Pass)
    requires p.purgeAt <= p.listAt
    ensures var s', listed := Retried(c, s, p), InProgress(c, s, p.listAt);
      && s'.Keys == Live(c, s, p.purgeAt).Keys && listed.Keys <= s'.Keys
      && (forall u :: u in s' && u !in listed ==> s'[u] == s[u])
      && (forall u :: u in s' ==> (s'[u].completed <==> s[u].completed))
      && (forall u :: u in listed ==>
            && s'[u].taskId.Some?
            && (s'[u].taskId.value == p.dispatch(u) || (s'[u] == s[u] && p.busy(s'[u].taskId.value)))
            && (s'[u].initiated == s[u].initiated ||
                (Expired(c, s[u], p.now(u)) && s'[u].initiated == p.stamp(u))))
  {
  }

  /** At one clock reading no expired record is left, and the in-progress uuids and their start times are the same. */
  lemma RetryPassAtOneReading(c: Config, s: Store, p: Pass, now: int)
    requires p.purgeAt == p.listAt == now && forall u :: p.now(u) == now && p.stamp(u) == now
    ensures var s' := Retried(c, s, p);
      && (forall u :: u in s' <==> u in s && !Expired(c, s[u], now))
      && (forall u :: u in s' ==> !Expired(c, s'[u], now))
      && InProgress(c, s', now).Keys == InProgress(c, s, now).Keys
      && forall u :: u in InProgress(c, s, now) ==> s'[u].initiated == s[u].initiated
  {
    var s' := Retried(c, s, p);
    forall u | u in s'
      ensures !Expired(c, s'[u], now)
      ensures u in InProgress(c, s', now) <==> u in InProgress(c, s, now)
    {
      assert p.now(u) == now;
    }
  }

  /** Whom the pass retries, by the records themselves: one that is not completed, and no older than the timeout when
      the pass purges and lists, gets the id that was dispatched for it unless its task is running; then it stays as it
      is. */
  lemma RetryPassRetries(c: Config, s: Store, p: Pass, u: string)
    requires u in s && !s[u].completed
    requires p.purgeAt <= s[u].initiated + 60 * c.timeoutMinutes && p.listAt <= s[u].initiated + 60 * c.timeoutMinutes
    ensures var s' := Retried(c, s, p);
      && u in s'
      && (match s[u].taskId
          case None => s'[u].taskId == Some(p.dispatch(u)) && !s'[u].completed
          case Some(id) =>
            if id != "" && p.busy(id) then s'[u] == s[u] else s'[u].taskId == Some(p.dispatch(u)) && !s'[u].completed)
  {
  }

  /** In particular a lookup that the parent answered with 202 is retried by the next pass within the timeout. */
  lemma AnsweredLaterIsRetried(c: Config, s: Store, u: string, now: int, stamp: int, p: Pass)
    requires u in s && !s[u].completed && now <= stamp <= p.purgeAt <= p.listAt
    requires p.listAt <= s[u].initiated + 60 * c.timeoutMinutes
    ensures var s' := Retried(c, Completed(c, s, u, 202, now, stamp), p);
      u in s' && s'[u].taskId == Some(p.dispatch(u)) && !s'[u].completed
  {
    RetryPassRetries(c, Completed(c, s, u, 202, now, stamp), p, u);
  }

  // The updates the retry loop makes, in the order in which it comes to the records.
  function Retries(order: seq<string>, p: Pass): seq<Event> {
    if order == [] then []
    else [Update(order[0], p.dispatch(order[0]), p.now(order[0]), p.stamp(order[0]))] + Retries(order[1..], p)
  }

  // Each record is retried once: those listed whose task is not running.
  ghost predicate NeedsRetry(c: Config, s: Store, p: Pass, order: seq<string>) {
    && (forall i, j :: 0 <= i < j < |order| ==> order[i] != order[j])
    && forall u :: u in order <==> u in InProgress(c, s, p.listAt) && !Running(s[u], p)
  }

  lemma {:induction false} RetriesRun(c: Config, s: Store, p: Pass, order: seq<string>)
    requires forall i, j :: 0 <= i < j < |order| ==> order[i] != order[j]
    requires forall u :: u in order ==> u in s && !s[u].completed && !Running(s[u], p)
    ensures Final(c, s, Retries(order, p)) == map u | u in s :: if u in order then Retry(c, s[u], u, p) else s[u]
    decreases order
  {
    if order != [] {
      var u := order[0];
      assert u in order;
      var update := Update(u, p.dispatch(u), p.now(u), p.stamp(u));
      var s' := Updated(c, s, u, update.id, update.now, update.stamp);
      var rest := Retries(order, p);
      assert rest[0] == update && rest[1..] == Retries(order[1..], p);
      RetryIsUpdate(c, s, u, p);
      assert Step(c, s, rest[0]).store == s';
      assert forall v :: v in order <==> v == u || v in order[1..];
      assert u !in order[1..];
      RetriesRun(c, s', p, order[1..]);
    }
  }

  /** Whatever the order of its records, the retry pass is a purge, a listing and then updates: all results about runs
      hold of it. */
  lemma RetryPassIsRun(c: Config, s: Store, p: Pass, order: seq<string>)
    requires p.purgeAt <= p.listAt && NeedsRetry(c, s, p, order)
    ensures Final(c, s, [Purge(p.purgeAt), ListInProgress(p.listAt)] + Retries(order, p)) == Retried(c, s, p)
  {
    var es := [Purge(p.purgeAt), ListInProgress(p.listAt)] + Retries(order, p);
    var purged := Live(c, s, p.purgeAt);
    assert es[1..][0] == ListInProgress(p.listAt) && es[1..][1..] == Retries(order, p);
    assert Final(c, s, es) == Final(c, purged, es[1..]) == Final(c, purged, es[1..][1..]);
    RetriesRun(c, purged, p, order);
  }

  // ---------------------------------------------------------------------------------------------
  // Lazy expiry refines eager expiry

  lemma LiveAgain(c: Config, s: Store, now: int, later: int)
    requires now <= later
    ensures Live(c, Live(c, s, now), later) == Live(c, s, later)
  {
  }

  // Stores that differ only in expired records answer alike and stay alike.
  lemma StepBisimulates(c: Config, s1: Store, s2: Store, e: Event)
    requires e.InOrder()
    requires Live(c, s1, e.now) == Live(c, s2, e.now)
    ensures Step(c, s1, e).answer == Step(c, s2, e).answer
    ensures Live(c, Step(c, s1, e).store, e.End()) == Live(c, Step(c, s2, e).store, e.End())
  {
    LiveAgain(c, s1, e.now, e.End());
    LiveAgain(c, s2, e.now, e.End());
    match e
    case Purge(_) =>
    case ListInProgress(now) =>
      InProgressOfLive(c, s1, now);
      InProgressOfLive(c, s2, now);
    case _ =>
      CurrentOfLive(c, s1, e.uuid, e.now);
      CurrentOfLive(c, s2, e.uuid, e.now);
      LiveByRecord(c, s1, s2, e);
  }

  lemma InProgressOfLive(c: Config, s: Store, now: int)
    ensures InProgress(c, s, now) == InProgress(c, Live(c, s, now), now)
  {
  }

  lemma CurrentOfLive(c: Config, s: Store, u: string, now: int)
    ensures Current(c, s, u, now) == if u in Live(c, s, now) then Some(Live(c, s, now)[u]) else None
  {
  }

  lemma LiveByRecord(c: Config, s1: Store, s2: Store, e: Event)
    requires !e.Purge? && !e.ListInProgress? && e.InOrder()
    requires Live(c, s1, e.now) == Live(c, s2, e.now)
    ensures Live(c, Step(c, s1, e).store, e.End()) == Live(c, Step(c, s2, e).store, e.End())
  {
    var t1, t2 := Step(c, s1, e).store, Step(c, s2, e).store;
    forall u
      ensures Current(c, t1, u, e.End()) == Current(c, t2, u, e.End())
    {
      CurrentOfLive(c, s1, u, e.now);
      CurrentOfLive(c, s2, u, e.now);
      if u == e.uuid {
        SameAtUuid(c, s1, s2, e);
      } else {
        OtherUuids(c, s1, e, u);
        OtherUuids(c, s2, e, u);
      }
    }
    SameLive(c, t1, t2, e.End());
  }

  // A call does not touch other records.
  lemma OtherUuids(c: Config, s: Store, e: Event, u: string)
    requires !e.Purge? && !e.ListInProgress? && u != e.uuid
    ensures var t := Step(c, s, e).store; (u in t <==> u in s) && (u in s ==> t[u] == s[u])
  {
  }

  lemma SameAtUuid(c: Config, s1: Store, s2: Store, e: Event)
    requires !e.Purge? && !e.ListInProgress? && e.InOrder()
    requires Current(c, s1, e.uuid, e.now) == Current(c, s2, e.uuid, e.now)
    ensures Current(c, Step(c, s1, e).store, e.uuid, e.End()) == Current(c, Step(c, s2, e).store, e.uuid, e.End())
  {
  }

  lemma SameLive(c: Config, s1: Store, s2: Store, now: int)
    requires forall u :: Current(c, s1, u, now) == Current(c, s2, u, now)
    ensures Live(c, s1, now) == Live(c, s2, now)
  {
    forall u
      ensures u in Live(c, s1, now) <==> u in Live(c, s2, now)
      ensures u in Live(c, s1, now) ==> Live(c, s1, now)[u] == Live(c, s2, now)[u]
    {
      CurrentOfLive(c, s1, u, now);
      CurrentOfLive(c, s2, u, now);
    }
  }

  lemma {:induction false} StripBisimulates(c: Config, s1: Store, s2: Store, es: seq<Event>, from: int)
    requires Monotone(es, from) && Live(c, s1, from) == Live(c, s2, from)
    ensures Answers(c, s1, es) == Answers(c, s2, WithoutPurges(es))
    decreases es
  {
    if es != [] {
      var e := es[0];
      LiveAgain(c, s1, from, e.now);
      LiveAgain(c, s2, from, e.now);
      var r := Step(c, s1, e);
      if e.Purge? {
        LiveAgain(c, s1, e.now, e.now);
        StripBisimulates(c, r.store, s2, es[1..], e.now);
        assert WithoutPurges(es) == WithoutPurges(es[1..]);
      } else {
        StepBisimulates(c, s1, s2, e);
        StripBisimulates(c, r.store, Step(c, s2, e).store, es[1..], e.End());
        var rest := WithoutPurges(es);
        assert rest[0] == e && rest[1..] == WithoutPurges(es[1..]);
      }
    }
  }

  /** Lazy expiry refines eager expiry: two runs that differ only in where, and how often, expired records are
      purged give the same answers to every reader. */
  lemma LazyExpiryRefinesEager(c: Config, s: Store, es1: seq<Event>, es2: seq<Event>, from: int)
    requires Monotone(es1, from) && Monotone(es2, from)
    requires WithoutPurges(es1) == WithoutPurges(es2)
    ensures Answers(c, s, es1) == Answers(c, s, es2)
  {
    StripBisimulates(c, s, s, es1, from);
    StripBisimulates(c, s, s, es2, from);
  }

  // ---------------------------------------------------------------------------------------------
  // The answers clients can see

  predicate GoodTask(t: Task) {
    if t.completed then t.status == Some(404) && t.taskId == None
    else t.taskId == None ==> t.status == Some(202)
  }

  predicate GoodStore(s: Store) {
    forall u :: u in s ==> GoodTask(s[u])
  }

  predicate GoodAnswer(e: Event, a: Answer) {
    match e
    case Cached(_, _) => a == Status(None) || a == Status(Some(404))
    case Handle(_, _, _, _) => a == Code(202) || a == Code(404)
    case Checkin(_, _, _, _, _) => a == Raise(NotFound) || a == Raise(Unknown)
    case ListInProgress(_) => a.Tasks? && GoodStore(a.tasks) && forall u :: u in a.tasks ==> !a.tasks[u].completed
    case _ => a == Done
  }

  lemma StepIsGood(c: Config, s: Store, e: Event)
    requires GoodStore(s)
    ensures GoodStore(Step(c, s, e).store) && GoodAnswer(e, Step(c, s, e).answer)
  {
  }

  lemma {:induction false} FinalIsGood(c: Config, s: Store, es: seq<Event>)
    requires GoodStore(s)
    ensures GoodStore(Final(c, s, es))
    decreases es
  {
    if es != [] {
      StepIsGood(c, s, es[0]);
      FinalIsGood(c, Step(c, s, es[0]).store, es[1..]);
    }
  }

  /** Reachable answers: after any run from an empty collection, a completed record is a 404 without task id, an
      incomplete one without task id is a 202, a lookup is answered with 202 or 404, and a check-in is never
      refused for an unexpected status code. */
  lemma ReachableAnswers(c: Config, es: seq<Event>, e: Event)
    ensures GoodStore(Final(c, map[], es))
    ensures GoodAnswer(e, Step(c, Final(c, map[], es), e).answer)
  {
    FinalIsGood(c, map[], es);
    StepIsGood(c, Final(c, map[], es), e);
  }

  // ---------------------------------------------------------------------------------------------
  // The negative cache against the history of events

  // The event writes or deletes the honoured record of `u`. A completion that finds none, a reader and a purge
  // have no effect; so has a check-in or lookup that is answered from the cache.
  predicate Affects(c: Config, s: Store, e: Event, u: string) {
    match e
    case Update(v, _, _, _) => u == v
    case Complete(v, _, now, _) => u == v && Current(c, s, u, now).Some?
    case Handle(v, _, now, _) => u == v && Current(c, s, u, now).None?
    case Checkin(v, _, now, _, _) => u == v && CachedStatus(Current(c, s, u, now)) in {None, Some(0)}
    case _ => false
  }

  // The last event of a run that affected `u`.
  function LastEffective(c: Config, s: Store, es: seq<Event>, u: string, last: Option<Event>): Option<Event>
    decreases es
  {
    if es == [] then last
    else LastEffective(c, Step(c, s, es[0]).store, es[1..], u, if Affects(c, s, es[0], u) then Some(es[0]) else last)
  }

  predicate Is404(e: Option<Event>) {
    e.Some? && e.value.Complete? && e.value.status == 404
  }

  // The record of `u` shows the last effective event: it is a cached 404 exactly when that was one, unless it
  // has expired since and been removed.
  predicate Shows(c: Config, s: Store, u: string, last: Option<Event>, clock: int) {
    if Is404(last)
    then
      if u in s then s[u].completed && s[u].modified == last.value.stamp
      else last.value.stamp < clock - c.CacheTime()
    else u in s ==> !s[u].completed
  }

  lemma StepShows(c: Config, s: Store, e: Event, u: string, last: Option<Event>, from: int)
    requires GoodStore(s) && Shows(c, s, u, last, from) && from <= e.now && e.InOrder()
    ensures Shows(c, Step(c, s, e).store, u, if Affects(c, s, e, u) then Some(e) else last, e.End())
  {
  }

  lemma {:induction false} RunShows(c: Config, s: Store, es: seq<Event>, u: string, last: Option<Event>, from: int)
    requires GoodStore(s) && Shows(c, s, u, last, from) && Monotone(es, from)
    ensures Shows(c, Final(c, s, es), u, LastEffective(c, s, es, u, last), EndTime(es, from))
    decreases es
  {
    if es != [] {
      var s' := Step(c, s, es[0]).store;
      StepIsGood(c, s, es[0]);
      StepShows(c, s, es[0], u, last, from);
      RunShows(c, s', es[1..], u, if Affects(c, s, es[0], u) then Some(es[0]) else last, es[0].End());
    }
  }

  // A 404 completion was the last event with an effect on the uuid, and is no more than the configured hours ago.
  predicate KnownMissing(c: Config, es: seq<Event>, u: string, now: int) {
    var last := LastEffective(c, map[], es, u, None);
    Is404(last) && now - 3600 * c.cacheHours <= last.value.stamp
  }

  /** The negative cache is sound and complete: it answers 404 exactly when the last event with an effect on
      the uuid was a 404 completion no more than the configured hours ago; otherwise it has no answer. */
  lemma NegativeCacheMatchesHistory(c: Config, es: seq<Event>, from: int, u: string, now: int)
    requires Monotone(es, from) && EndTime(es, from) <= now
    ensures Step(c, Final(c, map[], es), Cached(u, now)).answer ==
            Status(if KnownMissing(c, es, u, now) then Some(404) else None)
  {
    RunShows(c, map[], es, u, None, from);
    ReachableAnswers(c, es, Cached(u, now));
    var s := Final(c, map[], es);
    if u in s {
      assert GoodTask(s[u]);
    }
  }

  /** The same decides the other two readers: a lookup is answered 404 exactly then and 202 otherwise, and a check-in is
      refused as not found exactly then and as unknown otherwise. So all three agree at one clock reading. */
  lemma ReadersMatchHistory(c: Config, es: seq<Event>, from: int, u: string, id: string, now: int, again: int,
                            stamp: int)
    requires Monotone(es, from) && EndTime(es, from) <= now
    ensures var s, missing := Final(c, map[], es), KnownMissing(c, es, u, now);
      && Step(c, s, Handle(u, id, now, stamp)).answer == Code(if missing then 404 else 202)
      && Step(c, s, Checkin(u, id, now, again, stamp)).answer == Raise(if missing then NotFound else Unknown)
  {
    NegativeCacheMatchesHistory(c, es, from, u, now);
    FinalIsGood(c, map[], es);
    var s := Final(c, map[], es);
    if u in s {
      assert GoodTask(s[u]);
    }
  }

  // ---------------------------------------------------------------------------------------------
  // Retries never prolong a lookup

  // The event starts a new lookup of `u`: it writes a record where none was honoured.
  predicate Starts(c: Config, s: Store, e: Event, u: string) {
    match e
    case Update(v, _, now, _) => u == v && Current(c, s, u, now).None?
    case Handle(v, _, now, _) => u == v && Current(c, s, u, now).None?
    case Checkin(_, _, now, again, _) =>
      Affects(c, s, e, u) && (Current(c, s, u, now).None? || Current(c, s, u, again).None?)
    case _ => false
  }

  // When the latest lookup of `u` in a run was started.
  function Started(c: Config, s: Store, es: seq<Event>, u: string, at: Option<int>): Option<int>
    decreases es
  {
    if es == [] then at
    else Started(c, Step(c, s, es[0]).store, es[1..], u, if Starts(c, s, es[0], u) then Some(es[0].stamp) else at)
  }

  lemma StepKeepsInitiated(c: Config, s: Store, e: Event, u: string, at: Option<int>)
    requires u in s ==> at == Some(s[u].initiated)
    ensures var s' := Step(c, s, e).store;
      u in s' ==> Some(s'[u].initiated) == if Starts(c, s, e, u) then Some(e.stamp) else at
  {
  }

  lemma {:induction false} RunKeepsInitiated(c: Config, s: Store, es: seq<Event>, u: string, at: Option<int>)
    requires u in s ==> at == Some(s[u].initiated)
    ensures var s' := Final(c, s, es);
      u in s' ==> Started(c, s, es, u, at) == Some(s'[u].initiated)
    decreases es
  {
    if es != [] {
      StepKeepsInitiated(c, s, es[0], u, at);
      RunKeepsInitiated(c, Step(c, s, es[0]).store, es[1..], u,
        if Starts(c, s, es[0], u) then Some(es[0].stamp) else at);
    }
  }

  // The event leaves a lookup in progress where it has an effect.
  predicate Continues(e: Event) {
    e.Update? || e.Handle? || e.Checkin? || (e.Complete? && e.status == 202)
  }

  // The record of `u` is in progress, or was and has expired, exactly when the last effective event continued it.
  predicate ShowsProgress(c: Config, s: Store, u: string, last: Option<Event>, at: Option<int>, clock: int) {
    && (u in s ==> at == Some(s[u].initiated))
    && if last.Some? && Continues(last.value)
       then at.Some? && if u in s then !s[u].completed else at.value + 60 * c.timeoutMinutes < clock
       else u in s ==> s[u].completed
  }

  lemma StepShowsProgress(c: Config, s: Store, e: Event, u: string, last: Option<Event>, at: Option<int>, from: int)
    requires GoodStore(s) && ShowsProgress(c, s, u, last, at, from) && from <= e.now && e.InOrder()
    ensures ShowsProgress(c, Step(c, s, e).store, u, if Affects(c, s, e, u) then Some(e) else last,
                          if Starts(c, s, e, u) then Some(e.stamp) else at, e.End())
  {
  }

  lemma {:induction false} RunShowsProgress(c: Config, s: Store, es: seq<Event>, u: string, last: Option<Event>,
                                            at: Option<int>, from: int)
    requires GoodStore(s) && ShowsProgress(c, s, u, last, at, from) && Monotone(es, from)
    ensures ShowsProgress(c, Final(c, s, es), u, LastEffective(c, s, es, u, last), Started(c, s, es, u, at),
                          EndTime(es, from))
    decreases es
  {
    if es != [] {
      var s' := Step(c, s, es[0]).store;
      StepIsGood(c, s, es[0]);
      StepShowsProgress(c, s, es[0], u, last, at, from);
      RunShowsProgress(c, s', es[1..], u, if Affects(c, s, es[0], u) then Some(es[0]) else last,
        if Starts(c, s, es[0], u) then Some(es[0].stamp) else at, es[0].End());
    }
  }

  /** The listing is sound and complete: a lookup is listed as in progress exactly when the last event with an effect on
      its uuid started it, updated it or was a 202 completion, and it was started no more than the configured minutes
      ago. */
  lemma ListingMatchesHistory(c: Config, es: seq<Event>, from: int, u: string, now: int)
    requires Monotone(es, from) && EndTime(es, from) <= now
    ensures var last, started := LastEffective(c, map[], es, u, None), Started(c, map[], es, u, None);
      u in InProgress(c, Final(c, map[], es), now) <==>
      && last.Some? && Continues(last.value)
      && started.Some? && now <= started.value + 60 * c.timeoutMinutes
  {
    RunShowsProgress(c, map[], es, u, None, None, from);
  }

  /** Retries never prolong a lookup: however often it was updated or answered 202, a record still in progress is
      shown to no reader later than the timeout after its lookup was started. */
  lemma RetriesNeverProlong(c: Config, es: seq<Event>, u: string, now: int)
    ensures var s := Final(c, map[], es);
      var started := Started(c, map[], es, u, None);
      && (u in s ==> started == Some(s[u].initiated))
      && (u in InProgress(c, s, now) ==> started.Some? && now <= started.value + 60 * c.timeoutMinutes)
      && (Current(c, s, u, now).Some? && !Current(c, s, u, now).value.completed ==>
            started.Some? && now <= started.value + 60 * c.timeoutMinutes)
  {
    RunKeepsInitiated(c, map[], es, u, None);
  }
}
