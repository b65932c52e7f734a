/** The transactional outbox: the task table, the batch a worker tick runs, and how each task is retired. */
module Outbox {
  import opened Prelude

  /** The kinds the contracts feature registers a handler for, and everybody else's. */
  datatype Kind = CreateThread | Refresh | Close | Notify | PayoutReport | Other(name: string)

  datatype TaskStatus = Pending | Done | Failed

  /**
   * One outbox_tasks row. `contract` and `repost` are the payload; `revision` is the contract's revision when
   * the task was enqueued, kept only to state what the queue guarantees. Times are seconds.
   */
  datatype Task = Task(
    kind: Kind, contract: nat, repost: bool, revision: nat, chronometric: Option<nat>,
    status: TaskStatus, attempts: nat, nextTry: int, updatedAt: int, evacuatedAt: Option<int>)

  type Table = map<nat, Task>

  /** The collapsing key. A task without a chronometric id groups by its own id. */
  datatype Group = Group(kind: Kind, id: nat)

  /** A row as the scan read it. */
  datatype DueTask = DueTask(id: nat, task: Task) {
    function Key(): Group {
      Group(task.kind, match task.chronometric case Some(c) => c case None => id)
    }
  }

  // ---- Retry delays ----

  const BACKOFF_BASE: int := 10
  const BACKOFF_MAX: int := 3600

  function Pow2(n: nat): (r: nat)
    ensures r > 0
  {
    if n == 0 then 1 else 2 * Pow2(n - 1)
  }

  function Min(a: int, b: int): int { if a <= b then a else b }

  /** min(10s * 2^(attempts - 1), 1h). */
  function BackoffDelay(attempts: int): int {
    if attempts <= 1 then BACKOFF_BASE else Min(BACKOFF_BASE * Pow2(attempts - 1), BACKOFF_MAX)
  }

  lemma {:induction false} Pow2Grows(m: nat, n: nat)
    requires m <= n
    ensures Pow2(m) <= Pow2(n)
  {
    if m < n { Pow2Grows(m, n - 1); }
  }

  method Backoff(attempts: int) returns (d: int)
    ensures d == BackoffDelay(attempts)
  {
    d := BACKOFF_BASE;
    var i := 1;
    while i < attempts
      invariant 1 <= i && (attempts > 1 ==> i <= attempts) && (attempts <= 1 ==> i == 1)
      invariant d == BACKOFF_BASE * Pow2(i - 1) < BACKOFF_MAX
    {
      d := d * 2;
      if d >= BACKOFF_MAX {
        Pow2Grows(i, attempts - 1);
        return BACKOFF_MAX;
      }
      i := i + 1;
    }
    if d > BACKOFF_MAX { d := BACKOFF_MAX; }
  }

  // ---- Retiring one task ----

  /** What running a handler reports. `Unhandled`: no handler is registered for the kind. */
  datatype HandlerResult = Success | Permanent | Transient | Unhandled

  /** The row after its handler ran, by the attempts the scan read. */
  function Settle(row: Task, scanned: Task, result: HandlerResult, maxAttempts: int, now: int): Task {
    if result == Success then row.(status := Done, updatedAt := now)
    else if result == Unhandled then
      row.(status := Failed, attempts := scanned.attempts, updatedAt := now, evacuatedAt := Some(now))
    else
      var attempts := scanned.attempts + 1;
      if result == Permanent || attempts >= maxAttempts then
        row.(status := Failed, attempts := attempts, updatedAt := now, evacuatedAt := Some(now))
      else
        row.(status := Pending, attempts := attempts, nextTry := now + BackoffDelay(attempts), updatedAt := now)
  }

  /** What each report makes of the row, column by column; `attempts` is what the scan read. */
  predicate Outcome(row: Task, after: Task, attempts: nat, result: HandlerResult, maxAttempts: int, at: int) {
    && after.kind == row.kind && after.contract == row.contract && after.repost == row.repost
    && after.revision == row.revision && after.chronometric == row.chronometric && after.updatedAt == at
    && match result
       case Success =>
         && after.status == Done && after.attempts == row.attempts && after.evacuatedAt == row.evacuatedAt
       case Permanent => after.status == Failed && after.attempts == attempts + 1 && after.evacuatedAt == Some(at)
       case Unhandled => after.status == Failed && after.attempts == attempts && after.evacuatedAt == Some(at)
       case Transient =>
         && after.attempts == attempts + 1
         && if attempts + 1 >= maxAttempts then after.status == Failed && after.evacuatedAt == Some(at)
            else after.status == Pending && after.nextTry == at + Min(10 * Pow2(attempts), 3600)
  }

  /** Only a retry moves the next try. */
  lemma SettleHasOutcome(row: Task, scanned: Task, result: HandlerResult, maxAttempts: int, at: int)
    ensures Outcome(row, Settle(row, scanned, result, maxAttempts, at), scanned.attempts, result, maxAttempts, at)
    ensures Settle(row, scanned, result, maxAttempts, at).status != Pending ==>
              Settle(row, scanned, result, maxAttempts, at).nextTry == row.nextTry
  {
    assert scanned.attempts == 0 ==> Pow2(scanned.attempts) == 1;
  }

  /** A retired task is kept for its retention, counted from the moment it was retired. */
  lemma RetentionCountsFromRetiring(
      id: nat, row: Task, scanned: Task, result: HandlerResult, maxAttempts: int, at: int, done: int, failed: int)
    ensures var after := Settle(row, scanned, result, maxAttempts, at);
      id in Cleanup(map[id := after], done, failed)
      <==> (result == Success ==> done <= at) && (after.status == Failed ==> failed <= at)
  {
    SettleHasOutcome(row, scanned, result, maxAttempts, at);
  }

  /** Retires a task a newer one of its group makes redundant; only a pending row changes. */
  function Supersede(row: Task, now: int): Task {
    if row.status == Pending then row.(status := Done, updatedAt := now) else row
  }

  /** Terminal rows past their retention go; pending rows stay. */
  function Cleanup(tasks: Table, doneCutoff: int, failedCutoff: int): Table {
    map id | id in tasks && !Expired(tasks[id], doneCutoff, failedCutoff) :: tasks[id]
  }

  predicate Expired(t: Task, doneCutoff: int, failedCutoff: int) {
    || (t.status == Done && t.updatedAt < doneCutoff)
    || (t.status == Failed && t.evacuatedAt.Some? && t.evacuatedAt.value < failedCutoff)
  }

  // ---- The scan ----

  predicate Ready(t: Task, now: int) { t.status == Pending && t.nextTry <= now }

  /** Rows of the table in ascending id order. */
  ghost predicate InTable(due: seq<DueTask>, tasks: Table) {
    && (forall i, j :: 0 <= i < j < |due| ==> due[i].id < due[j].id)
    && (forall i :: 0 <= i < |due| ==> due[i].id in tasks && due[i].task == tasks[due[i].id])
  }

  ghost predicate Listed(due: seq<DueTask>, id: nat) { exists i :: 0 <= i < |due| && due[i].id == id }

  /** The oldest `limit` ready tasks, in id order, as they are in the table. */
  ghost predicate IsDue(due: seq<DueTask>, tasks: Table, now: int, limit: nat) {
    && |due| <= limit
    && InTable(due, tasks)
    && (forall i :: 0 <= i < |due| ==> Ready(due[i].task, now))
    && (forall id :: id in tasks && Ready(tasks[id], now) && !Listed(due, id) ==>
          |due| == limit && forall i :: 0 <= i < |due| ==> due[i].id < id)
  }

  /** No later task of the batch shares the group of number i. */
  predicate IsNewest(due: seq<DueTask>, i: nat)
    requires i < |due|
  {
    forall j :: i < j < |due| ==> due[j].Key() != due[i].Key()
  }

  /** The remembered id of number i's group is its own exactly when it is the newest. */
  predicate Remembers(newest: map<Group, nat>, due: seq<DueTask>, i: nat)
    requires i < |due|
  {
    due[i].Key() in newest && (newest[due[i].Key()] == due[i].id <==> IsNewest(due, i))
  }

  /** The ids the batch runs a handler for, in order: the newest of each group. */
  function Runs(due: seq<DueTask>, upTo: nat): seq<nat>
    requires upTo <= |due|
  {
    if upTo == 0 then []
    else Runs(due, upTo - 1) + if IsNewest(due, upTo - 1) then [due[upTo - 1].id] else []
  }

  /** How one task's turn goes: the handler's report, whether the row could be marked, what the handler enqueued. */
  datatype Turn = Turn(result: HandlerResult, marked: bool, enqueued: seq<Task>, at: int)

  /** How each task's turn goes, by id; a task left out fails transiently and stays unmarked. */
  type Turns = map<nat, Turn>

  function TurnOf(turns: Turns, id: nat): Turn {
    if id in turns then turns[id] else Turn(Transient, false, [], 0)
  }

  /** The tasks the handlers of the first `upTo` turns enqueued, in order; a superseded task enqueues nothing. */
  function Added(due: seq<DueTask>, upTo: nat, turns: Turns): seq<Task>
    requires upTo <= |due|
  {
    if upTo == 0 then []
    else Added(due, upTo - 1, turns) + Enqueues(due, upTo - 1, TurnOf(turns, due[upTo - 1].id))
  }

  function Enqueues(due: seq<DueTask>, i: nat, turn: Turn): seq<Task>
    requires i < |due|
  {
    if IsNewest(due, i) then turn.enqueued else []
  }

  /** One turn's effect on the table: its own row, the rows its handler enqueued, and nothing else. */
  ghost predicate Turned(
      before: Table, after: Table, due: seq<DueTask>, i: nat, turn: Turn, maxAttempts: int, nextId: nat)
    requires i < |due|
  {
    && due[i].id in after && after[due[i].id] == Retired(due, i, turn, maxAttempts)
    && (forall id :: id in before && id != due[i].id ==> id in after && after[id] == before[id])
    && Grew(before, after, nextId, Enqueues(due, i, turn))
  }

  /** The table's new rows are exactly these, under consecutive ids from `firstId` on. */
  ghost predicate Grew(before: Table, after: Table, firstId: nat, added: seq<Task>) {
    && (forall id :: id in after <==> id in before || firstId <= id < firstId + |added|)
    && (forall id: nat :: firstId <= id < firstId + |added| ==> after[id] == added[id - firstId])
  }

  /** A processed row, by its position in the batch. */
  function Retired(due: seq<DueTask>, i: nat, turn: Turn, maxAttempts: int): Task
    requires i < |due|
  {
    var row := due[i].task;
    if !turn.marked then row
    else if IsNewest(due, i) then Settle(row, row, turn.result, maxAttempts, turn.at)
    else Supersede(row, turn.at)
  }

  /** The rows the first `upTo` turns wrote. */
  function RetiredRows(due: seq<DueTask>, upTo: nat, turns: Turns, maxAttempts: int): Table
    requires upTo <= |due|
  {
    if upTo == 0 then map[]
    else
      var d := due[upTo - 1];
      RetiredRows(due, upTo - 1, turns, maxAttempts)[d.id := Retired(due, upTo - 1, TurnOf(turns, d.id), maxAttempts)]
  }

  /** `after` has the old rows, overwritten by what the first `upTo` turns wrote; it may have new rows besides. */
  ghost predicate Processed(
      before: Table, after: Table, due: seq<DueTask>, upTo: nat, turns: Turns, maxAttempts: int)
    requires upTo <= |due|
  {
    var rows := RetiredRows(due, upTo, turns, maxAttempts);
    forall id :: id in before ==> id in after && after[id] == if id in rows then rows[id] else before[id]
  }

  /** The worker with its table. The single goroutine that owns it is the only one to change existing rows. */
  class Worker {
    var tasks: Table
    var nextId: nat
    var maxAttempts: int
    var batchSize: nat
    ghost var ran: seq<nat>

    ghost predicate Valid() reads this { forall id :: id in tasks ==> id < nextId }

    constructor (maxAttempts: int, batchSize: nat)
      ensures Valid() && tasks == map[] && ran == []
      ensures this.maxAttempts == maxAttempts && this.batchSize == batchSize
    {
      tasks, nextId, ran := map[], 0, [];
      this.maxAttempts, this.batchSize := maxAttempts, batchSize;
    }

    method Enqueue(t: Task) returns (id: nat)
      requires Valid()
      modifies this`tasks, this`nextId
      ensures Valid() && id == old(nextId) && nextId == id + 1 && tasks == old(tasks)[id := t]
    {
      id := nextId;
      tasks := tasks[id := t];
      nextId := nextId + 1;
    }

    /** SELECT ... WHERE status = 'pending' AND next_try_at <= now ORDER BY id LIMIT batchSize. */
    method Due(now: int) returns (due: seq<DueTask>)
      ensures IsDue(due, tasks, now, batchSize)
      ensures forall i :: 0 <= i < |due| ==> due[i].task.status == Pending && due[i].task.nextTry <= now
      ensures forall id :: id in tasks && tasks[id].status == Pending && tasks[id].nextTry <= now ==>
                Listed(due, id) || (|due| == batchSize && forall i :: 0 <= i < |due| ==> due[i].id < id)
    {
      due := [];
      var left := set id | id in tasks && Ready(tasks[id], now);
      while left != {} && |due| < batchSize
        invariant |due| <= batchSize
        invariant forall id :: id in left ==> id in tasks && Ready(tasks[id], now)
        invariant forall i, j :: 0 <= i < j < |due| ==> due[i].id < due[j].id
        invariant forall i, id :: 0 <= i < |due| && id in left ==> due[i].id < id
        invariant forall i :: 0 <= i < |due| ==>
                    due[i].id in tasks && due[i].task == tasks[due[i].id] && Ready(tasks[due[i].id], now)
        invariant forall id :: id in tasks && Ready(tasks[id], now) ==> id in left || Listed(due, id)
        decreases left
      {
        var id := Least(left);
        ghost var before := due;
        due := due + [DueTask(id, tasks[id])];
        left := left - {id};
        assert due[|before|].id == id;
        forall x | Listed(before, x) ensures Listed(due, x) {
          var i :| 0 <= i < |before| && before[i].id == x;
          assert due[i].id == x;
        }
      }
    }

    /**
     * One tick. The first pass remembers the last id seen per group, the second retires every other task of the
     * group and executes the remembered one. `turns` says how each task's turn goes; `stop` is where a shutdown
     * interrupts the second pass.
     */
    method ProcessBatch(now: int, turns: Turns, stop: nat) returns (due: seq<DueTask>)
      requires Valid()
      modifies this`tasks, this`nextId, this`ran
      ensures Valid() && IsDue(due, old(tasks), now, batchSize)
      ensures var upTo := if stop < |due| then stop else |due|;
        && Processed(old(tasks), tasks, due, upTo, turns, maxAttempts)
        && ran == old(ran) + Runs(due, upTo)
        && nextId == old(nextId) + |Added(due, upTo, turns)|
        && Grew(old(tasks), tasks, old(nextId), Added(due, upTo, turns))
      ensures stop >= |due| && Obliging(due, turns) ==>
                FullBatch(old(tasks), tasks, due, turns, maxAttempts, now, batchSize)
    {
      due := Due(now);
      var newest := NewestIds(due);
      RunBatch(due, newest, turns, stop);
      if Obliging(due, turns) { NothingAdded(due, |due|, turns); }
    }

    /** The second pass. */
    method RunBatch(due: seq<DueTask>, newest: map<Group, nat>, turns: Turns, stop: nat)
      requires Valid() && InTable(due, tasks)
      requires forall i :: 0 <= i < |due| ==> Remembers(newest, due, i)
      modifies this`tasks, this`nextId, this`ran
      ensures Valid()
      ensures var upTo := if stop < |due| then stop else |due|;
        && Processed(old(tasks), tasks, due, upTo, turns, maxAttempts)
        && ran == old(ran) + Runs(due, upTo)
        && nextId == old(nextId) + |Added(due, upTo, turns)|
        && Grew(old(tasks), tasks, old(nextId), Added(due, upTo, turns))
    {
      hide Processed, Grew, Turned, RetiredRows, Added, Enqueues;
      var upTo := if stop < |due| then stop else |due|;
      BatchStart(tasks, nextId, due, turns, maxAttempts);
      for i := 0 to upTo
        invariant Valid() && nextId == old(nextId) + |Added(due, i, turns)|
        invariant Processed(old(tasks), tasks, due, i, turns, maxAttempts)
        invariant ran == old(ran) + Runs(due, i)
        invariant Grew(old(tasks), tasks, old(nextId), Added(due, i, turns))
      {
        assert Remembers(newest, due, i);
        RowAtTurn(old(tasks), tasks, due, i, turns, maxAttempts);
        ghost var mid := tasks;
        TakeTurn(due, i, newest[due[i].Key()] == due[i].id, TurnOf(turns, due[i].id));
        TurnStep(old(tasks), mid, tasks, old(nextId), due, i, turns, maxAttempts);
      }
    }

    /** Task number i of the batch: superseded when a newer one shares its group, executed otherwise. */
    method TakeTurn(due: seq<DueTask>, i: nat, newest: bool, turn: Turn)
      requires Valid() && i < |due| && newest == IsNewest(due, i)
      requires due[i].id in tasks && tasks[due[i].id] == due[i].task
      modifies this`tasks, this`nextId, this`ran
      ensures Valid()
      ensures ran == old(ran) + if newest then [due[i].id] else []
      ensures nextId == old(nextId) + |Enqueues(due, i, turn)|
      ensures Turned(old(tasks), tasks, due, i, turn, maxAttempts, old(nextId))
    {
      var d := due[i];
      if !newest {
        if turn.marked { tasks := tasks[d.id := Supersede(tasks[d.id], turn.at)]; }
      } else {
        Execute(d, turn);
      }
    }

    /** Runs a task's handler and records the outcome; the handler's own transactions only add rows. */
    method Execute(d: DueTask, turn: Turn)
      requires Valid() && d.id in tasks
      modifies this`tasks, this`nextId, this`ran
      ensures Valid() && ran == old(ran) + [d.id]
      ensures nextId == old(nextId) + |turn.enqueued| && Grew(old(tasks), tasks, old(nextId), turn.enqueued)
      ensures d.id in tasks
      ensures tasks[d.id] == if turn.marked
                             then Settle(old(tasks[d.id]), d.task, turn.result, maxAttempts, turn.at)
                             else old(tasks[d.id])
      ensures turn.marked ==>
                Outcome(old(tasks[d.id]), tasks[d.id], d.task.attempts, turn.result, maxAttempts, turn.at)
      ensures forall id :: id in old(tasks) && id != d.id ==> id in tasks && tasks[id] == old(tasks[id])
    {
      ran := ran + [d.id];
      EnqueueAll(turn.enqueued);
      if turn.marked {
        SettleHasOutcome(tasks[d.id], d.task, turn.result, maxAttempts, turn.at);
        MarkRow(d, turn.result, turn.at);
      }
    }

    method EnqueueAll(added: seq<Task>)
      requires Valid()
      modifies this`tasks, this`nextId
      ensures Valid() && nextId == old(nextId) + |added| && Grew(old(tasks), tasks, old(nextId), added)
      ensures forall id :: id in old(tasks) ==> tasks[id] == old(tasks)[id]
    {
      for k := 0 to |added|
        invariant Valid() && nextId == old(nextId) + k
        invariant forall id :: id in old(tasks) ==> id in tasks && tasks[id] == old(tasks)[id]
        invariant Grew(old(tasks), tasks, old(nextId), added[..k])
      {
        var _ := Enqueue(added[k]);
      }
    }

    /** markDone, markRetry or markFailed, by what the handler reported and the attempts the scan read. */
    method MarkRow(d: DueTask, result: HandlerResult, at: int)
      requires d.id in tasks
      modifies this`tasks
      ensures tasks == old(tasks)[d.id := Settle(old(tasks)[d.id], d.task, result, maxAttempts, at)]
    {
      var attempts := d.task.attempts + 1;
      var row := tasks[d.id];
      if result == Success {
        tasks := tasks[d.id := row.(status := Done, updatedAt := at)];
      } else if result == Unhandled {
        tasks := tasks[d.id := row.(status := Failed, attempts := d.task.attempts,
                                    updatedAt := at, evacuatedAt := Some(at))];
      } else if result == Permanent || attempts >= maxAttempts {
        tasks := tasks[d.id := row.(status := Failed, attempts := attempts, updatedAt := at, evacuatedAt := Some(at))];
      } else {
        var delay := Backoff(attempts);
        tasks := tasks[d.id := row.(status := Pending, attempts := attempts, nextTry := at + delay, updatedAt := at)];
      }
    }

    /**
     * The worker's loop while nobody enqueues anything and every mark takes: tick after tick, on a clock that gets
     * past every time, until no task is pending. `turns` says how the tasks' turns go in each tick. It ends,
     * whatever the handlers report, after at most as many ticks with work as the queue had turns left.
     */
    method Drain(clock: nat -> int, ghost reach: int -> nat, turns: nat -> Turns) returns (batches: nat)
      requires Valid() && batchSize > 0
      requires forall t, k :: k >= reach(t) ==> clock(k) >= t
      requires forall k, id :: id in tasks ==> Obliges(turns(k), id)
      modifies this`tasks, this`nextId, this`ran
      ensures Valid() && tasks.Keys == old(tasks).Keys && AllRetired(tasks)
      ensures batches <= Load(old(tasks), maxAttempts)
      ensures forall id :: id in old(tasks) && old(tasks)[id].status != Pending ==> tasks[id] == old(tasks)[id]
    {
      batches := 0;
      var k := 0;
      while !AllRetired(tasks)
        invariant Valid() && tasks.Keys == old(tasks).Keys
        invariant batches + Load(tasks, maxAttempts) <= Load(old(tasks), maxAttempts)
        invariant forall id :: id in old(tasks) && old(tasks)[id].status != Pending ==> tasks[id] == old(tasks)[id]
        decreases Load(tasks, maxAttempts), reach(Latest(tasks)) - k
      {
        ghost var before := tasks;
        var due := ProcessBatch(clock(k), turns(k), batchSize);
        TickProgress(before, tasks, due, turns(k), maxAttempts, clock(k), batchSize);
        if due != [] { batches := batches + 1; }
        k := k + 1;
      }
    }
  }

  /** The last id seen per group, over an ascending batch. */
  method NewestIds(due: seq<DueTask>) returns (newest: map<Group, nat>)
    requires forall i, j :: 0 <= i < j < |due| ==> due[i].id < due[j].id
    ensures forall i :: 0 <= i < |due| ==> Remembers(newest, due, i)
  {
    newest := map[];
    for i := 0 to |due|
      invariant forall k :: 0 <= k < i ==> due[k].Key() in newest && LastOf(due, i, due[k].Key(), newest[due[k].Key()])
    {
      newest := newest[due[i].Key() := due[i].id];
      assert LastOf(due, i + 1, due[i].Key(), due[i].id);
      forall k | 0 <= k < i && due[k].Key() != due[i].Key()
        ensures LastOf(due, i + 1, due[k].Key(), newest[due[k].Key()])
      {
        assert LastOf(due, i, due[k].Key(), newest[due[k].Key()]);
      }
    }
    forall i | 0 <= i < |due| ensures Remembers(newest, due, i) {
      NewestIsLast(due, i, newest[due[i].Key()]);
    }
  }

  lemma {:induction false} RetiredRow(due: seq<DueTask>, upTo: nat, turns: Turns, maxAttempts: int, i: nat)
    requires upTo <= |due| && i < |due|
    requires forall i, j :: 0 <= i < j < |due| ==> due[i].id < due[j].id
    ensures due[i].id in RetiredRows(due, upTo, turns, maxAttempts) <==> i < upTo
    ensures i < upTo ==> RetiredRows(due, upTo, turns, maxAttempts)[due[i].id]
                         == Retired(due, i, TurnOf(turns, due[i].id), maxAttempts)
  {
    if upTo > 0 { RetiredRow(due, upTo - 1, turns, maxAttempts, i); }
  }

  lemma ProcessedStep(
      before: Table, mid: Table, after: Table, due: seq<DueTask>, i: nat, turns: Turns, maxAttempts: int)
    requires i < |due| && Processed(before, mid, due, i, turns, maxAttempts) && due[i].id in before
    requires due[i].id in after && after[due[i].id] == Retired(due, i, TurnOf(turns, due[i].id), maxAttempts)
    requires forall id :: id in mid && id != due[i].id ==> id in after && after[id] == mid[id]
    ensures Processed(before, after, due, i + 1, turns, maxAttempts)
  {
  }

  lemma RowAtTurn(
      before: Table, mid: Table, due: seq<DueTask>, i: nat, turns: Turns, maxAttempts: int)
    requires i < |due| && InTable(due, before) && Processed(before, mid, due, i, turns, maxAttempts)
    ensures due[i].id in mid && mid[due[i].id] == due[i].task
  {
    RetiredRow(due, i, turns, maxAttempts, i);
  }

  lemma BatchStart(tasks: Table, nextId: nat, due: seq<DueTask>, turns: Turns, maxAttempts: int)
    ensures Processed(tasks, tasks, due, 0, turns, maxAttempts)
    ensures Added(due, 0, turns) == [] && Grew(tasks, tasks, nextId, [])
  {
  }

  lemma TurnStep(
      before: Table, mid: Table, after: Table, firstId: nat, due: seq<DueTask>, i: nat, turns: Turns, maxAttempts: int)
    requires i < |due| && InTable(due, before) && due[i].id < firstId
    requires Processed(before, mid, due, i, turns, maxAttempts) && Grew(before, mid, firstId, Added(due, i, turns))
    requires Turned(mid, after, due, i, TurnOf(turns, due[i].id), maxAttempts, firstId + |Added(due, i, turns)|)
    ensures Processed(before, after, due, i + 1, turns, maxAttempts)
    ensures Grew(before, after, firstId, Added(due, i + 1, turns))
    ensures |Added(due, i + 1, turns)| == |Added(due, i, turns)| + |Enqueues(due, i, TurnOf(turns, due[i].id))|
  {
    ProcessedStep(before, mid, after, due, i, turns, maxAttempts);
    GrewChain(before, mid, after, firstId, Added(due, i, turns), Enqueues(due, i, TurnOf(turns, due[i].id)), due[i].id);
  }

  lemma GrewChain(
      before: Table, mid: Table, after: Table, firstId: nat, first: seq<Task>, second: seq<Task>, changed: nat)
    requires Grew(before, mid, firstId, first) && Grew(mid, after, firstId + |first|, second) && changed < firstId
    requires forall id :: id in mid && id != changed ==> id in after && after[id] == mid[id]
    ensures Grew(before, after, firstId, first + second)
  {
  }

  /** The task's turn can be marked and its handler enqueues nothing. */
  predicate Obliges(turns: Turns, id: nat) { TurnOf(turns, id).marked && TurnOf(turns, id).enqueued == [] }

  predicate Obliging(due: seq<DueTask>, turns: Turns) {
    forall i :: 0 <= i < |due| ==> Obliges(turns, due[i].id)
  }

  lemma {:induction false} NothingAdded(due: seq<DueTask>, upTo: nat, turns: Turns)
    requires upTo <= |due| && Obliging(due, turns)
    ensures |Added(due, upTo, turns)| == 0
  {
    AddedStep(due, upTo, turns);
    hide *;
    if upTo > 0 {
      NothingAdded(due, upTo - 1, turns);
      EnqueuesNothing(due, upTo - 1, turns);
    }
  }

  lemma AddedStep(due: seq<DueTask>, upTo: nat, turns: Turns)
    requires upTo <= |due|
    ensures |Added(due, upTo, turns)|
            == if upTo == 0 then 0
               else |Added(due, upTo - 1, turns)| + |Enqueues(due, upTo - 1, TurnOf(turns, due[upTo - 1].id))|
  {
  }

  lemma EnqueuesNothing(due: seq<DueTask>, i: nat, turns: Turns)
    requires i < |due| && Obliging(due, turns)
    ensures |Enqueues(due, i, TurnOf(turns, due[i].id))| == 0
  {
    assert Obliges(turns, due[i].id);
  }

  lemma {:induction false} OnlyListedRetire(due: seq<DueTask>, upTo: nat, turns: Turns, maxAttempts: int, id: nat)
    requires upTo <= |due| && id in RetiredRows(due, upTo, turns, maxAttempts)
    ensures Listed(due, id)
  {
    if due[upTo - 1].id != id { OnlyListedRetire(due, upTo - 1, turns, maxAttempts, id); }
  }

  method Least(s: set<nat>) returns (m: nat)
    requires s != {}
    ensures m in s && forall x :: x in s ==> m <= x
  {
    m :| m in s;
    var left := s - {m};
    while left != {}
      invariant m in s && left <= s
      invariant forall x :: x in s && x !in left ==> m <= x
      decreases left
    {
      var x :| x in left;
      left := left - {x};
      if x < m { m := x; }
    }
  }

  /** `id` belongs to the last task of the group among the first n. */
  ghost predicate LastOf(due: seq<DueTask>, n: nat, key: Group, id: nat)
    requires n <= |due|
  {
    exists k :: 0 <= k < n && due[k].Key() == key && due[k].id == id
                && forall j :: k < j < n ==> due[j].Key() != key
  }

  lemma NewestIsLast(due: seq<DueTask>, i: nat, last: nat)
    requires i < |due| && LastOf(due, |due|, due[i].Key(), last)
    requires forall i, j :: 0 <= i < j < |due| ==> due[i].id < due[j].id
    ensures last == due[i].id <==> IsNewest(due, i)
  {
    var k :| 0 <= k < |due| && due[k].Key() == due[i].Key() && due[k].id == last
             && forall j :: k < j < |due| ==> due[j].Key() != due[i].Key();
  }

  // ---- What a batch amounts to ----

  /** The newest task of number i's group within the batch. */
  lemma NewestOfGroup(due: seq<DueTask>, i: nat) returns (k: nat)
    requires i < |due|
    ensures i <= k < |due| && due[k].Key() == due[i].Key() && IsNewest(due, k)
    decreases |due| - i
  {
    if IsNewest(due, i) {
      k := i;
    } else {
      var j :| i < j < |due| && due[j].Key() == due[i].Key();
      k := NewestOfGroup(due, j);
    }
  }

  lemma {:induction false} RunsAreTheNewest(due: seq<DueTask>, n: nat)
    requires n <= |due| && forall i, j :: 0 <= i < j < |due| ==> due[i].id < due[j].id
    ensures forall id :: id in Runs(due, n) <==> exists i :: 0 <= i < n && due[i].id == id && IsNewest(due, i)
    ensures forall a, b :: 0 <= a < b < |Runs(due, n)| ==> Runs(due, n)[a] < Runs(due, n)[b]
    ensures n > 0 ==> forall a :: 0 <= a < |Runs(due, n)| ==> Runs(due, n)[a] <= due[n - 1].id
  {
    if n > 0 {
      RunsAreTheNewest(due, n - 1);
      assert IsNewest(due, n - 1) ==> due[n - 1].id in Runs(due, n);
      forall id | exists i :: 0 <= i < n && due[i].id == id && IsNewest(due, i) ensures id in Runs(due, n) {
        var i :| 0 <= i < n && due[i].id == id && IsNewest(due, i);
        if i < n - 1 { assert id in Runs(due, n - 1); }
      }
    }
  }

  /** The batch's members that run are those with the largest id of their group. */
  lemma RunsHaveLargestIds(due: seq<DueTask>, i: nat)
    requires i < |due| && forall i, j :: 0 <= i < j < |due| ==> due[i].id < due[j].id
    ensures due[i].id in Runs(due, |due|) <==> IsNewest(due, i)
    ensures IsNewest(due, i)
            <==> forall j :: 0 <= j < |due| && due[j].Key() == due[i].Key() ==> due[j].id <= due[i].id
    ensures exists k :: 0 <= k < |due| && due[k].Key() == due[i].Key() && due[k].id in Runs(due, |due|)
  {
    RunsAreTheNewest(due, |due|);
    var k := NewestOfGroup(due, i);
    assert due[k].id in Runs(due, |due|);
    if IsNewest(due, i) {
      assert forall j :: 0 <= j < |due| && due[j].Key() == due[i].Key() ==> j <= i;
    } else {
      assert k != i && due[k].id > due[i].id;
    }
  }

  /**
   * A whole batch, said without the loops: of every group exactly one task runs, the one with the largest id;
   * every other due member is retired as done without running; a task that is not due is left alone.
   */
  lemma BatchCollapsesGroups(
      before: Table, after: Table, due: seq<DueTask>, turns: Turns, maxAttempts: int, now: int, limit: nat, i: nat)
    requires IsDue(due, before, now, limit) && Processed(before, after, due, |due|, turns, maxAttempts)
    requires i < |due|
    ensures due[i].id in Runs(due, |due|)
            <==> forall j :: 0 <= j < |due| && due[j].Key() == due[i].Key() ==> due[j].id <= due[i].id
    ensures exists k :: 0 <= k < |due| && due[k].Key() == due[i].Key() && due[k].id in Runs(due, |due|)
    ensures due[i].id !in Runs(due, |due|) && TurnOf(turns, due[i].id).marked
            ==> after[due[i].id] == due[i].task.(status := Done, updatedAt := TurnOf(turns, due[i].id).at)
    ensures forall id :: id in before && !Listed(due, id) ==> id in after && after[id] == before[id]
  {
    RunsHaveLargestIds(due, i);
    RetiredRow(due, |due|, turns, maxAttempts, i);
    forall id | id in before && !Listed(due, id) ensures id in after && after[id] == before[id] {
      if id in RetiredRows(due, |due|, turns, maxAttempts) {
        OnlyListedRetire(due, |due|, turns, maxAttempts, id);
      }
    }
  }

  /**
   * The row of each task that ran in a batch, interrupted or not: what its handler's report says, column by column.
   * A task runs when no later one of the batch shares its group.
   */
  lemma BatchWritesOutcomes(
      before: Table, after: Table, due: seq<DueTask>, upTo: nat, turns: Turns, maxAttempts: int, i: nat)
    requires upTo <= |due| && InTable(due, before) && Processed(before, after, due, upTo, turns, maxAttempts)
    requires i < upTo && IsNewest(due, i)
    ensures due[i].id in after
    ensures var turn := TurnOf(turns, due[i].id);
      if turn.marked
      then Outcome(before[due[i].id], after[due[i].id], due[i].task.attempts, turn.result, maxAttempts, turn.at)
      else after[due[i].id] == before[due[i].id]
  {
    hide Settle, Outcome, IsNewest;
    var turn := TurnOf(turns, due[i].id);
    RetiredRow(due, upTo, turns, maxAttempts, i);
    SettleHasOutcome(due[i].task, due[i].task, turn.result, maxAttempts, turn.at);
  }

  /** A task without a chronometric id runs unless a newer one of its kind uses its id as chronometric id. */
  lemma UngroupedTasksRun(due: seq<DueTask>, i: nat)
    requires i < |due| && due[i].task.chronometric.None?
    requires forall i, j :: 0 <= i < j < |due| ==> due[i].id < due[j].id
    ensures due[i].id in Runs(due, |due|)
            <==> !exists j :: i < j < |due| && due[j].task.kind == due[i].task.kind
                              && due[j].task.chronometric == Some(due[i].id)
  {
    RunsHaveLargestIds(due, i);
    forall j | i < j < |due|
      ensures due[j].Key() == due[i].Key()
              <==> due[j].task.kind == due[i].task.kind && due[j].task.chronometric == Some(due[i].id) {}
  }

  // ---- The queue drains ----

  /** How many more turns a task can take; a row scanned beyond the limit still gets one. */
  function TurnsLeft(t: Task, maxAttempts: int): nat {
    if t.status != Pending then 0 else if t.attempts < maxAttempts then maxAttempts - t.attempts else 1
  }

  ghost function Load(tasks: Table, maxAttempts: int): nat
    decreases |tasks|
  {
    if tasks == map[] then 0
    else
      var id := Any(tasks);
      TurnsLeft(tasks[id], maxAttempts) + Load(tasks - {id}, maxAttempts)
  }

  ghost function Any(tasks: Table): (id: nat)
    requires tasks != map[]
    ensures id in tasks
  {
    assert exists id :: id in tasks;
    var id :| id in tasks;
    id
  }

  lemma {:induction false} LoadSplit(tasks: Table, id: nat, maxAttempts: int)
    requires id in tasks
    ensures Load(tasks, maxAttempts) == TurnsLeft(tasks[id], maxAttempts) + Load(tasks - {id}, maxAttempts)
    decreases |tasks|
  {
    var first := Any(tasks);
    if first != id {
      LoadSplit(tasks - {first}, id, maxAttempts);
      LoadSplit(tasks - {id}, first, maxAttempts);
      assert tasks - {first} - {id} == tasks - {id} - {first};
    }
  }

  /** A table no row of which has more turns left than before has no larger load. */
  lemma {:induction false} LoadCompare(before: Table, after: Table, maxAttempts: int)
    requires before.Keys == after.Keys
    requires forall id :: id in before ==> TurnsLeft(after[id], maxAttempts) <= TurnsLeft(before[id], maxAttempts)
    ensures Load(after, maxAttempts) <= Load(before, maxAttempts)
    decreases |before|
  {
    if before == map[] {
      assert after == map[];
    } else {
      var id := Any(before);
      LoadSplit(before, id, maxAttempts);
      LoadSplit(after, id, maxAttempts);
      LoadCompare(before - {id}, after - {id}, maxAttempts);
    }
  }

  lemma LoadDrops(before: Table, after: Table, maxAttempts: int, id: nat)
    requires before.Keys == after.Keys && id in before
    requires forall id :: id in before ==> TurnsLeft(after[id], maxAttempts) <= TurnsLeft(before[id], maxAttempts)
    requires TurnsLeft(after[id], maxAttempts) < TurnsLeft(before[id], maxAttempts)
    ensures Load(after, maxAttempts) < Load(before, maxAttempts)
  {
    LoadSplit(before, id, maxAttempts);
    LoadSplit(after, id, maxAttempts);
    LoadCompare(before - {id}, after - {id}, maxAttempts);
  }

  predicate AllRetired(tasks: Table) { forall id :: id in tasks ==> tasks[id].status in {Done, Failed} }

  lemma NoLoadNoPending(tasks: Table, maxAttempts: int)
    requires Load(tasks, maxAttempts) == 0
    ensures AllRetired(tasks)
  {
    forall id | id in tasks ensures tasks[id].status in {Done, Failed} { LoadSplit(tasks, id, maxAttempts); }
  }

  /** A batch that ran to its end, whose marks all took, and whose handlers enqueued nothing. */
  ghost predicate FullBatch(
      before: Table, after: Table, due: seq<DueTask>, turns: Turns, maxAttempts: int, now: int, limit: nat)
  {
    && IsDue(due, before, now, limit)
    && Processed(before, after, due, |due|, turns, maxAttempts)
    && (forall i :: 0 <= i < |due| ==> TurnOf(turns, due[i].id).marked)
    && after.Keys == before.Keys
  }

  lemma RetiredLosesATurn(due: seq<DueTask>, i: nat, turn: Turn, maxAttempts: int)
    requires i < |due| && due[i].task.status == Pending && turn.marked
    ensures TurnsLeft(Retired(due, i, turn, maxAttempts), maxAttempts) < TurnsLeft(due[i].task, maxAttempts)
  {
  }

  /** Every batch with something due strictly lowers the load, whatever the handlers report. */
  lemma BatchLowersLoad(
      before: Table, after: Table, due: seq<DueTask>, turns: Turns, maxAttempts: int, now: int, limit: nat)
    requires FullBatch(before, after, due, turns, maxAttempts, now, limit)
    ensures Load(after, maxAttempts) <= Load(before, maxAttempts)
    ensures due != [] ==> Load(after, maxAttempts) < Load(before, maxAttempts)
  {
    forall id | id in before ensures TurnsLeft(after[id], maxAttempts) <= TurnsLeft(before[id], maxAttempts) {
      if id in RetiredRows(due, |due|, turns, maxAttempts) {
        OnlyListedRetire(due, |due|, turns, maxAttempts, id);
        var i :| 0 <= i < |due| && due[i].id == id;
        RetiredRow(due, |due|, turns, maxAttempts, i);
        RetiredLosesATurn(due, i, TurnOf(turns, id), maxAttempts);
      }
    }
    LoadCompare(before, after, maxAttempts);
    if due != [] {
      RetiredRow(due, |due|, turns, maxAttempts, 0);
      RetiredLosesATurn(due, 0, TurnOf(turns, due[0].id), maxAttempts);
      LoadDrops(before, after, maxAttempts, due[0].id);
    }
  }

  /** No task's next try is later than this. */
  ghost function Latest(tasks: Table): (t: int)
    ensures forall id :: id in tasks ==> tasks[id].nextTry <= t
    decreases |tasks|
  {
    if tasks == map[] then 0
    else
      var id := Any(tasks);
      var rest := Latest(tasks - {id});
      assert forall x :: x in tasks && x != id ==> x in tasks - {id};
      if tasks[id].nextTry > rest then tasks[id].nextTry else rest
  }

  /** A full tick with work lowers the load and leaves terminal rows alone; one without work changes nothing. */
  lemma TickProgress(
      before: Table, after: Table, due: seq<DueTask>, turns: Turns, maxAttempts: int, now: int, limit: nat)
    requires FullBatch(before, after, due, turns, maxAttempts, now, limit) && limit > 0
    ensures due != [] ==> Load(after, maxAttempts) < Load(before, maxAttempts)
    ensures due == [] ==> after == before && (AllRetired(before) || now < Latest(before))
    ensures forall id :: id in before && before[id].status != Pending ==> after[id] == before[id]
  {
    BatchLowersLoad(before, after, due, turns, maxAttempts, now, limit);
    forall id | id in before && before[id].status != Pending ensures after[id] == before[id] {
      if id in RetiredRows(due, |due|, turns, maxAttempts) {
        OnlyListedRetire(due, |due|, turns, maxAttempts, id);
      }
    }
    if due == [] && !AllRetired(before) {
      var id :| id in before && before[id].status == Pending;
      assert Ready(before[id], now) ==> Listed(due, id);
    }
  }

  /** One tick of a drain: the clock has reached every pending task's next try. */
  ghost predicate DrainStep(before: Table, after: Table, maxAttempts: int, limit: nat) {
    exists due, turns, now ::
      && FullBatch(before, after, due, turns, maxAttempts, now, limit)
      && forall id :: id in before && before[id].status == Pending ==> before[id].nextTry <= now
  }

  lemma DrainStepLowers(before: Table, after: Table, maxAttempts: int, limit: nat)
    requires DrainStep(before, after, maxAttempts, limit) && limit > 0
    ensures Load(before, maxAttempts) == 0 ==> Load(after, maxAttempts) == 0
    ensures Load(before, maxAttempts) > 0 ==> Load(after, maxAttempts) < Load(before, maxAttempts)
  {
    var due, turns, now :|
      && FullBatch(before, after, due, turns, maxAttempts, now, limit)
      && forall id :: id in before && before[id].status == Pending ==> before[id].nextTry <= now;
    BatchLowersLoad(before, after, due, turns, maxAttempts, now, limit);
    if due == [] && Load(before, maxAttempts) > 0 {
      SomePending(before, maxAttempts);
      assert false;
    }
  }

  lemma {:induction false} SomePending(tasks: Table, maxAttempts: int)
    requires Load(tasks, maxAttempts) > 0
    ensures exists id :: id in tasks && tasks[id].status == Pending
    decreases |tasks|
  {
    var id := Any(tasks);
    if tasks[id].status != Pending { SomePending(tasks - {id}, maxAttempts); }
  }

  /** After as many ticks as the first table's load, every task is done or failed. */
  lemma QueueDrains(run: seq<Table>, maxAttempts: int, limit: nat)
    requires limit > 0 && run != [] && |run| > Load(run[0], maxAttempts)
    requires forall i :: 0 <= i < |run| - 1 ==> DrainStep(run[i], run[i + 1], maxAttempts, limit)
    ensures AllRetired(run[|run| - 1])
  {
    DrainCountdown(run, |run| - 1, maxAttempts, limit);
    NoLoadNoPending(run[|run| - 1], maxAttempts);
  }

  lemma {:induction false} DrainCountdown(run: seq<Table>, k: nat, maxAttempts: int, limit: nat)
    requires limit > 0 && k < |run|
    requires forall i :: 0 <= i < |run| - 1 ==> DrainStep(run[i], run[i + 1], maxAttempts, limit)
    ensures Load(run[k], maxAttempts) <= if k < Load(run[0], maxAttempts) then Load(run[0], maxAttempts) - k else 0
  {
    if k > 0 {
      DrainCountdown(run, k - 1, maxAttempts, limit);
      DrainStepLowers(run[k - 1], run[k], maxAttempts, limit);
    }
  }
}
