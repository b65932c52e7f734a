/** Every step of the protocol keeps its invariant, and what that means for every run. */
module ProtocolSafety {
  import opened Prelude
  import opened Contracts
  import opened Ledger
  import opened Outbox
  import opened Transactions
  import opened Payouts
  import opened Protocol

  // ---- Steps that only move the worker ----

  lemma MoveKeeps(s: State, phase: Phase)
    requires Inv(s) && AtTask(s) && PhaseOk(s.w, RunTask(s).task, phase)
    ensures Inv(Move(s, s.w, phase))
  {
    hide PhaseOk, WorldOk, Untouched;
  }

  /** The task at hand is in the table, and its contract is there. */
  lemma TaskAtHand(s: State)
    requires Inv(s) && AtTask(s)
    ensures Untouched(s.w.db.tasks, RunTask(s)) && TaskOk(s.w.db, RunTask(s).task)
    ensures ContractOk(s.w, RunContract(s))
  {
    hide PhaseOk, ContractOk, GivenUp, InOrder, ReportOk;
    assert Untouched(s.w.db.tasks, RunTask(s));
    assert TaskOk(s.w.db, s.w.db.tasks[RunTask(s).id]);
  }

  lemma RunningPhase(s: State)
    requires Inv(s) && Running(s)
    ensures PhaseOk(s.w, RunTask(s).task, RunPhase(s))
  {
    hide PhaseOk, WorldOk;
  }

  lemma LoadedOk(w: World, task: Task)
    requires TaskOk(w.db, task) && ContractOk(w, task.contract)
    ensures PhaseOk(w, task, Loaded(w.db.contracts[task.contract]))
  {
    hide AllOwed, Sound;
  }

  lemma BeginPhaseOk(w: World, task: Task)
    requires TaskOk(w.db, task) && ContractOk(w, task.contract)
    ensures task.contract in w.db.contracts
    ensures PhaseOk(w, task, Loaded(w.db.contracts[task.contract])) && PhaseOk(w, task, Finished(Unhandled))
  {
    hide PhaseOk, ContractOk;
    LoadedOk(w, task);
    EndedOk(w, task, Unhandled);
  }

  lemma BeginKeeps(s: State, handled: bool)
    requires Inv(s) && LoopEnabled(s, Begin(handled))
    ensures Inv(NextLoop(s, Begin(handled)))
  {
    hide Inv, ContractOk, TaskOk, Untouched, PhaseOk, IsNewest;
    TaskAtHand(s);
    BeginPhaseOk(s.w, RunTask(s).task);
    MoveKeeps(s, if handled then Loaded(s.w.db.contracts[RunContract(s)]) else Finished(Unhandled));
    MissingAside(NextLoop(s, Begin(handled)), s.w.missing);
  }

  /** The record of missing posts is no part of what the worker relies on. */
  lemma MissingAside(s: State, missing: map<nat, Option<nat>>)
    requires Inv(s.(w := s.w.(missing := missing)))
    ensures Inv(s)
  {
    if s.worker.Busy? && s.worker.run.Some? {
      PhaseAside(s.w, s.worker.due[s.worker.i].task, s.worker.run.value, missing);
    }
    hide WorldOk, PhaseOk, Untouched;
    WorldAside(s.w, missing);
  }

  lemma WorldAside(w: World, missing: map<nat, Option<nat>>)
    requires WorldOk(w.(missing := missing))
    ensures WorldOk(w)
  {
    hide Keyed, TasksOk, ReportOk, Sound, PayoutsOk, AllOwed;
    forall cid | cid in w.db.contracts ensures ContractOk(w, cid) { assert ContractOk(w.(missing := missing), cid); }
    TasksAside(w, missing);
  }

  lemma TasksAside(w: World, missing: map<nat, Option<nat>>)
    requires TasksOk(w.(missing := missing))
    ensures TasksOk(w)
  {
  }

  lemma PhaseAside(w: World, task: Task, phase: Phase, missing: map<nat, Option<nat>>)
    requires PhaseOk(w.(missing := missing), task, phase)
    ensures PhaseOk(w, task, phase)
  {
    hide Owed, Served, NobodysThread, Sound;
  }

  lemma EndedOk(w: World, task: Task, result: HandlerResult)
    requires task.contract in w.db.contracts && result != Success
    ensures PhaseOk(w, task, Finished(result))
  {
  }

  lemma FailKeeps(s: State, permanent: bool)
    requires Inv(s) && Running(s)
    ensures Inv(Move(s, s.w, Finished(if permanent then Permanent else Transient)))
  {
    TaskAtHand(s);
    hide Inv, PhaseOk, ContractOk;
    EndedOk(s.w, RunTask(s).task, if permanent then Permanent else Transient);
    MoveKeeps(s, Finished(if permanent then Permanent else Transient));
  }

  /** Returning early is safe: what the handler read still settles what its task was for. */
  lemma ReturnOk(w: World, task: Task, phase: Phase)
    requires PhaseOk(w, task, phase) && Return(task, phase).Some?
    ensures PhaseOk(w, task, Finished(Return(task, phase).value))
  {
    if phase.Loaded? && Return(task, phase) == Some(Success) { LoadedServes(w, task, phase.prog); }
  }

  lemma LoadedServes(w: World, task: Task, prog: Contract)
    requires PhaseOk(w, task, Loaded(prog)) && Return(task, Loaded(prog)) == Some(Success)
    ensures Served(w.posts, w.db.contracts[task.contract], task)
    ensures task.kind == PayoutReport ==> w.db.contracts[task.contract].payouts != []
  {
    hide Owed, Rewarded;
  }

  lemma ReturnKeeps(s: State)
    requires Inv(s) && LoopEnabled(s, ReturnEarly)
    ensures Inv(NextLoop(s, ReturnEarly))
  {
    RunningPhase(s);
    hide Inv, PhaseOk, Return;
    ReturnOk(s.w, RunTask(s).task, RunPhase(s));
    MoveKeeps(s, Finished(Return(RunTask(s).task, RunPhase(s)).value));
  }

  lemma ScanKeeps(s: State, due: seq<DueTask>, now: int, limit: nat)
    requires Inv(s) && IsDue(due, s.w.db.tasks, now, limit)
    ensures Inv(s.(worker := Busy(due, 0, None, {})))
  {
    hide WorldOk, PhaseOk;
    forall j | 0 <= j < |due| ensures Untouched(s.w.db.tasks, due[j]) {
      assert Ready(due[j].task, now);
    }
  }

  // ---- Appending tasks ----

  lemma OwedGrows(tasks: Table, tasks': Table, abandoned: Table, cid: nat, need: Need)
    requires forall id :: id in tasks ==> id in tasks' && tasks'[id] == tasks[id]
    requires Owed(tasks, abandoned, cid, need)
    ensures Owed(tasks', abandoned, cid, need)
  {
    if id :| IsPending(tasks, id, cid, need) {
      assert IsPending(tasks', id, cid, need);
    }
  }

  lemma AllOwedGrows(
      tasks: Table, tasks': Table, abandoned: Table, since: Epochs, posts: map<nat, nat>, cid: nat, c: Contract)
    requires forall id :: id in tasks ==> id in tasks' && tasks'[id] == tasks[id]
    requires AllOwed(tasks, abandoned, since, posts, cid, c)
    ensures AllOwed(tasks', abandoned, since, posts, cid, c)
  {
    forall need: Need | Wants(since, posts, cid, c, need) ensures Owed(tasks', abandoned, cid, need) {
      OwedGrows(tasks, tasks', abandoned, cid, need);
    }
  }

  lemma AppendedIsOwed(db: Db, db': Db, abandoned: Table, cid: nat, revision: nat, need: Need)
    requires Appended(db, db', cid, revision) && AppendedKind(db, db', need.kind)
    requires need.revision <= revision && need.since <= db.nextId
    ensures Owed(db'.tasks, abandoned, cid, need)
  {
    var id :| id in db'.tasks && id !in db.tasks && db'.tasks[id].kind == need.kind;
    assert IsPending(db'.tasks, id, cid, need);
  }

  /** The task table after rows were appended for a contract at its new revision. */
  lemma AppendedTasksOk(w: World, db': Db, cid: nat)
    requires Keyed(w.db) && TasksOk(w) && cid in db'.contracts
    requires Appended(w.db, db', cid, db'.contracts[cid].revision)
    requires forall x :: x in w.db.contracts ==>
               x in db'.contracts && db'.contracts[x].revision >= w.db.contracts[x].revision
    ensures TasksOk(w.(db := db'))
  {
    forall id | id in db'.tasks ensures TaskOk(db', db'.tasks[id]) {
      if id in w.db.tasks {
        assert TaskOk(w.db, w.db.tasks[id]);
      } else {
        assert TaskFor(db'.tasks[id], cid, db'.contracts[cid].revision);
      }
    }
    forall a, b ensures InOrder(db'.tasks, a, b) {
      if a in w.db.tasks && b in w.db.tasks {
        assert InOrder(w.db.tasks, a, b);
      } else if a in db'.tasks && b in db'.tasks {
        if a in w.db.tasks { assert TaskOk(w.db, w.db.tasks[a]); }
      }
    }
    forall id | id in w.abandoned ensures GivenUp(db', id) {
      assert GivenUp(w.db, id);
    }
  }

  // ---- Domain transactions ----

  lemma WasSplitKept(c: Contract, c': Contract)
    requires c.credits.Some? && c.payoutDecimals.Some? && WasSplit(c)
    requires SameAccount(c, c') && c'.payouts == c.payouts && c'.payoutDecimals == c.payoutDecimals
    ensures WasSplit(c')
  {
    hide IsSplit, PayoutItems, Bare;
  }

  lemma PayoutsKept(c: Contract, c': Contract)
    requires PayoutsOk(c) && DomainChange(c, c')
    ensures PayoutsOk(c')
  {
    hide WasSplit, Sound;
    if c.payouts != [] { WasSplitKept(c, c'); }
  }

  lemma EpochBelow(w: World, cid: nat, kind: Kind)
    requires WorldOk(w)
    ensures Epoch(w.since, cid, kind) <= w.db.nextId
  {
    hide Keyed, TasksOk, ContractOk, ReportOk;
  }

  /** What a transaction makes its contract want, the tasks it appended are for. */
  lemma DomainOwed(w: World, db': Db, cid: nat)
    requires DomainStep(w.db, db', cid)
    requires AllOwed(w.db.tasks, w.abandoned, w.since, w.posts, cid, w.db.contracts[cid])
    requires forall kind :: Epoch(w.since, cid, kind) <= w.db.nextId
    ensures AllOwed(db'.tasks, w.abandoned, w.since, w.posts, cid, db'.contracts[cid])
  {
    hide Sound;
    var c, c' := w.db.contracts[cid], db'.contracts[cid];
    forall need: Need | Wants(w.since, w.posts, cid, c', need) ensures Owed(db'.tasks, w.abandoned, cid, need) {
      if Lacks(w.posts, c, need.kind, need.revision) {
        assert Wants(w.since, w.posts, cid, c, need);
        OwedGrows(w.db.tasks, db'.tasks, w.abandoned, cid, need);
      } else {
        AppendedIsOwed(w.db, db', w.abandoned, cid, c'.revision, need);
      }
    }
  }

  lemma DomainContractOk(w: World, db': Db, cid: nat, x: nat)
    requires WorldOk(w) && DomainStep(w.db, db', cid) && x in db'.contracts
    ensures ContractOk(w.(db := db'), x)
  {
    var c, c' := w.db.contracts[x], db'.contracts[x];
    assert ContractOk(w, x);
    forall kind ensures Epoch(w.since, cid, kind) <= w.db.nextId { EpochBelow(w, cid, kind); }
    hide Sound, PayoutsOk, AllOwed, TasksOk, Keyed, ReportOk;
    if x == cid {
      PayoutsKept(c, c');
      DomainOwed(w, db', cid);
    } else {
      AllOwedGrows(w.db.tasks, db'.tasks, w.abandoned, w.since, w.posts, x, c);
    }
  }

  lemma DomainReportOk(db: Db, db': Db, cid: nat, r: Rendering)
    requires DomainStep(db, db', cid) && ReportOk(db, r) && PayoutsOk(db.contracts[r.contract])
    ensures ReportOk(db', r)
  {
    hide Sound, WasSplit, Appended, FiguresOf, HasItem;
  }

  lemma DomainWorldOk(w: World, db': Db, cid: nat)
    requires WorldOk(w) && DomainStep(w.db, db', cid)
    ensures WorldOk(w.(db := db'))
  {
    hide Keyed, TasksOk, ContractOk, ReportOk, DomainStep, Appended;
    DomainStepKeepsKeys(w.db, db', cid);
    DomainGrows(w.db, db', cid);
    AppendedTasksOk(w, db', cid);
    forall x | x in db'.contracts ensures ContractOk(w.(db := db'), x) {
      DomainContractOk(w, db', cid, x);
    }
    forall k | 0 <= k < |w.reports| ensures ReportOk(db', w.reports[k]) { DomainReportKept(w, db', cid, k); }
  }

  lemma DomainGrows(db: Db, db': Db, cid: nat)
    requires DomainStep(db, db', cid)
    ensures cid in db'.contracts && Appended(db, db', cid, db'.contracts[cid].revision) && db'.nextId >= db.nextId
    ensures db'.contracts.Keys == db.contracts.Keys
    ensures forall x :: x in db.contracts ==> db'.contracts[x].revision >= db.contracts[x].revision
    ensures forall x :: x in db.contracts && db.contracts[x].thread.Some?
              ==> db'.contracts[x].thread == db.contracts[x].thread
  {
    hide Sound, HasItem, TaskFor, AppendedKind;
  }

  lemma DomainReportKept(w: World, db': Db, cid: nat, k: nat)
    requires WorldOk(w) && DomainStep(w.db, db', cid) && k < |w.reports|
    ensures ReportOk(db', w.reports[k])
  {
    assert ReportOk(w.db, w.reports[k]);
    assert ContractOk(w, w.reports[k].contract);
    hide DomainStep, PayoutsOk, AllOwed;
    DomainReportOk(w.db, db', cid, w.reports[k]);
  }

  lemma DomainSnapshotOk(w: World, db': Db, cid: nat, task: Task, prog: Contract)
    requires WorldOk(w) && DomainStep(w.db, db', cid) && SnapshotOk(w, task, prog)
    ensures SnapshotOk(w.(db := db'), task, prog)
  {
    var x := task.contract;
    var c, c' := w.db.contracts[x], db'.contracts[x];
    hide WorldOk, Sound, Owed, HasItem;
    EpochBelow(w, x, UpdateKind(c'));
    if prog.revision < c'.revision {
      if c'.revision > c.revision {
        AppendedIsOwed(w.db, db', w.abandoned, cid, c'.revision, UpdateNeed(w.since, x, c'));
      } else {
        OwedGrows(w.db.tasks, db'.tasks, w.abandoned, x, UpdateNeed(w.since, x, c));
      }
    }
  }

  /** A transaction after the handler succeeded asks for nothing the finished task could have served. */
  lemma DomainServed(w: World, db': Db, cid: nat, task: Task)
    requires DomainStep(w.db, db', cid) && task.contract in w.db.contracts
    requires task.revision <= w.db.contracts[task.contract].revision
    requires Served(w.posts, w.db.contracts[task.contract], task)
    requires task.kind == PayoutReport ==> w.db.contracts[task.contract].payouts != []
    ensures Served(w.posts, db'.contracts[task.contract], task)
  {
    hide Sound, Appended;
    var c, c' := w.db.contracts[task.contract], db'.contracts[task.contract];
    forall need: Need | Lacks(w.posts, c', need.kind, need.revision) ensures !Meets(task, task.contract, need) {
      assert Lacks(w.posts, c, need.kind, need.revision) || need.revision > c.revision || need.kind == PayoutReport;
    }
  }

  /** A transaction between two steps of a handler leaves it everything it still relies on. */
  lemma DomainPhaseOk(w: World, db': Db, cid: nat, task: Task, phase: Phase)
    requires WorldOk(w) && DomainStep(w.db, db', cid) && PhaseOk(w, task, phase)
    requires task.revision <= w.db.contracts[task.contract].revision
    ensures PhaseOk(w.(db := db'), task, phase)
  {
    hide WorldOk, SnapshotOk, Served, NobodysThread, Appended, Sound, HasItem;
    if phase.HasProg() { DomainSnapshotOk(w, db', cid, task, phase.prog); }
    if phase.Finished? && phase.result == Success { DomainServed(w, db', cid, task); }
    if phase.Posted? { DomainNobodysThread(w.db, db', cid, phase.thread); }
  }

  lemma DomainNobodysThread(db: Db, db': Db, cid: nat, thread: nat)
    requires DomainStep(db, db', cid) && NobodysThread(db, thread)
    ensures NobodysThread(db', thread)
  {
    hide Appended, Sound;
    forall x | x in db'.contracts ensures db'.contracts[x].thread != Some(thread) {
      assert db'.contracts[x].thread == db.contracts[x].thread;
    }
  }

  /** What the worker relies on in a world: its scan's rows, and its running handler's phase. */
  lemma WorkerKept(s: State, w': World)
    requires Inv(s) && (forall id :: id in s.w.db.tasks && s.w.db.tasks[id].status == Pending ==>
                          id in w'.db.tasks && w'.db.tasks[id] == s.w.db.tasks[id])
    requires Running(s) ==> PhaseOk(w', RunTask(s).task, RunPhase(s))
    ensures WorkerOk(w', s.worker)
  {
    hide WorldOk, PhaseOk;
    if s.worker.Busy? {
      forall j | s.worker.i <= j < |s.worker.due| ensures Untouched(w'.db.tasks, s.worker.due[j]) {
        assert Untouched(s.w.db.tasks, s.worker.due[j]);
      }
    }
  }

  lemma DomainKeeps(s: State, db': Db, cid: nat)
    requires Inv(s) && DomainStep(s.w.db, db', cid)
    ensures Inv(s.(w := s.w.(db := db')))
  {
    DomainWorldOk(s.w, db', cid);
    if Running(s) {
      RunningPhase(s);
      TaskAtHand(s);
      DomainPhaseOk(s.w, db', cid, RunTask(s).task, RunPhase(s));
    }
    hide WorldOk, PhaseOk, WorkerOk, ContractOk;
    WorkerKept(s, s.w.(db := db'));
  }

  lemma ActionIsDomainStep(db: Db, a: Action, now: int, postVersion: nat)
    requires Keyed(db) && !a.CreateContract? && (a.EditContract? ==> a.e.Entered())
    requires a.cid in db.contracts && Sound(db.contracts[a.cid])
    ensures Perform(db, a, now, postVersion) == db || DomainStep(db, Perform(db, a, now, postVersion), a.cid)
  {
    hide DomainStep, Keyed, Sound, EditTx, CancelTx, ExpireTx, NotifyTx, Enqueued, Appended, MarkPaidTx;
    match a {
      case EditContract(cid, e) => if EditTx(db, cid, e, now).Ok? { EditTxIsDomainStep(db, cid, e, now); }
      case CancelContract(cid) => if CancelTx(db, cid, now).Ok? { CancelIsDomainStep(db, cid, now); }
      case ExpireContract(cid) => ExpireIsDomainStep(db, cid, now);
      case NotifyContract(cid) => NotifyIsDomainStep(db, cid, now);
      case Republish(cid) => EnqueueIsDomainStep(db, RepairKind(db.contracts[cid]), cid, false, now);
      case Reprint(cid) => EnqueueIsDomainStep(db, PayoutReport, cid, true, now);
      case MarkPaid(cid, actor) => MarkPaidIsDomainStep(db, cid, actor);
      case CreateContract(_) =>
    }
  }

  // ---- A new contract ----

  lemma NewContractOwed(w: World, db': Db, id: nat)
    requires Appended(w.db, db', id, 0) && AppendedKind(w.db, db', CreateThread) && id in db'.contracts
    requires var c := db'.contracts[id]; c.thread.None? && c.status == Open
    requires Epoch(w.since, id, CreateThread) <= w.db.nextId
    ensures AllOwed(db'.tasks, w.abandoned, w.since, w.posts, id, db'.contracts[id])
  {
    forall need: Need | Wants(w.since, w.posts, id, db'.contracts[id], need)
      ensures Owed(db'.tasks, w.abandoned, id, need)
    {
      AppendedIsOwed(w.db, db', w.abandoned, id, 0, need);
    }
  }

  lemma CreatedContractOk(w: World, db': Db, id: nat, x: nat)
    requires WorldOk(w) && id !in w.db.contracts && id in db'.contracts && x in db'.contracts
    requires db'.contracts == w.db.contracts[id := db'.contracts[id]]
    requires Appended(w.db, db', id, 0) && AppendedKind(w.db, db', CreateThread)
    requires var c := db'.contracts[id];
      Sound(c) && PayoutsOk(c) && c.thread.None? && c.revision == 0 && c.status == Open
    ensures ContractOk(w.(db := db'), x)
  {
    EpochBelow(w, id, CreateThread);
    assert x != id ==> ContractOk(w, x);
    hide WorldOk, Sound, PayoutsOk, AllOwed, AppendedKind;
    if x == id {
      NewContractOwed(w, db', id);
    } else {
      AllOwedGrows(w.db.tasks, db'.tasks, w.abandoned, w.since, w.posts, x, w.db.contracts[x]);
    }
  }

  lemma CreateKeeps(s: State, input: CreateInput, now: int)
    requires Inv(s) && CreateTx(s.w.db, input, now, s.w.postVersion).Ok?
    ensures Inv(s.(w := s.w.(db := CreateTx(s.w.db, input, now, s.w.postVersion).value)))
  {
    var w := s.w;
    var id, db' := w.db.nextId, CreateTx(w.db, input, now, w.postVersion).value;
    CreateTxIsSound(w.db, input, now, w.postVersion);
    CreatedRow(input, id + 1, w.postVersion);
    hide CreateTx, Create, Keyed, Appended, AppendedKind, HasItem, Sound, PhaseOk;
    CreatedWorldOk(w, db', id);
    CreatedWorkerOk(s, db', id);
  }

  lemma CreatedWorldOk(w: World, db': Db, id: nat)
    requires WorldOk(w) && Keyed(db') && id !in w.db.contracts && id in db'.contracts
    requires db'.contracts == w.db.contracts[id := db'.contracts[id]]
    requires Appended(w.db, db', id, 0) && AppendedKind(w.db, db', CreateThread)
    requires var c := db'.contracts[id];
      && Sound(c) && c.thread.None? && c.revision == 0 && c.status == Open
      && c.payouts == [] && c.payoutDecimals.None? && !c.posted && c.report.None?
    ensures WorldOk(w.(db := db'))
  {
    hide Sound, Keyed, TasksOk, ContractOk, Appended, AppendedKind, ReportOk;
    NextIdGrows(w.db, db', id);
    AppendedTasksOk(w, db', id);
    forall x | x in db'.contracts ensures ContractOk(w.(db := db'), x) { CreatedContractOk(w, db', id, x); }
    forall k | 0 <= k < |w.reports| ensures ReportOk(db', w.reports[k]) {
      CreatedReportOk(w.db, db', id, w.reports[k]);
    }
  }

  lemma CreatedReportOk(db: Db, db': Db, id: nat, r: Rendering)
    requires ReportOk(db, r) && id !in db.contracts && id in db'.contracts
    requires db'.contracts == db.contracts[id := db'.contracts[id]]
    ensures ReportOk(db', r)
  {
    hide FiguresOf;
  }

  lemma NextIdGrows(db: Db, db': Db, cid: nat)
    requires Appended(db, db', cid, 0)
    ensures db'.nextId >= db.nextId
  {
  }

  lemma CreatedWorkerOk(s: State, db': Db, id: nat)
    requires Inv(s) && id !in s.w.db.contracts && id in db'.contracts
    requires db'.contracts == s.w.db.contracts[id := db'.contracts[id]] && db'.contracts[id].thread.None?
    requires Appended(s.w.db, db', id, 0)
    ensures WorkerOk(s.w.(db := db'), s.worker)
  {
    hide WorldOk;
    if Running(s) {
      RunningPhase(s);
      CreatedPhaseOk(s.w, db', id, RunTask(s).task, RunPhase(s));
    }
    hide PhaseOk, WorkerOk;
    WorkerKept(s, s.w.(db := db'));
  }

  lemma CreatedPhaseOk(w: World, db': Db, id: nat, task: Task, phase: Phase)
    requires PhaseOk(w, task, phase) && id !in w.db.contracts && id in db'.contracts
    requires db'.contracts == w.db.contracts[id := db'.contracts[id]] && db'.contracts[id].thread.None?
    requires Appended(w.db, db', id, 0)
    ensures PhaseOk(w.(db := db'), task, phase)
  {
    var c := w.db.contracts[task.contract];
    if Owed(w.db.tasks, w.abandoned, task.contract, UpdateNeed(w.since, task.contract, c)) {
      OwedGrows(w.db.tasks, db'.tasks, w.abandoned, task.contract, UpdateNeed(w.since, task.contract, c));
    }
    hide Owed, Served, Sound;
  }

  // ---- A new epoch ----

  /** Starting a contract's epoch at a pending task of its kind and revision loses nothing it is owed. */
  lemma EpochOwed(w: World, cid: nat, kind: Kind, id: nat, x: nat)
    requires cid in w.db.contracts && x in w.db.contracts
    requires IsPending(w.db.tasks, id, cid, Need(kind, w.db.contracts[cid].revision, id))
    requires AllOwed(w.db.tasks, w.abandoned, w.since, w.posts, x, w.db.contracts[x])
    ensures AllOwed(w.db.tasks, w.abandoned, w.since[(cid, kind) := id], w.posts, x, w.db.contracts[x])
  {
    var since' := w.since[(cid, kind) := id];
    forall need: Need | Wants(since', w.posts, x, w.db.contracts[x], need)
      ensures Owed(w.db.tasks, w.abandoned, x, need)
    {
      if x == cid && need.kind == kind {
        assert IsPending(w.db.tasks, id, cid, need);
      } else {
        assert Wants(w.since, w.posts, x, w.db.contracts[x], need);
      }
    }
  }

  lemma EpochWorldOk(w: World, cid: nat, kind: Kind, id: nat)
    requires WorldOk(w) && cid in w.db.contracts && id < w.db.nextId
    requires IsPending(w.db.tasks, id, cid, Need(kind, w.db.contracts[cid].revision, id))
    ensures WorldOk(w.(since := w.since[(cid, kind) := id]))
  {
    hide Keyed, TaskOk, InOrder, GivenUp, ReportOk, Sound, PayoutsOk, AllOwed;
    var w' := w.(since := w.since[(cid, kind) := id]);
    forall x | x in w.db.contracts ensures ContractOk(w', x) {
      assert ContractOk(w, x);
      EpochOwed(w, cid, kind, id, x);
    }
  }

  lemma EpochPhaseOk(w: World, cid: nat, kind: Kind, id: nat, task: Task, phase: Phase)
    requires PhaseOk(w, task, phase) && cid in w.db.contracts
    requires IsPending(w.db.tasks, id, cid, Need(kind, w.db.contracts[cid].revision, id))
    ensures PhaseOk(w.(since := w.since[(cid, kind) := id]), task, phase)
  {
    var c, since' := w.db.contracts[task.contract], w.since[(cid, kind) := id];
    if task.contract == cid && kind == UpdateKind(c) {
      assert IsPending(w.db.tasks, id, cid, UpdateNeed(since', cid, c));
    } else {
      assert UpdateNeed(since', task.contract, c) == UpdateNeed(w.since, task.contract, c);
    }
    hide Served, IsPending, Sound, NobodysThread, UpdateNeed;
  }

  lemma EpochKeeps(s: State, cid: nat, kind: Kind, id: nat)
    requires Inv(s) && cid in s.w.db.contracts && id < s.w.db.nextId
    requires IsPending(s.w.db.tasks, id, cid, Need(kind, s.w.db.contracts[cid].revision, id))
    ensures Inv(s.(w := s.w.(since := s.w.since[(cid, kind) := id])))
  {
    EpochWorldOk(s.w, cid, kind, id);
    if Running(s) {
      RunningPhase(s);
      EpochPhaseOk(s.w, cid, kind, id, RunTask(s).task, RunPhase(s));
    }
    hide WorldOk, PhaseOk, WorkerOk, IsPending;
    WorkerKept(s, s.w.(since := s.w.since[(cid, kind) := id]));
  }

  // ---- People's transactions ----

  lemma PerformKeeps(s: State, a: Action, now: int)
    requires Inv(s) && OutsideEnabled(s, Act(a, now))
    ensures Inv(s.(w := s.w.(db := Perform(s.w.db, a, now, s.w.postVersion))))
  {
    hide WorkerOk, ContractOk, TasksOk, ReportOk, Keyed, DomainStep, CreateTx, EditTx;
    var db' := Perform(s.w.db, a, now, s.w.postVersion);
    if db' == s.w.db {
      assert s.(w := s.w.(db := db')) == s;
    } else if a.CreateContract? {
      CreateKeeps(s, a.input, now);
    } else {
      SoundNow(s.w, a.cid);
      ActionIsDomainStep(s.w.db, a, now, s.w.postVersion);
      DomainKeeps(s, db', a.cid);
    }
  }

  lemma SoundNow(w: World, cid: nat)
    requires WorldOk(w) && cid in w.db.contracts
    ensures Keyed(w.db) && Sound(w.db.contracts[cid])
  {
    assert ContractOk(w, cid);
    hide Keyed, Sound, AllOwed, PayoutsOk;
  }

  lemma ActKeeps(s: State, a: Action, now: int)
    requires Inv(s) && OutsideEnabled(s, Act(a, now))
    ensures Inv(s.(w := Acted(s.w, a, now)))
  {
    hide Inv, Perform, Repaired, Sought, AsksRefresh, LacksPost;
    RepairKeeps(s, a, now);
    var w, w' := Repaired(s.w, a, now), Acted(s.w, a, now);
    assert w'.(missing := w.missing) == w;
    MissingAside(s.(w := w'), w.missing);
  }

  lemma RepairKeeps(s: State, a: Action, now: int)
    requires Inv(s) && OutsideEnabled(s, Act(a, now))
    ensures Inv(s.(w := Repaired(s.w, a, now)))
  {
    hide Inv, CreateTx, EditTx, CancelTx, ExpireTx, NotifyTx, MarkPaidTx;
    PerformKeeps(s, a, now);
    var db, db' := s.w.db, Perform(s.w.db, a, now, s.w.postVersion);
    if a.Republish? && a.cid in db.contracts {
      EpochKeeps(s.(w := s.w.(db := db')), a.cid, RepairKind(db.contracts[a.cid]), db.nextId);
    } else if a.Reprint? && db' != db {
      EpochKeeps(s.(w := s.w.(db := db')), a.cid, PayoutReport, db.nextId);
    }
  }

  // ---- Forum posts ----

  lemma FewerPostsLack(posts: map<nat, nat>, thread: nat, c: Contract)
    ensures forall kind, revision: nat :: Lacks(posts - {thread}, c, kind, revision) ==> Lacks(posts, c, kind, revision)
  {
  }

  lemma FewerPosts(w: World, thread: nat)
    requires WorldOk(w)
    ensures WorldOk(w.(posts := w.posts - {thread}))
  {
    hide Keyed, TaskOk, InOrder, GivenUp, ReportOk, Sound, PayoutsOk, Owed, Lacks;
    var w' := w.(posts := w.posts - {thread});
    forall cid | cid in w.db.contracts ensures ContractOk(w', cid) {
      assert ContractOk(w, cid);
      FewerPostsLack(w.posts, thread, w.db.contracts[cid]);
      assert forall need: Need ::
          Wants(w.since, w'.posts, cid, w.db.contracts[cid], need) ==>
            Wants(w.since, w.posts, cid, w.db.contracts[cid], need);
    }
  }

  lemma FewerPostsPhase(w: World, thread: nat, task: Task, phase: Phase)
    requires PhaseOk(w, task, phase)
    ensures PhaseOk(w.(posts := w.posts - {thread}), task, phase)
  {
    FewerPostsLack(w.posts, thread, w.db.contracts[task.contract]);
    hide Lacks, Owed, NobodysThread;
  }

  lemma DeletePostKeeps(s: State, thread: nat)
    requires Inv(s)
    ensures Inv(Deleted(s, thread))
  {
    hide Inv;
    PostTakenAway(s, thread);
    var s' := s.(w := s.w.(posts := s.w.posts - {thread}));
    TornAside(s', Deleted(s, thread).worker);
    MissingAside(Deleted(s, thread), s.w.missing);
  }

  /** What was deleted under a handler is no part of what the worker relies on. */
  lemma TornAside(s: State, worker: Protocol.Worker)
    requires Inv(s) && (if s.worker.Busy? then worker.Busy? && worker == s.worker.(torn := worker.torn)
                        else worker == s.worker)
    ensures Inv(s.(worker := worker))
  {
    hide WorldOk, PhaseOk, Untouched;
  }

  lemma PostTakenAway(s: State, thread: nat)
    requires Inv(s)
    ensures Inv(s.(w := s.w.(posts := s.w.posts - {thread})))
  {
    FewerPosts(s.w, thread);
    if Running(s) {
      RunningPhase(s);
      FewerPostsPhase(s.w, thread, RunTask(s).task, RunPhase(s));
    }
    hide WorldOk, PhaseOk, WorkerOk;
    WorkerKept(s, s.w.(posts := s.w.posts - {thread}));
  }

  /** Replaces the world under a running handler; the tasks not yet reached are as they were. */
  lemma WorldMoves(s: State, w': World, phase: Phase)
    requires Inv(s) && AtTask(s) && WorldOk(w') && PhaseOk(w', RunTask(s).task, phase)
    requires forall id :: id in s.w.db.tasks ==> id in w'.db.tasks && w'.db.tasks[id] == s.w.db.tasks[id]
    ensures Inv(Move(s, w', phase))
  {
    hide WorldOk, PhaseOk;
    forall j | s.worker.i <= j < |s.worker.due| ensures Untouched(w'.db.tasks, s.worker.due[j]) {
      assert Untouched(s.w.db.tasks, s.worker.due[j]);
    }
  }

  lemma GoneOk(w: World, task: Task)
    requires task.contract in w.db.contracts && (task.kind == Refresh || task.kind == Close)
    ensures PhaseOk(w, task, Gone)
  {
  }

  lemma RemovePostKeeps(s: State)
    requires Inv(s) && Writes(s, true)
    ensures Inv(Move(s, TakenDown(s.w, RunPhase(s).prog.thread.value, RunTask(s).id), Gone))
  {
    hide WorkerOk, WorldOk, PhaseOk, Return, Sought;
    var thread := RunPhase(s).prog.thread.value;
    FewerPosts(s.w, thread);
    GoneOk(s.w.(posts := s.w.posts - {thread}), RunTask(s).task);
    WorldMoves(s, s.w.(posts := s.w.posts - {thread}), Gone);
    MissingAside(Move(s, TakenDown(s.w, thread, RunTask(s).id), Gone), s.w.missing);
  }

  lemma MorePosts(w: World, revision: nat)
    requires WorldOk(w)
    ensures WorldOk(NewPost(w, revision))
  {
    hide Keyed, TaskOk, InOrder, GivenUp, ReportOk, Sound, PayoutsOk, Owed;
    var w' := NewPost(w, revision);
    forall cid | cid in w.db.contracts ensures ContractOk(w', cid) {
      assert ContractOk(w, cid);
      assert forall kind, revision: nat ::
          Lacks(w'.posts, w.db.contracts[cid], kind, revision) ==> Lacks(w.posts, w.db.contracts[cid], kind, revision);
      assert forall need: Need ::
          Wants(w.since, w'.posts, cid, w.db.contracts[cid], need) ==>
            Wants(w.since, w.posts, cid, w.db.contracts[cid], need);
    }
  }

  lemma NewThreadIsNobodys(w: World)
    requires WorldOk(w)
    ensures NobodysThread(w.db, w.nextPost)
  {
    hide Keyed, TasksOk, ReportOk, Sound, PayoutsOk, AllOwed;
    forall cid | cid in w.db.contracts ensures w.db.contracts[cid].thread != Some(w.nextPost) {
      assert ContractOk(w, cid);
    }
  }

  lemma PostedOk(w: World, task: Task, prog: Contract)
    requires PhaseOk(w, task, Loaded(prog)) && task.kind == CreateThread && prog.thread.None?
    requires NobodysThread(w.db, w.nextPost)
    ensures PhaseOk(NewPost(w, prog.revision), task, Posted(prog, w.nextPost))
  {
    hide NobodysThread, Owed;
  }

  lemma ForumPostKeeps(s: State, result: HandlerResult)
    requires Inv(s) && PostEnabled(s, CreateForumPost(result))
    ensures Inv(NextPost(s, CreateForumPost(result)))
  {
    var w, prog, task := s.w, RunPhase(s).prog, RunTask(s).task;
    RunningPhase(s);
    hide WorkerOk, WorldOk, PhaseOk, NewPost;
    MorePosts(w, prog.revision);
    SamePosts(w, prog.revision);
    if result == Success {
      NewThreadIsNobodys(w);
      PostedOk(w, task, prog);
      WorldMoves(s, NewPost(w, prog.revision), Posted(prog, w.nextPost));
    } else {
      EndedOk(NewPost(w, prog.revision), task, result);
      WorldMoves(s, NewPost(w, prog.revision), Finished(result));
    }
  }

  lemma SamePosts(w: World, revision: nat)
    ensures NewPost(w, revision).db == w.db
  {
  }

  /** Writing what the handler read onto the contract's own post. */
  lemma RenderedWorldOk(w: World, task: Task, prog: Contract)
    requires WorldOk(w) && SnapshotOk(w, task, prog) && prog.thread.Some? && prog.thread.value in w.posts
    ensures WorldOk(w.(posts := w.posts[prog.thread.value := prog.revision]))
  {
    hide TaskOk, InOrder, GivenUp, ReportOk, Sound, PayoutsOk, Owed, Lacks;
    var w' := w.(posts := w.posts[prog.thread.value := prog.revision]);
    forall cid | cid in w.db.contracts ensures ContractOk(w', cid) {
      assert ContractOk(w, cid);
      if cid == task.contract {
        RenderedOwed(w, task, prog);
      } else {
        assert !ShareThread(w.db, cid, task.contract);
        OtherPostsLack(w.posts, prog.thread.value, prog.revision, w.db.contracts[cid]);
        assert forall need: Need ::
            Wants(w.since, w'.posts, cid, w.db.contracts[cid], need) ==>
              Wants(w.since, w.posts, cid, w.db.contracts[cid], need);
      }
    }
  }

  lemma OtherPostsLack(posts: map<nat, nat>, thread: nat, shown: nat, c: Contract)
    requires c.thread != Some(thread)
    ensures forall kind, revision: nat ::
              Lacks(posts[thread := shown], c, kind, revision) ==> Lacks(posts, c, kind, revision)
  {
  }

  lemma RenderedOwed(w: World, task: Task, prog: Contract)
    requires SnapshotOk(w, task, prog) && prog.thread.Some?
    requires AllOwed(w.db.tasks, w.abandoned, w.since, w.posts, task.contract, w.db.contracts[task.contract])
    ensures AllOwed(w.db.tasks, w.abandoned, w.since, w.posts[prog.thread.value := prog.revision], task.contract,
                    w.db.contracts[task.contract])
  {
    var c, posts' := w.db.contracts[task.contract], w.posts[prog.thread.value := prog.revision];
    forall need: Need | Wants(w.since, posts', task.contract, c, need)
      ensures Owed(w.db.tasks, w.abandoned, task.contract, need)
    {
      if need.kind == UpdateKind(c) {
        assert need == UpdateNeed(w.since, task.contract, c);
      } else {
        assert Wants(w.since, w.posts, task.contract, c, need);
      }
    }
  }

  /** Once the handler's own snapshot is shown, nothing its task was for is lacking. */
  lemma RenderedServed(w: World, task: Task, prog: Contract, result: HandlerResult)
    requires SnapshotOk(w, task, prog) && prog.thread.Some? && (task.kind == Refresh || task.kind == Close)
    ensures PhaseOk(w.(posts := w.posts[prog.thread.value := prog.revision]), task, Finished(result))
  {
    hide Owed;
  }

  lemma RenderPostKeeps(s: State, result: HandlerResult)
    requires Inv(s) && PostEnabled(s, RenderPost(result))
    ensures Inv(NextPost(s, RenderPost(result)))
  {
    var prog, task := RunPhase(s).prog, RunTask(s).task;
    RunningPhase(s);
    LoadedSnapshot(s.w, task, prog);
    hide WorkerOk, WorldOk, PhaseOk, SnapshotOk, Return;
    RenderedWorldOk(s.w, task, prog);
    RenderedServed(s.w, task, prog, result);
    WorldMoves(s, s.w.(posts := s.w.posts[prog.thread.value := prog.revision]), Finished(result));
  }

  lemma LoadedSnapshot(w: World, task: Task, prog: Contract)
    requires PhaseOk(w, task, Loaded(prog))
    ensures SnapshotOk(w, task, prog)
  {
    hide SnapshotOk;
  }

  /** With its post gone, a contract's close has nothing left to do. */
  lemma MissingPostOk(w: World, task: Task, prog: Contract)
    requires PhaseOk(w, task, Loaded(prog)) && (task.kind == Refresh || task.kind == Close)
    requires prog.thread.Some? && prog.thread.value !in w.posts
    ensures PhaseOk(w, task, Gone) && PhaseOk(w, task, Finished(Success))
  {
    hide Owed;
  }

  lemma MissingKeeps(s: State)
    requires Inv(s) && PostEnabled(s, PostMissing)
    ensures Inv(NextPost(s, PostMissing))
  {
    RunningPhase(s);
    hide Inv, PhaseOk, Return;
    MissingPostOk(s.w, RunTask(s).task, RunPhase(s).prog);
    MoveKeeps(s, if RunTask(s).task.kind == Refresh then Gone else Finished(Success));
  }

  // ---- The stored thread id ----

  /** A row change that keeps the account, the revision and the payouts, with no task appended. */
  lemma RowReplacedWorldOk(w: World, cid: nat, c': Contract)
    requires WorldOk(w) && cid in w.db.contracts
    requires var c := w.db.contracts[cid];
      c'.items == c.items && c'.revision == c.revision && c'.status == c.status && SameAccount(c, c')
      && (c.payouts != [] ==> c'.payouts == c.payouts && c'.payoutDecimals == c.payoutDecimals)
    requires forall x :: x in w.db.contracts && x != cid && c'.thread.Some? ==> w.db.contracts[x].thread != c'.thread
    requires ContractOk(w.(db := Put(w.db, cid, c')), cid)
    ensures WorldOk(w.(db := Put(w.db, cid, c')))
  {
    hide Sound, PayoutsOk, AllOwed, Keyed, FiguresOf;
    var w' := w.(db := Put(w.db, cid, c'));
    ReplacedRowKeepsKeys(w.db, cid, c');
    forall x | x in w'.db.contracts ensures ContractOk(w', x) { assert x != cid ==> ContractOk(w, x); }
    ReplacedTasksOk(w, cid, c');
    forall k | 0 <= k < |w.reports| ensures ReportOk(w'.db, w.reports[k]) { assert ReportOk(w.db, w.reports[k]); }
    hide TasksOk, ContractOk, ReportOk;
  }

  lemma ReplacedTasksOk(w: World, cid: nat, c': Contract)
    requires TasksOk(w) && cid in w.db.contracts && c'.revision == w.db.contracts[cid].revision
    ensures TasksOk(w.(db := Put(w.db, cid, c')))
  {
    var w' := w.(db := Put(w.db, cid, c'));
    forall id | id in w'.db.tasks ensures TaskOk(w'.db, w'.db.tasks[id]) { assert TaskOk(w.db, w.db.tasks[id]); }
    forall id | id in w.abandoned ensures GivenUp(w'.db, id) { assert GivenUp(w.db, id); }
    forall a, b ensures InOrder(w'.db.tasks, a, b) { assert InOrder(w.db.tasks, a, b); }
  }

  lemma OtherThreads(db: Db, cid: nat)
    requires Keyed(db) && cid in db.contracts
    ensures forall x :: x in db.contracts && x != cid && db.contracts[cid].thread.Some? ==>
              db.contracts[x].thread != db.contracts[cid].thread
  {
    forall x | x in db.contracts && x != cid && db.contracts[cid].thread.Some?
      ensures db.contracts[x].thread != db.contracts[cid].thread
    {
      assert !ShareThread(db, x, cid);
    }
  }

  lemma ReplacedRowKeepsKeys(db: Db, cid: nat, c': Contract)
    requires Keyed(db) && cid in db.contracts && c'.items == db.contracts[cid].items
    requires forall x :: x in db.contracts && x != cid && c'.thread.Some? ==> db.contracts[x].thread != c'.thread
    ensures Keyed(Put(db, cid, c'))
  {
    var db' := Put(db, cid, c');
    forall a, b, item: nat | BothHaveItem(db', a, b, item) ensures a == b { assert BothHaveItem(db, a, b, item); }
    forall a, b | ShareThread(db', a, b) ensures a == b { assert a != cid && b != cid ==> ShareThread(db, a, b); }
    forall x, item: nat | x in db'.contracts && HasItem(db'.contracts[x], item) ensures item < db'.nextId {
      assert HasItem(db.contracts[x], item);
    }
  }

  /** With the new post's thread recorded, whatever the post does not show is still owed. */
  lemma RecordedOwed(w: World, task: Task, prog: Contract, thread: nat, c': Contract)
    requires PhaseOk(w, task, Posted(prog, thread))
    requires c' == SetThread(w.db.contracts[task.contract], thread, w.postVersion)
    requires AllOwed(w.db.tasks, w.abandoned, w.since, w.posts, task.contract, w.db.contracts[task.contract])
    ensures AllOwed(w.db.tasks, w.abandoned, w.since, w.posts, task.contract, c')
  {
    var c := w.db.contracts[task.contract];
    forall need: Need | Wants(w.since, w.posts, task.contract, c', need)
      ensures Owed(w.db.tasks, w.abandoned, task.contract, need)
    {
      if need.kind == UpdateKind(c) {
        assert need == UpdateNeed(w.since, task.contract, c);
      } else {
        assert Wants(w.since, w.posts, task.contract, c, need);
      }
    }
  }

  lemma ContractNow(w: World, cid: nat)
    requires WorldOk(w) && cid in w.db.contracts
    ensures ContractOk(w, cid)
  {
    hide ContractOk, Keyed, TasksOk, ReportOk;
  }

  lemma PostedThread(w: World, task: Task, prog: Contract, thread: nat)
    requires PhaseOk(w, task, Posted(prog, thread))
    ensures task.contract in w.db.contracts && thread < w.nextPost
  {
    hide SnapshotOk, NobodysThread;
  }

  /** A contract with another thread is fine if what it then wants is owed. */
  lemma RethreadedOk(w: World, cid: nat, c': Contract)
    requires cid in w.db.contracts && ContractOk(w, cid)
    requires c' == w.db.contracts[cid].(thread := c'.thread, postVersion := c'.postVersion)
    requires c'.thread.Some? ==> c'.thread.value < w.nextPost
    requires AllOwed(w.db.tasks, w.abandoned, w.since, w.posts, cid, c')
    ensures ContractOk(w.(db := Put(w.db, cid, c')), cid)
  {
    hide AllOwed, Sound, PayoutsOk;
    SameItemsSound(w.db.contracts[cid], c');
    SamePayoutsOk(w.db.contracts[cid], c');
  }

  lemma SamePayoutsOk(c: Contract, c': Contract)
    requires PayoutsOk(c) && c' == c.(thread := c'.thread, postVersion := c'.postVersion)
    ensures PayoutsOk(c')
  {
    if c.payouts != [] { WasSplitKept(c, c'); }
    hide WasSplit;
  }

  lemma SameItemsSound(c: Contract, c': Contract)
    requires Sound(c) && c'.items == c.items && c'.factor == c.factor && c'.status == c.status
    ensures Sound(c')
  {
    hide ItemsOk, FullyDelivered;
  }

  lemma RecordedContractOk(w: World, task: Task, prog: Contract, thread: nat, c': Contract)
    requires WorldOk(w) && PhaseOk(w, task, Posted(prog, thread))
    requires c' == SetThread(w.db.contracts[task.contract], thread, w.postVersion)
    ensures ContractOk(w.(db := Put(w.db, task.contract, c')), task.contract)
  {
    PostedThread(w, task, prog, thread);
    hide PhaseOk, WorldOk;
    ContractNow(w, task.contract);
    OwedNow(w, task.contract);
    hide ContractOk;
    RecordedOwed(w, task, prog, thread, c');
    RethreadedOk(w, task.contract, c');
  }

  lemma OwedNow(w: World, cid: nat)
    requires cid in w.db.contracts && ContractOk(w, cid)
    ensures AllOwed(w.db.tasks, w.abandoned, w.since, w.posts, cid, w.db.contracts[cid])
  {
    hide AllOwed, Sound, PayoutsOk;
  }

  lemma RecordedWorldOk(w: World, task: Task, prog: Contract, thread: nat)
    requires WorldOk(w) && PhaseOk(w, task, Posted(prog, thread))
    ensures WorldOk(w.(db := SetThreadTx(w.db, task.contract, thread, w.postVersion)))
  {
    var c' := SetThread(w.db.contracts[task.contract], thread, w.postVersion);
    RecordedContractOk(w, task, prog, thread, c');
    hide WorldOk, ContractOk, SnapshotOk;
    RowReplacedWorldOk(w, task.contract, c');
  }

  lemma RecordedPhaseOk(w: World, task: Task, prog: Contract, thread: nat, result: HandlerResult)
    requires PhaseOk(w, task, Posted(prog, thread))
    ensures PhaseOk(w.(db := SetThreadTx(w.db, task.contract, thread, w.postVersion)), task, Finished(result))
  {
    hide Owed, NobodysThread;
  }

  lemma RecordThreadKeeps(s: State, result: HandlerResult)
    requires Inv(s) && PostEnabled(s, RecordThread(result))
    ensures Inv(NextPost(s, RecordThread(result)))
  {
    var p, task := RunPhase(s), RunTask(s).task;
    RunningPhase(s);
    hide WorkerOk, WorldOk, PhaseOk;
    RecordedWorldOk(s.w, task, p.prog, p.thread);
    RecordedPhaseOk(s.w, task, p.prog, p.thread, result);
    WorldMoves(s, s.w.(db := SetThreadTx(s.w.db, RunContract(s), p.thread, s.w.postVersion)), Finished(result));
  }

  lemma RecreatedDb(db: Db, cid: nat, now: int)
    requires Keyed(db) && cid in db.contracts
    ensures var c, db' := db.contracts[cid], RecreateTx(db, cid, now);
      && Keyed(db') && db'.contracts == db.contracts[cid := c.(thread := None)] && db'.nextId == db.nextId + 1
      && Appended(db, db', cid, c.revision)
      && IsPending(db'.tasks, db.nextId, cid, Need(CreateThread, c.revision, db.nextId))
  {
    var c' := db.contracts[cid].(thread := None);
    ReplacedRowKeepsKeys(db, cid, c');
    EnqueueIsDomainStep(Put(db, cid, c'), CreateThread, cid, false, now);
    DomainStepKeepsKeys(Put(db, cid, c'), RecreateTx(db, cid, now), cid);
    hide Keyed, DomainStep;
  }

  /** The contract without its thread, the create appended and its epoch begun. */
  predicate IsRecreated(w: World, w': World, cid: nat) {
    && cid in w.db.contracts
    && w' == w.(db := w'.db, since := w.since[(cid, CreateThread) := w.db.nextId])
    && w'.db.contracts == w.db.contracts[cid := w.db.contracts[cid].(thread := None)]
    && w'.db.nextId > w.db.nextId
    && IsPending(w'.db.tasks, w.db.nextId, cid, Need(CreateThread, w.db.contracts[cid].revision, w.db.nextId))
  }

  /** Without its thread the contract wants a new one, and no update any more. */
  lemma RecreatedOwed(w: World, w': World, cid: nat)
    requires IsRecreated(w, w', cid) && Appended(w.db, w'.db, cid, w.db.contracts[cid].revision)
    requires AllOwed(w.db.tasks, w.abandoned, w.since, w.posts, cid, w.db.contracts[cid])
    ensures AllOwed(w'.db.tasks, w'.abandoned, w'.since, w'.posts, cid, w'.db.contracts[cid])
  {
    var c := w.db.contracts[cid];
    forall need: Need | Wants(w'.since, w'.posts, cid, w'.db.contracts[cid], need)
      ensures Owed(w'.db.tasks, w'.abandoned, cid, need)
    {
      if need.kind == CreateThread {
        assert IsPending(w'.db.tasks, w.db.nextId, cid, need);
      } else {
        assert Wants(w.since, w.posts, cid, c, need);
        OwedGrows(w.db.tasks, w'.db.tasks, w.abandoned, cid, need);
      }
    }
  }

  lemma UntouchedOwed(w: World, w': World, cid: nat, x: nat)
    requires IsRecreated(w, w', cid) && Appended(w.db, w'.db, cid, w.db.contracts[cid].revision)
    requires x in w.db.contracts && x != cid
    requires AllOwed(w.db.tasks, w.abandoned, w.since, w.posts, x, w.db.contracts[x])
    ensures AllOwed(w'.db.tasks, w'.abandoned, w'.since, w'.posts, x, w.db.contracts[x])
  {
    forall need: Need | Wants(w'.since, w'.posts, x, w.db.contracts[x], need)
      ensures Owed(w'.db.tasks, w'.abandoned, x, need)
    {
      assert Wants(w.since, w.posts, x, w.db.contracts[x], need);
      OwedGrows(w.db.tasks, w'.db.tasks, w.abandoned, x, need);
    }
  }

  lemma RecreatedContractOk(w: World, w': World, cid: nat, x: nat)
    requires WorldOk(w) && IsRecreated(w, w', cid) && Appended(w.db, w'.db, cid, w.db.contracts[cid].revision)
    requires x in w.db.contracts
    ensures ContractOk(w', x)
  {
    var c, c' := w.db.contracts[x], w'.db.contracts[x];
    assert ContractOk(w, x);
    if x == cid {
      RecreatedOwed(w, w', cid);
      if c.payouts != [] { WasSplitKept(c, c'); }
    } else {
      UntouchedOwed(w, w', cid, x);
    }
    hide WorldOk, AllOwed, Appended, IsPending, WasSplit;
  }

  lemma RecreatedWorldOk(w: World, w': World, cid: nat)
    requires WorldOk(w) && IsRecreated(w, w', cid) && Keyed(w'.db)
    requires Appended(w.db, w'.db, cid, w.db.contracts[cid].revision)
    ensures WorldOk(w')
  {
    hide Keyed, TasksOk, ContractOk, Appended, IsPending, FiguresOf;
    AppendedTasksOk(w, w'.db, cid);
    TasksElsewhere(w, w');
    forall x | x in w'.db.contracts ensures ContractOk(w', x) { RecreatedContractOk(w, w', cid, x); }
    forall k | 0 <= k < |w'.reports| ensures ReportOk(w'.db, w'.reports[k]) { assert ReportOk(w.db, w.reports[k]); }
  }

  lemma TasksElsewhere(w: World, w': World)
    requires TasksOk(w.(db := w'.db)) && w'.abandoned == w.abandoned
    ensures TasksOk(w')
  {
  }

  lemma RecreatedPhaseOk(w: World, w': World, task: Task, result: HandlerResult)
    requires PhaseOk(w, task, Gone) && task.contract in w'.db.contracts && w'.db.contracts[task.contract].thread.None?
    ensures PhaseOk(w', task, Finished(result))
  {
  }

  lemma RecreatedOk(w: World, cid: nat, now: int)
    requires WorldOk(w) && cid in w.db.contracts
    ensures IsRecreated(w, Recreated(w, cid, now), cid) && WorldOk(Recreated(w, cid, now))
    ensures forall id :: id in w.db.tasks ==>
              id in Recreated(w, cid, now).db.tasks && Recreated(w, cid, now).db.tasks[id] == w.db.tasks[id]
  {
    RecreatedDb(w.db, cid, now);
    hide Keyed, TasksOk, ContractOk, ReportOk, IsPending, RecreateTx, TaskFor;
    RecreatedWorldOk(w, Recreated(w, cid, now), cid);
  }

  lemma RecreateKeeps(s: State, now: int, result: HandlerResult)
    requires Inv(s) && PostEnabled(s, Recreate(now, result))
    ensures Inv(NextPost(s, Recreate(now, result)))
  {
    RunningPhase(s);
    hide WorkerOk, WorldOk, PhaseOk, Recreated, IsPending;
    RecreatedOk(s.w, RunContract(s), now);
    RecreatedPhaseOk(s.w, Recreated(s.w, RunContract(s), now), RunTask(s).task, result);
    WorldMoves(s, Recreated(s.w, RunContract(s), now), Finished(result));
  }

  // ---- Payouts ----

  lemma ReadRowsOk(w: World, task: Task, prog: Contract)
    requires PhaseOk(w, task, Loaded(prog)) && task.kind == PayoutReport && Return(task, Loaded(prog)).None?
    ensures PhaseOk(w, task, RowsRead(prog, w.db.contracts[task.contract].payouts))
  {
    hide SnapshotOk, Owed;
  }

  lemma ReuseRowsOk(w: World, task: Task, prog: Contract, rows: seq<Payout>)
    requires WorldOk(w) && PhaseOk(w, task, RowsRead(prog, rows)) && rows != []
    ensures PhaseOk(w, task, Reporting(prog, rows))
  {
    assert ContractOk(w, task.contract);
    hide WorldOk, SnapshotOk, AllOwed, Sound, WasSplit;
  }

  lemma RowsKeep(s: State, q: PayoutStep)
    requires Inv(s) && PayEnabled(s, q) && (q.ReadRows? || q.ReuseRows?)
    ensures Inv(NextPay(s, q))
  {
    var task, phase := RunTask(s).task, RunPhase(s);
    RunningPhase(s);
    hide WorkerOk, WorldOk, PhaseOk, Return;
    if q.ReadRows? {
      ReadRowsOk(s.w, task, phase.prog);
      MoveKeeps(s, RowsRead(phase.prog, s.w.db.contracts[task.contract].payouts));
    } else {
      ReuseRowsOk(s.w, task, phase.prog, phase.rows);
      MoveKeeps(s, Reporting(phase.prog, phase.rows));
    }
  }

  lemma {:induction false} InsertFresh(rows: seq<Payout>, added: seq<Payout>)
    requires DistinctUsers(added) && forall k :: 0 <= k < |added| ==> !HasRow(rows, added[k].user)
    ensures InsertRows(rows, added) == rows + added
    decreases |added|
  {
    if added != [] {
      var more := rows + [added[0]];
      forall k | 0 <= k < |added[1..]| ensures !HasRow(more, added[1..][k].user) {
        assert !HasRow(rows, added[k + 1].user);
      }
      InsertFresh(more, added[1..]);
      assert more + added[1..] == rows + added;
    }
  }

  /** On an empty table every computed row is inserted. */
  lemma SplitRowsAreInserted(
      rows: seq<Payout>, res: PayoutResult, credits: nat, factor: nat, items: seq<PayoutItem>, decimals: nat)
    requires IsSplit(res, credits, factor, items, decimals) && Bare(rows) == res.shares
    ensures InsertRows([], rows) == rows
  {
    RowsAreTheDeliverers(res, credits, factor, items, decimals);
    forall j, k | 0 <= j < k < |rows| ensures rows[j].user != rows[k].user {
      assert Bare(rows)[j].user == rows[j].user && Bare(rows)[k].user == rows[k].user;
      LessIsTotal(rows[j].user, rows[k].user);
    }
    hide IsSplit;
    InsertFresh([], rows);
    assert [] + rows == rows;
  }

  /** The contract's row with the computed rows saved and the precision frozen. */
  function Saved(w: World, cid: nat, rows: seq<Payout>): Contract
    requires cid in w.db.contracts
  {
    w.db.contracts[cid].(payouts := rows, payoutDecimals := Some(w.payoutDecimals))
  }

  /** What a computing handler knows: nothing is saved yet, and its snapshot has the account that will be. */
  lemma NothingSaved(w: World, task: Task, prog: Contract)
    requires WorldOk(w) && PhaseOk(w, task, RowsRead(prog, []))
    ensures var c := w.db.contracts[task.contract];
      && ContractOk(w, task.contract) && c.payouts == [] && c.payoutDecimals.None? && prog.payoutDecimals.None?
      && c.status == Completed && SameAccount(prog, c)
  {
    assert ContractOk(w, task.contract);
    hide AllOwed, Sound, Owed, WasSplit;
  }

  lemma SavedContractOk(
      w: World, cid: nat, prog: Contract, prices: map<string, nat>, res: PayoutResult, rows: seq<Payout>)
    requires cid in w.db.contracts && ContractOk(w, cid) && w.payoutDecimals <= MAX_DECIMALS
    requires var c := w.db.contracts[cid]; c.payouts == [] && c.status == Completed && SameAccount(prog, c)
    requires Rewarded(prog) && rows != [] && prog.payoutDecimals.None?
    requires ComputedFrom(prog, prices, res, rows, w.payoutDecimals)
    ensures InsertRows([], rows) == rows
    ensures ContractOk(w.(db := Put(w.db, cid, Saved(w, cid, rows))), cid)
  {
    SplitRowsAreInserted(
      rows, res, prog.credits.value, prog.factor, PayoutItems(prog.items, prices), w.payoutDecimals);
    SplitIsRecorded(Saved(w, cid, rows), prices, res);
    SavedOwed(w, cid, rows);
    hide IsSplit, WasSplit, AllOwed, Sound, PayoutItems, Bare;
  }

  lemma SplitIsRecorded(c: Contract, prices: map<string, nat>, res: PayoutResult)
    requires c.credits.Some? && c.payoutDecimals.Some? && Bare(c.payouts) == res.shares
    requires IsSplit(res, c.credits.value, c.factor, PayoutItems(c.items, prices), c.payoutDecimals.value)
    ensures WasSplit(c)
  {
    hide IsSplit, PayoutItems, Bare;
  }

  /** Saved rows are one thing less to want. */
  lemma SavedOwed(w: World, cid: nat, rows: seq<Payout>)
    requires cid in w.db.contracts && rows != []
    requires AllOwed(w.db.tasks, w.abandoned, w.since, w.posts, cid, w.db.contracts[cid])
    ensures AllOwed(w.db.tasks, w.abandoned, w.since, w.posts, cid, Saved(w, cid, rows))
  {
    forall need: Need | Wants(w.since, w.posts, cid, Saved(w, cid, rows), need)
      ensures Owed(w.db.tasks, w.abandoned, cid, need)
    {
      assert Wants(w.since, w.posts, cid, w.db.contracts[cid], need);
    }
  }

  /** All computed rows are inserted, and they are a split of the account as it stands. */
  lemma SavedWorldOk(
      w: World, task: Task, prog: Contract, prices: map<string, nat>, res: PayoutResult, rows: seq<Payout>)
    requires WorldOk(w) && PhaseOk(w, task, RowsRead(prog, [])) && Rewarded(prog) && rows != []
    requires ComputedFrom(prog, prices, res, rows, w.payoutDecimals)
    ensures var c := w.db.contracts[task.contract];
      && c.payoutDecimals.None? && Precision(prog, w.payoutDecimals) == w.payoutDecimals
      && InsertRows(c.payouts, rows) == rows
      && WorldOk(w.(db := Put(w.db, task.contract, Saved(w, task.contract, rows))))
  {
    var cid := task.contract;
    NothingSaved(w, task, prog);
    OtherThreads(w.db, cid);
    hide PhaseOk, Keyed, TasksOk, ContractOk, ReportOk, ComputedFrom;
    SavedContractOk(w, cid, prog, prices, res, rows);
    RowReplacedWorldOk(w, cid, Saved(w, cid, rows));
  }

  lemma SavedPhaseOk(w: World, task: Task, prog: Contract, rows: seq<Payout>)
    requires PhaseOk(w, task, RowsRead(prog, [])) && rows != []
    requires Precision(prog, w.payoutDecimals) == w.payoutDecimals
    ensures PhaseOk(w.(db := Put(w.db, task.contract, Saved(w, task.contract, rows))), task, Reporting(prog, rows))
  {
    hide Owed;
  }

  lemma ComputeRowsKeeps(
      s: State, prices: map<string, nat>, res: PayoutResult, rows: seq<Payout>, result: HandlerResult)
    requires Inv(s) && PayEnabled(s, ComputeRows(prices, res, rows, result))
    ensures Inv(SaveRows(s, rows, result))
  {
    hide WorkerOk, WorldOk, PhaseOk, ContractOk, ComputedFrom, Storable, Untouched, TaskOk;
    var w, task, prog := s.w, RunTask(s).task, RunPhase(s).prog;
    RunningPhase(s);
    if rows == [] {
      EndedOk(w, task, Permanent);
      MoveKeeps(s, Finished(Permanent));
    } else if SavePayoutsTx(w.db, task.contract, rows, Precision(prog, w.payoutDecimals)).Err? {
      EndedOk(w, task, Transient);
      MoveKeeps(s, Finished(Transient));
    } else {
      SavedWorldOk(w, task, prog, prices, res, rows);
      SavedKeeps(s, prog, rows, result);
    }
  }

  lemma SavedKeeps(s: State, prog: Contract, rows: seq<Payout>, result: HandlerResult)
    requires Inv(s) && AtTask(s) && PhaseOk(s.w, RunTask(s).task, RowsRead(prog, [])) && rows != []
    requires Precision(prog, s.w.payoutDecimals) == s.w.payoutDecimals && RunContract(s) in s.w.db.contracts
    requires WorldOk(s.w.(db := Put(s.w.db, RunContract(s), Saved(s.w, RunContract(s), rows))))
    ensures Inv(Move(s, s.w.(db := Put(s.w.db, RunContract(s), Saved(s.w, RunContract(s), rows))),
                     After(result, Reporting(prog, rows))))
  {
    hide Inv, WorldOk, PhaseOk;
    var w' := s.w.(db := Put(s.w.db, RunContract(s), Saved(s.w, RunContract(s), rows)));
    if result == Success {
      SavedPhaseOk(s.w, RunTask(s).task, prog, rows);
    } else {
      EndedOk(w', RunTask(s).task, result);
    }
    WorldMoves(s, w', After(result, Reporting(prog, rows)));
  }

  lemma MoreReports(w: World, r: Rendering)
    requires WorldOk(w) && ReportOk(w.db, r)
    ensures WorldOk(w.(reports := w.reports + [r]))
  {
    hide Keyed, ReportOk, Sound, PayoutsOk, AllOwed, TaskOk, InOrder, GivenUp;
    var w' := w.(reports := w.reports + [r]);
    forall cid | cid in w.db.contracts ensures ContractOk(w', cid) { assert ContractOk(w, cid); }
  }

  lemma RenderingOk(w: World, task: Task, prog: Contract, rows: seq<Payout>)
    requires PhaseOk(w, task, Reporting(prog, rows))
    ensures ReportOk(w.db, Render(task.contract, prog, rows, w.payoutDecimals))
  {
    hide Owed, Pool, SumAmounts;
  }

  /** Reports are no part of what a handler relies on. */
  lemma ReportedPhaseOk(w: World, r: Rendering, task: Task, phase: Phase)
    requires PhaseOk(w, task, phase)
    ensures PhaseOk(w.(reports := w.reports + [r]), task, phase)
    ensures phase.Reporting? ==> forall report ::
              PhaseOk(w.(reports := w.reports + [r]), task, Reported(report))
  {
    hide Owed, Served, NobodysThread;
  }

  lemma PostReportKeeps(s: State, report: Report, result: HandlerResult)
    requires Inv(s) && PayEnabled(s, PostReport(report, result))
    ensures Inv(NextPay(s, PostReport(report, result)))
  {
    hide WorkerOk, WorldOk, PhaseOk, Render;
    var w, p, task := s.w, RunPhase(s), RunTask(s).task;
    var r := Render(task.contract, p.prog, p.rows, w.payoutDecimals);
    RunningPhase(s);
    RenderingOk(w, task, p.prog, p.rows);
    MoreReports(w, r);
    ReportedPhaseOk(w, r, task, p);
    if result != Success { EndedOk(w.(reports := w.reports + [r]), task, result); }
    WorldMoves(s, w.(reports := w.reports + [r]), After(result, Reported(report)));
  }

  lemma RenderAfterPaidKeeps(s: State, cid: nat)
    requires Inv(s) && cid in s.w.db.contracts && s.w.db.contracts[cid].report.Some?
    ensures var c := s.w.db.contracts[cid];
      Inv(s.(w := s.w.(reports := s.w.reports + [Render(cid, c, c.payouts, s.w.payoutDecimals)])))
  {
    var w, c := s.w, s.w.db.contracts[cid];
    var r := Render(cid, c, c.payouts, w.payoutDecimals);
    hide WorldOk, PhaseOk, WorkerOk, ReportOk, Render;
    PaidReportOk(w, cid);
    if Running(s) {
      RunningPhase(s);
      ReportedPhaseOk(w, r, RunTask(s).task, RunPhase(s));
    }
    MoreReports(w, r);
    WorkerKept(s, w.(reports := w.reports + [r]));
  }

  lemma PaidReportOk(w: World, cid: nat)
    requires WorldOk(w) && cid in w.db.contracts && w.db.contracts[cid].report.Some?
    ensures ReportOk(w.db, Render(cid, w.db.contracts[cid], w.db.contracts[cid].payouts, w.payoutDecimals))
  {
    assert ContractOk(w, cid);
    hide AllOwed, Sound, WasSplit, Pool, SumAmounts, Keyed, TasksOk;
  }

  lemma LatchedOwed(w: World, cid: nat, report: Report)
    requires cid in w.db.contracts
    requires AllOwed(w.db.tasks, w.abandoned, w.since, w.posts, cid, w.db.contracts[cid])
    ensures AllOwed(w.db.tasks, w.abandoned, w.since, w.posts, cid,
                    w.db.contracts[cid].(posted := true, report := Some(report)))
  {
    forall need: Need | Wants(w.since, w.posts, cid, w.db.contracts[cid].(posted := true, report := Some(report)), need)
      ensures Owed(w.db.tasks, w.abandoned, cid, need)
    {
      assert Wants(w.since, w.posts, cid, w.db.contracts[cid], need);
    }
  }

  lemma LatchedWorldOk(w: World, cid: nat, report: Report)
    requires WorldOk(w) && cid in w.db.contracts && w.db.contracts[cid].payouts != []
    ensures WorldOk(w.(db := MarkPostedTx(w.db, cid, report)))
  {
    var c := w.db.contracts[cid];
    var c' := c.(posted := true, report := Some(report));
    LatchedContractOk(w, cid, report);
    OtherThreads(w.db, cid);
    hide Keyed, TasksOk, ContractOk, ReportOk;
    RowReplacedWorldOk(w, cid, c');
  }

  lemma LatchedContractOk(w: World, cid: nat, report: Report)
    requires WorldOk(w) && cid in w.db.contracts && w.db.contracts[cid].payouts != []
    ensures ContractOk(w.(db := Put(w.db, cid, w.db.contracts[cid].(posted := true, report := Some(report)))), cid)
  {
    var c := w.db.contracts[cid];
    assert ContractOk(w, cid);
    LatchedOwed(w, cid, report);
    WasSplitKept(c, c.(posted := true, report := Some(report)));
    hide WorldOk, AllOwed, WasSplit;
  }

  lemma LatchedPhaseOk(w: World, task: Task, report: Report, result: HandlerResult)
    requires PhaseOk(w, task, Reported(report))
    ensures PhaseOk(w.(db := MarkPostedTx(w.db, task.contract, report)), task, Finished(result))
  {
  }

  lemma LatchReportKeeps(s: State, result: HandlerResult)
    requires Inv(s) && PayEnabled(s, LatchReport(result))
    ensures Inv(NextPay(s, LatchReport(result)))
  {
    hide WorkerOk, WorldOk, PhaseOk;
    var report := RunPhase(s).report;
    RunningPhase(s);
    PhaseHasPayouts(s.w, RunTask(s).task, report);
    LatchedWorldOk(s.w, RunContract(s), report);
    LatchedPhaseOk(s.w, RunTask(s).task, report, result);
    WorldMoves(s, s.w.(db := MarkPostedTx(s.w.db, RunContract(s), report)), Finished(result));
  }

  lemma PhaseHasPayouts(w: World, task: Task, report: Report)
    requires PhaseOk(w, task, Reported(report))
    ensures w.db.contracts[task.contract].payouts != []
  {
  }

  // ---- Retiring tasks ----

  /** One row of the table is retired, keeping what it was for; what was owed stays owed unless it was that row. */
  lemma OwedElsewhere(tasks: Table, tasks': Table, abandoned: Table, abandoned': Table, x: nat, cid: nat, need: Need)
    requires forall id :: id in tasks && id != x ==> id in tasks' && tasks'[id] == tasks[id]
    requires forall id :: id in abandoned ==> id in abandoned' && abandoned'[id] == abandoned[id]
    requires IsPending(tasks, x, cid, need) ==>
               || IsPending(tasks', x, cid, need)
               || IsAbandoned(abandoned', x, cid, need)
               || exists y :: y != x && IsPending(tasks, y, cid, need)
    requires Owed(tasks, abandoned, cid, need)
    ensures Owed(tasks', abandoned', cid, need)
  {
    if id :| IsPending(tasks, id, cid, need) {
      if id != x {
        assert IsPending(tasks', id, cid, need);
      } else if y :| y != x && IsPending(tasks, y, cid, need) {
        assert IsPending(tasks', y, cid, need);
      }
    } else {
      var id :| IsAbandoned(abandoned, id, cid, need);
      assert IsAbandoned(abandoned', id, cid, need);
    }
  }

  /** The retired row still names the same work. */
  predicate SameWork(t: Task, t': Task) {
    t'.kind == t.kind && t'.contract == t.contract && t'.revision == t.revision && t'.chronometric == t.chronometric
  }

  /** The world with one pending row rewritten; a failed one is remembered. */
  predicate Rewrote(w: World, w': World, x: nat) {
    && x in w.db.tasks && w.db.tasks[x].status == Pending && x in w'.db.tasks
    && SameWork(w.db.tasks[x], w'.db.tasks[x])
    && w' == w.(db := w.db.(tasks := w.db.tasks[x := w'.db.tasks[x]]),
                abandoned := if w'.db.tasks[x].status == Failed
                             then w.abandoned[x := w'.db.tasks[x]] else w.abandoned)
  }

  /** Nothing depends on the row any more, or the row still stands. */
  ghost predicate Dispensable(w: World, w': World, x: nat) {
    && x in w.db.tasks && x in w'.db.tasks && w.db.tasks[x].contract in w.db.contracts
    && (w'.db.tasks[x].status == Done ==>
          var cid := w.db.tasks[x].contract;
          forall need: Need ::
            Wants(w.since, w.posts, cid, w.db.contracts[cid], need) && IsPending(w.db.tasks, x, cid, need) ==>
              exists y :: y != x && IsPending(w.db.tasks, y, cid, need))
  }

  lemma RewroteOwed(w: World, w': World, x: nat, cid: nat)
    requires Rewrote(w, w', x) && Dispensable(w, w', x) && cid in w.db.contracts
    requires x in w.abandoned ==> GivenUp(w.db, x)
    requires AllOwed(w.db.tasks, w.abandoned, w.since, w.posts, cid, w.db.contracts[cid])
    ensures AllOwed(w'.db.tasks, w'.abandoned, w.since, w.posts, cid, w.db.contracts[cid])
  {
    hide Lacks, Epoch;
    forall need: Need | Wants(w.since, w.posts, cid, w.db.contracts[cid], need)
      ensures Owed(w'.db.tasks, w'.abandoned, cid, need)
    {
      OwedElsewhere(w.db.tasks, w'.db.tasks, w.abandoned, w'.abandoned, x, cid, need);
    }
  }

  lemma RewroteTasksOk(w: World, w': World, x: nat)
    requires Keyed(w.db) && TasksOk(w) && Rewrote(w, w', x)
    ensures TasksOk(w') && Keyed(w'.db)
  {
    forall id | id in w'.db.tasks ensures TaskOk(w'.db, w'.db.tasks[id]) { assert TaskOk(w.db, w.db.tasks[id]); }
    forall a, b ensures InOrder(w'.db.tasks, a, b) { assert InOrder(w.db.tasks, a, b); }
    forall id | id in w'.abandoned ensures GivenUp(w'.db, id) { assert id in w.abandoned ==> GivenUp(w.db, id); }
    forall a, b, item: nat | BothHaveItem(w'.db, a, b, item) ensures a == b { assert BothHaveItem(w.db, a, b, item); }
    forall a, b | ShareThread(w'.db, a, b) ensures a == b { assert ShareThread(w.db, a, b); }
  }

  lemma NotGivenUp(w: World, x: nat)
    requires TasksOk(w)
    ensures x in w.abandoned ==> GivenUp(w.db, x)
  {
    hide TaskOk, InOrder, GivenUp;
  }

  lemma RewroteWorldOk(w: World, w': World, x: nat)
    requires WorldOk(w) && Rewrote(w, w', x) && Dispensable(w, w', x)
    ensures WorldOk(w')
  {
    hide Keyed, TasksOk, GivenUp, Dispensable, AllOwed, Sound, PayoutsOk, FiguresOf, SameWork;
    RewroteTasksOk(w, w', x);
    NotGivenUp(w, x);
    forall cid | cid in w'.db.contracts ensures ContractOk(w', cid) {
      ContractNow(w, cid);
      RewroteOwed(w, w', x, cid);
    }
    forall k | 0 <= k < |w'.reports| ensures ReportOk(w'.db, w'.reports[k]) { assert ReportOk(w.db, w.reports[k]); }
    hide ContractOk, ReportOk;
  }

  lemma RewroteKeeps(s: State, w': World)
    requires Inv(s) && AtTask(s) && Rewrote(s.w, w', RunTask(s).id) && Dispensable(s.w, w', RunTask(s).id)
    ensures Inv(Advance(s, w'))
  {
    hide WorldOk, PhaseOk, Dispensable, SameWork;
    RewroteWorldOk(s.w, w', RunTask(s).id);
    forall j | s.worker.i + 1 <= j < |s.worker.due| ensures Untouched(w'.db.tasks, s.worker.due[j]) {
      assert Untouched(s.w.db.tasks, s.worker.due[j]);
    }
  }

  lemma AdvanceKeeps(s: State)
    requires Inv(s) && AtTask(s)
    ensures Inv(Advance(s, s.w))
  {
    hide WorldOk, PhaseOk, Untouched;
  }

  lemma MarkRewrites(w: World, d: DueTask, result: HandlerResult, maxAttempts: int, now: int)
    requires Untouched(w.db.tasks, d)
    ensures var w' := Marked(w, d, result, maxAttempts, now);
      Rewrote(w, w', d.id) && (w'.db.tasks[d.id].status == Done ==> result == Success)
  {
    SettleKeepsWork(w.db.tasks[d.id], d.task, result, maxAttempts, now);
    hide Settle, SameWork;
  }

  lemma SettleKeepsWork(row: Task, scanned: Task, result: HandlerResult, maxAttempts: int, now: int)
    ensures SameWork(row, Settle(row, scanned, result, maxAttempts, now))
    ensures Settle(row, scanned, result, maxAttempts, now).status == Done && row.status == Pending ==> result == Success
  {
    hide BackoffDelay;
  }

  /** A finished task's row may go: its success means there is nothing left to do for it. */
  lemma SuccessIsDispensable(w: World, w': World, d: DueTask)
    requires TaskOk(w.db, d.task) && Untouched(w.db.tasks, d) && d.id in w'.db.tasks
    requires w'.db.tasks[d.id].status == Done ==> Served(w.posts, w.db.contracts[d.task.contract], d.task)
    ensures Dispensable(w, w', d.id)
  {
    hide Lacks, Epoch;
  }

  /** Marking a finished task, or failing to, loses nothing; behind a success nothing its task was for is lacking. */
  lemma MarkKeeps(s: State, marked: bool, maxAttempts: int, now: int)
    requires Inv(s) && Running(s) && RunPhase(s).Finished? && RunTask(s).id in s.w.db.tasks
    ensures Inv(Advance(s, if marked then Marked(s.w, RunTask(s), RunPhase(s).result, maxAttempts, now) else s.w))
    ensures RunContract(s) in s.w.db.contracts
    ensures RunPhase(s).result == Success ==> Served(s.w.posts, s.w.db.contracts[RunContract(s)], RunTask(s).task)
  {
    var w, d := s.w, RunTask(s);
    TaskAtHand(s);
    RunningPhase(s);
    FinishedServes(w, d.task, RunPhase(s).result);
    hide Inv, PhaseOk, ContractOk, TaskOk, Served, Marked;
    if marked {
      MarkRewrites(w, d, RunPhase(s).result, maxAttempts, now);
      SuccessIsDispensable(w, Marked(w, d, RunPhase(s).result, maxAttempts, now), d);
      RewroteKeeps(s, Marked(w, d, RunPhase(s).result, maxAttempts, now));
    } else {
      AdvanceKeeps(s);
    }
  }

  lemma FinishedServes(w: World, task: Task, result: HandlerResult)
    requires PhaseOk(w, task, Finished(result))
    ensures task.contract in w.db.contracts
    ensures result == Success ==> Served(w.posts, w.db.contracts[task.contract], task)
  {
    hide Served;
  }

  /** A superseded task leaves a newer one of its kind and contract pending behind it. */
  lemma NewerStands(w: World, d: DueTask, e: DueTask, need: Need)
    requires TasksOk(w) && Untouched(w.db.tasks, d) && Untouched(w.db.tasks, e) && d.id < e.id && d.Key() == e.Key()
    requires IsPending(w.db.tasks, d.id, d.task.contract, need)
    ensures IsPending(w.db.tasks, e.id, d.task.contract, need)
  {
    assert TaskOk(w.db, w.db.tasks[d.id]) && TaskOk(w.db, w.db.tasks[e.id]);
    assert InOrder(w.db.tasks, d.id, e.id);
  }

  lemma SupersededIsDispensable(w: World, d: DueTask, e: DueTask, now: int)
    requires WorldOk(w) && Untouched(w.db.tasks, d) && Untouched(w.db.tasks, e) && d.id < e.id && d.Key() == e.Key()
    ensures Rewrote(w, Superseded(w, d.id, now), d.id) && Dispensable(w, Superseded(w, d.id, now), d.id)
  {
    hide Keyed, ContractOk, ReportOk, InOrder, GivenUp, Wants;
    assert TaskOk(w.db, w.db.tasks[d.id]);
    forall need: Need | IsPending(w.db.tasks, d.id, d.task.contract, need)
      ensures e.id != d.id && IsPending(w.db.tasks, e.id, d.task.contract, need)
    {
      NewerStands(w, d, e, need);
    }
  }

  lemma ScannedPair(s: State, k: nat)
    requires Inv(s) && AtTask(s) && s.worker.i < k < |s.worker.due|
    ensures WorldOk(s.w) && Untouched(s.w.db.tasks, RunTask(s)) && Untouched(s.w.db.tasks, s.worker.due[k])
    ensures RunTask(s).id < s.worker.due[k].id
  {
    hide WorldOk, PhaseOk, Untouched;
  }

  lemma SupersedeKeeps(s: State, marked: bool, now: int)
    requires Inv(s) && LoopEnabled(s, SupersedeTask(marked, now))
    ensures Inv(NextLoop(s, SupersedeTask(marked, now)))
  {
    hide Inv, Dispensable, Superseded;
    if marked {
      var k :| s.worker.i < k < |s.worker.due| && s.worker.due[k].Key() == RunTask(s).Key();
      ScannedPair(s, k);
      SupersededIsDispensable(s.w, RunTask(s), s.worker.due[k], now);
      RewroteKeeps(s, Superseded(s.w, RunTask(s).id, now));
    } else {
      AdvanceKeeps(s);
    }
  }

  // ---- Deployment and cleanup ----

  lemma DeployKeeps(s: State, version: nat, decimals: nat)
    requires Inv(s) && decimals <= MAX_DECIMALS
    ensures Inv(State(s.w.(postVersion := version, payoutDecimals := decimals), Idle))
  {
    hide PhaseOk, Untouched, Keyed, TaskOk, InOrder, GivenUp, ReportOk, Sound, PayoutsOk, AllOwed;
    var w' := s.w.(postVersion := version, payoutDecimals := decimals);
    forall cid | cid in s.w.db.contracts ensures ContractOk(w', cid) { assert ContractOk(s.w, cid); }
  }

  lemma CrashKeeps(s: State)
    requires Inv(s)
    ensures Inv(s.(worker := Idle))
  {
    hide WorldOk;
  }

  /** The world after cleanup deleted terminal rows past their retention. */
  function Cleaned(w: World, doneCutoff: int, failedCutoff: int): World {
    w.(db := w.db.(tasks := Cleanup(w.db.tasks, doneCutoff, failedCutoff)))
  }

  lemma CleanTasksOk(w: World, doneCutoff: int, failedCutoff: int)
    requires Keyed(w.db) && TasksOk(w)
    ensures TasksOk(Cleaned(w, doneCutoff, failedCutoff)) && Keyed(Cleaned(w, doneCutoff, failedCutoff).db)
  {
    var w' := Cleaned(w, doneCutoff, failedCutoff);
    forall id | id in w'.db.tasks ensures TaskOk(w'.db, w'.db.tasks[id]) { assert TaskOk(w.db, w.db.tasks[id]); }
    forall a, b ensures InOrder(w'.db.tasks, a, b) { assert InOrder(w.db.tasks, a, b); }
    forall id | id in w'.abandoned ensures GivenUp(w'.db, id) { assert GivenUp(w.db, id); }
    forall a, b, item: nat | BothHaveItem(w'.db, a, b, item) ensures a == b { assert BothHaveItem(w.db, a, b, item); }
    forall a, b | ShareThread(w'.db, a, b) ensures a == b { assert ShareThread(w.db, a, b); }
  }

  lemma OwedSurvivesCleanup(
      tasks: Table, abandoned: Table, doneCutoff: int, failedCutoff: int, cid: nat, need: Need)
    requires Owed(tasks, abandoned, cid, need)
    ensures Owed(Cleanup(tasks, doneCutoff, failedCutoff), abandoned, cid, need)
  {
    if id :| IsPending(tasks, id, cid, need) {
      assert IsPending(Cleanup(tasks, doneCutoff, failedCutoff), id, cid, need);
    }
  }

  lemma CleanOwed(w: World, doneCutoff: int, failedCutoff: int, cid: nat)
    requires cid in w.db.contracts
    requires AllOwed(w.db.tasks, w.abandoned, w.since, w.posts, cid, w.db.contracts[cid])
    ensures AllOwed(
              Cleanup(w.db.tasks, doneCutoff, failedCutoff), w.abandoned, w.since, w.posts, cid, w.db.contracts[cid])
  {
    hide Lacks, Epoch;
    forall need: Need | Wants(w.since, w.posts, cid, w.db.contracts[cid], need)
      ensures Owed(Cleanup(w.db.tasks, doneCutoff, failedCutoff), w.abandoned, cid, need)
    {
      OwedSurvivesCleanup(w.db.tasks, w.abandoned, doneCutoff, failedCutoff, cid, need);
    }
  }

  lemma CleanWorldOk(w: World, doneCutoff: int, failedCutoff: int)
    requires WorldOk(w)
    ensures WorldOk(Cleaned(w, doneCutoff, failedCutoff))
  {
    var w' := Cleaned(w, doneCutoff, failedCutoff);
    CleanTasksOk(w, doneCutoff, failedCutoff);
    hide Keyed, TasksOk, AllOwed, Sound, PayoutsOk, Cleanup, FiguresOf;
    forall cid | cid in w'.db.contracts ensures ContractOk(w', cid) {
      assert ContractOk(w, cid);
      CleanOwed(w, doneCutoff, failedCutoff, cid);
    }
    forall k | 0 <= k < |w'.reports| ensures ReportOk(w'.db, w'.reports[k]) { assert ReportOk(w.db, w.reports[k]); }
    hide ContractOk, ReportOk;
  }

  lemma CleanPhaseOk(w: World, task: Task, phase: Phase, doneCutoff: int, failedCutoff: int)
    requires PhaseOk(w, task, phase)
    ensures PhaseOk(Cleaned(w, doneCutoff, failedCutoff), task, phase)
  {
    hide SnapshotOk, Served, Cleanup;
    if phase.HasProg() { CleanSnapshotOk(w, task, phase.prog, doneCutoff, failedCutoff); }
  }

  lemma CleanSnapshotOk(w: World, task: Task, prog: Contract, doneCutoff: int, failedCutoff: int)
    requires SnapshotOk(w, task, prog)
    ensures SnapshotOk(Cleaned(w, doneCutoff, failedCutoff), task, prog)
  {
    var need := UpdateNeed(w.since, task.contract, w.db.contracts[task.contract]);
    if Owed(w.db.tasks, w.abandoned, task.contract, need) {
      OwedSurvivesCleanup(w.db.tasks, w.abandoned, doneCutoff, failedCutoff, task.contract, need);
    }
    hide Owed, Cleanup;
  }

  lemma CleanLeavesPending(w: World, doneCutoff: int, failedCutoff: int)
    ensures forall id :: id in w.db.tasks && w.db.tasks[id].status == Pending ==>
              id in Cleaned(w, doneCutoff, failedCutoff).db.tasks
              && Cleaned(w, doneCutoff, failedCutoff).db.tasks[id] == w.db.tasks[id]
  {
  }

  lemma CleanKeeps(s: State, doneCutoff: int, failedCutoff: int)
    requires Inv(s)
    ensures Inv(s.(w := Cleaned(s.w, doneCutoff, failedCutoff)))
  {
    hide WorldOk, PhaseOk, WorkerOk, Cleaned;
    CleanWorldOk(s.w, doneCutoff, failedCutoff);
    CleanLeavesPending(s.w, doneCutoff, failedCutoff);
    if Running(s) {
      RunningPhase(s);
      CleanPhaseOk(s.w, RunTask(s).task, RunPhase(s), doneCutoff, failedCutoff);
    }
    WorkerKept(s, Cleaned(s.w, doneCutoff, failedCutoff));
  }

  // ---- Every step, every run ----

  lemma OutsideKeeps(s: State, o: OutsideStep)
    requires Inv(s) && OutsideEnabled(s, o)
    ensures Inv(NextOutside(s, o))
  {
    hide Inv, Acted, Cleanup, Render;
    match o {
      case Act(a, now) => ActKeeps(s, a, now);
      case DeletePostByHand(thread) => DeletePostKeeps(s, thread);
      case RenderAfterPaid(cid) => RenderAfterPaidKeeps(s, cid);
      case Crash => CrashKeeps(s);
      case Deploy(version, decimals) => DeployKeeps(s, version, Clamp(decimals));
      case Clean(doneCutoff, failedCutoff) => CleanKeeps(s, doneCutoff, failedCutoff);
    }
  }

  lemma LoopKeeps(s: State, l: LoopStep)
    requires Inv(s) && LoopEnabled(s, l)
    ensures Inv(NextLoop(s, l))
  {
    hide Inv, IsDue, Marked, Superseded, Return, IsNewest;
    match l {
      case Scan(due, now, limit) => ScanKeeps(s, due, now, limit);
      case SupersedeTask(marked, now) => SupersedeKeeps(s, marked, now);
      case Begin(handled) => BeginKeeps(s, handled);
      case Mark(marked, maxAttempts, now) => MarkKeeps(s, marked, maxAttempts, now);
      case Fail(permanent) => FailKeeps(s, permanent);
      case ReturnEarly => ReturnKeeps(s);
    }
  }

  lemma PostKeeps(s: State, p: PostStep)
    requires Inv(s) && PostEnabled(s, p)
    ensures Inv(NextPost(s, p))
  {
    hide Inv, Writes, Recreated, NewPost;
    match p {
      case CreateForumPost(result) => ForumPostKeeps(s, result);
      case RecordThread(result) => RecordThreadKeeps(s, result);
      case RemovePost => RemovePostKeeps(s);
      case RenderPost(result) => RenderPostKeeps(s, result);
      case PostMissing => MissingKeeps(s);
      case Recreate(now, result) => RecreateKeeps(s, now, result);
    }
  }

  lemma PayKeeps(s: State, q: PayoutStep)
    requires Inv(s) && PayEnabled(s, q)
    ensures Inv(NextPay(s, q))
  {
    hide Inv, Return, ComputedFrom, SaveRows, Render, MarkPostedTx;
    match q {
      case ReadRows => RowsKeep(s, q);
      case ReuseRows => RowsKeep(s, q);
      case ComputeRows(prices, res, rows, result) => ComputeRowsKeeps(s, prices, res, rows, result);
      case PostReport(report, result) => PostReportKeeps(s, report, result);
      case LatchReport(result) => LatchReportKeeps(s, result);
    }
  }

  /** Every step of the system keeps the invariant. */
  lemma StepKeeps(s: State, l: Step)
    requires Inv(s) && Enabled(s, l)
    ensures Inv(Next(s, l))
  {
    hide Inv, OutsideEnabled, LoopEnabled, PostEnabled, PayEnabled, NextOutside, NextLoop, NextPost, NextPay;
    match l {
      case Outside(o) => OutsideKeeps(s, o);
      case Loop(l) => LoopKeeps(s, l);
      case Post(p) => PostKeeps(s, p);
      case Pay(q) => PayKeeps(s, q);
    }
  }

  lemma {:induction false} RunKeeps(steps: seq<Step>)
    ensures Inv(Run(steps))
  {
    hide Inv, Enabled, Next;
    if steps == [] {
      InitOk();
    } else {
      RunKeeps(steps[..|steps| - 1]);
      var s, l := Run(steps[..|steps| - 1]), steps[|steps| - 1];
      if Enabled(s, l) { StepKeeps(s, l); }
    }
  }

  lemma ReachableContract(steps: seq<Step>, cid: nat)
    requires cid in Run(steps).w.db.contracts
    ensures ContractOk(Run(steps).w, cid)
  {
    hide Run, ContractOk, WorkerOk, Keyed, TasksOk, ReportOk;
    RunKeeps(steps);
  }

  // ---- What every run guarantees ----

  /** In every reachable state the ledger is sound: its invariant holds of every contract. */
  lemma LedgerIsAlwaysSound(steps: seq<Step>, cid: nat)
    requires cid in Run(steps).w.db.contracts
    ensures Sound(Run(steps).w.db.contracts[cid])
  {
    hide Run, AllOwed, PayoutsOk, Sound;
    ReachableContract(steps, cid);
  }

  /** Whatever a contract lacks in a reachable state is owed: its task is pending, or abandoned, in this epoch. */
  lemma WhatIsLackingIsOwed(steps: seq<Step>, cid: nat, kind: Kind, revision: nat)
    requires cid in Run(steps).w.db.contracts
    requires Lacks(Run(steps).w.posts, Run(steps).w.db.contracts[cid], kind, revision)
    ensures var w := Run(steps).w;
      Owed(w.db.tasks, w.abandoned, cid, Need(kind, revision, Epoch(w.since, cid, kind)))
  {
    hide Run, Sound, PayoutsOk, Owed, Lacks;
    ReachableContract(steps, cid);
    var w := Run(steps).w;
    assert Wants(w.since, w.posts, cid, w.db.contracts[cid], Need(kind, revision, Epoch(w.since, cid, kind)));
  }

  /**
   * No lost update. Whatever interleaving, crashes and failures led here: if a contract's live post does not show
   * the committed revision, then a refresh (or once it is terminal, a close) enqueued at that revision, and not
   * before its last repair, is still pending, or the worker gave up on one.
   */
  lemma NoUpdateIsLost(steps: seq<Step>, cid: nat)
    requires cid in Run(steps).w.db.contracts
    ensures var w := Run(steps).w;
      var c := w.db.contracts[cid];
      var kind := if c.status == Open then Refresh else Close;
      c.thread.Some? && c.thread.value in w.posts && w.posts[c.thread.value] != c.revision
      ==> Owed(w.db.tasks, w.abandoned, cid, Need(kind, c.revision, Epoch(w.since, cid, kind)))
  {
    hide Run, Owed;
    var w := Run(steps).w;
    var c := w.db.contracts[cid];
    if !UpToDate(w.posts, c) { WhatIsLackingIsOwed(steps, cid, UpdateKind(c), c.revision); }
  }

  /** A contract without a forum thread always has a create-thread task pending or abandoned since its last repair. */
  lemma ThreadIsAlwaysOwed(steps: seq<Step>, cid: nat)
    requires cid in Run(steps).w.db.contracts
    ensures var w := Run(steps).w;
      w.db.contracts[cid].thread.None?
      ==> Owed(w.db.tasks, w.abandoned, cid, Need(CreateThread, 0, Epoch(w.since, cid, CreateThread)))
  {
    hide Run, Owed;
    if Run(steps).w.db.contracts[cid].thread.None? { WhatIsLackingIsOwed(steps, cid, CreateThread, 0); }
  }

  /**
   * A contract that completed with a positive credit reward and a positive factor has its rows saved, or a payout
   * task pending or abandoned since its last repair.
   */
  lemma NoPayoutIsLost(steps: seq<Step>, cid: nat)
    requires cid in Run(steps).w.db.contracts
    ensures var w := Run(steps).w;
      var c := w.db.contracts[cid];
      c.status == Completed && c.credits.Some? && c.credits.value > 0 && c.factor > 0
      ==> || (c.payouts != [] && c.payoutDecimals.Some?)
          || Owed(w.db.tasks, w.abandoned, cid, Need(PayoutReport, 0, Epoch(w.since, cid, PayoutReport)))
  {
    hide Run, Owed, Sound, AllOwed, WasSplit;
    ReachableContract(steps, cid);
    if Unpaid(Run(steps).w.db.contracts[cid]) { WhatIsLackingIsOwed(steps, cid, PayoutReport, 0); }
  }

  /**
   * As soon as the members' part of the reward comes to a single unit at some precision, in units of 10^-decimals
   * with the reward in hundredths and the factor in hundredths of a percent, its payout is saved or owed.
   */
  lemma NoUnitIsLost(steps: seq<Step>, cid: nat, decimals: nat)
    requires cid in Run(steps).w.db.contracts
    requires var c := Run(steps).w.db.contracts[cid];
      c.status == Completed && c.credits.Some? && c.credits.value * c.factor * Pow10(decimals) >= 1000000
    ensures var w := Run(steps).w;
      || (w.db.contracts[cid].payouts != [] && w.db.contracts[cid].payoutDecimals.Some?)
      || Owed(w.db.tasks, w.abandoned, cid, Need(PayoutReport, 0, Epoch(w.since, cid, PayoutReport)))
  {
    hide Run, Owed, Pow10;
    NoPayoutIsLost(steps, cid);
  }

  // ---- What was given up on can be repaired ----

  /**
   * Republish repairs the post: whatever thread or update the contract still wants in the new epoch has a pending
   * task, even where the worker had given up.
   */
  lemma RepublishRepairs(w: World, cid: nat, now: int, need: Need)
    requires cid in w.db.contracts && need.kind != PayoutReport
    requires var w' := Acted(w, Republish(cid), now); Wants(w'.since, w'.posts, cid, w'.db.contracts[cid], need)
    ensures exists id :: IsPending(Acted(w, Republish(cid), now).db.tasks, id, cid, need)
  {
    ActedTables(w, Republish(cid), now);
    hide Acted, Sought, EnqueueEffects;
    assert IsPending(Acted(w, Republish(cid), now).db.tasks, w.db.nextId, cid, need);
  }

  lemma ActedTables(w: World, a: Action, now: int)
    ensures var w' := Acted(w, a, now);
      w'.db == Repaired(w, a, now).db && w'.since == Repaired(w, a, now).since && w'.posts == w.posts
  {
    hide Perform, Sought;
  }

  /** Reprint repairs the payout: an unpaid completion has a pending payout task of the new epoch. */
  lemma ReprintRepairs(w: World, cid: nat, now: int)
    requires cid in w.db.contracts
    requires var c := w.db.contracts[cid];
      c.status == Completed && c.credits.Some? && c.credits.value > 0 && c.factor > 0 && c.payouts == []
    ensures var w' := Acted(w, Reprint(cid), now);
      exists id :: IsPending(w'.db.tasks, id, cid, Need(PayoutReport, 0, Epoch(w'.since, cid, PayoutReport)))
  {
    ActedTables(w, Reprint(cid), now);
    hide Acted, Sought;
    var w' := Acted(w, Reprint(cid), now);
    assert w'.db.nextId != w.db.nextId;
    assert IsPending(w'.db.tasks, w.db.nextId, cid, Need(PayoutReport, 0, Epoch(w'.since, cid, PayoutReport)));
  }

  /**
   * The report's latch stops retries and not reprints: once it is set, a payout task that finds the contract
   * completed returns without touching anything exactly when it is none that Reprint enqueued.
   */
  lemma LatchStopsRetriesNotReprints(db: Db, cid: nat, report: Report, now: int)
    requires Keyed(db) && cid in db.contracts && db.contracts[cid].status == Completed
    ensures var latched := MarkPostedTx(db, cid, report);
      && (forall task: Task :: task.kind == PayoutReport ==>
            (Return(task, Loaded(latched.contracts[cid])).Some? <==> !task.repost))
      && (RepostTx(latched, cid, now).Ok? ==>
            var t := RepostTx(latched, cid, now).value.tasks[db.nextId];
            t.kind == PayoutReport && t.contract == cid && t.repost)
  {
  }

  // ---- What is settled stays settled ----

  /**
   * A terminal contract keeps its status and account; saved payouts and their precision never change; the report's
   * latch and who marked the payouts as paid stay on record.
   */
  predicate Frozen(c: Contract, c': Contract) {
    && (c.status != Open ==> c'.status == c.status && SameAccount(c, c'))
    && (c.payouts != [] ==> c'.payouts == c.payouts && c'.payoutDecimals == c.payoutDecimals)
    && (c.paidBy.Some? ==> c'.paidBy == c.paidBy)
    && (c.posted ==> c'.posted)
  }

  predicate AllFrozen(db: Db, db': Db) {
    forall cid :: cid in db.contracts ==> cid in db'.contracts && Frozen(db.contracts[cid], db'.contracts[cid])
  }

  lemma DomainStepFreezes(db: Db, db': Db, cid: nat)
    requires DomainStep(db, db', cid)
    ensures AllFrozen(db, db')
  {
    hide Appended, Sound, HasItem, AppendedKind;
  }

  lemma ActFreezes(s: State, a: Action, now: int)
    requires Inv(s) && OutsideEnabled(s, Act(a, now))
    ensures AllFrozen(s.w.db, Perform(s.w.db, a, now, s.w.postVersion))
  {
    hide WorkerOk, ContractOk, TasksOk, ReportOk, Keyed, DomainStep, CreateTx, EditTx;
    var db, db' := s.w.db, Perform(s.w.db, a, now, s.w.postVersion);
    if a.CreateContract? {
      if CreateTx(db, a.input, now, s.w.postVersion).Ok? { CreateTxIsSound(db, a.input, now, s.w.postVersion); }
    } else if a.cid in db.contracts {
      SoundNow(s.w, a.cid);
      ActionIsDomainStep(db, a, now, s.w.postVersion);
      if db' != db { DomainStepFreezes(db, db', a.cid); }
    }
  }

  lemma OutsideFreezes(s: State, o: OutsideStep)
    requires Inv(s) && OutsideEnabled(s, o)
    ensures AllFrozen(s.w.db, NextOutside(s, o).w.db)
  {
    hide Inv, Perform, Cleanup, Render;
    if o.Act? { ActFreezes(s, o.a, o.now); }
  }

  lemma LoopFreezes(s: State, l: LoopStep)
    requires LoopEnabled(s, l)
    ensures AllFrozen(s.w.db, NextLoop(s, l).w.db)
  {
    hide IsDue, Settle, Supersede, Return, IsNewest, Begun;
    if l.Begin? { BegunTables(s.w, RunTask(s)); }
  }

  lemma BegunTables(w: World, d: DueTask)
    ensures Begun(w, d).db == w.db
  {
  }

  lemma PostFreezes(s: State, p: PostStep)
    requires PostEnabled(s, p)
    ensures AllFrozen(s.w.db, NextPost(s, p).w.db)
  {
    hide Return;
  }

  lemma SaveFreezes(s: State, rows: seq<Payout>, result: HandlerResult)
    requires Handling(s, PayoutReport) && RunPhase(s).RowsRead? && s.w.db.contracts[RunContract(s)].payouts == []
    ensures AllFrozen(s.w.db, SaveRows(s, rows, result).w.db)
  {
    hide InsertRows, Storable, Precision, After, AllFrozen;
    var db, cid := s.w.db, RunContract(s);
    FrozenSelf(db);
    var saved := SavePayoutsTx(db, cid, rows, Precision(RunPhase(s).prog, s.w.payoutDecimals));
    if saved.Ok? { PutFreezes(db, cid, saved.value.contracts[cid]); }
  }

  lemma PutFreezes(db: Db, cid: nat, c': Contract)
    requires cid in db.contracts && Frozen(db.contracts[cid], c')
    ensures AllFrozen(db, Put(db, cid, c'))
  {
  }

  lemma ReadRowsAreCurrent(s: State)
    requires Inv(s) && Running(s) && RunPhase(s).RowsRead?
    ensures RunContract(s) in s.w.db.contracts && s.w.db.contracts[RunContract(s)].payouts == RunPhase(s).rows
  {
    hide Inv, PhaseOk;
    RunningPhase(s);
    RowsInPhase(s.w, RunTask(s).task, RunPhase(s).prog, RunPhase(s).rows);
  }

  lemma RowsInPhase(w: World, task: Task, prog: Contract, rows: seq<Payout>)
    requires PhaseOk(w, task, RowsRead(prog, rows))
    ensures task.contract in w.db.contracts && w.db.contracts[task.contract].payouts == rows
  {
    hide SnapshotOk;
  }

  lemma PayFreezes(s: State, q: PayoutStep)
    requires Inv(s) && PayEnabled(s, q)
    ensures AllFrozen(s.w.db, NextPay(s, q).w.db)
  {
    hide Inv, SaveRows, Render, ComputedFrom, Return;
    if q.ComputeRows? {
      ReadRowsAreCurrent(s);
      SaveFreezes(s, q.rows, q.result);
    }
  }

  lemma StepFreezes(s: State, l: Step)
    requires Inv(s) && Enabled(s, l)
    ensures AllFrozen(s.w.db, Next(s, l).w.db)
  {
    hide Inv, AllFrozen, OutsideEnabled, LoopEnabled, PostEnabled, PayEnabled, NextOutside, NextLoop, NextPost, NextPay;
    match l {
      case Outside(o) => OutsideFreezes(s, o);
      case Loop(l) => LoopFreezes(s, l);
      case Post(p) => PostFreezes(s, p);
      case Pay(q) => PayFreezes(s, q);
    }
  }

  lemma FrozenSelf(db: Db)
    ensures AllFrozen(db, db)
  {
  }

  lemma FrozenChain(a: Db, b: Db, c: Db)
    requires AllFrozen(a, b) && AllFrozen(b, c)
    ensures AllFrozen(a, c)
  {
  }

  lemma {:induction false} RunFreezes(steps: seq<Step>, more: seq<Step>)
    ensures AllFrozen(Run(steps).w.db, Run(steps + more).w.db)
  {
    hide Inv, Enabled, Next, AllFrozen;
    if more == [] {
      assert steps + more == steps;
      FrozenSelf(Run(steps).w.db);
    } else {
      var n := |more| - 1;
      RunFreezes(steps, more[..n]);
      var s, l := Run(steps + more[..n]), more[n];
      assert (steps + more)[..|steps + more| - 1] == steps + more[..n];
      RunKeeps(steps + more[..n]);
      if Enabled(s, l) {
        StepFreezes(s, l);
        FrozenChain(Run(steps).w.db, s.w.db, Next(s, l).w.db);
      }
    }
  }

  /** Once a contract left open, no later run changes its status, items, reservations, credits or factor. */
  lemma TerminalIsFrozen(steps: seq<Step>, more: seq<Step>, cid: nat)
    requires cid in Run(steps).w.db.contracts && Run(steps).w.db.contracts[cid].status != Open
    ensures cid in Run(steps + more).w.db.contracts
    ensures var c, c' := Run(steps).w.db.contracts[cid], Run(steps + more).w.db.contracts[cid];
      c'.status == c.status && SameAccount(c, c')
  {
    hide Run;
    RunFreezes(steps, more);
  }

  /** The first press that marked the payouts as paid is the one on record in every continuation of the run. */
  lemma PaidStaysPaid(steps: seq<Step>, more: seq<Step>, cid: nat)
    requires cid in Run(steps).w.db.contracts && Run(steps).w.db.contracts[cid].paidBy.Some?
    ensures cid in Run(steps + more).w.db.contracts
    ensures Run(steps + more).w.db.contracts[cid].paidBy == Run(steps).w.db.contracts[cid].paidBy
  {
    hide Run;
    RunFreezes(steps, more);
  }

  /** The figures any build renders from a contract as it stands. */
  function FiguresNow(c: Contract, configured: nat): Figures {
    FiguresOf(c.credits, c.factor, c.payouts, Precision(c, configured))
  }

  /**
   * Payout figures never change: once rows are saved, every later state of every run renders the same rows at
   * the same precision with the same pool, remainder and flag, whatever precision is configured by then.
   */
  lemma PayoutFiguresNeverChange(steps: seq<Step>, more: seq<Step>, cid: nat, configured: nat, later: nat)
    requires cid in Run(steps).w.db.contracts && Run(steps).w.db.contracts[cid].payouts != []
    ensures cid in Run(steps + more).w.db.contracts
    ensures var c, c' := Run(steps).w.db.contracts[cid], Run(steps + more).w.db.contracts[cid];
      c'.payouts == c.payouts && c'.payoutDecimals == c.payoutDecimals
      && FiguresNow(c', later) == FiguresNow(c, configured)
  {
    hide Run, AllOwed, Sound, WasSplit, FiguresOf;
    RunFreezes(steps, more);
    ReachableContract(steps, cid);
  }

  lemma ReachableReport(steps: seq<Step>, k: nat)
    requires k < |Run(steps).w.reports|
    ensures ReportOk(Run(steps).w.db, Run(steps).w.reports[k])
  {
    hide Run, WorkerOk, ContractOk, Keyed, TasksOk, ReportOk;
    RunKeeps(steps);
  }

  /** Any two payout reports ever posted or edited for a contract show the same rows and figures. */
  lemma ReportsAgree(steps: seq<Step>, j: nat, k: nat)
    requires j < |Run(steps).w.reports| && k < |Run(steps).w.reports|
    requires Run(steps).w.reports[j].contract == Run(steps).w.reports[k].contract
    ensures Run(steps).w.reports[j] == Run(steps).w.reports[k]
  {
    hide Run, FiguresOf;
    ReachableReport(steps, j);
    ReachableReport(steps, k);
  }

  lemma {:induction false} BareKeepsAmounts(rows: seq<Payout>)
    ensures SumAmounts(Bare(rows)) == SumAmounts(rows)
  {
    if rows != [] {
      var n := |rows| - 1;
      assert Bare(rows)[..n] == Bare(rows[..n]);
      BareKeepsAmounts(rows[..n]);
    }
  }

  lemma {:induction false} AmountsAddUp(rows: seq<Payout>)
    requires forall k :: 0 <= k < |rows| ==> rows[k].amount >= 0
    ensures SumAmounts(rows) >= 0
  {
    if rows != [] { AmountsAddUp(rows[..|rows| - 1]); }
  }

  /** Without priced deliveries every member's share is zero. */
  lemma ZeroValueHasNoShares(res: PayoutResult, credits: nat, factor: nat, items: seq<PayoutItem>, decimals: nat)
    requires IsSplit(res, credits, factor, items, decimals) && res.zeroValue
    ensures forall k :: 0 <= k < |res.shares| ==> res.shares[k].share <= 0
  {
  }

  lemma SharesAreNatural(res: PayoutResult, credits: nat, factor: nat, items: seq<PayoutItem>, decimals: nat)
    requires IsSplit(res, credits, factor, items, decimals)
    ensures SumAmounts(res.shares) >= 0
    ensures res.pool == Pool(credits, factor, decimals)
  {
    AmountsAddUp(res.shares);
  }

  /**
   * Every payout report ever rendered conserves its pool. What it pays out and its remainder add up to the pool
   * it shows, which is the members' part of the contract's reward cut down to whole units; the remainder is less
   * than a unit a member, or the whole pool when the report says that nothing delivered had a price.
   */
  lemma ReportsConserveThePool(steps: seq<Step>, k: nat)
    requires k < |Run(steps).w.reports|
    ensures var r, db := Run(steps).w.reports[k], Run(steps).w.db;
      && r.contract in db.contracts
      && var c := db.contracts[r.contract];
      && c.credits.Some? && c.payoutDecimals.Some?
      && IsPool(r.figures.remainder + SumAmounts(r.rows), c.credits.value, c.factor, c.payoutDecimals.value)
      && 1000000 * SumAmounts(r.rows) <= c.credits.value * c.factor * Pow10(c.payoutDecimals.value)
      && r.rows != []
      && r.figures.remainder + SumAmounts(r.rows) == r.figures.pool
      && 0 <= r.figures.remainder
      && r.figures.remainder <= (if r.figures.zeroValue then r.figures.pool else |r.rows| - 1)
  {
    hide Run, Sound, AllOwed, WasSplit, Pool, IsPool;
    ReachableReport(steps, k);
    var w := Run(steps).w;
    ReachableContract(steps, w.reports[k].contract);
    var c := w.db.contracts[w.reports[k].contract];
    PoolIsTheRewardsPart(c.credits.value, c.factor, c.payoutDecimals.value);
    SplitConserves(c);
    WithinReward(w.reports[k].figures.pool, c.credits.value, c.factor, c.payoutDecimals.value, SumAmounts(c.payouts));
  }

  lemma WithinReward(pool: int, credits: nat, factor: nat, decimals: nat, paid: int)
    requires IsPool(pool, credits, factor, decimals) && paid <= pool
    ensures 1000000 * paid <= credits * factor * Pow10(decimals)
  {
    hide Pow10;
  }

  lemma SplitConserves(c: Contract)
    requires Sound(c) && PayoutsOk(c) && c.payouts != []
    ensures var f := FiguresOf(c.credits, c.factor, c.payouts, c.payoutDecimals.value);
      0 <= f.remainder && f.remainder <= (if f.zeroValue then f.pool else |c.payouts| - 1)
  {
    var prices, res :|
      && IsSplit(res, c.credits.value, c.factor, PayoutItems(c.items, prices), c.payoutDecimals.value)
      && Bare(c.payouts) == res.shares;
    CompletedContractSplit(c, res, c.credits.value, prices, c.payoutDecimals.value);
    BareKeepsAmounts(c.payouts);
    SharesAreNatural(res, c.credits.value, c.factor, PayoutItems(c.items, prices), c.payoutDecimals.value);
    if res.zeroValue {
      ZeroValueHasNoShares(res, c.credits.value, c.factor, PayoutItems(c.items, prices), c.payoutDecimals.value);
      assert forall k :: 0 <= k < |c.payouts| ==> c.payouts[k].share == Bare(c.payouts)[k].share;
    }
    hide Sound, IsSplit, WasSplit, SumAmounts, Pool, PayoutItems;
  }

  // ---- The report's latch ----

  /** Some report of the contract was rendered. */
  predicate Rendered(w: World, cid: nat) { exists k :: 0 <= k < |w.reports| && w.reports[k].contract == cid }

  /** What is latched as posted was rendered, and so was what the payout handler is about to latch. */
  predicate LatchesOk(s: State) {
    && (forall cid :: cid in s.w.db.contracts && s.w.db.contracts[cid].posted ==> Rendered(s.w, cid))
    && (Running(s) && RunPhase(s).Reported? ==> Rendered(s.w, RunContract(s)))
  }

  /** No contract is latched that was not, and no report is lost. */
  predicate NothingLatched(w: World, w': World) {
    && w.reports <= w'.reports
    && forall cid :: cid in w'.db.contracts && w'.db.contracts[cid].posted ==>
         cid in w.db.contracts && w.db.contracts[cid].posted
  }

  /** The handler goes where it was, or nowhere near the latch. */
  predicate FarFromLatching(s: State, s': State) {
    Running(s') && RunPhase(s').Reported? ==> Running(s) && RunPhase(s).Reported? && RunContract(s') == RunContract(s)
  }

  lemma LatchFrame(s: State, s': State)
    requires LatchesOk(s) && NothingLatched(s.w, s'.w) && FarFromLatching(s, s')
    ensures LatchesOk(s')
  {
    assert forall cid :: Rendered(s.w, cid) ==> Rendered(s'.w, cid);
  }

  lemma ActLatchesNothing(w: World, a: Action, now: int)
    requires WorldOk(w) && (a.EditContract? ==> a.e.Entered())
    ensures NothingLatched(w, Acted(w, a, now))
  {
    ActedTables(w, a, now);
    ActedReports(w, a, now);
    hide Acted, Perform, WorldOk;
    PerformLatchesNothing(w, a, now);
  }

  lemma ActedReports(w: World, a: Action, now: int)
    ensures Acted(w, a, now).reports == w.reports
    ensures Acted(w, a, now).db == Perform(w.db, a, now, w.postVersion)
  {
    hide Perform, Sought, AsksRefresh, LacksPost;
  }

  lemma PerformLatchesNothing(w: World, a: Action, now: int)
    requires WorldOk(w) && (a.EditContract? ==> a.e.Entered())
    ensures var db, db' := w.db, Perform(w.db, a, now, w.postVersion);
      forall x :: x in db'.contracts && db'.contracts[x].posted ==> x in db.contracts && db.contracts[x].posted
  {
    hide Keyed, TasksOk, ContractOk, ReportOk, DomainStep, CreateTx, EditTx, Sound, Appended, AppendedKind;
    var db, db' := w.db, Perform(w.db, a, now, w.postVersion);
    if a.CreateContract? {
      if CreateTx(db, a.input, now, w.postVersion).Ok? {
        CreateTxIsSound(db, a.input, now, w.postVersion);
        CreatedRow(a.input, db.nextId + 1, w.postVersion);
      }
    } else if a.cid in db.contracts {
      SoundNow(w, a.cid);
      ActionIsDomainStep(db, a, now, w.postVersion);
      if db' != db { DomainLatchesNothing(db, db', a.cid); }
    }
  }

  lemma DomainLatchesNothing(db: Db, db': Db, cid: nat)
    requires DomainStep(db, db', cid)
    ensures forall x :: x in db'.contracts ==> x in db.contracts && db'.contracts[x].posted == db.contracts[x].posted
  {
    hide Appended, Sound, HasItem, AppendedKind;
  }

  lemma OutsideLatches(s: State, o: OutsideStep)
    requires Inv(s) && OutsideEnabled(s, o)
    ensures NothingLatched(s.w, NextOutside(s, o).w) && FarFromLatching(s, NextOutside(s, o))
  {
    hide WorldOk, WorkerOk, Acted, Cleanup, Render;
    if o.Act? { ActLatchesNothing(s.w, o.a, o.now); }
    hide Perform;
  }

  lemma LoopLatches(s: State, l: LoopStep)
    requires LoopEnabled(s, l)
    ensures NothingLatched(s.w, NextLoop(s, l).w) && FarFromLatching(s, NextLoop(s, l))
  {
    hide IsDue, Settle, Supersede, Return, IsNewest;
  }

  lemma PostLatches(s: State, p: PostStep)
    requires PostEnabled(s, p)
    ensures NothingLatched(s.w, NextPost(s, p).w) && FarFromLatching(s, NextPost(s, p))
  {
    hide Return;
  }

  lemma PayLatches(s: State, q: PayoutStep)
    requires LatchesOk(s) && PayEnabled(s, q)
    ensures LatchesOk(NextPay(s, q))
  {
    var s' := NextPay(s, q);
    match q {
      case ComputeRows(_, _, rows, result) => SaveLatches(s, rows, result);
      case PostReport(_, _) => ReportIsRendered(s, q);
      case LatchReport(_) => LatchIsRendered(s, q);
      case ReadRows => RowsLatch(s, q);
      case ReuseRows => RowsLatch(s, q);
    }
    hide NextPay, PayEnabled, LatchesOk;
  }

  lemma RowsLatch(s: State, q: PayoutStep)
    requires LatchesOk(s) && PayEnabled(s, q) && (q.ReadRows? || q.ReuseRows?)
    ensures LatchesOk(NextPay(s, q))
  {
    hide LatchesOk, Return;
    LatchFrame(s, NextPay(s, q));
  }

  lemma SaveLatches(s: State, rows: seq<Payout>, result: HandlerResult)
    requires LatchesOk(s) && Handling(s, PayoutReport) && RunPhase(s).RowsRead?
    ensures LatchesOk(SaveRows(s, rows, result))
  {
    hide InsertRows, Storable, Precision, LatchesOk;
    LatchFrame(s, SaveRows(s, rows, result));
  }

  lemma ReportIsRendered(s: State, q: PayoutStep)
    requires LatchesOk(s) && PayEnabled(s, q) && q.PostReport?
    ensures LatchesOk(NextPay(s, q)) && Rendered(NextPay(s, q).w, RunContract(s))
  {
    hide FiguresOf;
    var w' := NextPay(s, q).w;
    assert w'.reports[|s.w.reports|].contract == RunContract(s);
    assert forall cid :: Rendered(s.w, cid) ==> Rendered(w', cid) by {
      forall cid | Rendered(s.w, cid) ensures Rendered(w', cid) {
        var k :| 0 <= k < |s.w.reports| && s.w.reports[k].contract == cid;
        assert w'.reports[k] == s.w.reports[k];
      }
    }
  }

  lemma LatchIsRendered(s: State, q: PayoutStep)
    requires LatchesOk(s) && PayEnabled(s, q) && q.LatchReport?
    ensures LatchesOk(NextPay(s, q))
  {
    assert NextPay(s, q).w.reports == s.w.reports;
    assert forall cid :: Rendered(s.w, cid) ==> Rendered(NextPay(s, q).w, cid);
  }

  lemma StepLatches(s: State, l: Step)
    requires Inv(s) && LatchesOk(s) && Enabled(s, l)
    ensures LatchesOk(Next(s, l))
  {
    hide Inv, LatchesOk, NothingLatched, FarFromLatching;
    hide OutsideEnabled, LoopEnabled, PostEnabled, PayEnabled, NextOutside, NextLoop, NextPost, NextPay;
    match l {
      case Outside(o) => OutsideLatches(s, o); LatchFrame(s, Next(s, l));
      case Loop(step) => LoopLatches(s, step); LatchFrame(s, Next(s, l));
      case Post(p) => PostLatches(s, p); LatchFrame(s, Next(s, l));
      case Pay(q) => PayLatches(s, q);
    }
  }

  /** In every reachable state a contract whose report is latched as posted has had its report rendered. */
  lemma {:induction false} LatchedWasRendered(steps: seq<Step>)
    ensures LatchesOk(Run(steps))
  {
    hide Inv, Enabled, Next;
    if steps != [] {
      LatchedWasRendered(steps[..|steps| - 1]);
      RunKeeps(steps[..|steps| - 1]);
      var s, l := Run(steps[..|steps| - 1]), steps[|steps| - 1];
      if Enabled(s, l) { StepLatches(s, l); }
    }
  }

  /**
   * A report is posted once. After the handler latched it, whatever it was told, every continuation of the run has
   * it rendered and latched, so a later payout task that finds the contract completed returns without posting unless
   * it is a reprint.
   */
  lemma LatchedReportIsNotPostedAgain(steps: seq<Step>, result: HandlerResult, more: seq<Step>, task: Task)
    requires Enabled(Run(steps), Pay(LatchReport(result))) && task.kind == PayoutReport
    ensures var s, w' := Run(steps), Run(steps + [Pay(LatchReport(result))] + more).w;
      && AtTask(s)
      && var cid := RunContract(s);
      && cid in w'.db.contracts && w'.db.contracts[cid].posted && Rendered(w', cid)
      && (w'.db.contracts[cid].status == Completed ==>
            (Return(task, Loaded(w'.db.contracts[cid])).Some? <==> !task.repost))
  {
    var latched := steps + [Pay(LatchReport(result))];
    assert latched[..|latched| - 1] == steps;
    LatchTakes(Run(steps), result);
    hide Run, Inv, Enabled, Next;
    RunFreezes(latched, more);
    LatchedWasRendered(latched + more);
    assert Run(latched).w.db.contracts[RunContract(Run(steps))].posted;
  }

  lemma LatchTakes(s: State, result: HandlerResult)
    requires Enabled(s, Pay(LatchReport(result)))
    ensures AtTask(s) && RunContract(s) in Next(s, Pay(LatchReport(result))).w.db.contracts
    ensures Next(s, Pay(LatchReport(result))).w.db.contracts[RunContract(s)].posted
  {
  }
}
