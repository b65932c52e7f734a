/**
 * What becomes of a contract whose forum post is gone: no refresh asked for or begun after the loss can succeed
 * without a new post being on its way, whatever fails in between.
 */
module Recovery {
  import opened Prelude
  import opened Contracts
  import opened Ledger
  import opened Outbox
  import opened Transactions
  import opened Payouts
  import opened Protocol
  import opened ProtocolSafety

  // ---- The invariant ----

  /** A refresh that was asked for or begun while the open contract's post was gone is pending or was given up on. */
  ghost predicate Recovering(w: World, cid: nat)
    requires cid in w.db.contracts
  {
    IsSought(w, cid) ==> Owed(w.db.tasks, w.abandoned, cid, SoughtNeed(w, cid))
  }

  predicate IsSought(w: World, cid: nat) {
    && LacksPost(w, cid) && w.db.contracts[cid].status == Open
    && w.missing[w.db.contracts[cid].thread.value].Some?
  }

  /** A refresh, from the one on that was the latest to be asked for or to begin. */
  function SoughtNeed(w: World, cid: nat): Need
    requires IsSought(w, cid)
  {
    Need(Refresh, 0, w.missing[w.db.contracts[cid].thread.value].value)
  }

  /** Only an ended contract has close tasks. */
  predicate ClosesAreLate(db: Db) {
    forall id :: id in db.tasks && db.tasks[id].kind == Close && db.tasks[id].contract in db.contracts ==>
      db.contracts[db.tasks[id].contract].status != Open
  }

  /** Every post there ever was is live or missing. */
  ghost predicate PostsAccountedFor(w: World) {
    && (forall t :: t in w.posts || t in w.missing ==> t < w.nextPost)
    && (forall t: nat :: t < w.nextPost ==> (t in w.posts <==> t !in w.missing))
  }

  ghost predicate PostsOk(w: World) {
    PostsAccountedFor(w) && ClosesAreLate(w.db) && forall cid :: cid in w.db.contracts ==> Recovering(w, cid)
  }

  /** A post torn away under the handler was not sought by a task up to its own since. */
  predicate TornOk(w: World, d: DueTask, torn: set<nat>) {
    forall t :: t in torn ==> t in w.missing && (w.missing[t].Some? ==> w.missing[t].value > d.id)
  }

  /** What a refresh that succeeded leaves of an open contract with a thread: its post, in the current format. */
  predicate Shown(w: World, d: DueTask, torn: set<nat>)
    requires d.task.contract in w.db.contracts
  {
    var c := w.db.contracts[d.task.contract];
    d.task.kind == Refresh && c.status == Open && c.thread.Some?
    ==> (c.thread.value in w.posts || c.thread.value in torn) && c.postVersion >= w.postVersion
  }

  ghost predicate HandlerOk(w: World, d: DueTask, phase: Phase, torn: set<nat>) {
    && d.task.contract in w.db.contracts
    && TornOk(w, d, torn)
    && match phase
       case Loaded(prog) => prog.postVersion == w.db.contracts[d.task.contract].postVersion
       case Posted(_, thread) => thread in w.missing ==> w.missing[thread].None?
       case Finished(result) => result == Success ==> Shown(w, d, torn)
       case _ => true
  }

  ghost predicate Recovers(s: State) {
    PostsOk(s.w) && (Running(s) ==> HandlerOk(s.w, RunTask(s), RunPhase(s), s.worker.torn))
  }

  // ---- Frames ----

  /** No contract reopens or moves to another thread. */
  predicate ThreadsStay(db: Db, db': Db) {
    && db'.contracts.Keys == db.contracts.Keys
    && forall cid :: cid in db.contracts ==>
         && db'.contracts[cid].thread == db.contracts[cid].thread
         && db'.contracts[cid].postVersion == db.contracts[cid].postVersion
         && (db'.contracts[cid].status == Open ==> db.contracts[cid].status == Open)
  }

  ghost predicate StillOwed(w: World, w': World) {
    forall cid, need: Need :: Owed(w.db.tasks, w.abandoned, cid, need) ==> Owed(w'.db.tasks, w'.abandoned, cid, need)
  }

  lemma PostsFrame(w: World, w': World)
    requires PostsOk(w) && ThreadsStay(w.db, w'.db) && StillOwed(w, w') && ClosesAreLate(w'.db)
    requires w'.posts.Keys == w.posts.Keys && w'.missing == w.missing && w'.nextPost == w.nextPost
    ensures PostsOk(w')
  {
    hide Owed, ClosesAreLate;
    assert forall t :: t in w'.posts <==> t in w'.posts.Keys;
    forall cid | cid in w'.db.contracts ensures Recovering(w', cid) { assert Recovering(w, cid); }
  }

  lemma HandlerFrame(w: World, w': World, d: DueTask, phase: Phase, torn: set<nat>)
    requires HandlerOk(w, d, phase, torn) && ThreadsStay(w.db, w'.db)
    requires w'.posts.Keys == w.posts.Keys && w'.missing == w.missing && w'.postVersion == w.postVersion
    ensures HandlerOk(w', d, phase, torn)
  {
    assert forall t :: t in w'.posts <==> t in w'.posts.Keys;
  }

  /** The same tasks, or fewer of those that matter to nobody. */
  lemma ClosesStayLate(db: Db, db': Db)
    requires ClosesAreLate(db) && ThreadsStay(db, db')
    requires forall id :: id in db'.tasks ==>
               && id in db.tasks && db'.tasks[id].kind == db.tasks[id].kind
               && db'.tasks[id].contract == db.tasks[id].contract
    ensures ClosesAreLate(db')
  {
  }

  lemma RunningHandler(s: State)
    requires Inv(s) && Recovers(s) && Running(s)
    ensures HandlerOk(s.w, RunTask(s), RunPhase(s), s.worker.torn) && PhaseOk(s.w, RunTask(s).task, RunPhase(s))
    ensures RunContract(s) in s.w.db.contracts && Untouched(s.w.db.tasks, RunTask(s)) && RunTask(s).id < s.w.db.nextId
  {
    RunningPhase(s);
    TaskAtHand(s);
    TaskIdsBelow(s.w);
    hide Inv, PostsOk, PhaseOk;
  }

  lemma TaskIdsBelow(w: World)
    requires WorldOk(w)
    ensures Keyed(w.db) && forall id :: id in w.db.tasks ==> id < w.db.nextId
  {
    hide TasksOk, ContractOk, ReportOk;
  }

  /** A step of the running handler; nothing was torn away since. */
  lemma HandlerMoves(s: State, w': World, phase: Phase)
    requires AtTask(s) && PostsOk(w') && HandlerOk(w', RunTask(s), phase, {})
    ensures Recovers(Move(s, w', phase))
  {
    hide PostsOk, HandlerOk;
  }

  /** Ending a handler, or going on in a phase nothing here depends on. */
  lemma PhaseEnds(w: World, d: DueTask, phase: Phase)
    requires d.task.contract in w.db.contracts
    requires phase.Finished? || phase == Gone || phase.RowsRead? || phase.Reporting? || phase.Reported?
    requires phase == Finished(Success) ==> Shown(w, d, {})
    ensures HandlerOk(w, d, phase, {})
  {
  }

  // ---- Asking for a refresh ----

  lemma OnePostEach(db: Db, cid: nat, x: nat)
    requires Keyed(db) && cid in db.contracts && x in db.contracts && x != cid && db.contracts[cid].thread.Some?
    ensures db.contracts[x].thread != db.contracts[cid].thread
  {
    assert !ShareThread(db, x, cid);
  }

  /** Whoever asks has a pending refresh to show for it. */
  lemma AskedPostsOk(w: World, cid: nat, id: nat)
    requires PostsOk(w) && Keyed(w.db) && cid in w.db.contracts
    requires Owed(w.db.tasks, w.abandoned, cid, Need(Refresh, 0, id)) || w.db.contracts[cid].status != Open
    ensures PostsOk(Asked(w, cid, id))
  {
    hide Owed, Keyed;
    var w' := Asked(w, cid, id);
    forall x | x in w'.db.contracts ensures Recovering(w', x) {
      assert Recovering(w, x);
      if x != cid && LacksPost(w, cid) { OnePostEach(w.db, cid, x); }
    }
  }

  /** Asking with a newer id disturbs no running handler. */
  lemma AskedHandlerOk(w: World, cid: nat, id: nat, d: DueTask, phase: Phase, torn: set<nat>)
    requires HandlerOk(w, d, phase, torn) && d.id < id
    requires phase.Posted? ==> NobodysThread(w.db, phase.thread)
    ensures HandlerOk(Asked(w, cid, id), d, phase, torn)
  {
  }

  lemma AskedKeeps(s: State, cid: nat, id: nat)
    requires Inv(s) && Recovers(s) && cid in s.w.db.contracts
    requires Owed(s.w.db.tasks, s.w.abandoned, cid, Need(Refresh, 0, id))
    requires Running(s) ==> RunTask(s).id < id
    ensures Recovers(s.(w := Asked(s.w, cid, id)))
  {
    hide Owed, Asked, PostsOk, HandlerOk, WorldOk, PhaseOk;
    TaskIdsBelow(s.w);
    AskedPostsOk(s.w, cid, id);
    if Running(s) {
      RunningHandler(s);
      PostedIsNobodys(s.w, RunTask(s).task, RunPhase(s));
      AskedHandlerOk(s.w, cid, id, RunTask(s), RunPhase(s), s.worker.torn);
    }
  }

  lemma PostedIsNobodys(w: World, task: Task, phase: Phase)
    requires PhaseOk(w, task, phase)
    ensures phase.Posted? ==> NobodysThread(w.db, phase.thread)
  {
    hide SnapshotOk, NobodysThread;
  }

  // ---- People's transactions ----

  /** The new tasks' closes are for a contract that has ended. */
  lemma EnqueuedCloses(db: Db, db': Db, cid: nat, first: nat, kinds: seq<Kind>, revision: nat)
    requires ClosesAreLate(db) && ThreadsStay(db, db') && cid in db'.contracts
    requires Enqueued(db.tasks, db'.tasks, first, kinds, cid, revision)
    requires Close in kinds ==> db'.contracts[cid].status != Open
    ensures ClosesAreLate(db')
  {
    forall id | id in db'.tasks && db'.tasks[id].kind == Close && db'.tasks[id].contract in db'.contracts
      ensures db'.contracts[db'.tasks[id].contract].status != Open
    {
      if id !in db.tasks { assert kinds[id - first] == Close; }
    }
  }

  lemma StepStays(db: Db, db': Db, cid: nat)
    requires DomainStep(db, db', cid)
    ensures cid in db'.contracts && ThreadsStay(db, db') && Appended(db, db', cid, db'.contracts[cid].revision)
  {
    hide Appended, Sound, HasItem, AppendedKind;
  }

  lemma EditCloses(db: Db, cid: nat, e: Edit, now: int)
    requires Keyed(db) && cid in db.contracts && Sound(db.contracts[cid]) && e.Entered() && ClosesAreLate(db)
    ensures EditTx(db, cid, e, now).Ok? ==> ClosesAreLate(EditTx(db, cid, e, now).value)
  {
    hide DomainStep, Keyed, Sound, EditTx, Enqueued, ClosesAreLate, ThreadsStay;
    if EditTx(db, cid, e, now).Ok? {
      var db' := EditTx(db, cid, e, now).value;
      EditTxIsDomainStep(db, cid, e, now);
      StepStays(db, db', cid);
      var kinds := EffectKinds(db'.contracts[cid]);
      EnqueuedCloses(db, db', cid, db'.nextId - |kinds|, kinds, db'.contracts[cid].revision);
    }
  }

  lemma EndingCloses(db: Db, cid: nat, now: int)
    requires Keyed(db) && cid in db.contracts && ClosesAreLate(db)
    ensures CancelTx(db, cid, now).Ok? ==> ClosesAreLate(CancelTx(db, cid, now).value)
    ensures ClosesAreLate(ExpireTx(db, cid, now))
  {
    hide DomainStep, Keyed, CancelTx, ExpireTx, Enqueued, ClosesAreLate, ThreadsStay;
    if CancelTx(db, cid, now).Ok? {
      var db' := CancelTx(db, cid, now).value;
      CancelIsDomainStep(db, cid, now);
      StepStays(db, db', cid);
      EnqueuedCloses(db, db', cid, db.nextId, [Close], db'.contracts[cid].revision);
    }
    var db' := ExpireTx(db, cid, now);
    ExpireIsDomainStep(db, cid, now);
    StepStays(db, db', cid);
    if db' != db { EnqueuedCloses(db, db', cid, db.nextId, [Close], db'.contracts[cid].revision); }
  }

  lemma NotifyCloses(db: Db, cid: nat, now: int)
    requires Keyed(db) && cid in db.contracts && ClosesAreLate(db)
    ensures ClosesAreLate(NotifyTx(db, cid, now))
  {
    hide DomainStep, Keyed, NotifyTx, Enqueued, ClosesAreLate, ThreadsStay;
    NotifyIsDomainStep(db, cid, now);
    StepStays(db, NotifyTx(db, cid, now), cid);
    if NotifyTx(db, cid, now) != db {
      EnqueuedCloses(db, NotifyTx(db, cid, now), cid, db.nextId, [Notify], db.contracts[cid].revision);
    }
  }

  lemma EnqueueCloses(db: Db, kind: Kind, cid: nat, repost: bool, now: int)
    requires Keyed(db) && cid in db.contracts && ClosesAreLate(db)
    requires kind == Close ==> db.contracts[cid].status != Open
    ensures ClosesAreLate(EnqueueTask(db, kind, cid, repost, now))
  {
    hide DomainStep, Keyed, EnqueueTask, Enqueued, ClosesAreLate, ThreadsStay;
    EnqueueIsDomainStep(db, kind, cid, repost, now);
    StepStays(db, EnqueueTask(db, kind, cid, repost, now), cid);
    EnqueuedCloses(
      db, EnqueueTask(db, kind, cid, repost, now), cid, db.nextId, [kind], db.contracts[cid].revision);
  }

  lemma PaidCloses(db: Db, cid: nat, actor: string)
    requires cid in db.contracts && ClosesAreLate(db)
    ensures ClosesAreLate(MarkPaidTx(db, cid, actor))
  {
  }

  lemma ActionCloses(db: Db, a: Action, now: int, postVersion: nat)
    requires Keyed(db) && !a.CreateContract? && (a.EditContract? ==> a.e.Entered())
    requires a.cid in db.contracts && Sound(db.contracts[a.cid]) && ClosesAreLate(db)
    ensures ClosesAreLate(Perform(db, a, now, postVersion))
  {
    hide Keyed, Sound, EditTx, CancelTx, ExpireTx, NotifyTx, EnqueueTask, MarkPaidTx, ClosesAreLate;
    var c := db.contracts[a.cid];
    match a {
      case EditContract(cid, e) => EditCloses(db, cid, e, now);
      case CancelContract(cid) => EndingCloses(db, cid, now);
      case ExpireContract(cid) => EndingCloses(db, cid, now);
      case NotifyContract(cid) => NotifyCloses(db, cid, now);
      case Republish(cid) => EnqueueCloses(db, RepairKind(c), cid, false, now);
      case Reprint(cid) => EnqueueCloses(db, PayoutReport, cid, true, now);
      case MarkPaid(cid, actor) => PaidCloses(db, cid, actor);
      case CreateContract(_) =>
    }
  }

  lemma GrowthStillOwed(w: World, w': World)
    requires forall id :: id in w.db.tasks ==> id in w'.db.tasks && w'.db.tasks[id] == w.db.tasks[id]
    requires w'.abandoned == w.abandoned
    ensures StillOwed(w, w')
  {
    forall cid, need: Need | Owed(w.db.tasks, w.abandoned, cid, need)
      ensures Owed(w'.db.tasks, w'.abandoned, cid, need)
    {
      OwedGrows(w.db.tasks, w'.db.tasks, w.abandoned, cid, need);
    }
  }

  /** A world that differs in its tables, its epochs and its reports only. */
  predicate OnlyTables(w: World, w': World) {
    && w'.posts == w.posts && w'.missing == w.missing && w'.nextPost == w.nextPost
    && w'.postVersion == w.postVersion && w'.abandoned == w.abandoned
  }

  lemma TablesKeep(s: State, w': World)
    requires Inv(s) && Recovers(s) && OnlyTables(s.w, w') && ThreadsStay(s.w.db, w'.db)
    requires StillOwed(s.w, w') && ClosesAreLate(w'.db)
    ensures Recovers(s.(w := w'))
  {
    hide Inv, PostsOk, HandlerOk, StillOwed, ClosesAreLate, ThreadsStay;
    PostsFrame(s.w, w');
    if Running(s) { HandlerFrame(s.w, w', RunTask(s), RunPhase(s), s.worker.torn); }
  }

  lemma SameTables(db: Db)
    ensures ThreadsStay(db, db)
  {
  }

  lemma RepairedTables(w: World, a: Action, now: int)
    ensures OnlyTables(w, Repaired(w, a, now))
    ensures Repaired(w, a, now).db == Perform(w.db, a, now, w.postVersion)
  {
    hide Perform;
  }

  lemma RepairRecovers(s: State, a: Action, now: int)
    requires Inv(s) && Recovers(s) && OutsideEnabled(s, Act(a, now)) && !a.CreateContract?
    ensures Recovers(s.(w := Repaired(s.w, a, now)))
  {
    hide Perform, DomainStep, Keyed, Sound, ClosesAreLate, ThreadsStay, Recovering, HandlerOk, WorldOk, WorkerOk;
    var w, w' := s.w, Repaired(s.w, a, now);
    RepairedTables(w, a, now);
    NoContractNoAction(w.db, a, now, w.postVersion);
    if w'.db != w.db {
      SoundNow(w, a.cid);
      ActionIsDomainStep(w.db, a, now, w.postVersion);
      ActionCloses(w.db, a, now, w.postVersion);
      StepStays(w.db, w'.db, a.cid);
    } else {
      SameTables(w.db);
    }
    GrowthStillOwed(w, w');
    TablesKeep(s, w');
  }

  lemma NoContractNoAction(db: Db, a: Action, now: int, postVersion: nat)
    requires !a.CreateContract?
    ensures a.cid !in db.contracts ==> Perform(db, a, now, postVersion) == db
  {
  }

  lemma CreateRecovers(s: State, input: CreateInput, now: int)
    requires Inv(s) && Recovers(s) && CreateTx(s.w.db, input, now, s.w.postVersion).Ok?
    ensures Recovers(s.(w := s.w.(db := CreateTx(s.w.db, input, now, s.w.postVersion).value)))
  {
    var w, db' := s.w, CreateTx(s.w.db, input, now, s.w.postVersion).value;
    TaskIdsBelow(w);
    CreateTxIsSound(w.db, input, now, w.postVersion);
    CreatedRow(input, w.db.nextId + 1, w.postVersion);
    CreatedCloses(w.db, input, now, w.postVersion);
    hide CreateTx, Create, Keyed, Appended, AppendedKind, HasItem, Sound, PhaseOk, WorldOk, ClosesAreLate;
    CreatedPostsOk(w, db', w.db.nextId);
    if Running(s) {
      RunningHandler(s);
      CreatedHandlerOk(w, db', w.db.nextId, RunTask(s), RunPhase(s), s.worker.torn);
    }
    hide PostsOk, HandlerOk;
  }

  lemma CreatedCloses(db: Db, input: CreateInput, now: int, postVersion: nat)
    requires ClosesAreLate(db) && CreateTx(db, input, now, postVersion).Ok? && db.nextId !in db.contracts
    requires forall id :: id in db.tasks ==> db.tasks[id].contract in db.contracts
    ensures ClosesAreLate(CreateTx(db, input, now, postVersion).value)
  {
    hide Create;
  }

  lemma CreatedPostsOk(w: World, db': Db, id: nat)
    requires PostsOk(w) && ClosesAreLate(db') && id !in w.db.contracts && id in db'.contracts
    requires db'.contracts == w.db.contracts[id := db'.contracts[id]] && db'.contracts[id].thread.None?
    requires Appended(w.db, db', id, 0)
    ensures PostsOk(w.(db := db'))
  {
    hide ClosesAreLate;
    var w' := w.(db := db');
    forall cid | cid in db'.contracts ensures Recovering(w', cid) {
      if cid != id {
        assert Recovering(w, cid);
        if IsSought(w, cid) { OwedGrows(w.db.tasks, db'.tasks, w.abandoned, cid, SoughtNeed(w, cid)); }
      }
    }
  }

  lemma CreatedHandlerOk(w: World, db': Db, id: nat, d: DueTask, phase: Phase, torn: set<nat>)
    requires HandlerOk(w, d, phase, torn) && id !in w.db.contracts
    requires id in db'.contracts && db'.contracts == w.db.contracts[id := db'.contracts[id]]
    ensures HandlerOk(w.(db := db'), d, phase, torn)
  {
  }

  /** The refresh that an accepted edit or Republish enqueues is there to be owed. */
  lemma AskingEnqueues(w: World, a: Action, now: int)
    requires WorldOk(w) && AsksRefresh(w, a, now) && (a.EditContract? ==> a.e.Entered())
    ensures var db' := Perform(w.db, a, now, w.postVersion);
      Owed(db'.tasks, w.abandoned, a.cid, Need(Refresh, 0, w.db.nextId)) || db'.contracts[a.cid].thread.None?
  {
    hide Keyed, TasksOk, ContractOk, ReportOk, Sound, DomainStep, EditTx, Perform;
    var db, cid := w.db, a.cid;
    SoundNow(w, cid);
    if a.EditContract? {
      AskingEdit(w, a.e, cid, now);
      PerformedEdit(w, a, now);
    } else {
      PerformedRepublish(w, a, now);
      EnqueueIsDomainStep(db, RepairKind(db.contracts[cid]), cid, false, now);
      assert IsPending(EnqueueTask(db, RepairKind(db.contracts[cid]), cid, false, now).tasks, db.nextId, cid,
                       Need(RepairKind(db.contracts[cid]), 0, db.nextId));
    }
  }

  lemma PerformedEdit(w: World, a: Action, now: int)
    requires a.EditContract? && a.cid in w.db.contracts && Perform(w.db, a, now, w.postVersion) != w.db
    ensures EditTx(w.db, a.cid, a.e, now) == Ok(Perform(w.db, a, now, w.postVersion))
  {
    hide EditTx;
  }

  lemma PerformedRepublish(w: World, a: Action, now: int)
    requires a.Republish? && a.cid in w.db.contracts
    ensures Perform(w.db, a, now, w.postVersion)
            == EnqueueTask(w.db, RepairKind(w.db.contracts[a.cid]), a.cid, false, now)
  {
  }

  lemma AskingEdit(w: World, e: Edit, cid: nat, now: int)
    requires Keyed(w.db) && cid in w.db.contracts && Sound(w.db.contracts[cid]) && e.Entered()
    ensures EditTx(w.db, cid, e, now).Ok? ==>
              var db' := EditTx(w.db, cid, e, now).value;
              cid in db'.contracts
              && (db'.contracts[cid].status == Open ==>
                    Owed(db'.tasks, w.abandoned, cid, Need(Refresh, 0, w.db.nextId)))
  {
    hide Keyed, Sound, EditTx, DomainChange, HasItem, Owed;
    if EditTx(w.db, cid, e, now).Ok? {
      EditTxIsDomainStep(w.db, cid, e, now);
      var db' := EditTx(w.db, cid, e, now).value;
      if db'.contracts[cid].status == Open {
        AppendedIsOwed(w.db, db', w.abandoned, cid, db'.contracts[cid].revision, Need(Refresh, 0, w.db.nextId));
      }
    }
  }

  lemma ActRecovers(s: State, a: Action, now: int)
    requires Inv(s) && Recovers(s) && OutsideEnabled(s, Act(a, now))
    ensures Recovers(s.(w := Acted(s.w, a, now)))
  {
    hide Inv, Recovers, Perform, CreateTx, Owed, Asked;
    if a.CreateContract? {
      CreatedOrKept(s.w, a, now);
      if CreateTx(s.w.db, a.input, now, s.w.postVersion).Ok? {
        CreateRecovers(s, a.input, now);
      } else {
        assert s.(w := s.w) == s;
      }
    } else {
      RepairRecovers(s, a, now);
      if AsksRefresh(s.w, a, now) {
        RepairKeeps(s, a, now);
        RepairedTables(s.w, a, now);
        AskedRecovers(s, a, now);
      }
    }
  }

  lemma CreatedOrKept(w: World, a: Action, now: int)
    requires a.CreateContract?
    ensures Acted(w, a, now) == w.(db := Kept(w.db, CreateTx(w.db, a.input, now, w.postVersion)))
  {
    hide CreateTx;
  }

  lemma AskedRecovers(s: State, a: Action, now: int)
    requires Inv(s) && OutsideEnabled(s, Act(a, now)) && AsksRefresh(s.w, a, now)
    requires var s' := s.(w := Repaired(s.w, a, now)); Inv(s') && Recovers(s')
    ensures Recovers(s.(w := Acted(s.w, a, now)))
  {
    var w' := Repaired(s.w, a, now);
    RepairedTables(s.w, a, now);
    hide Recovers, Perform, WorldOk, WorkerOk, Owed, Repaired;
    AskingEnqueues(s.w, a, now);
    if w'.db.contracts[a.cid].thread.None? {
      assert Asked(w', a.cid, s.w.db.nextId) == w';
    } else {
      if Running(s) { TaskAtHand(s); TaskIdsBelow(s.w); }
      AskedKeeps(s.(w := w'), a.cid, s.w.db.nextId);
    }
  }

  // ---- Posts ----

  lemma DeleteRecovers(s: State, thread: nat)
    requires Inv(s) && Recovers(s) && thread in s.w.posts
    ensures Recovers(Deleted(s, thread))
  {
    var w' := Deleted(s, thread).w;
    assert PostsOk(w') by {
      hide Owed, ClosesAreLate, Inv;
      forall cid | cid in w'.db.contracts ensures Recovering(w', cid) { assert Recovering(s.w, cid); }
    }
    hide Inv, PostsOk;
  }

  lemma NewPostsOk(w: World, revision: nat)
    requires PostsOk(w)
    ensures PostsOk(NewPost(w, revision)) && w.nextPost !in w.missing
  {
    hide Owed, ClosesAreLate;
    var w' := NewPost(w, revision);
    forall cid | cid in w'.db.contracts ensures Recovering(w', cid) { assert Recovering(w, cid); }
  }

  lemma NewPostRecovers(s: State, result: HandlerResult)
    requires Inv(s) && Recovers(s) && PostEnabled(s, CreateForumPost(result))
    ensures Recovers(NextPost(s, CreateForumPost(result)))
  {
    hide Inv, PhaseOk, Return, PostsOk;
    var w' := NewPost(s.w, RunPhase(s).prog.revision);
    NewPostsOk(s.w, RunPhase(s).prog.revision);
    HandlerMoves(s, w', After(result, Posted(RunPhase(s).prog, s.w.nextPost)));
  }

  /** Recording a thread whose post is there, or was deleted before anybody could ask for a refresh. */
  lemma RecordedPostsOk(w: World, cid: nat, thread: nat)
    requires PostsOk(w) && cid in w.db.contracts && (thread in w.missing ==> w.missing[thread].None?)
    ensures PostsOk(w.(db := SetThreadTx(w.db, cid, thread, w.postVersion)))
  {
    hide Owed;
    var w' := w.(db := SetThreadTx(w.db, cid, thread, w.postVersion));
    forall x | x in w'.db.contracts ensures Recovering(w', x) { assert Recovering(w, x); }
  }

  lemma RecordRecovers(s: State, result: HandlerResult)
    requires Inv(s) && Recovers(s) && PostEnabled(s, RecordThread(result))
    ensures Recovers(NextPost(s, RecordThread(result)))
  {
    RunningHandler(s);
    hide Inv, PhaseOk, Return, PostsOk;
    var w' := s.w.(db := SetThreadTx(s.w.db, RunContract(s), RunPhase(s).thread, s.w.postVersion));
    RecordedPostsOk(s.w, RunContract(s), RunPhase(s).thread);
    PhaseEnds(w', RunTask(s), Finished(result));
    hide HandlerOk;
    HandlerMoves(s, w', Finished(result));
  }

  /** A refresh or close that has a post to write works on its contract's own thread. */
  lemma WritesItsOwn(s: State, stale: bool)
    requires Inv(s) && Recovers(s) && Writes(s, stale)
    ensures var c, prog := s.w.db.contracts[RunContract(s)], RunPhase(s).prog;
      && prog.thread == c.thread && prog.thread.Some? && prog.postVersion == c.postVersion
      && prog.thread.value < s.w.nextPost
      && (c.status == Open ==> RunTask(s).task.kind == Refresh)
  {
    RunningHandler(s);
    LoadedSnapshot(s.w, RunTask(s).task, RunPhase(s).prog);
    TaskAtHand(s);
    hide Inv, PhaseOk, AllOwed, Sound, PayoutsOk, Owed, Recovering;
  }

  lemma RemoveRecovers(s: State)
    requires Inv(s) && Recovers(s) && PostEnabled(s, RemovePost)
    ensures Recovers(NextPost(s, RemovePost))
  {
    RunningHandler(s);
    WritesItsOwn(s, true);
    TaskIdsBelow(s.w);
    hide Inv, PhaseOk, Return, PostsOk, HandlerOk, Keyed, Untouched, TakenDown;
    var thread, d := RunPhase(s).prog.thread.value, RunTask(s);
    TakenDownPostsOk(s.w, RunContract(s), thread, d);
    PhaseEnds(TakenDown(s.w, thread, d.id), d, Gone);
    HandlerMoves(s, TakenDown(s.w, thread, d.id), Gone);
  }

  lemma TakenDownPostsOk(w: World, cid: nat, thread: nat, d: DueTask)
    requires PostsOk(w) && Keyed(w.db) && cid in w.db.contracts && w.db.contracts[cid].thread == Some(thread)
    requires thread < w.nextPost && Untouched(w.db.tasks, d) && d.task.contract == cid
    requires w.db.contracts[cid].status == Open ==> d.task.kind == Refresh
    ensures PostsOk(TakenDown(w, thread, d.id)) && TakenDown(w, thread, d.id).db == w.db
  {
    hide Keyed, ClosesAreLate;
    var w' := TakenDown(w, thread, d.id);
    forall x | x in w'.db.contracts ensures Recovering(w', x) {
      assert Recovering(w, x);
      if x != cid {
        OnePostEach(w.db, cid, x);
      } else if d.task.kind == Refresh {
        assert IsPending(w.db.tasks, d.id, cid, Need(Refresh, 0, d.id));
      }
    }
  }

  lemma RenderedPostsOk(w: World, thread: nat, revision: nat)
    requires PostsOk(w) && thread in w.posts
    ensures PostsOk(w.(posts := w.posts[thread := revision]))
  {
    var w' := w.(posts := w.posts[thread := revision]);
    assert w'.posts.Keys == w.posts.Keys;
    SameTables(w.db);
    GrowthStillOwed(w, w');
    hide PostsOk, StillOwed, ThreadsStay;
    ClosesNow(w);
    PostsFrame(w, w');
  }

  lemma ClosesNow(w: World)
    requires PostsOk(w)
    ensures ClosesAreLate(w.db)
  {
    hide ClosesAreLate, Recovering;
  }

  lemma RenderRecovers(s: State, result: HandlerResult)
    requires Inv(s) && Recovers(s) && PostEnabled(s, RenderPost(result))
    ensures Recovers(NextPost(s, RenderPost(result)))
  {
    RunningHandler(s);
    WritesItsOwn(s, false);
    hide Inv, PhaseOk, Return, PostsOk, HandlerOk, Untouched;
    var thread, revision := RunPhase(s).prog.thread.value, RunPhase(s).prog.revision;
    RenderedPostsOk(s.w, thread, revision);
    PhaseEnds(s.w.(posts := s.w.posts[thread := revision]), RunTask(s), Finished(result));
    HandlerMoves(s, s.w.(posts := s.w.posts[thread := revision]), Finished(result));
  }

  /** Finding the post gone, a refresh goes on to replace it; only a close is done with it. */
  lemma MissingRecovers(s: State)
    requires Inv(s) && Recovers(s) && PostEnabled(s, PostMissing)
    ensures Recovers(NextPost(s, PostMissing))
  {
    RunningHandler(s);
    hide Inv, PhaseOk, Return, PostsOk, HandlerOk, Untouched;
    var phase := if RunTask(s).task.kind == Refresh then Gone else Finished(Success);
    PhaseEnds(s.w, RunTask(s), phase);
    HandlerMoves(s, s.w, phase);
  }

  lemma RecreatedPostsOk(w: World, cid: nat, now: int)
    requires PostsOk(w) && Keyed(w.db) && cid in w.db.contracts
    ensures PostsOk(Recreated(w, cid, now))
    ensures var db' := Recreated(w, cid, now).db; cid in db'.contracts && db'.contracts[cid].thread.None?
  {
    RecreatedDb(w.db, cid, now);
    hide Keyed, Owed;
    var w' := Recreated(w, cid, now);
    GrowthStillOwed(w, w');
    forall x | x in w'.db.contracts ensures Recovering(w', x) { assert Recovering(w, x); }
  }

  lemma RecreateRecovers(s: State, now: int, result: HandlerResult)
    requires Inv(s) && Recovers(s) && PostEnabled(s, Recreate(now, result))
    ensures Recovers(NextPost(s, Recreate(now, result)))
  {
    RunningHandler(s);
    TaskIdsBelow(s.w);
    hide Inv, PhaseOk, PostsOk, HandlerOk, Untouched, Recreated, Keyed;
    RecreatedPostsOk(s.w, RunContract(s), now);
    PhaseEnds(Recreated(s.w, RunContract(s), now), RunTask(s), Finished(result));
    HandlerMoves(s, Recreated(s.w, RunContract(s), now), Finished(result));
  }

  // ---- The worker's loop ----

  lemma BegunPostsOk(w: World, d: DueTask)
    requires PostsOk(w) && Keyed(w.db) && Untouched(w.db.tasks, d) && d.task.contract in w.db.contracts
    ensures PostsOk(Begun(w, d)) && Begun(w, d).db == w.db
  {
    hide PostsOk, Keyed;
    AskedTables(w, d.task.contract, d.id);
    if d.task.kind == Refresh {
      assert IsPending(w.db.tasks, d.id, d.task.contract, Need(Refresh, 0, d.id));
      AskedPostsOk(w, d.task.contract, d.id);
    }
  }

  lemma BeginRecovers(s: State, handled: bool)
    requires Inv(s) && Recovers(s) && LoopEnabled(s, Begin(handled))
    ensures Recovers(NextLoop(s, Begin(handled)))
  {
    TaskAtHand(s);
    TaskIdsBelow(s.w);
    hide Inv, ContractOk, PostsOk, Keyed, IsNewest, Begun, Untouched;
    var w, d := s.w, RunTask(s);
    BegunPostsOk(w, d);
    hide HandlerOk, TaskOk;
    var phase := if handled then Loaded(w.db.contracts[d.task.contract]) else Finished(Unhandled);
    BegunHandlerOk(Begun(w, d), d, phase);
    HandlerMoves(s, Begun(w, d), phase);
  }

  lemma BegunHandlerOk(w: World, d: DueTask, phase: Phase)
    requires d.task.contract in w.db.contracts
    requires phase == Loaded(w.db.contracts[d.task.contract]) || phase == Finished(Unhandled)
    ensures HandlerOk(w, d, phase, {})
  {
  }

  lemma AskedTables(w: World, cid: nat, id: nat)
    ensures Asked(w, cid, id).db == w.db
  {
  }

  lemma EndRecovers(s: State, result: HandlerResult)
    requires Inv(s) && Recovers(s) && Running(s)
    requires result == Success ==> RunContract(s) in s.w.db.contracts && Shown(s.w, RunTask(s), {})
    ensures Recovers(Move(s, s.w, Finished(result)))
  {
    RunningHandler(s);
    hide Inv, PhaseOk, PostsOk, HandlerOk, Untouched;
    PhaseEnds(s.w, RunTask(s), Finished(result));
    HandlerMoves(s, s.w, Finished(result));
  }

  /** A refresh that returns without touching anything has read no thread, or an ended contract. */
  lemma ReturnShows(w: World, d: DueTask, phase: Phase)
    requires PhaseOk(w, d.task, phase) && Return(d.task, phase) == Some(Success)
    ensures Shown(w, d, {})
  {
    hide Owed, Rewarded;
  }

  lemma ReturnRecovers(s: State)
    requires Inv(s) && Recovers(s) && LoopEnabled(s, ReturnEarly)
    ensures Recovers(NextLoop(s, ReturnEarly))
  {
    RunningHandler(s);
    if Return(RunTask(s).task, RunPhase(s)) == Some(Success) { ReturnShows(s.w, RunTask(s), RunPhase(s)); }
    hide Inv, PhaseOk, Recovers, Return, Shown;
    EndRecovers(s, Return(RunTask(s).task, RunPhase(s)).value);
  }

  /** Between two tasks nothing is asked of the world but its posts. */
  lemma NextTaskRecovers(s: State, w': World)
    requires AtTask(s) && PostsOk(w')
    ensures Recovers(Advance(s, w'))
  {
  }

  /** What a rewritten row was for is still owed where another row or its failure stands for it. */
  lemma RewrotePostsOk(w: World, w': World, x: nat)
    requires PostsOk(w) && TasksOk(w) && Rewrote(w, w', x)
    requires w'.db.tasks[x].status == Done ==>
               forall cid :: IsSought(w, cid) ==> Replaceable(w, x, cid, SoughtNeed(w, cid))
    ensures PostsOk(w')
  {
    NotGivenUp(w, x);
    hide TasksOk, Owed;
    forall cid | cid in w'.db.contracts ensures Recovering(w', cid) {
      assert Recovering(w, cid);
      if IsSought(w, cid) {
        OwedElsewhere(w.db.tasks, w'.db.tasks, w.abandoned, w'.abandoned, x, cid, SoughtNeed(w, cid));
      }
    }
  }

  /** Another pending row does for the need what this one would. */
  ghost predicate Replaceable(w: World, x: nat, cid: nat, need: Need) {
    IsPending(w.db.tasks, x, cid, need) ==> exists y :: y != x && IsPending(w.db.tasks, y, cid, need)
  }

  /** A refresh that succeeded was sought by nobody since its contract's post went missing. */
  lemma SuccessIsReplaceable(w: World, d: DueTask, torn: set<nat>, cid: nat)
    requires HandlerOk(w, d, Finished(Success), torn) && PostsAccountedFor(w) && Untouched(w.db.tasks, d)
    requires IsSought(w, cid)
    ensures Replaceable(w, d.id, cid, SoughtNeed(w, cid))
  {
  }

  lemma MarkRecovers(s: State, marked: bool, maxAttempts: int, now: int)
    requires Inv(s) && Recovers(s) && LoopEnabled(s, Mark(marked, maxAttempts, now))
    ensures Recovers(NextLoop(s, Mark(marked, maxAttempts, now)))
  {
    RunningHandler(s);
    var w, d, result := s.w, RunTask(s), RunPhase(s).result;
    assert TasksOk(w) && PostsAccountedFor(w) by { hide ContractOk, TaskOk, InOrder, GivenUp, HandlerOk; }
    hide Inv, PhaseOk, Marked, TasksOk, HandlerOk, Replaceable, PostsAccountedFor, Untouched;
    if marked {
      MarkRewrites(w, d, result, maxAttempts, now);
      var w' := Marked(w, d, result, maxAttempts, now);
      if w'.db.tasks[d.id].status == Done {
        forall cid | IsSought(w, cid) ensures Replaceable(w, d.id, cid, SoughtNeed(w, cid)) {
          SuccessIsReplaceable(w, d, s.worker.torn, cid);
        }
      }
      hide PostsOk, Rewrote;
      RewrotePostsOk(w, w', d.id);
      NextTaskRecovers(s, w');
    } else {
      NextTaskRecovers(s, w);
    }
  }

  lemma SupersedeRecovers(s: State, marked: bool, now: int)
    requires Inv(s) && Recovers(s) && LoopEnabled(s, SupersedeTask(marked, now))
    ensures Recovers(NextLoop(s, SupersedeTask(marked, now)))
  {
    var w, d := s.w, RunTask(s);
    if marked {
      var k :| s.worker.i < k < |s.worker.due| && s.worker.due[k].Key() == d.Key();
      ScannedPair(s, k);
      var e := s.worker.due[k];
      SupersededIsDispensable(w, d, e, now);
      assert TasksOk(w) by { hide ContractOk, TaskOk, InOrder, GivenUp; }
      TaskAtHand(s);
      hide Inv, TasksOk, PostsOk, Superseded, Rewrote, Untouched, TaskOk, ContractOk;
      forall cid, need: Need ensures Replaceable(w, d.id, cid, need) { NewerReplaces(w, d, e, cid, need); }
      RewrotePostsOk(w, Superseded(w, d.id, now), d.id);
      NextTaskRecovers(s, Superseded(w, d.id, now));
    } else {
      NextTaskRecovers(s, w);
    }
  }

  lemma NewerReplaces(w: World, d: DueTask, e: DueTask, cid: nat, need: Need)
    requires TasksOk(w) && Untouched(w.db.tasks, d) && Untouched(w.db.tasks, e) && d.id < e.id && d.Key() == e.Key()
    ensures Replaceable(w, d.id, cid, need)
  {
    if IsPending(w.db.tasks, d.id, cid, need) { NewerStands(w, d, e, need); }
  }

  lemma CleanRecovers(s: State, doneCutoff: int, failedCutoff: int)
    requires Inv(s) && Recovers(s)
    ensures Recovers(s.(w := Cleaned(s.w, doneCutoff, failedCutoff)))
  {
    var w, w' := s.w, Cleaned(s.w, doneCutoff, failedCutoff);
    ClosesNow(w);
    SameTables(w.db);
    ClosesStayLate(w.db, w'.db);
    forall cid, need: Need | Owed(w.db.tasks, w.abandoned, cid, need)
      ensures Owed(w'.db.tasks, w'.abandoned, cid, need)
    {
      OwedSurvivesCleanup(w.db.tasks, w.abandoned, doneCutoff, failedCutoff, cid, need);
    }
    assert StillOwed(w, w');
    hide Inv, Recovers, StillOwed, ClosesAreLate, ThreadsStay, Cleanup;
    TablesKeep(s, w');
  }

  lemma OutsideRecovers(s: State, o: OutsideStep)
    requires Inv(s) && Recovers(s) && OutsideEnabled(s, o)
    ensures Recovers(NextOutside(s, o))
  {
    hide Inv, Acted, Cleanup, Render, Deleted, Recovering, ClosesAreLate, HandlerOk;
    match o {
      case Act(a, now) => ActRecovers(s, a, now);
      case DeletePostByHand(thread) => if thread in s.w.posts { DeleteRecovers(s, thread); }
      case RenderAfterPaid(cid) => SidelineRecovers(s, NextOutside(s, o).w);
      case Crash =>
      case Deploy(version, decimals) => IdleRecovers(s, NextOutside(s, o).w);
      case Clean(doneCutoff, failedCutoff) => CleanRecovers(s, doneCutoff, failedCutoff);
    }
  }

  /** More reports, or another build. */
  lemma SidelinePostsOk(w: World, w': World)
    requires PostsOk(w) && w'.db == w.db && w'.abandoned == w.abandoned
    requires w'.posts == w.posts && w'.missing == w.missing && w'.nextPost == w.nextPost
    ensures PostsOk(w')
  {
    ClosesNow(w);
    SameTables(w.db);
    hide PostsOk, ClosesAreLate, ThreadsStay;
    PostsFrame(w, w');
  }

  lemma IdleRecovers(s: State, w': World)
    requires Recovers(s) && w'.db == s.w.db && w'.abandoned == s.w.abandoned
    requires w'.posts == s.w.posts && w'.missing == s.w.missing && w'.nextPost == s.w.nextPost
    ensures Recovers(State(w', Idle))
  {
    hide PostsOk, HandlerOk;
    SidelinePostsOk(s.w, w');
  }

  lemma SidelineRecovers(s: State, w': World)
    requires Recovers(s) && OnlyTables(s.w, w') && w'.db == s.w.db
    ensures Recovers(s.(w := w'))
  {
    hide PostsOk, HandlerOk, ThreadsStay;
    SidelinePostsOk(s.w, w');
    SameTables(s.w.db);
    if Running(s) { HandlerFrame(s.w, w', RunTask(s), RunPhase(s), s.worker.torn); }
  }

  lemma LoopRecovers(s: State, l: LoopStep)
    requires Inv(s) && Recovers(s) && LoopEnabled(s, l)
    ensures Recovers(NextLoop(s, l))
  {
    hide Inv, IsDue, Marked, Superseded, Return, IsNewest, Begun, PostsOk, HandlerOk;
    match l {
      case Scan(due, now, limit) =>
      case SupersedeTask(marked, now) => SupersedeRecovers(s, marked, now);
      case Begin(handled) => BeginRecovers(s, handled);
      case Mark(marked, maxAttempts, now) => MarkRecovers(s, marked, maxAttempts, now);
      case Fail(permanent) => EndRecovers(s, if permanent then Permanent else Transient);
      case ReturnEarly => ReturnRecovers(s);
    }
  }

  lemma PostRecovers(s: State, p: PostStep)
    requires Inv(s) && Recovers(s) && PostEnabled(s, p)
    ensures Recovers(NextPost(s, p))
  {
    hide Inv, Recovers, PostEnabled, NextPost;
    match p {
      case CreateForumPost(result) => NewPostRecovers(s, result);
      case RecordThread(result) => RecordRecovers(s, result);
      case RemovePost => RemoveRecovers(s);
      case RenderPost(result) => RenderRecovers(s, result);
      case PostMissing => MissingRecovers(s);
      case Recreate(now, result) => RecreateRecovers(s, now, result);
    }
  }

  /** The payout handler writes payout columns and reports, and no task. */
  ghost predicate PaysOnly(s: State, s': State) {
    && AtTask(s)
    && OnlyTables(s.w, s'.w) && ThreadsStay(s.w.db, s'.w.db) && s'.w.db.tasks == s.w.db.tasks
    && s'.worker.Busy? && s'.worker.run.Some? && s' == Move(s, s'.w, s'.worker.run.value)
    && var phase := s'.worker.run.value;
    phase.Finished? || phase.RowsRead? || phase.Reporting? || phase.Reported?
  }

  lemma SavingPaysOnly(s: State, rows: seq<Payout>, result: HandlerResult)
    requires Handling(s, PayoutReport) && RunPhase(s).RowsRead?
    ensures PaysOnly(s, SaveRows(s, rows, result))
  {
    hide InsertRows, Storable, Precision;
  }

  lemma ReportingPaysOnly(s: State, q: PayoutStep)
    requires PayEnabled(s, q) && !q.ComputeRows?
    ensures PaysOnly(s, NextPay(s, q))
  {
    hide ComputedFrom, Return, Render, SaveRows;
  }

  lemma PayTables(s: State, q: PayoutStep)
    requires PayEnabled(s, q)
    ensures PaysOnly(s, NextPay(s, q)) && RunTask(s).task.kind == PayoutReport
  {
    hide ComputedFrom, Return, Render, SaveRows, PaysOnly;
    if q.ComputeRows? { SavingPaysOnly(s, q.rows, q.result); } else { ReportingPaysOnly(s, q); }
    assert AtTask(s);
  }

  lemma PayRecovers(s: State, q: PayoutStep)
    requires Inv(s) && Recovers(s) && PayEnabled(s, q)
    ensures Recovers(NextPay(s, q))
  {
    PayTables(s, q);
    RunningHandler(s);
    ClosesNow(s.w);
    hide Inv, PayEnabled, NextPay, PostsOk, HandlerOk, PhaseOk, Untouched, ClosesAreLate;
    var s' := NextPay(s, q);
    GrowthStillOwed(s.w, s'.w);
    ClosesStayLate(s.w.db, s'.w.db);
    PostsFrame(s.w, s'.w);
    PhaseEnds(s'.w, RunTask(s), s'.worker.run.value);
    HandlerMoves(s, s'.w, s'.worker.run.value);
  }

  lemma StepRecovers(s: State, l: Step)
    requires Inv(s) && Recovers(s) && Enabled(s, l)
    ensures Recovers(Next(s, l))
  {
    hide Inv, Recovers, OutsideEnabled, LoopEnabled, PostEnabled, PayEnabled, NextOutside, NextLoop, NextPost, NextPay;
    match l {
      case Outside(o) => OutsideRecovers(s, o);
      case Loop(l) => LoopRecovers(s, l);
      case Post(p) => PostRecovers(s, p);
      case Pay(q) => PayRecovers(s, q);
    }
  }

  lemma {:induction false} RunRecovers(steps: seq<Step>)
    ensures Inv(Run(steps)) && Recovers(Run(steps))
  {
    RunKeeps(steps);
    hide Inv, Recovers, Enabled, Next;
    if steps == [] {
      NothingToRecover();
    } else {
      RunRecovers(steps[..|steps| - 1]);
      var s, l := Run(steps[..|steps| - 1]), steps[|steps| - 1];
      if Enabled(s, l) { StepRecovers(s, l); }
    }
  }

  lemma NothingToRecover()
    ensures Recovers(INIT)
  {
  }

  // ---- What every run guarantees ----

  /**
   * A refresh that is about to be marked as done, of a contract that is still open, has left the contract's post
   * live and in the current format, or the contract without its thread and a create owed since; unless the post was
   * deleted by hand after the handler's last step.
   */
  lemma RefreshBringsThePostBack(steps: seq<Step>)
    requires var s := Run(steps);
      Running(s) && RunPhase(s) == Finished(Success) && RunTask(s).task.kind == Refresh
    ensures var s := Run(steps);
      var w, cid := s.w, RunContract(s);
      && cid in w.db.contracts
      && var c := w.db.contracts[cid];
      c.status == Open ==>
        if c.thread.None?
        then Owed(w.db.tasks, w.abandoned, cid, Need(CreateThread, 0, Epoch(w.since, cid, CreateThread)))
        else c.thread.value in s.worker.torn || (c.thread.value in w.posts && c.postVersion >= w.postVersion)
  {
    hide Run, Inv, Owed, PhaseOk, PostsOk;
    RunRecovers(steps);
    RunningHandler(Run(steps));
    ThreadIsAlwaysOwed(steps, RunContract(Run(steps)));
  }

  /**
   * In every reachable state an open contract's post is live; or it was deleted by hand, and no refresh was asked for
   * or begun since; or a refresh of the contract, the last that was or a later one, is pending or was given up on.
   */
  lemma LostPostIsSought(steps: seq<Step>, cid: nat)
    requires cid in Run(steps).w.db.contracts
    ensures var w := Run(steps).w;
      var c := w.db.contracts[cid];
      c.status == Open && c.thread.Some? && c.thread.value !in w.posts ==>
        && c.thread.value in w.missing
        && match w.missing[c.thread.value]
           case None => true
           case Some(id) => Owed(w.db.tasks, w.abandoned, cid, Need(Refresh, 0, id))
  {
    hide Run, Owed, ClosesAreLate, HandlerOk, Sound, PayoutsOk, AllOwed, WorldOk, WorkerOk;
    RunRecovers(steps);
    ReachableContract(steps, cid);
    assert Recovering(Run(steps).w, cid);
  }

  // ---- A lost post that was asked for ----

  /** Once a refresh was asked for or begun, the record of a lost post only moves on to later ones. */
  predicate StillSought(w: World, w': World) {
    forall t :: t in w.missing && w.missing[t].Some? ==>
      t in w'.missing && w'.missing[t].Some? && w'.missing[t].value >= w.missing[t].value
  }

  lemma StepStillSought(s: State, l: Step)
    requires Recovers(s) && Enabled(s, l)
    ensures StillSought(s.w, Next(s, l).w)
  {
    hide OutsideEnabled, LoopEnabled, PostEnabled, PayEnabled, NextLoop, NextPost, NextPay, Recovering, HandlerOk;
    match l {
      case Outside(o) => OutsideStillSought(s, o);
      case Loop(l) => LoopStillSought(s, l);
      case Post(p) => PostStillSought(s, p);
      case Pay(q) => PayTables(s, q);
    }
  }

  lemma OutsideStillSought(s: State, o: OutsideStep)
    requires PostsAccountedFor(s.w) && OutsideEnabled(s, o)
    ensures StillSought(s.w, NextOutside(s, o).w)
  {
    hide Perform, Cleanup, Render, AsksRefresh;
    if o.Act? { RepairedTables(s.w, o.a, o.now); }
  }

  lemma LoopStillSought(s: State, l: LoopStep)
    requires LoopEnabled(s, l)
    ensures StillSought(s.w, NextLoop(s, l).w)
  {
    hide IsDue, Settle, Supersede, Return, IsNewest;
  }

  lemma PostStillSought(s: State, p: PostStep)
    requires PostEnabled(s, p)
    ensures StillSought(s.w, NextPost(s, p).w)
  {
    hide Return;
  }

  lemma {:induction false} RunStillSought(steps: seq<Step>, more: seq<Step>)
    ensures StillSought(Run(steps).w, Run(steps + more).w)
  {
    hide Inv, Recovers, Enabled, Next, StillSought;
    if more == [] {
      assert steps + more == steps;
      SoughtSelf(Run(steps).w);
    } else {
      var n := |more| - 1;
      RunStillSought(steps, more[..n]);
      var s, l := Run(steps + more[..n]), more[n];
      assert (steps + more)[..|steps + more| - 1] == steps + more[..n];
      RunRecovers(steps + more[..n]);
      if Enabled(s, l) {
        StepStillSought(s, l);
        SoughtChain(Run(steps).w, s.w, Next(s, l).w);
      }
    }
  }

  lemma SoughtSelf(w: World)
    ensures StillSought(w, w)
  {
  }

  lemma SoughtChain(a: World, b: World, c: World)
    requires StillSought(a, b) && StillSought(b, c)
    ensures StillSought(a, c)
  {
  }

  /** An accepted edit, or Republish, of a contract that is open after it and whose post is gone. */
  predicate AsksForLostPost(w: World, a: Action, now: int) {
    && AsksRefresh(w, a, now)
    && w.db.contracts[a.cid].thread.Some? && w.db.contracts[a.cid].thread.value !in w.posts
  }

  lemma AskedIsSought(s: State, a: Action, now: int)
    requires Inv(s) && Recovers(s) && OutsideEnabled(s, Act(a, now)) && AsksForLostPost(s.w, a, now)
    ensures var thread, w' := s.w.db.contracts[a.cid].thread.value, Acted(s.w, a, now);
      thread in w'.missing && w'.missing[thread].Some? && w'.missing[thread].value >= s.w.db.nextId
  {
    hide Perform, WorkerOk, HandlerOk, Recovering, ClosesAreLate, AllOwed, Sound, PayoutsOk;
    RepairedTables(s.w, a, now);
    ContractNow(s.w, a.cid);
    SoundNow(s.w, a.cid);
    ThreadKept(s.w.db, a, now, s.w.postVersion);
  }

  lemma ThreadKept(db: Db, a: Action, now: int, postVersion: nat)
    requires Keyed(db) && (a.EditContract? || a.Republish?) && (a.EditContract? ==> a.e.Entered())
    requires a.cid in db.contracts && Sound(db.contracts[a.cid])
    ensures var db' := Perform(db, a, now, postVersion);
      a.cid in db'.contracts && db'.contracts[a.cid].thread == db.contracts[a.cid].thread
  {
    hide Perform, Keyed, Sound, DomainStep;
    ActionIsDomainStep(db, a, now, postVersion);
    if Perform(db, a, now, postVersion) != db { StepStays(db, Perform(db, a, now, postVersion), a.cid); }
  }

  /** The contract has ended, or let go of the thread, or a refresh from this one on is pending or was given up on. */
  ghost predicate NotForgotten(w: World, cid: nat, thread: nat, id: nat) {
    && cid in w.db.contracts
    && var c := w.db.contracts[cid];
    || c.status != Open
    || c.thread != Some(thread)
    || Owed(w.db.tasks, w.abandoned, cid, Need(Refresh, 0, id))
  }

  lemma SoughtIsNotForgotten(steps: seq<Step>, more: seq<Step>, cid: nat, thread: nat, id: nat)
    requires var w := Run(steps).w;
      cid in w.db.contracts && thread in w.missing && w.missing[thread].Some? && w.missing[thread].value >= id
    ensures NotForgotten(Run(steps + more).w, cid, thread, id)
  {
    hide Run, Owed;
    RunStillSought(steps, more);
    RunFreezes(steps, more);
    LostPostIsSought(steps + more, cid);
    MissingIsGone(steps + more);
    SoughtSince(Run(steps + more).w, cid, id);
  }

  /**
   * A lost post that was asked for is not forgotten. Once an edit is accepted or Republish pressed while an open
   * contract's post is gone, then in every continuation of the run the contract has ended, or it let go of that
   * thread, or a refresh enqueued by that very request or later is pending or was given up on.
   */
  lemma AskedPostIsNotForgotten(steps: seq<Step>, a: Action, now: int, more: seq<Step>)
    requires var s := Run(steps); OutsideEnabled(s, Act(a, now)) && AsksForLostPost(s.w, a, now)
    ensures var w := Run(steps).w;
      NotForgotten(Run(steps + [Outside(Act(a, now))] + more).w, a.cid, w.db.contracts[a.cid].thread.value,
                   w.db.nextId)
  {
    hide Run, Inv, Recovers, NotForgotten, Acted, OutsideEnabled, Perform;
    var s, asked := Run(steps), steps + [Outside(Act(a, now))];
    RunRecovers(steps);
    RunOneMore(steps, Outside(Act(a, now)));
    AskedIsSought(s, a, now);
    RunFreezes(steps, [Outside(Act(a, now))]);
    SoughtIsNotForgotten(asked, more, a.cid, s.w.db.contracts[a.cid].thread.value, s.w.db.nextId);
  }

  /** Likewise once a refresh begins while its contract's post is gone, whatever becomes of its handler. */
  lemma MetPostIsNotForgotten(steps: seq<Step>, handled: bool, more: seq<Step>)
    requires var s := Run(steps);
      && Enabled(s, Loop(Begin(handled))) && RunTask(s).task.kind == Refresh
      && RunContract(s) in s.w.db.contracts
      && var thread := s.w.db.contracts[RunContract(s)].thread;
      thread.Some? && thread.value !in s.w.posts
    ensures var s := Run(steps);
      NotForgotten(Run(steps + [Loop(Begin(handled))] + more).w, RunContract(s),
                   s.w.db.contracts[RunContract(s)].thread.value, RunTask(s).id)
  {
    var s, begun := Run(steps), steps + [Loop(Begin(handled))];
    RunRecovers(steps);
    RunOneMore(steps, Loop(Begin(handled)));
    BegunIsSought(s, handled);
    hide Run, Inv, Recovers, NotForgotten, Enabled, Next;
    SoughtIsNotForgotten(
      begun, more, RunContract(s), s.w.db.contracts[RunContract(s)].thread.value, RunTask(s).id);
  }

  lemma BegunIsSought(s: State, handled: bool)
    requires Inv(s) && Recovers(s) && LoopEnabled(s, Begin(handled)) && RunTask(s).task.kind == Refresh
    requires RunContract(s) in s.w.db.contracts
    requires var thread := s.w.db.contracts[RunContract(s)].thread; thread.Some? && thread.value !in s.w.posts
    ensures var thread, w' := s.w.db.contracts[RunContract(s)].thread.value, NextLoop(s, Begin(handled)).w;
      && RunContract(s) in w'.db.contracts
      && thread in w'.missing && w'.missing[thread].Some? && w'.missing[thread].value >= RunTask(s).id
  {
    hide WorkerOk, HandlerOk, Recovering, ClosesAreLate, AllOwed, Sound, PayoutsOk, IsNewest;
    ContractNow(s.w, RunContract(s));
  }

  lemma RunOneMore(steps: seq<Step>, l: Step)
    requires Enabled(Run(steps), l)
    ensures Run(steps + [l]) == Next(Run(steps), l)
  {
    var all := steps + [l];
    assert all[..|all| - 1] == steps;
    hide Next, Enabled;
  }

  lemma MissingIsGone(steps: seq<Step>)
    ensures forall t :: t in Run(steps).w.missing ==> t !in Run(steps).w.posts
  {
    hide Run, Inv, Recovering, ClosesAreLate, HandlerOk;
    RunRecovers(steps);
  }

  /** Owed from a later task on is owed from an earlier one on. */
  lemma SoughtSince(w: World, cid: nat, id: nat)
    ensures forall later: nat :: later >= id && Owed(w.db.tasks, w.abandoned, cid, Need(Refresh, 0, later)) ==>
              Owed(w.db.tasks, w.abandoned, cid, Need(Refresh, 0, id))
  {
    forall later: nat | later >= id && Owed(w.db.tasks, w.abandoned, cid, Need(Refresh, 0, later))
      ensures Owed(w.db.tasks, w.abandoned, cid, Need(Refresh, 0, id))
    {
      if x :| IsPending(w.db.tasks, x, cid, Need(Refresh, 0, later)) {
        assert IsPending(w.db.tasks, x, cid, Need(Refresh, 0, id));
      } else {
        var x :| IsAbandoned(w.abandoned, x, cid, Need(Refresh, 0, later));
        assert IsAbandoned(w.abandoned, x, cid, Need(Refresh, 0, id));
      }
    }
  }

  // ---- A contract nothing is left to do for ----

  /** No task of the contract is pending, and since the last repair of its kind none was abandoned. */
  predicate Quiet(w: World, cid: nat) {
    && (forall id :: id in w.db.tasks && w.db.tasks[id].contract == cid ==> w.db.tasks[id].status != Pending)
    && (forall id :: id in w.abandoned && w.abandoned[id].contract == cid ==>
          id < Epoch(w.since, cid, w.abandoned[id].kind))
  }

  lemma NothingOwed(w: World, cid: nat, kind: Kind, revision: nat)
    requires Quiet(w, cid)
    ensures !Owed(w.db.tasks, w.abandoned, cid, Need(kind, revision, Epoch(w.since, cid, kind)))
  {
  }

  lemma NobodySeeks(w: World, cid: nat, id: nat)
    requires Quiet(w, cid) && id >= Epoch(w.since, cid, Refresh)
    ensures !Owed(w.db.tasks, w.abandoned, cid, Need(Refresh, 0, id))
  {
  }

  /**
   * When a contract is quiet, everything agrees with its row, however other contracts fare: it has its thread, a
   * live post shows the committed revision, and a rewarded completion has its payout rows. Where an open contract's
   * post is gone, it was deleted by hand after every refresh that was asked for or begun, but for those from before
   * the last repair that were given up on.
   */
  lemma QuietMeansConsistent(steps: seq<Step>, cid: nat)
    requires cid in Run(steps).w.db.contracts && Quiet(Run(steps).w, cid)
    ensures var w := Run(steps).w;
      var c := w.db.contracts[cid];
      && c.thread.Some? && (c.thread.value in w.posts ==> w.posts[c.thread.value] == c.revision)
      && (c.status == Completed && c.credits.Some? && c.credits.value > 0 && c.factor > 0 ==> c.payouts != [])
      && (c.status == Open && c.thread.value !in w.posts ==>
            && c.thread.value in w.missing
            && match w.missing[c.thread.value]
               case None => true
               case Some(id) => id < Epoch(w.since, cid, Refresh))
  {
    hide Run, Owed, Quiet;
    var w := Run(steps).w;
    var c := w.db.contracts[cid];
    LostPostIsSought(steps, cid);
    if c.thread.Some? && c.thread.value in w.missing && w.missing[c.thread.value].Some?
       && w.missing[c.thread.value].value >= Epoch(w.since, cid, Refresh) {
      NobodySeeks(w, cid, w.missing[c.thread.value].value);
    }
    NoUpdateIsLost(steps, cid);
    ThreadIsAlwaysOwed(steps, cid);
    NoPayoutIsLost(steps, cid);
    NothingOwed(w, cid, CreateThread, 0);
    NothingOwed(w, cid, PayoutReport, 0);
    NothingOwed(w, cid, UpdateKind(w.db.contracts[cid]), w.db.contracts[cid].revision);
  }
}
