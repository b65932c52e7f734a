/**
 * The whole system as small steps: people's transactions, the sweeper, forum posts deleted by hand, deployments
 * and crashes interleave freely with the one outbox worker, whose handlers read, call Discord and write in
 * separate steps. What the outbox promises is proved of every state such a run can reach.
 */
module Protocol {
  import opened Prelude
  import opened Contracts
  import opened Ledger
  import opened Outbox
  import opened Transactions
  import opened Payouts

  // ---- States ----

  /** Where the running handler is. `prog` is the contract as the handler read it. */
  datatype Phase =
    | Loaded(prog: Contract)
    | Posted(prog: Contract, thread: nat)
    | Gone
    | RowsRead(prog: Contract, rows: seq<Payout>)
    | Reporting(prog: Contract, rows: seq<Payout>)
    | Reported(report: Report)
    | Finished(result: HandlerResult)
  {
    predicate HasProg() { Loaded? || Posted? || RowsRead? || Reporting? }
  }

  /** `torn` holds the posts deleted by hand since the running handler's last step. */
  datatype Worker = Idle | Busy(due: seq<DueTask>, i: nat, run: Option<Phase>, torn: set<nat>)

  /** A payout report as somebody can see it. */
  datatype Rendering = Rendering(contract: nat, figures: Figures, rows: seq<Payout>)

  /**
   * Everything but the worker's own memory. `posts` maps each live forum post to the contract revision it shows.
   * `missing` holds every post that is gone: with None while it was only deleted by hand, else with the latest
   * refresh that was asked for, or began, or took it down itself, while its contract lacked it. `abandoned` keeps
   * every task the worker gave up on, which cleanup later deletes from the table. `since` is a contract's epoch for
   * a kind of task: the id of the first such task after its last repair. `reports` is every payout report ever
   * rendered. `postVersion` and `payoutDecimals` are what the running build uses.
   */
  datatype World = World(
    db: Db, posts: map<nat, nat>, missing: map<nat, Option<nat>>, nextPost: nat, postVersion: nat,
    payoutDecimals: nat,
    abandoned: Table, since: Epochs, reports: seq<Rendering>)

  type Epochs = map<(nat, Kind), nat>

  function Epoch(since: Epochs, cid: nat, kind: Kind): nat {
    if (cid, kind) in since then since[(cid, kind)] else 0
  }

  /** A crash loses the worker and nothing else. */
  datatype State = State(w: World, worker: Worker)

  const INIT := State(World(Db(map[], map[], 0), map[], map[], 0, 0, 0, map[], map[], []), Idle)

  // ---- Steps ----

  /** Transactions of the console, the public panel and the sweeper. */
  datatype Action =
    | CreateContract(input: CreateInput)
    | EditContract(cid: nat, e: Edit)
    | CancelContract(cid: nat)
    | ExpireContract(cid: nat)
    | NotifyContract(cid: nat)
    | Republish(cid: nat)
    | Reprint(cid: nat)
    | MarkPaid(cid: nat, actor: string)

  /** What happens around the worker. */
  datatype OutsideStep =
    | Act(a: Action, now: int)
    | DeletePostByHand(thread: nat)
    | RenderAfterPaid(cid: nat)
    | Crash
    | Deploy(postVersion: nat, payoutDecimals: int)
    | Clean(doneCutoff: int, failedCutoff: int)

  /** The worker's loop, and the two ways any handler can end: failing, or returning without touching anything. */
  datatype LoopStep =
    | Scan(due: seq<DueTask>, now: int, limit: nat)
    | SupersedeTask(marked: bool, now: int)
    | Begin(handled: bool)
    | Mark(marked: bool, maxAttempts: int, now: int)
    | Fail(permanent: bool)
    | ReturnEarly

  /**
   * The steps of the create, refresh and close handlers. A step with a `result` takes effect; the result is what
   * the handler is told, so it may be an error all the same.
   */
  datatype PostStep =
    | CreateForumPost(result: HandlerResult)
    | RecordThread(result: HandlerResult)
    | RemovePost
    | RenderPost(result: HandlerResult)
    | PostMissing
    | Recreate(now: int, result: HandlerResult)

  /** The steps of the payout handler. */
  datatype PayoutStep =
    | ReadRows
    | ComputeRows(prices: map<string, nat>, res: PayoutResult, rows: seq<Payout>, result: HandlerResult)
    | ReuseRows
    | PostReport(report: Report, result: HandlerResult)
    | LatchReport(result: HandlerResult)

  datatype Step = Outside(o: OutsideStep) | Loop(l: LoopStep) | Post(p: PostStep) | Pay(q: PayoutStep)

  /** An action on the database; a refused one changes nothing. */
  function Perform(db: Db, a: Action, now: int, postVersion: nat): Db {
    if a.CreateContract? then Kept(db, CreateTx(db, a.input, now, postVersion))
    else if a.cid !in db.contracts then db
    else match a
      case EditContract(cid, e) => Kept(db, EditTx(db, cid, e, now))
      case CancelContract(cid) => Kept(db, CancelTx(db, cid, now))
      case ExpireContract(cid) => ExpireTx(db, cid, now)
      case NotifyContract(cid) => NotifyTx(db, cid, now)
      case Republish(cid) => RepublishTx(db, cid, now)
      case Reprint(cid) => Kept(db, RepostTx(db, cid, now))
      case MarkPaid(cid, actor) => MarkPaidTx(db, cid, actor)
      case CreateContract(_) => db
  }

  function Kept(db: Db, r: Result<Db>): Db {
    match r case Ok(db') => db' case Err(_) => db
  }

  /** A repair starts a new epoch with the task it is about to enqueue. */
  function Raised(w: World, cid: nat, kind: Kind): World {
    w.(since := w.since[(cid, kind) := w.db.nextId])
  }

  /** A refresh of this id is asked for, or begins, where the post may be gone. */
  function Sought(missing: map<nat, Option<nat>>, thread: nat, id: nat): map<nat, Option<nat>> {
    var known := thread in missing && missing[thread].Some? && missing[thread].value > id;
    if known then missing else missing[thread := Some(id)]
  }

  /** The contract's post is gone. */
  predicate LacksPost(w: World, cid: nat) {
    && cid in w.db.contracts && w.db.contracts[cid].thread.Some?
    && w.db.contracts[cid].thread.value in w.missing
  }

  function Asked(w: World, cid: nat, id: nat): World {
    if LacksPost(w, cid) then w.(missing := Sought(w.missing, w.db.contracts[cid].thread.value, id)) else w
  }

  /** Accepted edits and Republish enqueue a refresh of a contract that is open after them. */
  predicate AsksRefresh(w: World, a: Action, now: int) {
    && ((a.EditContract? && Perform(w.db, a, now, w.postVersion) != w.db) || a.Republish?)
    && a.cid in w.db.contracts && a.cid in Perform(w.db, a, now, w.postVersion).contracts
    && Perform(w.db, a, now, w.postVersion).contracts[a.cid].status == Open
  }

  /** An action on the world, with what it asks of the worker. */
  function Acted(w: World, a: Action, now: int): World {
    if AsksRefresh(w, a, now) then Asked(Repaired(w, a, now), a.cid, w.db.nextId) else Repaired(w, a, now)
  }

  /** Republish and Reprint are repairs. */
  function Repaired(w: World, a: Action, now: int): World {
    var db := Perform(w.db, a, now, w.postVersion);
    if a.Republish? && a.cid in w.db.contracts then Raised(w, a.cid, RepairKind(w.db.contracts[a.cid])).(db := db)
    else if a.Reprint? && db != w.db then Raised(w, a.cid, PayoutReport).(db := db)
    else w.(db := db)
  }

  // ---- The worker and its running handler ----

  predicate AtTask(s: State) { s.worker.Busy? && s.worker.i < |s.worker.due| }

  predicate Running(s: State) { AtTask(s) && s.worker.run.Some? }

  function RunPhase(s: State): Phase
    requires Running(s)
  {
    s.worker.run.value
  }

  function RunTask(s: State): DueTask
    requires AtTask(s)
  {
    s.worker.due[s.worker.i]
  }

  /** The contract of the running task. */
  function RunContract(s: State): nat
    requires AtTask(s)
  {
    RunTask(s).task.contract
  }

  /** Running a handler of this kind for a contract that exists; rows are never deleted. */
  predicate Handling(s: State, kind: Kind) {
    Running(s) && RunTask(s).task.kind == kind && RunContract(s) in s.w.db.contracts
  }

  function Move(s: State, w: World, phase: Phase): State
    requires AtTask(s)
  {
    State(w, s.worker.(run := Some(phase), torn := {}))
  }

  function Advance(s: State, w: World): State
    requires AtTask(s)
  {
    State(w, Busy(s.worker.due, s.worker.i + 1, None, {}))
  }

  /** Where a handler returns without touching anything, by what it read. */
  function Return(task: Task, phase: Phase): Option<HandlerResult> {
    match phase
    case Loaded(prog) =>
      (match task.kind
       case CreateThread => if prog.thread.Some? then Some(Success) else None
       case Refresh => if prog.thread.None? || prog.status != Open then Some(Success) else None
       case Close => if prog.thread.None? then Some(Success) else None
       case Notify => Some(Success)
       case PayoutReport =>
         if prog.status != Completed then Some(Permanent)
         else if prog.posted && !task.repost then Some(Success) else None
       case Other(_) => None)
    case RowsRead(prog, rows) => if rows == [] && !Rewarded(prog) then Some(Permanent) else None
    case Reporting(_, _) => Some(Success)
    case _ => None
  }

  /** A refresh or close that has a post to write; `stale` means the post's format predates the current one. */
  predicate Writes(s: State, stale: bool) {
    && Running(s) && RunPhase(s).Loaded? && RunContract(s) in s.w.db.contracts
    && (Handling(s, Refresh) || Handling(s, Close))
    && Return(RunTask(s).task, RunPhase(s)).None?
    && RunPhase(s).prog.thread.Some?
    && stale == (RunPhase(s).prog.postVersion < s.w.postVersion)
  }

  function Bare(rows: seq<Payout>): (r: seq<Payout>)
    ensures |r| == |rows|
  {
    seq(|rows|, k requires 0 <= k < |rows| => rows[k].(name := ""))
  }

  /** The precision a handler uses: the one frozen on the contract, or the configured one. */
  function Precision(prog: Contract, configured: nat): nat {
    if prog.payoutDecimals.Some? then prog.payoutDecimals.value else configured
  }

  function Clamp(d: int): (r: nat)
    ensures r <= MAX_DECIMALS
  {
    if d < 0 then 0 else if d > MAX_DECIMALS then MAX_DECIMALS else d
  }

  /** A report of these rows, as the contract read makes it. */
  function Render(cid: nat, prog: Contract, rows: seq<Payout>, configured: nat): Rendering {
    Rendering(cid, FiguresOf(prog.credits, prog.factor, rows, Precision(prog, configured)), rows)
  }

  predicate OutsideEnabled(s: State, o: OutsideStep) {
    match o
    case Act(a, _) => a.EditContract? ==> a.e.Entered()
    case RenderAfterPaid(cid) => cid in s.w.db.contracts && s.w.db.contracts[cid].report.Some?
    case _ => true
  }

  ghost predicate LoopEnabled(s: State, l: LoopStep) {
    match l
    case Scan(due, now, limit) => !AtTask(s) && IsDue(due, s.w.db.tasks, now, limit)
    case SupersedeTask(_, _) =>
      AtTask(s) && s.worker.run.None? && !IsNewest(s.worker.due, s.worker.i) && RunTask(s).id in s.w.db.tasks
    case Begin(_) => AtTask(s) && s.worker.run.None? && IsNewest(s.worker.due, s.worker.i)
    case Mark(_, _, _) => Running(s) && RunPhase(s).Finished? && RunTask(s).id in s.w.db.tasks
    case Fail(_) => Running(s) && !RunPhase(s).Finished?
    case ReturnEarly => Running(s) && Return(RunTask(s).task, RunPhase(s)).Some?
  }

  predicate PostEnabled(s: State, p: PostStep) {
    match p
    case CreateForumPost(result) =>
      Handling(s, CreateThread) && RunPhase(s).Loaded? && RunPhase(s).prog.thread.None? && result != Unhandled
    case RecordThread(result) => Handling(s, CreateThread) && RunPhase(s).Posted? && result != Unhandled
    case RemovePost => Writes(s, true)
    case RenderPost(result) => Writes(s, false) && RunPhase(s).prog.thread.value in s.w.posts && result != Unhandled
    case PostMissing => Writes(s, false) && RunPhase(s).prog.thread.value !in s.w.posts
    case Recreate(_, result) =>
      Running(s) && RunPhase(s).Gone? && RunContract(s) in s.w.db.contracts && result != Unhandled
  }

  ghost predicate PayEnabled(s: State, q: PayoutStep) {
    Handling(s, PayoutReport) &&
    match q
    case ReadRows => RunPhase(s).Loaded? && Return(RunTask(s).task, RunPhase(s)).None?
    case ComputeRows(prices, res, rows, result) =>
      && RunPhase(s).RowsRead? && RunPhase(s).rows == [] && Rewarded(RunPhase(s).prog)
      && ComputedFrom(RunPhase(s).prog, prices, res, rows, s.w.payoutDecimals) && result != Unhandled
    case ReuseRows => RunPhase(s).RowsRead? && RunPhase(s).rows != []
    case PostReport(_, result) => RunPhase(s).Reporting? && result != Unhandled
    case LatchReport(result) => RunPhase(s).Reported? && result != Unhandled
  }

  /** The rows are a split of the contract as the handler read it, with names looked up. */
  ghost predicate ComputedFrom(
      prog: Contract, prices: map<string, nat>, res: PayoutResult, rows: seq<Payout>, configured: nat)
    requires prog.credits.Some?
  {
    && Bare(rows) == res.shares
    && IsSplit(res, prog.credits.value, prog.factor, PayoutItems(prog.items, prices), Precision(prog, configured))
  }

  ghost predicate Enabled(s: State, l: Step) {
    match l
    case Outside(o) => OutsideEnabled(s, o)
    case Loop(l) => LoopEnabled(s, l)
    case Post(p) => PostEnabled(s, p)
    case Pay(q) => PayEnabled(s, q)
  }

  /** Where a step that took effect leaves the handler: onwards, or finished with the error it was told. */
  function After(result: HandlerResult, next: Phase): Phase {
    if result == Success then next else Finished(result)
  }

  /** A new forum post showing a contract at this revision. */
  function NewPost(w: World, revision: nat): World {
    w.(posts := w.posts[w.nextPost := revision], nextPost := w.nextPost + 1)
  }

  /** SavePayouts in the payout handler; an empty split is refused before, a constraint error is retried. */
  function SaveRows(s: State, rows: seq<Payout>, result: HandlerResult): State
    requires Handling(s, PayoutReport) && RunPhase(s).RowsRead?
  {
    var prog := RunPhase(s).prog;
    if rows == [] then Move(s, s.w, Finished(Permanent))
    else match SavePayoutsTx(s.w.db, RunContract(s), rows, Precision(prog, s.w.payoutDecimals))
      case Err(_) => Move(s, s.w, Finished(Transient))
      case Ok(db) => Move(s, s.w.(db := db), After(result, Reporting(prog, rows)))
  }

  /** A finished task's row as the worker writes it; a task it gives up on is also remembered as abandoned. */
  function Marked(w: World, d: DueTask, result: HandlerResult, maxAttempts: int, now: int): World
    requires d.id in w.db.tasks
  {
    var row := Settle(w.db.tasks[d.id], d.task, result, maxAttempts, now);
    var w' := w.(db := w.db.(tasks := w.db.tasks[d.id := row]));
    if row.status == Failed then w'.(abandoned := w.abandoned[d.id := row]) else w'
  }

  function Superseded(w: World, id: nat, now: int): World
    requires id in w.db.tasks
  {
    w.(db := w.db.(tasks := w.db.tasks[id := Supersede(w.db.tasks[id], now)]))
  }

  /** A live post deleted by hand, under a handler that may not know yet. */
  function Deleted(s: State, thread: nat): State {
    State(s.w.(posts := s.w.posts - {thread}, missing := s.w.missing[thread := None]),
          if s.worker.Busy? then s.worker.(torn := s.worker.torn + {thread}) else s.worker)
  }

  /** The worker takes a stale post down itself. */
  function TakenDown(w: World, thread: nat, id: nat): World {
    w.(posts := w.posts - {thread}, missing := Sought(w.missing, thread, id))
  }

  /** A handler that begins to refresh a contract meets its missing post. */
  function Begun(w: World, d: DueTask): World {
    if d.task.kind == Refresh then Asked(w, d.task.contract, d.id) else w
  }

  function NextOutside(s: State, o: OutsideStep): State
    requires OutsideEnabled(s, o)
  {
    var w := s.w;
    match o
    case Act(a, now) => s.(w := Acted(w, a, now))
    case DeletePostByHand(thread) => if thread in w.posts then Deleted(s, thread) else s
    case RenderAfterPaid(cid) =>
      var c := w.db.contracts[cid];
      s.(w := w.(reports := w.reports + [Render(cid, c, c.payouts, w.payoutDecimals)]))
    case Crash => s.(worker := Idle)
    case Deploy(version, decimals) => State(w.(postVersion := version, payoutDecimals := Clamp(decimals)), Idle)
    case Clean(doneCutoff, failedCutoff) =>
      s.(w := w.(db := w.db.(tasks := Cleanup(w.db.tasks, doneCutoff, failedCutoff))))
  }

  ghost function NextLoop(s: State, l: LoopStep): State
    requires LoopEnabled(s, l)
  {
    var w := s.w;
    match l
    case Scan(due, _, _) => s.(worker := Busy(due, 0, None, {}))
    case SupersedeTask(marked, now) => Advance(s, if marked then Superseded(w, RunTask(s).id, now) else w)
    case Begin(handled) =>
      Move(s, Begun(w, RunTask(s)),
           if !handled then Finished(Unhandled)
           else if RunContract(s) in w.db.contracts then Loaded(w.db.contracts[RunContract(s)])
           else Finished(Permanent))
    case Mark(marked, maxAttempts, now) =>
      Advance(s, if marked then Marked(w, RunTask(s), RunPhase(s).result, maxAttempts, now) else w)
    case Fail(permanent) => Move(s, w, Finished(if permanent then Permanent else Transient))
    case ReturnEarly => Move(s, w, Finished(Return(RunTask(s).task, RunPhase(s)).value))
  }

  function NextPost(s: State, p: PostStep): State
    requires PostEnabled(s, p)
  {
    var w := s.w;
    match p
    case CreateForumPost(result) =>
      Move(s, NewPost(w, RunPhase(s).prog.revision), After(result, Posted(RunPhase(s).prog, w.nextPost)))
    case RecordThread(result) =>
      Move(s, w.(db := SetThreadTx(w.db, RunContract(s), RunPhase(s).thread, w.postVersion)), Finished(result))
    case RemovePost => Move(s, TakenDown(w, RunPhase(s).prog.thread.value, RunTask(s).id), Gone)
    case RenderPost(result) =>
      Move(s, w.(posts := w.posts[RunPhase(s).prog.thread.value := RunPhase(s).prog.revision]), Finished(result))
    case PostMissing => Move(s, w, if RunTask(s).task.kind == Refresh then Gone else Finished(Success))
    case Recreate(now, result) => Move(s, Recreated(w, RunContract(s), now), Finished(result))
  }

  /** The thread is cleared and a new one asked for, which starts a new epoch of creates. */
  function Recreated(w: World, cid: nat, now: int): World
    requires cid in w.db.contracts
  {
    Raised(w, cid, CreateThread).(db := RecreateTx(w.db, cid, now))
  }

  ghost function NextPay(s: State, q: PayoutStep): State
    requires PayEnabled(s, q)
  {
    var w := s.w;
    match q
    case ReadRows => Move(s, w, RowsRead(RunPhase(s).prog, w.db.contracts[RunContract(s)].payouts))
    case ComputeRows(_, _, rows, result) => SaveRows(s, rows, result)
    case ReuseRows => Move(s, w, Reporting(RunPhase(s).prog, RunPhase(s).rows))
    case PostReport(report, result) =>
      var r := Render(RunContract(s), RunPhase(s).prog, RunPhase(s).rows, w.payoutDecimals);
      Move(s, w.(reports := w.reports + [r]), After(result, Reported(report)))
    case LatchReport(result) =>
      Move(s, w.(db := MarkPostedTx(w.db, RunContract(s), RunPhase(s).report)), Finished(result))
  }

  ghost function Next(s: State, l: Step): State
    requires Enabled(s, l)
  {
    match l
    case Outside(o) => NextOutside(s, o)
    case Loop(l) => NextLoop(s, l)
    case Post(p) => NextPost(s, p)
    case Pay(q) => NextPay(s, q)
  }

  /** A run from the empty system; a step that is not enabled is skipped. */
  ghost function Run(steps: seq<Step>): State {
    if steps == [] then INIT
    else
      var s, l := Run(steps[..|steps| - 1]), steps[|steps| - 1];
      if Enabled(s, l) then Next(s, l) else s
  }

  // ---- The invariant ----

  /** Something a contract is owed: a task of this kind, of this revision or later, of this epoch. */
  datatype Need = Need(kind: Kind, revision: nat, since: nat)

  /** A task that, when it succeeds, has done what was needed. */
  predicate Meets(t: Task, cid: nat, need: Need) {
    t.kind == need.kind && t.contract == cid && t.revision >= need.revision
  }

  predicate IsPending(tasks: Table, id: nat, cid: nat, need: Need) {
    id in tasks && id >= need.since && tasks[id].status == Pending && Meets(tasks[id], cid, need)
  }

  predicate IsAbandoned(abandoned: Table, id: nat, cid: nat, need: Need) {
    id in abandoned && id >= need.since && Meets(abandoned[id], cid, need)
  }

  /** Such a task is still pending, or the worker gave up on one. */
  ghost predicate Owed(tasks: Table, abandoned: Table, cid: nat, need: Need) {
    || (exists id :: IsPending(tasks, id, cid, need))
    || (exists id :: IsAbandoned(abandoned, id, cid, need))
  }

  /** No live post shows the contract at another revision than the committed one. */
  predicate UpToDate(posts: map<nat, nat>, c: Contract) {
    c.thread.None? || c.thread.value !in posts || posts[c.thread.value] == c.revision
  }

  /** Completed and rewarded, with no payout rows yet. */
  predicate Unpaid(c: Contract) { c.status == Completed && Rewarded(c) && c.payouts == [] }

  /** What still has to happen for a contract, as the task that would do it and the revision it must know. */
  predicate Lacks(posts: map<nat, nat>, c: Contract, kind: Kind, revision: nat) {
    || (kind == CreateThread && revision == 0 && c.thread.None?)
    || (kind == UpdateKind(c) && revision == c.revision && !UpToDate(posts, c))
    || (kind == PayoutReport && revision == 0 && Unpaid(c))
  }

  predicate Wants(since: Epochs, posts: map<nat, nat>, cid: nat, c: Contract, need: Need) {
    Lacks(posts, c, need.kind, need.revision) && need.since == Epoch(since, cid, need.kind)
  }

  /** Everything the contract still wants has a task pending, or one the worker gave up on, of the current epoch. */
  ghost predicate AllOwed(
      tasks: Table, abandoned: Table, since: Epochs, posts: map<nat, nat>, cid: nat, c: Contract)
  {
    forall need: Need :: Wants(since, posts, cid, c, need) ==> Owed(tasks, abandoned, cid, need)
  }

  /** Nothing the contract lacks is what this task is for. */
  ghost predicate Served(posts: map<nat, nat>, c: Contract, task: Task) {
    forall need: Need :: Lacks(posts, c, need.kind, need.revision) ==> !Meets(task, task.contract, need)
  }

  /** The update that would show the contract as it is committed. */
  function UpdateNeed(since: Epochs, cid: nat, c: Contract): Need {
    Need(UpdateKind(c), c.revision, Epoch(since, cid, UpdateKind(c)))
  }

  ghost predicate WasSplit(c: Contract)
    requires c.credits.Some? && c.payoutDecimals.Some?
  {
    exists prices, res ::
      && IsSplit(res, c.credits.value, c.factor, PayoutItems(c.items, prices), c.payoutDecimals.value)
      && Bare(c.payouts) == res.shares
  }

  /** Persisted payouts are one split of the frozen account at the frozen precision. */
  ghost predicate PayoutsOk(c: Contract) {
    && (c.payouts == [] ==> c.payoutDecimals.None? && !c.posted && c.report.None?)
    && (c.payouts != [] ==> c.status == Completed && c.credits.Some? && c.payoutDecimals.Some?
                            && c.payoutDecimals.value <= MAX_DECIMALS && WasSplit(c))
  }

  ghost predicate ContractOk(w: World, cid: nat)
    requires cid in w.db.contracts
  {
    var c := w.db.contracts[cid];
    && Sound(c)
    && PayoutsOk(c)
    && (c.thread.Some? ==> c.thread.value < w.nextPost)
    && AllOwed(w.db.tasks, w.abandoned, w.since, w.posts, cid, c)
  }

  predicate TaskOk(db: Db, t: Task) {
    t.contract in db.contracts && t.chronometric == Some(t.contract) && t.revision <= db.contracts[t.contract].revision
  }

  /** Later tasks of a contract were enqueued at no earlier a revision. */
  predicate InOrder(tasks: Table, a: nat, b: nat) {
    (a in tasks && b in tasks && a < b && tasks[a].contract == tasks[b].contract)
    ==> tasks[a].revision <= tasks[b].revision
  }

  ghost predicate TasksOk(w: World) {
    && (forall id :: id in w.db.tasks ==> TaskOk(w.db, w.db.tasks[id]))
    && (forall a, b :: InOrder(w.db.tasks, a, b))
    && (forall id :: id in w.abandoned ==> GivenUp(w.db, id))
  }

  /** An abandoned task's row is never pending again. */
  predicate GivenUp(db: Db, id: nat) { id < db.nextId && !(id in db.tasks && db.tasks[id].status == Pending) }

  ghost predicate ReportOk(db: Db, r: Rendering) {
    && r.contract in db.contracts
    && var c := db.contracts[r.contract];
    && c.payouts != [] && c.payoutDecimals.Some?
    && r.rows == c.payouts && r.figures == FiguresOf(c.credits, c.factor, c.payouts, c.payoutDecimals.value)
  }

  ghost predicate WorldOk(w: World) {
    && Keyed(w.db)
    && TasksOk(w)
    && (forall k :: k in w.since ==> w.since[k] < w.db.nextId)
    && w.payoutDecimals <= MAX_DECIMALS
    && (forall p :: p in w.posts ==> p < w.nextPost)
    && (forall cid :: cid in w.db.contracts ==> ContractOk(w, cid))
    && (forall k :: 0 <= k < |w.reports| ==> ReportOk(w.db, w.reports[k]))
  }

  /** What a handler's snapshot still tells about the contract. */
  ghost predicate SnapshotOk(w: World, task: Task, prog: Contract) {
    && task.contract in w.db.contracts
    && var c := w.db.contracts[task.contract];
    && prog.thread == c.thread
    && task.revision <= prog.revision <= c.revision
    && (prog.revision < c.revision ==>
          Owed(w.db.tasks, w.abandoned, task.contract, UpdateNeed(w.since, task.contract, c)))
    && (prog.status != Open ==> c.status == prog.status && SameAccount(prog, c))
  }

  predicate NobodysThread(db: Db, thread: nat) {
    forall cid :: cid in db.contracts ==> db.contracts[cid].thread != Some(thread)
  }

  ghost predicate PhaseOk(w: World, task: Task, phase: Phase) {
    && task.contract in w.db.contracts
    && (phase.HasProg() ==> SnapshotOk(w, task, phase.prog))
    && var c := w.db.contracts[task.contract];
    match phase
    case Loaded(prog) => prog.payoutDecimals == c.payoutDecimals && (prog.posted ==> c.payouts != [])
    case Posted(prog, thread) =>
      && task.kind == CreateThread && prog.thread.None? && thread < w.nextPost && NobodysThread(w.db, thread)
      && (thread in w.posts ==> w.posts[thread] == prog.revision)
    case Gone => task.kind == Refresh || task.kind == Close
    case RowsRead(prog, rows) =>
      && task.kind == PayoutReport && prog.status == Completed
      && rows == c.payouts && prog.payoutDecimals == c.payoutDecimals
    case Reporting(prog, rows) =>
      && task.kind == PayoutReport && prog.status == Completed && rows == c.payouts && rows != []
      && c.payoutDecimals == Some(Precision(prog, w.payoutDecimals))
    case Reported(_) => task.kind == PayoutReport && c.payouts != []
    case Finished(result) =>
      result == Success ==> Served(w.posts, c, task) && (task.kind == PayoutReport ==> c.payouts != [])
  }

  /** A scanned task not yet reached is in the table as it was scanned. */
  predicate Untouched(tasks: Table, d: DueTask) {
    d.id in tasks && tasks[d.id] == d.task && d.task.status == Pending
  }

  ghost predicate WorkerOk(w: World, worker: Worker) {
    worker.Busy? ==>
      && worker.i <= |worker.due|
      && (forall j, k :: 0 <= j < k < |worker.due| ==> worker.due[j].id < worker.due[k].id)
      && (forall j :: worker.i <= j < |worker.due| ==> Untouched(w.db.tasks, worker.due[j]))
      && (worker.run.Some? ==> worker.i < |worker.due| && PhaseOk(w, worker.due[worker.i].task, worker.run.value))
  }

  ghost predicate Inv(s: State) { WorldOk(s.w) && WorkerOk(s.w, s.worker) }

  lemma InitOk()
    ensures Inv(INIT)
  {
  }
}
