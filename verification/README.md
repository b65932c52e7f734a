# Contracts, outbox and payouts: a verified model

The bot runs delivery contracts for a Discord community. A contract asks for quantities of items; members reserve
part of an item and hand it in; the delivery that completes the last item completes the contract, and its credit
reward is then split among the deliverers. Every change rides in one database transaction together with the tasks
it owes: creating the contract's forum thread, refreshing its post, closing it, posting the payout report. One
worker drains those tasks with retries, and may crash anywhere.

This project models that system in Dafny and proves what it keeps.

| file | models |
|---|---|
| `Prelude.dfy`, `Numbers.dfy` | text ordering, sorted listings, decimal rendering |
| `Contracts.dfy`, `Ledger.dfy` | the contract, its items and reservations, and the fourteen edits as functions on one contract |
| `Transactions.dfy` | the tables and the outbox together; every repository transaction as one step |
| `Repository.dfy` | the repository as a class: the same transactions checking and writing the tables in place |
| `Outbox.dfy` | the worker as a class: scan, collapse, execute, mark, back off, clean up |
| `Payouts.dfy` | the proportional truncating split and the figures recovered from saved rows |
| `Protocol.dfy`, `ProtocolSafety.dfy` | the whole system in small interleaved steps, its invariant, and what holds in every run |
| `Recovery.dfy` | what becomes of forum posts that are deleted by hand or replaced, in every run |
| `Csv.dfy`, `Console.dfy` | the payout spreadsheet with a reader for it; CustomIDs and the search-query token |
| `Features.dfy`, `Emojis.dfy`, `Permissions.dfy`, `Catalogs.dfy` | feature resolution, emoji reconciliation, the cached access gate, the layered item catalog and its generator |

## The main results

*Every run of the system.* `Protocol.Run` interleaves people's transactions, the sweeper, posts deleted by hand,
deployments with another post format or payout precision, crashes, cleanup, and the worker, whose handlers read, call
Discord and write in separate steps; every call and every write may fail, and may take effect and still report an
error. In every state such a run reaches the ledger is sound, a post that does not show the committed revision has a
refresh (or close) at that revision pending or given up on, a contract without a thread has a create pending or given
up on, and a rewarded completion has its payout rows or a payout task. A task given up on counts only until the
contract's next repair: recreating the post, Republish and Reprint each begin a new epoch. A refresh never succeeds
over a post that is gone: it has a new one on its way, and a refresh that was asked for while the post was gone is not
forgotten before the contract has let go of the lost thread or ended. A contract with nothing pending and nothing
given up on since then agrees with the database. Terminal contracts never change their account again, saved payouts
and the paid mark never change, and every report ever rendered for a contract shows the same rows and figures, which
conserve the pool.

*The ledger.* Each edit keeps 0 <= delivered <= reserved on every row and the reserved sum within the requirement;
an edit changes exactly one cell or one item; a delivery completes the contract exactly when the total shortfall
reaches zero.

*The worker.* A batch runs exactly one task per group, the one with the largest id, whatever fails, and the rows it
leaves are known exactly, those its handlers enqueued included. When nothing is enqueued and every mark takes, the
worker's loop empties the queue: each full batch strictly lowers the turns left in it, and at most as many batches with
work as turns were left end with every task done or failed.

*The payout.* The pool is credits times factor, cut down to whole units. Each member gets the part of it that their
deliveries have of the value, truncated; the amounts never exceed the pool, and less than one unit a member is left
over; the bound is attained.

Quantities are unbounded integers, money is counted in hundredths, amounts in units of 10^-decimals, shares in
millionths of a percent. `revision` stands for the last-refreshed time stamp as a logical clock. A task's `revision`,
the tasks given up on, each contract's epochs, and which posts are gone and since when (`World.abandoned`,
`World.since`, `World.missing`, `torn`) are bookkeeping that the source does not store. UUIDv7 ids are an increasing
counter. `now`, catalog prices, configuration and every failure are parameters of the step they affect. The CHECK
constraints and unique indexes of the schema are part of the model: the write they would refuse reports `Constraint`.

`Catalog.Item` and `Catalog.Items` would disagree on an id that the topmost layer mentioning it both removes and
defines (`Catalogs.AgreeExactly`). The generator emits no such layer, and every chain of layers it emits is shown to
meet the precondition under which lookup and listing agree.

Where the code and its own comments differ, the model follows the code:

- The comment on `payoutFigures` says that every share is zero only when no item was priced
  (internal/features/contracts/tasks_payout.go:180-182). A share is rounded to six decimals, so this fails for a
  crowd of more than 200,000,000 equal deliverers. `Payouts.FiguresRecover` gives the exact condition and
  `Payouts.FlagFailsBeyondTheCrowd` the failing family.
- `Create` does not check its initial items itself; duplicate names or catalog ids are refused by the indexes in
  internal/migrator/migrations/20260620111128_create_contract_items.sql:19 and
  internal/migrator/migrations/20260704133909_add_contract_items_gdid.sql:15.
- The cache is said to stay coherent because every write invalidates the server
  (internal/features/permissions/cache.go:22-24). The entry is dropped only when the database reports success, so a
  commit that takes effect but reports an error leaves it stale: `Permissions.Store.SetRoles` says exactly when,
  `Permissions.AnswersRightExactly` which answers are still right, and an eviction or the next acknowledged write
  restores it.
- The generator calls it safe to overwrite a version in place as long as nothing was removed
  (internal/gamedata/gen/main.go:149-153). A version already cut over it finds the added items too, although its own
  dataset lacks them: `Catalogs.AdditionShowsThrough`. `Catalogs.ParentOverwritten` gives the exact condition.
- "Truncated without splitting an escape" (internal/features/contracts/console.go:267-273) is about the percent
  escape: the cut may still fall inside a multi-byte character, so the decoded token is a byte prefix.

## Model

| member | source | states |
|---|---|---|
| `Contracts.SumsOrdered` | internal/features/contracts/contracts.go:280-298 | over rows that each deliver no more than they reserved the two totals are ordered, and equal only when nobody owes anything |
| `Contracts.FoldingIgnoresCase` | internal/features/contracts/postgres.go:163-171 | two item names are the same to the lookup if and only if they differ in the case of letters only |
| `Contracts.TrimStrips` | internal/features/contracts/postgres.go:319-334 | trimming a name takes the white space off both ends, all of it and nothing else |
| `Ledger.EditKeepsSound` | internal/features/contracts/postgres.go:258-929 | each of the fourteen edits keeps every reservation at 0 <= delivered <= reserved with reserved >= 1, each item's reserved sum within its positive requirement, users, names, ids and catalog ids unique, and completed contracts fully delivered |
| `Ledger.CreateIsSound` | internal/features/contracts/postgres.go:197-256 | whatever input the schema lets through starts a sound ledger without a thread |
| `Ledger.CreateAcceptedExactly` | internal/features/contracts/postgres.go:197-256 | a contract is created if and only if the factor is a percentage, every quantity positive and no two items share a folded name or catalog id; it starts open with exactly the given columns and items |
| `Ledger.LockedExactly` | internal/features/contracts/postgres.go:60-150 | the guard lets a contract through if and only if it is open and has no deadline or one still ahead, and names the reason otherwise; a contract refused for its deadline is refused for it at every later moment |
| `Ledger.FiguresPartitionRequirement` | internal/features/contracts/contracts.go:280-298 | the floors in the displayed figures never clip, and remaining, outstanding and delivered add up to the requirement |
| `Ledger.CompletedOwesNothing` | internal/features/contracts/postgres.go:780-823 | a completed contract has items, on each of which delivered, reserved and required agree, and no member has anything outstanding |
| `Ledger.NoneShort` | internal/features/contracts/postgres.go:780-800 | counting no short item means every item was delivered to exactly its requirement |
| `Ledger.DeliveryCompletesExactly` | internal/features/contracts/postgres.go:624-823 | a delivery lowers the contract's total shortfall by its quantity and completes the contract if and only if the shortfall reaches zero in that step |
| `Ledger.OnlyDeliveryCompletes` | internal/features/contracts/postgres.go:258-929 | an edit needs an open contract, and none but a delivery changes the status |
| `Ledger.RowEditChangesOneCell` | internal/features/contracts/postgres.go:572-929 | participate, deliver, release, set and remove reservation change exactly the named member's cell on the targeted item, to the stated value, an emptied cell disappearing; every other cell and every item's own columns stay |
| `Ledger.ItemEditChangesOneItem` | internal/features/contracts/postgres.go:258-465 | add, link, rename or resize, and remove change exactly one item and leave every other as it was |
| `Ledger.EditIsSeen` | internal/features/contracts/postgres.go:258-929 | what a caller of each edit sees in the row it leaves: one cell or one item as tabulated, all others as they were, or the written columns; the repository's methods promise this of the tables |
| `Ledger.RowEditAcceptedExactly` | internal/features/contracts/postgres.go:572-929 | a reservation edit is accepted if and only if the contract is open with no deadline or one still ahead, the item and the member's row exist, and the cell it would leave keeps delivered <= reserved within what the other members leave of the requirement |
| `Ledger.RowEditRefusedExactly` | internal/features/contracts/postgres.go:572-929 | a reservation edit is refused exactly for a reason read off the contract, the item, the member's cell and the room the others leave, and with exactly that sentinel error, the earliest first |
| `Ledger.ResizeAcceptedExactly` | internal/features/contracts/postgres.go:419-465 | renaming and resizing is accepted if and only if the items it would leave are sound |
| `Ledger.AddAcceptedExactly` | internal/features/contracts/postgres.go:258-335 | an item is added if and only if the contract is open and in time, has room for one more, the quantity is positive, and no item is meant by the name or an alias, trimmed and folded, or linked to the catalog id |
| `Ledger.LinkAcceptedExactly` | internal/features/contracts/postgres.go:337-380 | linking is accepted if and only if the contract is open and in time, the item is there, and no other item is meant by an alias or has the catalog id |
| `Ledger.EditsStayApart` | internal/features/contracts/postgres.go:467-570 | each edit of the contract's own columns leaves the items and all other columns alone, and no edit touches thread, post version, payout rows, precision, report, latch or paid mark; every edit advances the revision by one |
| `Ledger.EndsOnce` | internal/features/contracts/postgres.go:932-970 | the sweeper expires exactly the open contracts whose deadline is not ahead, which are those whose edits are refused for it; after completion, expiry or cancelling every edit, cancel and expiry is refused |
| `Ledger.NotifiesOncePerDeadline` | internal/features/contracts/postgres.go:1392-1423 | once the closing-soon latch was consumed it cannot be consumed again, and of all accepted edits exactly a new deadline rearms it |
| `Transactions.EditTxIsDomainStep` | internal/features/contracts/postgres.go:258-929 | a committed edit changes one row, advances its revision by exactly one, and appends exactly its tasks, in order and carrying that revision: the refresh while open, else any payout and the close |
| `Transactions.PayoutIsEnqueuedExactly` | internal/features/contracts/postgres.go:780-823 | an edit appends a payout task if and only if it completed the contract and the contract has a positive credit reward and a positive factor |
| `Transactions.CancelIsDomainStep` | internal/features/contracts/postgres.go:932-970 | cancelling keeps items, reservations and reward, advances the revision by one and appends exactly the close at that revision |
| `Transactions.ExpireIsDomainStep` | internal/features/contracts/postgres.go:1327-1356 | an open contract whose deadline is not ahead expires, keeps its account, advances the revision and appends exactly the close at it; any other is left as it was |
| `Transactions.NotifyIsDomainStep` | internal/features/contracts/postgres.go:1392-1423 | on an open contract that somebody takes part in and that was not announced yet, the latch alone changes and exactly one Notify task is appended in the same step; otherwise nothing changes |
| `Transactions.EnqueueIsDomainStep` | internal/outbox/postgres.go:22-62 | enqueueing appends exactly one pending row of the kind and repost flag, due at once, for the contract at its revision, and changes no other row and no contract |
| `Transactions.MarkPaidIsDomainStep` | internal/features/contracts/postgres_payouts.go:107-118 | marking payouts paid changes nothing but the paid mark of that contract and appends no task |
| `Transactions.DomainStepKeepsKeys` | internal/migrator/migrations/20260620111127_create_contracts.sql:37 | such a step keeps item ids and threads each on one contract and every id below the next one |
| `Transactions.CreateTxIsSound` | internal/features/contracts/postgres.go:197-256 | creating adds one new row and its create-thread task in one step and keeps the keys |
| `Transactions.EditKeepsDb` | internal/features/contracts/postgres.go:60-150 | whichever contract the lookup finds, the edit leaves the whole ledger sound |
| `Transactions.RewriteKeepsDb` | internal/features/contracts/postgres.go:1057-1062 | writing latches, or a thread no other contract has, keeps the whole ledger sound |
| `Transactions.InsertIsFirstWriteWins` | internal/features/contracts/postgres_payouts.go:46-60 | inserting rows keeps those that were there in front, gives every named member one, brings no row but the given ones, adds nobody twice, and changes nothing where everybody has a row |
| `Transactions.SavingAgainChangesNothing` | internal/features/contracts/postgres_payouts.go:37-69 | a second save never changes a saved amount or the frozen precision; for the same members it changes nothing |
| `Transactions.PaidOnce` | internal/features/contracts/postgres_payouts.go:107-118 | of two presses the first records its actor and the second changes nothing |
| `Repositories.Repository.LockOpenContractByID` | internal/features/contracts/postgres.go:96-121 | finds the contract on its server and reports not found, closed or deadline passed, in that order; no error if and only if it is open with no deadline or one still ahead |
| `Repositories.Repository.LockOpenContractByItem` | internal/features/contracts/postgres.go:123-150 | finds the one contract of the server that owns the item and reports not found, closed or deadline passed, in that order; no error if and only if it is open with no deadline or one still ahead |
| `Repositories.Repository.LockOpenContract` | internal/features/contracts/postgres.go:60-93 | finds the one contract of the server with the thread and reports not found, closed or deadline passed, in that order; no error if and only if it is open with no deadline or one still ahead |
| `Repositories.Repository.AddItemByID` | internal/features/contracts/postgres.go:258-318 | the in-place method commits exactly the ledger's step, in which the caller sees the one new item and nothing else changed, or leaves every table as it was, with the error the ledger gives, and keeps the ledger sound |
| `Repositories.Repository.LinkItemGDID` | internal/features/contracts/postgres.go:337-380 | likewise for linking a legacy item to the catalog |
| `Repositories.Repository.RemoveItemByID` | internal/features/contracts/postgres.go:382-417 | likewise for removing an item; reports how many reservations went with it |
| `Repositories.Repository.UpdateItemByID` | internal/features/contracts/postgres.go:419-465 | likewise for renaming and resizing |
| `Repositories.Repository.UpdateDetailsByID` | internal/features/contracts/postgres.go:467-490 | likewise for title and description |
| `Repositories.Repository.SetDeadlineByID` | internal/features/contracts/postgres.go:492-516 | likewise for the deadline, which rearms the closing-soon latch |
| `Repositories.Repository.UpdateRewardsByID` | internal/features/contracts/postgres.go:518-543 | likewise for credits and participant factor |
| `Repositories.Repository.SetDeliveryLocationByID` | internal/features/contracts/postgres.go:545-570 | likewise for the delivery location |
| `Repositories.Repository.ParticipateInThread` | internal/features/contracts/postgres.go:572-622 | likewise for reserving, capped by what is left of the item |
| `Repositories.Repository.DeliverInThread` | internal/features/contracts/postgres.go:624-673 | likewise for a member's delivery; reports completion exactly when the contract completed, which is when nothing is short any more |
| `Repositories.Repository.DeliverByItemID` | internal/features/contracts/postgres.go:732-778 | likewise for a delivery recorded on the console |
| `Repositories.Repository.FinishIfCompleted` | internal/features/contracts/postgres.go:780-823 | decides completion in the delivering transaction and enqueues the refresh, or the close behind a payout task, which is there if and only if credits and factor are positive |
| `Repositories.Repository.ReleaseInThread` | internal/features/contracts/postgres.go:675-730 | likewise for releasing, never below what was delivered; an emptied row is deleted |
| `Repositories.Repository.SetReservationByItemID` | internal/features/contracts/postgres.go:828-897 | likewise for setting a reservation, between the delivered and what the others leave |
| `Repositories.Repository.RemoveReservationByItemID` | internal/features/contracts/postgres.go:899-930 | likewise for removing a member's row |
| `Repositories.Repository.CreateContract` | internal/features/contracts/postgres.go:197-256 | inserts the contract with its items and its create-thread task, or nothing; refused exactly for a factor above 100 percent, a quantity that is not positive or items not told apart |
| `Repositories.Repository.CancelByID` | internal/features/contracts/postgres.go:932-970 | cancels an open contract even past its deadline: the status is Cancelled and the account as it was |
| `Repositories.Repository.MarkExpiredByID` | internal/features/contracts/postgres.go:1327-1356 | reports a win exactly when this call changed the tables, which is when the contract is known and open and its deadline not ahead |
| `Repositories.Repository.MarkNotifiedByID` | internal/features/contracts/postgres.go:1392-1423 | reports a win exactly when this call consumed the latch of an open contract that somebody takes part in |
| `Repositories.Repository.SetThreadID` | internal/features/contracts/postgres.go:1057-1062 | records thread and post format, so that the contract now has both; the unique index refuses a thread another contract has |
| `Repositories.Repository.RecreatePost` | internal/features/contracts/postgres.go:1070-1086 | clears the thread and enqueues a create in one step |
| `Repositories.Repository.Republish` | internal/features/contracts/postgres.go:1091-1137 | enqueues the repair the contract needs, a create without a thread, else a refresh while open and a close after, and says whether it was a create |
| `Repositories.Repository.SavePayouts` | internal/features/contracts/postgres_payouts.go:37-69 | first write wins: existing rows and a frozen precision are kept; refused exactly for a negative amount, a share outside 0 to 100 percent or a precision above two |
| `Repositories.Repository.MarkPayoutPosted` | internal/features/contracts/postgres_payouts.go:71-76 | latches the report as posted at exactly this place, keeping the ledger sound |
| `Repositories.Repository.RequestPayoutRepost` | internal/features/contracts/postgres_payouts.go:78-105 | accepted if and only if the contract is on the server and completed with positive credits and factor; then appends a payout task marked as a reprint |
| `Repositories.Repository.MarkPayoutsPaid` | internal/features/contracts/postgres_payouts.go:107-118 | one winner, on a completed contract of the server that nobody marked yet, and its actor is on record; any other press changes nothing and reports so |
| `Outbox.Backoff` | internal/outbox/worker.go:182-194 | the doubling loop gives min(10 s * 2^(a-1), 1 h) for every attempt a >= 1 |
| `Outbox.Worker.Due` | internal/outbox/postgres.go:75-95 | the pending tasks whose time has come, ascending, up to the batch size; none it leaves out comes before one it takes; each is pending with its next try not ahead, and so is none it leaves out below the limit |
| `Outbox.NewestIds` | internal/outbox/worker.go:85-98 | the first pass remembers for every group its largest id |
| `Outbox.Worker.ProcessBatch` | internal/outbox/worker.go:85-108 | one tick, interrupted anywhere, runs exactly the newest task of each group it reached and writes exactly those rows' outcomes; other rows stand, the rows its handlers enqueued are new under consecutive ids in the order of the turns, and no other row appears; a tick that ends, marks and enqueues nothing is a full batch |
| `Outbox.Worker.Execute` | internal/outbox/worker.go:110-149 | the row that a marked turn leaves, column by column: Done with its attempts on success; Failed with one more attempt on a permanent error or the last transient one, and with the scanned attempts when no handler is registered, evacuated now; otherwise Pending with one more attempt and the next try min(10 s * 2^attempts, 1 h) ahead; an unmarked turn leaves the row as it was; what the handler enqueued is appended |
| `Outbox.RunsHaveLargestIds` | internal/outbox/worker.go:85-108 | a task runs if and only if its id is the largest of its group in the batch, and every group runs one |
| `Outbox.BatchCollapsesGroups` | internal/outbox/worker.go:85-108 | the two-pass loop without the loops: one run per group, every other due member retired as done without running, tasks that are not due left alone |
| `Outbox.BatchWritesOutcomes` | internal/outbox/worker.go:85-149 | after any batch, interrupted or not, the row of each task that ran has exactly the columns its handler's report calls for |
| `Outbox.RetentionCountsFromRetiring` | internal/outbox/postgres.go:131-145 | cleanup keeps a retired task exactly for its retention, counted from when it was retired, and a task to be retried always |
| `Outbox.UngroupedTasksRun` | internal/outbox/postgres.go:64-69 | a task without chronometric id runs if and only if no later due task of its kind uses its id as chronometric id |
| `Outbox.LoadCompare` | internal/outbox/worker.go:110-149 | the queue's load is monotone in every row's turns left |
| `Outbox.BatchLowersLoad` | internal/outbox/worker.go:85-149 | a full batch, as the worker produces it, strictly lowers the sum of turns left over pending tasks when anything was due, whatever the handlers report |
| `Outbox.TickProgress` | internal/outbox/worker.go:85-149 | a full batch with work lowers the load and leaves done and failed rows alone; one without work changes nothing, and then every task is terminal or waits for a later time |
| `Outbox.QueueDrains` | internal/outbox/worker.go:64-149 | in any sequence of full batches with work, as many as the load leave every task done or failed |
| `Outbox.Worker.Drain` | internal/outbox/worker.go:64-149 | the worker's own loop, when nothing is enqueued and every mark takes, ends with every task done or failed, whatever the handlers report, after at most as many batches with work as the load at the start, without losing, adding or reopening a row |
| `Protocol.InitOk` | internal/outbox/worker.go:64-83 | the empty system satisfies the invariant |
| `ProtocolSafety.ReturnOk` | internal/features/contracts/tasks.go:91-150 | every early return of a handler is safe: what it read still settles what its task was for |
| `ProtocolSafety.DomainPhaseOk` | internal/features/contracts/tasks.go:45-150 | a transaction between two steps of a running handler keeps everything the handler still relies on |
| `ProtocolSafety.DomainOwed` | internal/features/contracts/postgres.go:36-58 | whatever a transaction makes its contract want, a task it appended is for |
| `ProtocolSafety.RenderedWorldOk` | internal/features/contracts/tasks.go:91-150 | writing a stale snapshot onto the post loses nothing, since the newer revision's task is owed |
| `ProtocolSafety.RecordedWorldOk` | internal/features/contracts/tasks.go:66-85 | recording a thread long after the read keeps every promise |
| `ProtocolSafety.RecreatedWorldOk` | internal/features/contracts/tasks.go:154-168 | replacing a deleted or stale-format post leaves the contract owed a new thread |
| `ProtocolSafety.SupersedeKeeps` | internal/outbox/worker.go:99-105 | retiring a task that a newer one of its group makes redundant loses nothing, at any moment |
| `ProtocolSafety.MarkKeeps` | internal/outbox/worker.go:110-149 | marking a finished task, or failing to, keeps every promise; where the handler succeeded, nothing its task was for is lacking any more |
| `ProtocolSafety.CleanKeeps` | internal/outbox/postgres.go:135-145 | deleting terminal rows past their retention loses nothing that is owed |
| `ProtocolSafety.SavedWorldOk` | internal/features/contracts/postgres_payouts.go:37-69 | the rows a handler computed from its snapshot are a split of the account as it stands, and all of them are inserted |
| `ProtocolSafety.StepKeeps` | internal/features/contracts/tasks.go:45-168 | every step of the system keeps the invariant |
| `ProtocolSafety.RunKeeps` | internal/outbox/worker.go:64-149 | every run from the empty system satisfies the invariant |
| `ProtocolSafety.LedgerIsAlwaysSound` | internal/features/contracts/postgres.go:258-929 | every contract in every reachable state has a sound ledger |
| `ProtocolSafety.NoUpdateIsLost` | internal/features/contracts/tasks.go:91-150 | in every reachable state, a live post that does not show the committed revision has a refresh, or after the end a close, of that revision pending or abandoned, enqueued since the last repair |
| `ProtocolSafety.ThreadIsAlwaysOwed` | internal/features/contracts/postgres.go:1057-1086 | in every reachable state a contract without a thread has a create-thread task of the current epoch pending or abandoned |
| `ProtocolSafety.NoPayoutIsLost` | internal/features/contracts/tasks_payout.go:36-95 | in every reachable state a contract that completed with positive credits and a positive factor has its payout rows with their precision, or a payout task of the current epoch pending or abandoned |
| `ProtocolSafety.NoUnitIsLost` | internal/features/contracts/payout.go:52-59 | the same for every completed contract whose members' part of the reward comes to one unit at some precision |
| `ProtocolSafety.WhatIsLackingIsOwed` | internal/features/contracts/postgres.go:1057-1137 | in every reachable state whatever a contract lacks, thread, update or payout, is owed in the epoch its last repair began, so a task given up on before that repair never excuses it |
| `ProtocolSafety.RepublishRepairs` | internal/features/contracts/postgres.go:1088-1137 | after Republish whatever thread or update the contract still wants has a pending task of the epoch Republish began, even where the worker had given up |
| `ProtocolSafety.ReprintRepairs` | internal/features/contracts/postgres_payouts.go:78-105 | after Reprint an unpaid completion has a pending payout task of the epoch Reprint began |
| `ProtocolSafety.LatchStopsRetriesNotReprints` | internal/features/contracts/tasks_payout.go:25-60 | once a report is latched, a payout task returns without posting exactly when it is not a reprint, and Reprint enqueues one that is |
| `ProtocolSafety.LatchedWasRendered` | internal/features/contracts/tasks_payout.go:96-132 | in every reachable state a contract latched as posted has had its report rendered |
| `ProtocolSafety.LatchedReportIsNotPostedAgain` | internal/features/contracts/tasks_payout.go:25-60 | once the handler latched the report, every continuation keeps the latch, so no payout task posts it again unless it is a reprint |
| `ProtocolSafety.TerminalIsFrozen` | internal/features/contracts/postgres.go:60-150 | once a contract left open, no continuation of the run changes its status, items, reservations, credits or factor |
| `ProtocolSafety.PaidStaysPaid` | internal/features/contracts/postgres_payouts.go:107-118 | who marked the payouts paid first stays on record in every continuation of every run |
| `ProtocolSafety.PayoutFiguresNeverChange` | internal/features/contracts/tasks_payout.go:160-197 | once rows are saved, every later state of every run gives the same rows, precision, pool, remainder and flag under any configured precision |
| `ProtocolSafety.ReportsAgree` | internal/features/contracts/tasks_payout.go:36-132 | any two reports ever rendered for a contract, first posts, retries, reprints and mark-paid edits, show the same rows and figures |
| `ProtocolSafety.ReportsConserveThePool` | internal/features/contracts/payout.go:57-127 | every report ever rendered pays out, up to its remainder, credits times factor cut down to whole units, never more than that; the remainder is less than a unit a member, or everything when it says that nothing was priced |
| `Recovery.RefreshBringsThePostBack` | internal/features/contracts/tasks.go:91-118 | in every reachable state a refresh that succeeded for a contract still open has left its post live in the current format, or the contract without its thread and a create owed; unless the post was deleted by hand after the handler's last step |
| `Recovery.LostPostIsSought` | internal/features/contracts/tasks.go:91-118 | in every reachable state an open contract's post is live, or was deleted by hand with no refresh asked for or begun since, or a refresh from the last such one on is pending or abandoned |
| `Recovery.AskedPostIsNotForgotten` | internal/features/contracts/postgres.go:1064-1137 | once an edit or Republish is accepted while an open contract's post is gone, then in every continuation the contract ended, or let go of that thread, or a refresh enqueued by that request or later is pending or abandoned |
| `Recovery.MetPostIsNotForgotten` | internal/features/contracts/tasks.go:91-118 | likewise from the moment a refresh begins while its contract's post is gone, whatever becomes of its handler |
| `Recovery.QuietMeansConsistent` | internal/outbox/worker.go:64-149 | a contract none of whose tasks is pending, or was abandoned since the last repair, has its thread, a live post that is current and, completed with positive credits and factor, its rows; an open contract's missing post was deleted by hand after every refresh asked for or begun, but for given-up ones from before the last repair |
| `Recovery.StepRecovers` | internal/features/contracts/tasks.go:45-168 | every step of the system keeps the promise about lost posts |
| `Recovery.ActionCloses` | internal/features/contracts/postgres.go:36-58 | no transaction enqueues a close for a contract that is still open |
| `Payouts.ComputePayout` | internal/features/contracts/payout.go:81-127 | the accumulating loops compute a split, the deliverers' rows in order, each with the floor of its proportional part, of a pool that is credits times factor cut down to whole units of the precision |
| `Payouts.PoolIsTheRewardsPart` | internal/features/contracts/payout.go:52-59 | the pool is the largest number of units of 10^-decimals within credits times factor, written out for each of the precisions 0, 1 and 2 |
| `Payouts.RowsAreProportional` | internal/features/contracts/payout.go:117-124 | each row pays the member's part of the pool by value, truncated to whole units, and shows their part of the value rounded to the nearest millionth of a percent |
| `Payouts.ValueIsPriceTimesDelivered` | internal/features/contracts/payout.go:84-104 | a member's value is item by item the catalog price times what their cell says they delivered, and the whole the price times the requirement |
| `Payouts.WorthlessExactly` | internal/features/contracts/payout.go:114 | a contract's split is flagged as worthless if and only if the catalog prices none of its items |
| `Payouts.PricelessAreNamed` | internal/features/contracts/payout.go:48-50 | the items named as priceless are exactly those without a price |
| `Payouts.SplitExists` | internal/features/contracts/payout.go:81-127 | every input has a split: what the loops are proved against is satisfiable on all inputs |
| `Payouts.SplitDependsOnValue` | internal/features/contracts/payout.go:81-127 | two inputs with the same values and deliverers split identically |
| `Payouts.ItemOrderIsIrrelevant` | internal/features/contracts/payout.go:87-104 | permuting the items changes no amount, share or remainder |
| `Payouts.ParticipantOrderIsIrrelevant` | internal/features/contracts/payout.go:87-104 | permuting an item's participants changes nothing |
| `Payouts.RowsAreTheDeliverers` | internal/features/contracts/payout.go:106-113 | the rows are exactly the members who delivered something, once each, in ascending order of user id |
| `Prelude.FirstDifferenceDecides` | internal/features/contracts/payout.go:106-113 | the order of the listings: a text comes before another if and only if it ends or has the smaller character at the first place where they differ |
| `Payouts.MoreValueEarnsMore` | internal/features/contracts/payout.go:117-124 | of two rows of a split, the one of the member with at least as much delivered value has at least the amount and the share |
| `Payouts.PoolIsConserved` | internal/features/contracts/payout.go:57-127 | amounts never exceed the pool; delivered in full with something priced, at most n - 1 units remain among n deliverers; with nothing priced every amount is zero |
| `Payouts.RemainderBoundIsAttained` | internal/features/contracts/payout.go:81-127 | for every n >= 1 there is a split, delivered in full and priced, with n rows that leaves exactly n - 1 units |
| `Payouts.PayoutFigures` | internal/features/contracts/tasks_payout.go:183-197 | the accumulating loop recovers the aggregates: the pool as credits times factor cut down, the remainder as what the rows leave of it, the flag as a positive pool of which no row shows a share |
| `Payouts.FiguresRecover` | internal/features/contracts/tasks_payout.go:175-197 | pool and remainder are recovered exactly; the flag is right if and only if not every priced share vanishes at six decimals |
| `Payouts.SharesShowForAnyRealCrowd` | internal/features/contracts/tasks_payout.go:180-197 | with everything delivered and at most 200,000,000 deliverers all three figures are recovered exactly |
| `Payouts.FlagFailsBeyondTheCrowd` | internal/features/contracts/tasks_payout.go:180-197 | among n equal deliverers the flag goes wrong exactly when n exceeds 200,000,000 |
| `Payouts.LedgerDelivers` | internal/features/contracts/tasks_payout.go:140-160 | a sound contract's deliveries meet what conservation needs, in full once completed, for any catalog prices |
| `Payouts.CompletedHasDeliverers` | internal/features/contracts/tasks_payout.go:76-80 | the branch for a completed contract without deliverers is dead |
| `Payouts.CompletedContractSplit` | internal/features/contracts/payout.go:81-127 | the conservation bound for every contract the ledger completed |
| `Csv.Buffer.WriteCSVRow` | internal/features/contracts/tasks_payout.go:355-365 | appends one record of quoted fields |
| `Csv.ReadRow` | internal/features/contracts/tasks_payout.go:351-365 | a reader following section 2 of RFC 4180 gets the record's fields back whatever they contain, and stops where the record ends |
| `Csv.RoundTrip` | internal/features/contracts/tasks_payout.go:351-365 | the text of any rows reads back as those rows if and only if no row is without fields |
| `Csv.PayoutCSV` | internal/features/contracts/tasks_payout.go:302-349 | behind the byte order mark the export reads back as its header and one record per payout row |
| `Csv.SameNumberOfFields` | internal/features/contracts/tasks_payout.go:318-347 | header and records have the same number of fields |
| `Csv.CaptionsStandAbove` | internal/features/contracts/tasks_payout.go:318-335 | each caption stands above its column, each item name above the item's |
| `Csv.RecordRoundTrip` | internal/features/contracts/tasks_payout.go:336-347 | from a record's cells a reader recovers contract, title, display name and member as they are, and every quantity, the share and the amount as numbers |
| `Csv.OwnDeliveriesCount` | internal/features/contracts/tasks_payout.go:302-317 | with a row a member, the quantity exported for a member is what their own row delivered, and zero without one |
| `Numbers.FixedRoundTrip` | internal/numfmt/numfmt.go:14-20 | fixed-point text reads back as exactly its units at every precision |
| `Numbers.PointStandsInPlace` | internal/numfmt/numfmt.go:14-20 | the one point stands in front of the last digits, as many as there are places, with the whole units before it and the rest behind |
| `Console.ParseUndoesBuild` | internal/features/contracts/console.go:234-250 | parsing undoes building, empty trailing parts included, if and only if no field holds the separator |
| `Console.BuildUndoesParse` | internal/features/contracts/console.go:234-250 | whatever parses is what building its fields gives |
| `Console.UnescapeEscape` | internal/features/contracts/console.go:274-302 | decoding undoes the percent-encoding of any bytes |
| `Console.EscapeAlphabet` | internal/features/contracts/console.go:276-278 | plain bytes stand for themselves, and an escape is made of plain bytes, plus and percent signs only, by their ASCII codes |
| `Console.TrimStrips` | internal/features/contracts/console.go:276-278 | trimming a query takes the white space of Unicode off both ends, all of it and nothing else |
| `Console.EncQuery` | internal/features/contracts/console.go:267-290 | the token is the escape of the longest prefix of the trimmed query whose escape fits 48 bytes |
| `Console.CutIsClean` | internal/features/contracts/console.go:279-288 | a cut in front of an escape, or with no percent sign in the two bytes before it, splits no escape |
| `Console.QueryRoundTrip` | internal/features/contracts/console.go:234-302 | a query riding last in an id disturbs no part before it and decodes to a prefix of the trimmed query, the whole of it when its escape fits |
| `Features.Resolver.Visit` | internal/feature/feature.go:97-113 | on any graph, cyclic or not, the visit ends; it fails only on a reachable unknown name, adds only reachable names, and leaves the chain of entered features as it was |
| `Features.Resolver.Resolve` | internal/feature/feature.go:93-122 | the output is exactly what the selection reaches, each name once, a requirement before its dependent unless the two require each other |
| `Features.FailsOnUnknown` | internal/feature/feature.go:101-104 | resolution fails if and only if a reachable name is unknown |
| `Features.RequirementsComeFirst` | internal/feature/feature.go:83-88 | without cycles every requirement stands before what requires it |
| `Features.ResolvingAgainAddsNothing` | internal/feature/feature.go:83-122 | resolving a resolution gives the same names, each once |
| `Emojis.Syncer.Reconcile` | internal/emoji/syncer.go:185-217 | one asset is kept, created or replaced, and the noted token is what the application has after, whichever call failed |
| `Emojis.Syncer.PruneOthers` | internal/emoji/syncer.go:219-238 | only emojis the assets do not define may go, and the map ends equal to the application's |
| `Emojis.Syncer.Sync` | internal/emoji/syncer.go:166-243 | in every mode and for every pattern of failed calls the Store equals the application's own map after a sync; without failures the application ends with the assets; a settled application sees no further call |
| `Permissions.Repository.SetRoles` | internal/features/permissions/postgres.go:41-79 | the command ends with exactly the given roles, or a rolled-back transaction changed nothing |
| `Permissions.GrantingIsExact` | internal/features/permissions/postgres.go:41-79 | no other command and no other server is touched |
| `Permissions.Repository.List` | internal/features/permissions/postgres.go:81-100 | lists a server's grants, all of them and no others |
| `Permissions.Store.Load` | internal/features/permissions/cache.go:60-80 | what is cached says for every command what the database says, with other servers evicted arbitrarily; a failed read caches nothing; with nothing required of the entries that were there |
| `Permissions.Store.SetRoles` | internal/features/permissions/cache.go:98-105 | writes through; an acknowledged write makes its server agree again whatever the entry said, other servers are as right or wrong as before, and a coherent cache stays coherent if and only if the commit was acknowledged, rolled back, or changed nothing a cached entry says |
| `Permissions.Store.Evict` | internal/features/permissions/cache.go:22-43 | a server that was evicted agrees with the database, and eviction keeps coherence |
| `Permissions.AnswersRightExactly` | internal/features/permissions/permissions.go:57-77 | after any history, an unacknowledged commit included, all answers on a command equal the direct rule if and only if the roles the check goes by, cached or stored, are the stored ones |
| `Permissions.CoherentExactly` | internal/features/permissions/cache.go:82-105 | after a replace a coherent cache agrees with the database if and only if it dropped the server or the roles were those already |
| `Permissions.Gate.IsAllowed` | internal/features/permissions/permissions.go:57-77 | every answer goes by the cached entry where there is one and by the database otherwise, for any cache; with an entry that agrees, or none, it equals the direct rule on the stored grants |
| `Catalogs.Accumulator.CollectItems` | internal/gamedata/catalog.go:207-217 | the recursive in-place collection flattens the chain, base layer first |
| `Catalogs.AgreeExactly` | internal/gamedata/catalog.go:60-71 | for every id listing and lookup agree if and only if the topmost layer mentioning it does not both remove and define it |
| `Catalogs.Items` | internal/gamedata/catalog.go:196-205 | the listing is sorted; of a consistent chain filed under its own ids it is exactly what the lookup finds, once each |
| `Catalogs.ListsWhatItFinds` | internal/gamedata/catalog.go:60-71 | ids removed in one layer and defined again in a later one included |
| `Catalogs.RemovedAndDefined` | internal/gamedata/catalog.go:196-217 | a layer that does both, which the generator never emits, would list an item the lookup does not find |
| `Catalogs.DeltaDataset` | internal/gamedata/gen/diff.go:127-178 | the generator's layer: exactly the entries that are new or changed against the parent, and the sorted ids that went |
| `Catalogs.ReleasesAreConsistent` | internal/gamedata/gen/diff.go:127-178 | every chain of generated layers removes and defines no id at once, and is filed by id where its datasets are: the precondition of `Items` and `ListsWhatItFinds` is met |
| `Catalogs.ReleasesFlattenToTheLast` | internal/gamedata/gen/diff.go:127-178 | round trip: of any history of datasets, laying the differences over each other gives the last dataset back |
| `Catalogs.EveryVersionFindsItsDataset` | internal/gamedata/catalog.go:58-71 | in the chain of any history the lookup finds exactly the items of the version's dataset, ids removed and brought back included |
| `Catalogs.ParentOverwritten` | internal/gamedata/gen/main.go:66-99 | generating a parent again under a version cut from it changes what that version finds under an id if and only if the version does not carry the id itself and the parent now differs there |
| `Catalogs.AdditionShowsThrough` | internal/gamedata/gen/main.go:149-153 | an overwrite without removals, which the generator calls safe, shows an added item in a version that lacks it |

## Left out

- A post is modelled by the contract revision it shows. Layout, buttons, locking and archiving are not: a terminal contract's thread may stay unlocked when its close found no thread yet.
- Thread creation is not exactly-once in the source; a crash between posting and recording leaves an extra post nobody's thread points at, and the model has it too.
- A handler's read of a contract is one step. The source reads the row, the items and the reservations by separate queries in that order, so its snapshot can be newer than the revision it is labelled with, never older.
- A post that is gone is replaced by a refresh, so while the contract is open. The close of an ended contract is done with a missing post in the current format, in the source and here: not even Republish brings that one back.
- One worker is assumed, as the source does. Row locks are taken to serialise the transactions on one contract.
- Names are trimmed and folded as ASCII text; Unicode case folding is not modelled, so `Ledger` and `Repositories` compare names that differ only in other letters as different.
- 32-bit quantities and the NUMERIC column widths: quantities and money are unbounded, so an overflow refused by the database is not a case of its own.
- Reputation and licence points, catalog version stamps on items, the template link, actor and audit columns: they are stored and shown, nothing depends on them.
- Catalog prices are whole scaled units instead of floats.
- Clocks, tickers and timeouts; `now` is a parameter and may even run backwards.
- The cached gate under a load that races a write: coherence is claimed for sequential calls with arbitrary eviction only.
- Animated emojis, whose token has another form, and images: an emoji is its name and id.
- Catalog entities other than items: they are layered the same way but never removed.
- Resolving, listing and paging on the console, modals, message text, localisation, and the search index.
- The supply feature's ledger, which makes the same transitions without deadlines and payouts.
- Templates, settings, bases, sessions, migrations and wiring: thin guards around the parts above.
