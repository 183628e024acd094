# Verified model of the Firebird extension for PHP

The extension keeps C structs for links, transactions, queries and batches. They point at each other with
raw pointers, they are freed from many call sites, and some calls commit on the server without having been
asked to. This project models those rules and proves them, and then models the extension's smaller
exact algorithms: array marshalling, the transaction parameter block, column names, timestamps, blobs and
scaled integers.

Check everything with `dafny verify dfyconfig.toml`.

## The lifecycle

`State.dfy` describes memory: maps from addresses to struct values, plus what the server knows (live
statement handles, durable work, and for each transaction handle its parameter block, pending work and
retained locks). Freeing removes an address, and using an address that is not there raises `fault`. This is
why the lifecycle is written on values and not with Dafny objects: an object cannot be freed, so
"no freed struct is ever used" could not even be said. The list surgery itself is proved on real linked
objects in `Registry.dfy` and `TrList.dfy`, against the same specification (`Without`, prepending).

`Transactions.dfy`, `Queries.dfy` and `Steps.dfy` hold the extension's functions, branch by branch. The
answers of the server and of the attachment ping are an arbitrary function `Net` from call number to success
or failure, so every statement holds for all of them. `Steps.Op` lists the calls PHP can make, and `Run`
performs a sequence of them.

`Invariant.dfy` is what every call keeps: registries, tr_list, parent and child lists, statement handles,
cursor counters, parameter blocks and pending work are exact. `TransactionsKeep`, `StructureKeeps`,
`LinksKeep`, `QueriesKeep`, `ExecKeeps` and `StepsKeep` prove it for each function and for all runs.
`Outcomes.dfy` says what that means to a caller, `Cascade.dfy` what freeing a query removes, `Effects.dfy`
what the main calls compute (which work becomes durable, which handles end, what becomes of results), and
`QueryCall.dfy` follows `fbird_query` on a link from the call to its return. `Executions.dfy`, `AutoCall.dfy`,
`Calls.dfy` and `Starts.dfy` say for single calls, server answer by server answer, what they come to: a fetch, an
execution, `fbird_execute_auto`, a call on an explicit transaction, a start. `LegacyTrans.dfy` is the argument list of
`fbird_trans`. `Durability.dfy` proves that nothing an explicit transaction has pending is committed behind
its owner's back, except by the idle release, which takes freeing the last thing enrolled on it; `Bystanders.dfy`
is what that needs of calls that free a statement of their own. `RetentionHolds.dfy`, `LastRelease.dfy` and
`Retention.dfy` say, for every server, when the locks that a retaining commit or rollback leaves always have the
mark and somebody enrolled whose going will release them, and name the three ways in which they lose that.

Three rules are parameters of a run (`State.Rules`): the setting `firebird.auto_ddl_commit`, and two promises.
A run is *strict* when an EXECUTE PROCEDURE or RETURNING result is fetched before it is freed or has to change
its transaction (`StepsKeep.FetchedFirst`), and *faithful* to a transaction when the modifiers of the
`fbird_trans` that makes it, if any does, leave the block that its link has taken (`StepsKeep.KeepsBlock`). Only
the statements about exact counters and retention need a strict run, and only those about parameter blocks a
faithful one. `Promises.dfy` proves that both promises are exactly what is needed, and `ConcreteRuns.dfy` has one
run from the empty state for each thing that goes wrong without them.

Findings, each with the lemmas that state it:

- Six kinds of call follow a pointer to a freed link or to nothing, and no other modelled call does
  (`StepsKeep.StepSafe`):
  - `$t = fbird_trans_start($c); $q = fbird_prepare($t, "SET TRANSACTION"); fbird_close($c); fbird_execute($q);`
    reads the freed link (`ConcreteRuns.SetTransactionAfterClose`);
  - a statement with a BLOB or array parameter, executed with a string or an array after `fbird_close`, reads
    the freed link while it binds (`ConcreteRuns.BlobBoundAfterClose`);
  - a call that names a link and a transaction of another link, `fbird_prepare($c2, $t1, $ddl)`, is not refused
    (fbird_query_exec.c:1536-1592); after `fbird_close($c2)` executing that DDL reads the freed link, while the
    transaction is live (`ConcreteRuns.ForeignDdlAfterClose`);
  - so does fetching a buffered row with FBIRD_FETCH_BLOBS or FBIRD_FETCH_ARRAYS after `fbird_close`
    (`ConcreteRuns.ContentsAfterClose`);
  - fetching array contents follows the NULL transaction of a result whose transaction was freed, even while
    the link is open (`ConcreteRuns.ArrayWithoutTransaction`);
  - `fbird_execute` on the result of a statement with parameters writes them through a NULL bind buffer
    (`ConcreteRuns.ResultHasNoBuffer`).
- A one-shot result that is freed before it is fetched, or executed again while the server refuses to start
  its ended default transaction, leaves the cursor counter one too high, and nothing else does
  (`Promises.StepExact`, `ConcreteRuns.UnfetchedRowLeaks`, `ConcreteRuns.RefusedRowLeaks`).
- The idle release commits whatever is pending, also work done after the retaining commit. The comment at
  fbird_transaction.c:1023 says the data was already committed; the code is followed
  (`ConcreteRuns.LateWorkIsCommitted`).
- The locks an explicit transaction retains are left with nothing to release them in three ways, and in a strict
  run, for every server, in no other (`Retention.StepReleasesExactly`; over runs, `Retention.NoOrphanedRetention`):
  - an accepted `fbird_rollback_ret` on an unmarked transaction with something enrolled keeps the locks and sets no
    mark, so that the release which the comment at fbird_transaction.c:1519-1542 promises is never due
    (`ConcreteRuns.RollbackStrandsLocks`);
  - freeing a batch does not release, so a batch that is the last thing on its transaction strands its locks
    (`Retention.BatchFreeOrphans`, `ConcreteRuns.BatchOrphansRetention`);
  - freeing the last query of the transaction asks the server with its first call to release them, and a refusal is
    final; this one is documented as best effort (`LastRelease.LastReleased`, `ConcreteRuns.RefusalStrandsLocks`,
    fbird_transaction.c:993-1018).
- The commit and restart in front of DDL leaves the mark on a transaction that has no locks any more
  (fbird_query_exec.c:327-373), although the header asks every such place to clear it; nothing else leaves such a
  mark (`Retention.StepMarksExactly`). Freeing the statement then commits work nobody asked to commit
  (`ConcreteRuns.StaleMarkCommits`).
- `fbird_trans(FBIRD_READ, $c, FBIRD_WRITE)` starts a read-only transaction and stores a read-write block, so that
  a `fbird_commit_ret` that restarts it makes it read-write (`ConcreteRuns.BlockIsNotKept`). The stored block is the one
  started if and only if the last modifier behind the link to reach each byte of it leaves that byte
  (`LegacyTrans.StoredIsStarted`); every restart uses the stored block (`Outcomes.BlockIsStored`).
- A retaining commit done as commit and restart differs from a true one when the restart fails: the work is
  durable and the handle is gone (`Outcomes.HardCommitRefines`).
- `read_consistency` is written with a byte 1, which reads as a consistency clause of its own; a block whose
  table locks do not fit can end in a byte that makes it unreadable (`Tpb.BlockReads`); and table names are cut
  modulo 256. The block says what was asked just when none of the three applies (`Tpb.BlockSaysWhatIsAsked`).
- A CHAR array element that fills its slot loses its last byte (`ArrayCodec.FaithfulStrings`).
- `fbird_parse_timestamp` reports success when only the date was good, where its header comment promises
  failure, and a time it refuses stays in the struct: "2024-02-29 25:00:00" gives success and an hour of 25
  (`DateTime.HourOf25`, and `DateTime.RefusedTimeStays` for every date and every such time). Binding a parameter
  encodes that hour without asking for has_time (fbird_query_bind.c:690-725). `DateTime.DateOnlyExactly` says
  for which texts each of the two happens.
- Printed timestamps of years up to 100 are refused, and fractions below 1000 are scaled up (`DateTime.RoundTrip`).
- The smallest 64-bit number is not printed as a number (`Scaled.ExactUnlessSmallest`), with unary minus taken to
  wrap around.

Read off the source only, because they lie outside the model (see "Left out"):

- `fbird_query($c, "SET TRANSACTION")` reads a field of a query out of the struct of the transaction it returns
  (fbird_query_exec.c:1472-1473).
- With 16 dimensions, the most a column can have, each element is encoded and decoded after a read of
  `array_desc_bounds[16]`, one past its end; the value is not used (fbird_query_array.c:38-39,
  fbird_result.c:467-468).

## The other algorithms

`ArrayCodec.dfy` has the recursive encoder and decoder over one byte buffer. `Tpb.dfy` has the block builder
and a reader for such blocks; its tag values are those of the Firebird client header, which is not part of
this repository. `Aliases.dfy`, `DateTime.dfy`, `Blobs.dfy` and `Scaled.dfy` are one algorithm each, and `DateFormats.dfy` says
what each of the formats in `DateTime.dfy` is read as.
`Decimal.dfy` and `Arithmetic.dfy` hold what they share. PHP's own conversions (`zval_get_long`,
`zval_get_string`) are parameters, bytes in memory are little-endian, and hash-table keys that PHP would
turn into integers are compared as the strings they come from.

## Model

| member | source | states |
|---|---|---|
| StepsKeep.RunsAreSafe | fbird_transaction.c:60-206 | over every run of careful calls no freed struct or statement handle is used, and between any two calls each registry, tr_list, child list and handle is exact |
| StepsKeep.StepSafe | fbird_query_bind.c:933-940 | some answers of the server make an accepted call use freed memory or NULL if and only if it executes SET TRANSACTION, executes DDL on a started transaction of another link, binds a BLOB or array by value or fetches contents after its link was closed, binds parameters of a result, or fetches array contents without a transaction |
| StepsKeep.StepFaults | fbird_result.c:847-852 | each call that is not careful does go wrong when the server agrees |
| StepsKeep.StepKeeps | fbird_connection.c:90-230 | every careful call keeps the whole invariant, whatever the server answers |
| ExecKeeps.BindIs | fbird_query_bind.c:524-541 | binding changes no state, and follows a dead or missing pointer exactly when the statement is not bindable |
| TransactionsKeep.CloseNeverReleases | php_fbird_includes.h:573-583 | closing a cursor never passes the guards of the idle release it calls, because the query is still enrolled |
| TransactionsKeep.OpenedKeeps | php_fbird_includes.h:560-572 | opening a cursor keeps the invariant, counters included |
| TransactionsKeep.ClosedKeeps | php_fbird_includes.h:573-583 | so does closing one, and the query is closed afterwards |
| TransactionsKeep.FlipTally | php_fbird_includes.h:560-583 | when one query opens or closes and the counter of the registry that lists it follows, every counter stays at or above the number of open queries |
| TransactionsKeep.CommitRestartKeeps | fbird_transaction.c:957-984 | commit and restart keeps the invariant in all its four outcomes |
| TransactionsKeep.RollbackRestartKeeps | fbird_transaction.c:874-907 | so does rollback and restart |
| TransactionsKeep.ReleaseKeeps | fbird_transaction.c:999-1027 | so does the idle release |
| TransactionsKeep.TransEndKeeps | fbird_transaction.c:1412-1597 | so do commit, rollback and their retaining forms, with the restart of an ended explicit transaction |
| TransactionsKeep.WorkCommits | fbird_transaction.c:975-981 | committing moves pending work to durable: it stays in one place only and is never durable twice |
| StructureKeeps.EnrollKeeps | fbird_transaction.c:60-68 | enrolling a query keeps the invariant where its counter has room for it and it leaves no result or statement of an explicit transaction behind |
| StructureKeeps.SoleHolder | fbird_query_prepare.c:200-228 | a query that owns a statement handle and has no results left is the only live query that holds it |
| StructureKeeps.TransferKeeps | fbird_query_exec.c:1466-1487 | handing the statement to the only result of a one-shot SELECT keeps one owner per handle and the tree |
| LinksKeep.DefaultFound | fbird_transaction.c:46-57 | the walk of tr_list touches live transactions only and finds the link's default transaction if there is one |
| LinksKeep.DefTransKeeps | fbird_transaction.c:1334-1410 | making or restarting the default transaction keeps the invariant and yields a started default transaction of that link |
| LinksKeep.FreeTransKeeps | fbird_transaction.c:140-206 | destroying an explicit transaction keeps the invariant, and the transaction is gone |
| LinksKeep.FreeOffList | fbird_transaction.c:112-138 | a transaction that is on no tr_list any more can be detached and freed |
| QueriesKeep.DestroyLeafKeeps | fbird_query_prepare.c:113-274 | freeing one query (cursor, mirror, handle, commit, unlink, release) keeps the invariant |
| QueriesKeep.FreeTreeKeeps | fbird_query_prepare.c:181-199 | freeing a query frees everything below it and changes no query above it but its parent's child list |
| QueriesKeep.FreeQueryKeeps | fbird_query_prepare.c:148-276 | the whole cascade keeps the invariant |
| ExecKeeps.PrepareKeeps | fbird_query_prepare.c:287-552 | prepare keeps the invariant on every exit, and success hands out an owning, enrolled, closed root query |
| ExecKeeps.ReexecKeeps | fbird_query_exec.c:126-142 | closing the cursor of an earlier execution keeps the invariant, and only an EXECUTE PROCEDURE result can stay open |
| ExecKeeps.RehomeKeeps | fbird_query_exec.c:285-309 | moving a query to the restarted default transaction keeps registries and counters exact |
| ExecKeeps.DdlGateKeeps | fbird_query_exec.c:311-373 | the commit and restart in front of DDL keeps the invariant |
| ExecKeeps.AutoCommitKeeps | fbird_query_exec.c:1432-1463 | autocommit with its retry keeps the invariant |
| ExecKeeps.CloseCursorsKeeps | fbird_query_exec.c:1190-1212 | closing all cursors of a transaction ends no transaction |
| ExecKeeps.MakeResultKeeps | fbird_query_exec.c:678-842 | making a result keeps the invariant, and the query changes only by the child it may get |
| ExecKeeps.WholeExecKeeps | fbird_query_exec.c:89-1176 | a whole execution keeps the invariant and the identity of its query, whose only new child is its result |
| ExecKeeps.RunOnceKeeps | fbird_query_exec.c:1214-1500 | prepare, execute, autocommit and hand-over in one call keep the invariant |
| ExecKeeps.ExecuteAutoKeeps | fbird_query_exec.c:1974-2082 | fbird_execute_auto keeps the invariant, and the transaction it started is gone afterwards |
| ExecKeeps.FetchKeeps | fbird_result.c:678-752 | fetching a row and its BLOB and array contents keeps the invariant while the link and, for arrays, the transaction are there |
| StepsKeep.CloseLinkKeeps | fbird_connection.c:90-230 | closing a link keeps the invariant |
| StepsKeep.DropTableKeeps | fbird_inspection.c:176-338 | dropping a table keeps the invariant for default and explicit transactions |
| StepsKeep.BatchCreateKeeps | fbird_batch.c:95-205 | making a batch, which a statement without parameters is refused, keeps the invariant |
| StepsKeep.BatchFreeKeeps | fbird_class_batch.c:50-80 | both ways to free a batch, with or without its query, keep the invariant |
| Outcomes.CounterBounds | php_fbird_includes.h:560-583 | until a counter wraps, it is at least the number of live open queries of the transaction, and exactly that in a strict run |
| Outcomes.ZeroMeansNoCursor | fbird_query_prepare.c:243-246 | a counter of 0 means no live query of the transaction is open |
| Outcomes.OpeningCounts | php_fbird_includes.h:567-571 | opening one more cursor keeps the bound if and only if the counter does not reach 65536 |
| Outcomes.UnfetchedLeaks | fbird_query_exec.c:812-834 | freeing an open one-shot result of a live transaction leaves its counter as it was, above the number of open queries |
| Outcomes.CommitRestartIs | fbird_transaction.c:957-984 | the exact state after commit and restart for each combination of server answers |
| Outcomes.RollbackRestartIs | fbird_transaction.c:874-907 | the exact state after rollback and restart; there is no ping and the retention mark stays |
| Outcomes.IdleIsUnused | fbird_transaction.c:999-1020 | the idle release goes ahead only when no live query or batch refers to the transaction |
| Outcomes.ReleaseIsSafe | fbird_transaction.c:999-1027 | it makes durable exactly the pending work, clears the mark, and otherwise does nothing |
| Outcomes.ClosingCommitsNothing | php_fbird_includes.h:573-583 | closing a cursor makes no server call and changes no handle, mark or durable data |
| Outcomes.HardCommitRefines | fbird_transaction.c:1543-1570 | hard commit and restart agrees with a retaining commit on success, minus the locks; the only difference is a failed restart |
| Outcomes.HardRollbackRefines | fbird_transaction.c:1519-1542 | the same for rollback |
| Outcomes.HardPathOpen | fbird_transaction.c:1555-1559 | the hard path is open if and only if the counter is 0 and no live query or batch refers to the transaction |
| Outcomes.HardPathTaken | fbird_transaction.c:1512-1570 | it is then taken; otherwise a successful retaining commit keeps the handle with its locks and sets the mark |
| Outcomes.CommitOnFreeIsContained | fbird_query_prepare.c:243-274 | the commit on freeing a result reaches only the default transaction of the query's own live link, with no open cursor left on it |
| Outcomes.OneDefaultEach | fbird_transaction.c:46-57 | a link has at most one default transaction, and the walk of its list yields exactly that one |
| Outcomes.BlockIsStored | fbird_transaction.c:914-950 | every live handle of a transaction that the run is faithful to runs on the stored block, and in any run every one of a default transaction or of one that stored what it started with, and a restart always does |
| Promises.FaithfulRuns | fbird_transaction.c:914-984 | in every run, every transaction it is faithful to, which includes all made by fbird_trans_start, has its handle on the block it has stored |
| Promises.LegacyStartExact | fbird_transaction.c:1237-1246 | fbird_trans leaves its handle on the stored block if and only if the modifiers behind the link leave the block that the link has taken |
| LegacyTrans.ScanArguments | fbird_transaction.c:1124-1193 | the loop over links, modifiers and timeouts, on the one buffer they share, computes the specified scan |
| LegacyTrans.Populate | fbird_transaction.c:211-253 | a modifier overwrites the front of the buffer with its block and leaves the rest |
| LegacyTrans.ByteAfter | fbird_transaction.c:1171-1191 | after any arguments each byte of the buffer is that of the last block to reach it, or what was there |
| LegacyTrans.StoredIsStarted | fbird_transaction.c:1206-1246 | the stored block is the one started if and only if, for each of its bytes, the last modifier behind the link to reach it leaves it |
| LegacyTrans.OneModifierAfter | fbird_transaction.c:1171-1191 | one modifier behind the link keeps the block if and only if the two blocks agree as far as both go |
| Outcomes.RestartsUseStored | fbird_transaction.c:874-984 | so do both hard restarts |
| Outcomes.EveryHandleIsOwned | fbird_query_exec.c:1011-1026 | each live statement handle has exactly one owning query |
| Outcomes.HoldersAreUnderOwner | fbird_query_exec.c:1011-1026 | every other holder is a descendant of the owner |
| Outcomes.FreedOnce | fbird_query_prepare.c:200-228 | a handle is live when it is freed, and afterwards no live query has it |
| Outcomes.ResultIsAlwaysMade | fbird_query_exec.c:733-745 | the exits that would free an enrolled result clone are never taken |
| Effects.EndsExactly | fbird_transaction.c:1498-1595 | commit and rollback end the transaction in every case; work becomes durable only by a commit the server accepts, and nothing else changes |
| Effects.EndHealsExplicit | fbird_transaction.c:1483-1504 | committing an explicit transaction that had been ended starts it again first and makes nothing durable |
| Effects.HealsFirst | fbird_transaction.c:1483-1504 | in every mode an ended explicit transaction is first started again on its stored block and then treated as any other; if that fails, so does the call |
| Executions.ObjectEndsExactly | fbird_class_transaction.c:44-93 | the object methods drop the handle in every case and keep the mark; the work becomes durable by an accepted commit only |
| Executions.LocksReleased | fbird_transaction.c:957-984 | releasing the metadata locks makes the pending work durable and starts again on the stored block, without locks and mark; a refused commit changes nothing, a refused start leaves the transaction ended |
| Executions.DestroyLoses | fbird_transaction.c:140-206 | destroying a transaction makes nothing durable and touches no other, whatever the server answers |
| Executions.SqlEnds | fbird_query_exec.c:213-252 | COMMIT as SQL makes exactly the pending work durable and ends the transaction, ROLLBACK loses it; where the server refuses, no handle, work or mark has changed |
| Effects.AutoCommitSettles | fbird_query_exec.c:1432-1463 | autocommit ends the transaction and makes all or nothing of its work durable, with the exact condition |
| Effects.RunningAddsWork | fbird_query_exec.c:373-590 | what each kind of statement does to the pending work, a SELECT from a procedure that writes included, and when a run counts as failed |
| Executions.ExecutedExactly | fbird_query_exec.c:89-1176 | which answers of the server make an execution fail, be done, or have a result, and what is then pending on its transaction; nothing becomes durable and no other transaction changes |
| Executions.ReexecutesClosed | fbird_query_exec.c:126-142 | executing a statement whose cursor is open closes that cursor without touching a transaction, and is then an execution like any other |
| Executions.PreparesExactly | fbird_query_prepare.c:287-552 | a statement is prepared if and only if its transaction has started, the server accepts and describes it, and it has no more columns than allowed; what it is then, field by field, and that nothing else has changed |
| Executions.UnpreparedUntouched | fbird_query_prepare.c:480-552 | a statement that is not prepared leaves every handle, mark and piece of work of an unmarked transaction as it was |
| Executions.GateExactly | fbird_query_exec.c:311-373 | the commit and restart in front of DDL happens only with open cursors or auto_ddl_commit; it makes all pending work durable, a refused commit does not stop the DDL, a refused start does |
| Calls.GatedDdlExecutes | fbird_query_exec.c:311-373 | DDL behind that gate: for each combination of answers what is durable, what is pending, and what the call returns |
| Calls.DdlEndsItsTransaction | fbird_query_exec.c:593-660 | DDL on the first default transaction of a link ends that transaction; it becomes durable together with everything pending before it, or is lost with it, and which of the two the answers decide |
| Calls.ExplicitCallExactly | fbird_query_exec.c:1214-1500 | fbird_query and its relatives on an unmarked explicit transaction, named alone or with a link: nothing becomes durable, the work of the statement is added to what was pending exactly when it was prepared, bound and accepted, and no other transaction changes; DDL with the commit in front of it is GatedDdlExecutes |
| AutoCall.ExecuteAutoExactly | fbird_query_exec.c:1974-2082 | what is durable grows by exactly the one piece of work of the statement when start, prepare, execution and commit succeed and there is no result, and is unchanged for every other reply; every other transaction keeps its handle, its work and its mark |
| AutoCall.FreeQuiet | fbird_query_prepare.c:148-276 | freeing a statement and its result on a transaction that is neither default nor marked commits, ends and loses nothing |
| Starts.StartsExactly | fbird_transaction.c:1124-1330 | a start makes a transaction if and only if the server accepts it: explicit, last on the list of its link, on its block, with nothing pending; nothing else changes |
| Starts.SetTransactionStarts | fbird_query_exec.c:167-211 | so does SET TRANSACTION as SQL, on the block of the server |
| Starts.DefaultIsUsed | fbird_transaction.c:1334-1410 | a started default transaction is used without a call to the server |
| Starts.DefaultRestarts | fbird_transaction.c:1334-1410 | an ended one is started again in place, on the block of the current settings, or left ended |
| Starts.DefaultIsMade | fbird_transaction.c:1334-1410 | a link without one gets one at the end of its list, where it stays even if it cannot be started |
| Starts.RehomesExactly | fbird_query_exec.c:285-309 | a statement whose default transaction was ended gets the same one back, started again, if the server accepts; otherwise it is on no transaction |
| Effects.SelectMakesChild | fbird_query_exec.c:664-676 | a SELECT result is an open child that shares the handle; the query and the result are now both counted as open |
| Effects.OneShotStandsAlone | fbird_query_exec.c:812-840 | a one-shot result is open, holds no handle, has no parent, and leaves its query as it was |
| Effects.SettleHandsOver | fbird_query_exec.c:1466-1487 | after a one-shot SELECT the result owns the handle, the prepared query is gone, and no work, handle or other query has changed |
| QueryCall.QueryOutcome | fbird_query_exec.c:1347-1487 | fbird_query on a link, for each reply: a statement without a result ends the default transaction with all or nothing of its work durable; a result, shared or one-shot, commits nothing; a failure or a new transaction commits nothing but what an idle release was due to; the statement is freed in each case |
| QueryCall.QuerySettlesItsWork | fbird_query_exec.c:1431-1463 | a DML statement or procedure without a result is committed together with everything pending before it, or lost with it, and nothing is left pending |
| Effects.BufferedRowIsFetchedOnce | fbird_result.c:690-752 | a buffered row is fetched once: the result closes without a server call and the next fetch finds nothing |
| Executions.FetchExactly | fbird_result.c:690-752 | an open SELECT result delivers a row if and only if the cursor is open and the server has a row, and then nothing changes; otherwise it is closed, has no more rows, is out of the open queries, and no transaction has changed |
| Executions.RowsThenEnd | fbird_result.c:720-752 | a server with n rows delivers n rows, which change nothing; the next fetch delivers none and closes the result, and no later one delivers any |
| Executions.FetchesRun | fbird_result.c:678-752 | n such fetches are the run of n fetch calls |
| Effects.LastResultCommits | fbird_query_prepare.c:201-276 | freeing a SELECT result, with or without a prepared statement above it, commits the default transaction exactly when no cursor is open on it but its own and that of its statement |
| Effects.DropSettles | fbird_inspection.c:176-338 | drop table makes the DROP and all pending work durable and takes the transaction off its link, or changes nothing durable |
| Effects.CloseSettles | fbird_connection.c:90-158 | closing a link frees its default transaction, cuts its explicit ones off and touches no other; the default one's work is all durable exactly when the ping and then its commit succeed, after one call for each started transaction before it on the list |
| Effects.BatchRunsOnce | fbird_batch.c:614-662 | executing a batch adds one piece of work to its transaction, once |
| Starts.BatchMade | fbird_batch.c:95-205 | a batch is made if and only if the statement has parameters and the named transaction, or else its own, has started and the server accepts; it heads the list of that transaction |
| Starts.CancelledNeverRuns | fbird_batch.c:665-692 | after an accepted cancel executing the batch does nothing; a refused one changes nothing |
| Starts.BatchGone | fbird_batch.c:21-76 | a batch freed without its statement is gone from its list, and no work, handle or query has changed |
| Durability.NothingBehindTheCaller | fbird_transaction.c:1412-1597 | in a run without a commit point of an explicit transaction and, once it is marked, without a call that frees the last thing enrolled on it, none of its pending work becomes durable or moves elsewhere |
| Durability.OnlyKnownWays | fbird_transaction.c:999-1027 | its pending work becomes durable at a commit point, or when a call frees the last query of a marked transaction without a batch and the release fires: then the mark is gone, nothing is enrolled on it and its counter is 0 |
| Durability.ReleaseNeedsLast | fbird_transaction.c:1003-1020 | in a strict or any other run, the idle release of a marked transaction fires only in a call that frees the last query enrolled on it, while it has no batch |
| Bystanders.RunOnceUses | fbird_query_exec.c:1214-1500 | a one-shot call leaves every other query and every batch enrolled where it is |
| Durability.StepSpares | fbird_query_exec.c:327-331 | a call that is no commit point of the transaction brings its work no nearer to being durable, unless it frees a query and that spends the mark |
| Durability.ExecSpares | fbird_query_exec.c:213-252 | executing a statement that is no COMMIT and no committing DDL commits no explicit transaction and releases none |
| Durability.FreeTreeSpares | fbird_query_prepare.c:243-274 | freeing queries commits default transactions only, and an explicit one by its idle release only |
| Cascade.FreeRemoves | fbird_query_prepare.c:181-199 | freeing a query frees exactly what is under it in the tree of results, and every other query keeps its parent and its transaction |
| Promises.StepExact | php_fbird_includes.h:560-583 | exact counters stay exact through a call, whatever the server answers, if and only if the call frees no open unfetched result and executes none that would first have to start its ended default transaction |
| Retention.NoOrphanedRetention | fbird_transaction.c:1519-1570 | over every strict run, for every server and until a counter wraps: a live explicit handle with retained locks has the mark, and a query or batch enrolled, between any two calls if and only if no call is one of the three ways below |
| Retention.MarkedIsEnlisted | fbird_transaction.c:999-1027 | the same for the mark alone: a live explicit handle with retain_committed set has something enrolled between any two calls if and only if the run frees no batch that orphans its transaction |
| Retention.StepReleasesExactly | fbird_transaction.c:1519-1542 | for every server, a call keeps locks with mark and somebody enrolled if and only if it is no accepted retaining rollback of an unmarked transaction with something enrolled, frees no batch that orphans its transaction, and does not free the last query of a transaction with locks while the server refuses its first call |
| Retention.StepEnlistsExactly | fbird_class_batch.c:50-80 | for every server, a call leaves every mark with somebody enrolled if and only if it frees no batch that orphans its transaction |
| Retention.StepMarksExactly | fbird_query_exec.c:327-373 | a call keeps every mark on a transaction with locks if and only if it does not commit and restart a marked explicit transaction in front of DDL |
| RetentionHolds.ReleaseMends | fbird_transaction.c:999-1027 | the release right after a query leaves its registry repairs what the leaving broke |
| Retention.BatchFreeOrphans | fbird_class_batch.c:50-80 | for every server, freeing a batch, alone or with its query, leaves every mark with somebody enrolled if and only if it is not the only batch of a started, marked explicit transaction on which every query goes with it |
| Retention.UnmarkedLoses | fbird_transaction.c:1519-1542 | a retaining rollback that is not hard, on a transaction without the mark, leaves locks without it just when the server accepts it, and the restart before it if the transaction had ended |
| LastRelease.LastReleased | fbird_transaction.c:999-1027 | when the last query of a transaction with locks goes, however many go with it, the answer to the next call to the server decides whether the locks stay with nobody to release them |
| LastRelease.FreeReleases | fbird_query_prepare.c:135-145 | freeing any query leaves nobody without a release if and only if that call is accepted where the last query of a transaction with locks goes |
| LastRelease.UnderFamily | fbird_query_exec.c:678-700 | a statement of an explicit transaction and all its results are on that transaction |
| ConcreteRuns.SetTransactionAfterClose | fbird_query_exec.c:167-211 | a run that executes SET TRANSACTION after its link was closed reads the freed link |
| ConcreteRuns.ForeignDdlAfterClose | fbird_query_exec.c:327-331 | so does one that executes DDL prepared on a link and a transaction of another, after that link was closed |
| ConcreteRuns.BlobBoundAfterClose | fbird_query_bind.c:933-940 | so does one that binds a BLOB by value after it |
| ConcreteRuns.ContentsAfterClose | fbird_result.c:549-553 | so does one that fetches BLOB or array contents after it |
| ConcreteRuns.ArrayWithoutTransaction | fbird_result.c:851-852 | a run that fetches array contents after the transaction was freed follows NULL |
| ConcreteRuns.ResultHasNoBuffer | fbird_query_bind.c:524-541 | a run that executes the result of a statement with parameters writes through NULL |
| ConcreteRuns.UnfetchedRowLeaks | fbird_query_exec.c:812-834 | a run that ends with a counter of 1 and no open query, because a row was freed unfetched |
| ConcreteRuns.RefusedRowLeaks | fbird_query_exec.c:285-309 | the same, because a row lost its transaction and the server refused another |
| ConcreteRuns.BatchOrphansRetention | fbird_class_batch.c:50-80 | a run that ends with retained locks and nothing enrolled to release them |
| ConcreteRuns.RollbackStrandsLocks | fbird_transaction.c:1519-1542 | a run in which a retaining rollback leaves locks, no mark, and nothing enrolled once its statement is freed |
| ConcreteRuns.RefusalStrandsLocks | fbird_transaction.c:999-1027 | the same end, because the server refused the release |
| ConcreteRuns.StaleMarkCommits | fbird_query_exec.c:327-373 | a run in which DDL leaves a mark without locks, and freeing its statement commits the DDL |
| ConcreteRuns.LateWorkIsCommitted | fbird_transaction.c:1018-1026 | a run in which an INSERT executed after commit_ret becomes durable when its statement is freed |
| ConcreteRuns.BlockIsNotKept | fbird_transaction.c:1171-1246 | a run in which a transaction started read-only is restarted read-write |
| Registry.Transaction.RegisterQuery | fbird_transaction.c:60-68 | the query is pushed in front of the list, in place |
| Registry.Transaction.RegisterBatch | fbird_batch.c:178-184 | the same for a batch |
| Registry.Transaction.Detach | fbird_transaction.c:112-138 | both lists are emptied and no listed query or batch points back any more |
| Registry.Transaction.IsIdle | fbird_transaction.c:1003-1020 | the guards of the idle release |
| Registry.Query.Unregister | fbird_transaction.c:90-105 | the pointer walk unlinks this query and leaves the rest of the list in order |
| Registry.Batch.Unregister | fbird_transaction.c:71-86 | the same for a batch |
| Registry.Query.CursorOpened | php_fbird_includes.h:560-572 | the counter keeps its distance from the number of open queries unless it wraps |
| Registry.Query.CursorClosed | php_fbird_includes.h:573-583 | the same for closing, and the idle release never goes ahead |
| Registry.WithoutAt | fbird_transaction.c:94-101 | unlinking a list element without duplicates removes exactly its position |
| TrList.Link.FindDefault | fbird_transaction.c:46-57 | the walk returns the first default transaction, or none |
| TrList.Link.Append | fbird_transaction.c:1360-1364 | a new node is hung at the end |
| TrList.Link.Remove | fbird_transaction.c:190-203 | the first node of the transaction is unlinked |
| TrList.Link.Empty | fbird_inspection.c:305-325 | the first node of a default transaction stays, emptied |
| TrList.Link.PopHead | fbird_connection.c:102-157 | the head node is taken off |
| ArrayCodec.SliceLength | fbird_query_bind.c:1236-1241 | the loop computes element size times the product of the dimension lengths |
| ArrayCodec.DivisionIsExact | fbird_query_array.c:44-45 | every recursive division is exact |
| ArrayCodec.BindArray | fbird_query_array.c:34-84 | succeeds exactly when the specification does, writes its bytes, and writes nothing outside its region |
| ArrayCodec.BindLeaf | fbird_query_array.c:85-375 | the bytes of one element, or refusal of a value out of range |
| ArrayCodec.ArrZval | fbird_result.c:460-523 | builds the value the specification reads from the region |
| ArrayCodec.EncodeSucceeds | fbird_query_array.c:144-171 | storing succeeds if and only if every element stored is in range |
| ArrayCodec.RoundTrip | fbird_result.c:460-523 | for any dimensions and bounds, decoding what was encoded gives the normalised value |
| ArrayCodec.StoreAndFetch | fbird_query_bind.c:1236-1243 | the whole way of a parameter through a fresh slice and back: it succeeds as StoresExactly says, and what comes back is what ComesBack says |
| ArrayCodec.ComesBack | fbird_result.c:460-523 | the fetched array has exactly the keys within the bounds, and under each what was stored at that position: the element of the PHP array there, NULL past the end of a short one, a scalar everywhere, as its type brings it back |
| ArrayCodec.StoresExactly | fbird_query_array.c:144-171 | storing succeeds if and only if each of these elements that is an integer is in the range of its type |
| ArrayCodec.SlotStores | fbird_query_array.c:60-81 | the slot of each position holds the bytes of the element at that position |
| ArrayCodec.RowMajor | fbird_query_array.c:44-81 | the next element of the innermost dimension is stored right behind |
| ArrayCodec.LittleEndian | fbird_query_array.c:144-188 | byte i of an integer is its i-th digit to the base 256 |
| ArrayCodec.OneTwoThree | fbird_query_array.c:60-81 | [1, 2, 3] in INTEGER[1:3]: the twelve bytes, and what is fetched |
| ArrayCodec.NormAt | fbird_query_array.c:60-76 | the element at an index is the stored element: short arrays padded with NULL, long ones cut, scalars spread |
| ArrayCodec.LeafRoundTrip | fbird_result.c:494-518 | the same for one element of each type |
| ArrayCodec.IntRoundTrip | fbird_query_array.c:144-188 | two's-complement bytes read back as the same integer |
| ArrayCodec.FaithfulStrings | fbird_query_array.c:329-370 | exactly which VARCHAR and CHAR strings come back unchanged |
| ArrayCodec.OffsetInside | fbird_query_array.c:44-81 | no element leaves the buffer |
| ArrayCodec.OffsetsApart | fbird_query_array.c:44-81 | two elements do not overlap |
| ArrayCodec.OffsetsCover | fbird_query_array.c:44-81 | every byte belongs to an element |
| ArrayCodec.SlotHolds | fbird_query_array.c:44-81 | the slot of each element holds the bytes of that element |
| Tpb.Populate | fbird_transaction.c:255-392 | writes exactly the specified block, whose clauses OptionsDecide and TablesDecide name, stays inside the buffer, and hands back the timeout |
| Tpb.PutLock | fbird_transaction.c:345-383 | a table lock is written whole, or at most its direction byte |
| Tpb.PutTables | fbird_transaction.c:333-388 | the loop over the tables writes whole locks until one does not fit |
| Tpb.BlockFits | fbird_transaction.c:258-259 | the block never exceeds 2048 bytes |
| Tpb.WholeIsPrefix | fbird_transaction.c:361-371 | the locks written are the first ones asked for; if not all, the next does not fit, and a stray byte follows unless the buffer is full |
| Tpb.BlockReads | fbird_transaction.c:255-392 | reading the block gives what was said and the locks that fitted; a stray byte makes it unreadable |
| Tpb.BlockSaysWhatIsAsked | fbird_transaction.c:255-392 | the block says exactly the options and the locks in order if and only if read_consistency is off, every name of a lock has at most 255 bytes, and all of it fits |
| Tpb.OptionsDecide | fbird_transaction.c:255-331 | for each clause, the bits of the options with which a server reads it in the block, and no others |
| Tpb.TablesDecide | fbird_transaction.c:333-388 | the locks a server reads are those of the first table entries that ask for one, in order, each with its table, direction and mode; all of them, unless the block is full |
| Tpb.AccessBlocks | fbird_transaction.c:264-273 | the bytes for FBIRD_READ and FBIRD_WRITE |
| Tpb.CommittedBlocks | fbird_transaction.c:275-292 | those for read committed with and without record versions |
| Tpb.SnapshotBlocks | fbird_transaction.c:275-292 | those for consistency and concurrency |
| Tpb.WaitBlocks | fbird_transaction.c:294-304 | those for wait and nowait |
| Tpb.TimeoutBlock | fbird_transaction.c:309-331 | those for a lock timeout of 300 seconds |
| Tpb.LockBlocks | fbird_transaction.c:345-383 | those for the locks on one table |
| Tpb.ReadsBack | fbird_transaction.c:261-331 | reading is the inverse of writing, clause by clause |
| Aliases.Table.Insert | fbird_metadata.c:36-62 | the loop terminates and adds the first name not yet taken |
| Aliases.Table.Fill | fbird_metadata.c:413-482 | n columns give exactly n distinct keys, in column order |
| Aliases.NotAllTaken | fbird_metadata.c:53-57 | of n + 1 candidate names one is free |
| Aliases.NeverCut | fbird_metadata.c:39 | the name buffer is large enough for every candidate |
| Aliases.DistinctNamesStay | fbird_metadata.c:413-482 | names that are distinct and not empty are kept |
| Aliases.NumberReads | fbird_metadata.c:36-62 | a numbered name is the base, an underscore and the number, in two digits or as many as it takes |
| Aliases.FourColumns | fbird_metadata.c:36-62 | the keys of four columns X, X, one without a name, and X |
| DateTime.TimestampIsReal | fbird_datetime.c:139-268 | success means a Gregorian date of the years 1 to 9999, and has_time a time of day |
| DateTime.DateIsReal | fbird_datetime.c:270-334 | the same for dates |
| DateTime.TimeIsReal | fbird_datetime.c:336-401 | an accepted time is a time of day, and the date is not touched |
| DateTime.ValidDateIsReal | fbird_datetime.c:37-76 | the validation is the Gregorian calendar |
| DateTime.NormalizeFraction | fbird_datetime.c:167-182 | the three loops terminate and give the four leading digits, in 0..9999 |
| DateTime.FourDigitsIs | fbird_datetime.c:167-182 | which fractions are left as they are |
| DateTime.Components.ParseTimestamp | fbird_datetime.c:139-268 | fills the struct as the specification says, format after format; what each format is read as is in DateFormats |
| DateTime.Components.ParseDate | fbird_datetime.c:270-334 | fills the date as the specification says; EuroDay, UsDay and IsoDay give the formats and the centuries |
| DateTime.Components.ParseTime | fbird_datetime.c:336-401 | fills the time and zone |
| DateTime.PrintedText | fbird_datetime.c:156-193 | printed timestamps are read back from year 101 on and refused before |
| DateTime.RoundTrip | fbird_datetime.c:156-193 | printing and parsing is the identity if and only if the year is above 100 and the fraction is 0 or has four digits |
| DateTime.DateOnlyExactly | fbird_datetime.c:139-268 | success without a time, and success with a time in the struct that is none, each if and only if no combined format accepts, the start is a date, and the rest holds no three numbers, or numbers that are no time of day |
| DateTime.RefusedTimeStays | fbird_datetime.c:226-268 | for every real date above the year 100 and every time that is none, the printed text is accepted and the refused time stays |
| DateTime.HourOf25 | fbird_query_bind.c:690-725 | an input for which the struct that is encoded holds an hour of 25 |
| DateFormats.EuroTimestamp | fbird_datetime.c:212-231 | DD.MM.YYYY HH:MM:SS is read as that day and time, with the century of a two-digit year at 50, and refused if and only if there is no such day |
| DateFormats.EuroDay | fbird_datetime.c:297-313 | the same for DD.MM.YYYY alone |
| DateFormats.UsTimestamp | fbird_datetime.c:233-252 | the same for MM/DD/YYYY HH:MM:SS |
| DateFormats.UsDay | fbird_datetime.c:315-331 | the same for MM/DD/YYYY alone |
| DateFormats.IsoDay | fbird_datetime.c:284-296 | YYYY-MM-DD alone is accepted if and only if it is a day after the year 100 |
| DateFormats.IsoTTimestamp | fbird_datetime.c:194-208 | the same with T and a time |
| DateFormats.IsoWithZone | fbird_datetime.c:139-193 | with a zone behind the time, the zone is kept too |
| DateFormats.TimeAlone | fbird_datetime.c:336-401 | HH:MM:SS is read as that time, and refused, but left in the struct, when it is none |
| DateFormats.TimeWithFraction | fbird_datetime.c:336-401 | the same with a fraction |
| DateFormats.TimeWithZone | fbird_datetime.c:336-401 | the same with a zone |
| DateFormats.FourDigitsAre | fbird_datetime.c:167-182 | a fraction becomes its first four digits, with zeros behind a shorter one |
| DateFormats.May1999 | fbird_datetime.c:219 | 13.05.99 10:00:00 is in 1999 |
| DateFormats.February2020 | fbird_datetime.c:306-324 | 01.02.20 and 02/01/20 are the first of February 2020 |
| Blobs.BlobAdd | fbird_blobs.c:334-368 | appends the string in segments of at most 65535 bytes; on failure a prefix of it |
| Blobs.BlobGet | fbird_blobs.c:250-332 | reads the first bytes of what is left, however the server splits its answers, and never leaves the buffer |
| Blobs.WriteThenRead | fbird_blobs.c:271-366 | what was added is read back byte for byte |
| Scaled.PrintsExactly | fbird_result.c:247-264 | the three branches print the exact value with exactly -scale decimals |
| Scaled.SmallestIsMangled | fbird_result.c:258-259 | the smallest 64-bit number is printed with a sign among its decimals |
| Scaled.ExactUnlessSmallest | fbird_result.c:247-264 | a number is printed exactly if and only if it is not the smallest |

## Left out

- Queries.Finish: a statement that is no SELECT, DML or EXECUTE PROCEDURE is taken to have no output columns.
- Queries.Settle: where `fbird_query` reads a query field out of a transaction struct, the model takes the comparison to be false.
- Queries.DdlGate: which attachment a transaction handle lives on is not modelled, so that the restart of a transaction on the link of its statement, where that is another, is a restart like any other.
- Queries.AddWork: a SELECT that writes has written when it has been executed; what its later fetches write is not modelled.
- Queries.Bind: which parameter is a BLOB or an array, and what binding the others yields, is part of the input of a call.
- LegacyTrans.ScanArguments: the copy of the buffer that each link takes is kept for the first link only, since no other is used.
- Steps.Resolve: calls that name no link, and so use the default link, are calls that name that link.
- Calls.ExplicitCallExactly: on a marked transaction the statement's own freeing can be due a release, which Outcomes.ReleaseIsSafe and Durability.OnlyKnownWays describe; transaction control is SqlEnds and SetTransactionStarts.
- Retention.NoOrphanedRetention: default transactions are excluded, because `_php_fbird_def_trans` keeps the mark.
- Durability.NothingBehindTheCaller: snapshot visibility and rows of results of an older execution are the server's business.
- Lifecycle steps other than list surgery and cursor flags are not modelled as methods on objects, so aliasing inside them is expressed by equal addresses only.
- Transactions over several links, which no call can make.
- Persistent-link reuse, the link cache, module shutdown and forked children.
- The reconnected transaction of limbo recovery (firebird.c:1555), `fbird_drop_db`, and connections without an API handle.
- The object form of transactions that never had a resource (fbird_class_transaction.c:49-53).
- Message buffers and metadata objects of a query, and the contents of its bind buffer; only its counts and whether the buffer exists matter here.
- Array elements of other types (floating point, date, time, time zone, boolean) and scaled ones, whose conversion is floating-point or library arithmetic.
- ArrayCodec.SliceLength: the 32-bit overflow of the total size of an array is not modelled.
- ArrayCodec.BindLeaf: the element size kept as an unsigned short is exact, because declared lengths are below 65535.
- DateTime.Components.ParseTimestamp: `sscanf` of a number that does not fit an int is not modelled; numbers are unbounded.
- Tpb.Populate: the block built from flags by the client library (`fbxpb_build_tpb`) is outside this repository's code.
- Aliases.Table.Fill: the names themselves (trimming, RETURNING prefixes) are given.
- Scaled numbers of 128 bits and decimal floats.
- Events, services, users, limbo transactions, timeouts, PDO and error reporting.
