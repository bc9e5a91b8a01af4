# The planning server's rules, verified

The planning server keeps work items on boards, judges gate receipts, feeds
task changes to clients, hands pushes to daemons and keeps the reporting lines
of its members. This project models the rule engines and protocols behind that
and proves what they keep over every run. `dafny verify dfyconfig.toml` checks
all of it.

## The components

- **Board** (`BoardRules`, `BoardSpec`, `BoardTx`, `BoardInvariants`,
  `BoardOperations`, `BoardSoundness`, `BoardCascade`, `BoardOwners`): the write transaction of
  a board. Class `BoardTx` follows the source's class method by method; each
  method is proved to leave the transaction state of a function in `BoardSpec`,
  and the theorems are about those functions. `BoardRules` has the rules that
  look at one item.
- **Stored boards** (`BoardWriteBack`, `BoardRecording`, `BoardBulkDrop`,
  `BoardRuns`, `BoardStore`): what the write-back stores of a transaction, and
  boards over time: member writes, placement, archiving, flags of the gate layer
  and engine passes.
- **Launch grants** (`LaunchGrants`): several boards, the tasks placed on them,
  and who may launch for a task.
- **Gate receipts** (`GateRules`, `GateVerdicts`, `GateRevocation`, `GateWaivers`,
  `GateEvaluator`, `GateState`, `GateRuns`, `GateBoard`, `StaleCascade`): the verdict
  of a receipt as a function and as the loops that compute it, the stored receipts
  over time, and the stale cascade.
- **Granted commands** (`Words`, `CommandCheck`, `CommandGrant`,
  `CommandParser`): whether an executed command stays within the granted one.
- **Task feed** (`TaskFeed`, `FeedProtocol`), **named queues** (`NamedQueue`),
  **push hand-out** (`PushHandout`), **flag engine** (`FlagEngine`), **task
  graph** (`TaskGraph`), **manager tree** (`ManagerTree`).
- `Prelude` and `Graphs` hold what they share: results, and walks, cycles and
  reachability in finite graphs.

Code that changes state in place is a class or a loop here, proved against a
specification; a raised error is an `Err` with the old state kept. Times are
naturals, and pids, labels, hashes and texts are opaque or plain strings. An SQL
statement is one atomic step, except in `FeedProtocol`, where a client's
statements interleave with writers and retention.

## What the code does not promise

Five statements one might expect are false of the code. Each is shown with its
exact condition, and the code is modelled as it is.

- *Closed items have no open flags.* Two kinds of call break it, and no other does
  (`BoardRuns.CallExact`). A bulk drop that takes an item before another of the same
  call that waits on it, and is not flagged yet, leaves `blocker_dropped` open on the
  closed item's row: the write-back resolves flags first and inserts the raised ones
  after (dispatch/items_db.py:344-370; `BoardStore.BulkDropExample` is a concrete
  call). And `runner_void`, `input_void` and `legacy_blocked` are raised without a
  look at the status (dispatch/gate_db.py:181-219, dispatch/placement.py:591-606),
  so on a closed item they stay (`BoardRuns.FlagOnClosedStays`). Flags like these may be
  allowed for (`stray` in `BoardRuns.RunGood`): then only the bulk drop breaks what is
  left of the rule, and no other flag is open on a closed item. Every rule that is not
  about flags holds over all runs regardless (`BoardRuns.RunSound`).
- *More waivers never hurt.* A `must_run` entry finds its nodes through its name
  without trailing slashes, but its waived nodes through the name as written
  (dispatch/gate_rules.py:1061-1068). With two or more slashes at the end, waiving
  the nodes that ran makes the entry absent. `GateWaivers.WorsensExactly` says when
  a grant makes a verdict worse, `GateWaivers.WaiverHurts` is a concrete receipt and
  waiver for each such entry, and `GateWaivers.SingleSlashSafe` the condition on the
  entry.
- *A bounded wrapper never matters.* Behind another use of the granted program's own
  name, as `timeout 9` before a granted `timeout 5 x`, an accepted command is refused,
  and `env` takes leading words with `=` as its own assignments
  (dispatch/gate_rules.py:771-779, 810-822). `CommandGrant.PrefixExact` and
  `CommandGrant.PrefixRefusedExample`.
- *An unexpired page misses nothing.* The page checks retention one statement
  before it reads the log (dispatch/db.py:288-296); a prune in between loses
  rows. `FeedProtocol.PageSafeExactlyWhenRetained`, and a concrete run from an empty
  server.
- *A page and a snapshot filter alike.* They differ for the empty project name
  (`TaskFeed.FiltersAgree`).

Two smaller ones: an item unblocked by the done-cascade keeps its `check_back_at`
(dispatch/items_rules.py:1080-1085), so the field rules say nothing of it; and a
strict item can be left blocked on text without a check-back, which conforms here
and draws a warning there (`BoardOperations.ConformsMeaning`).

## Model

| member | source | states |
|---|---|---|
| `BoardRuns.RunSound` | dispatch/items_db.py:393-409 | Over every run of member writes, placements, archivings, flags of the gate layer and of legacy writes, gate heads and engine passes, under settings that may be edited in between: every item keeps the field rules (blockers only when blocked, `blocked_on` only when blocked or blocked on Owner, ETA and its set time together and only when waiting or active, a job only when active, distinct holders, exactly one owner when held and owned without legacy roles), is closed exactly when it has a close time, no blocker is done or missing, the blocker graph is acyclic, and a board that stays strict holds only running or blocked work |
| `BoardRuns.RunGood` | dispatch/items_db.py:393-409 | Two theorems in one, by `stray`. Over every such run without the bulk drop that `BoardRuns.CallExact` singles out, also: an open `blocker_dropped` has a dropped blocker, and a closed item has no open flag but ones from elsewhere (the gate layer, legacy writes). If the run raises none of those on a closed item either, a closed item has no open flag at all |
| `BoardRuns.CallExact` | dispatch/items_db.py:344-370 | Whatever the call, if it succeeds on a board in order it leaves the board in order if and only if it is not a bulk drop of an item before another of the same call that waits on it and is not flagged yet, nor, where stray flags on closed items count against the board, a flag from elsewhere raised on one |
| `BoardRuns.FlagOnClosedStays` | dispatch/gate_db.py:181-219 | On any board whatever, a gate flag (or a legacy one) raised on a closed item is stored open on it |
| `BoardRuns.CleanExactlyUnless` | dispatch/items_db.py:344-370 | On every sound board, whatever flags its rows carry: a call that succeeds stores the flags its transaction ended with if and only if it is not the bulk drop |
| `BoardRuns.BulkDropLeavesFlag` | dispatch/items_db.py:344-370 | On every sound board such a bulk drop, if not refused, leaves a closed item whose row keeps `blocker_dropped` open; the lemma names it |
| `BoardStore.BulkDropExample` | dispatch/items_db.py:344-370 | A concrete board of two items and a concrete call that does it |
| `BoardRuns.NextSound` | dispatch/items_db.py:393-409 | One call of any kind, refused or stored, keeps a board sound |
| `BoardRuns.StoredSound` | dispatch/items_db.py:278-390 | Writing back a complete record of a sound transaction gives a sound board, even where a flag is lost |
| `BoardRuns.TransactionGood` | dispatch/items_rules.py:392-430 | Every successful transaction of every kind ends with all the rules, flags included, unless stray flags count and it raises a flag from elsewhere on a closed item |
| `BoardRuns.TransactionRecorded` | dispatch/items_rules.py:395-430 | Every successful transaction of every kind has recorded everything it changed |
| `BoardRuns.EmptyBoardGood` | dispatch/items_rules.py:392-430 | A new board is in order, so the runs have a start |
| `BoardInvariants.CycleCheckExact` | dispatch/items_rules.py:507-528 | On an acyclic board the check refuses a write if and only if the graph with the new edges has a closed walk |
| `BoardInvariants.ApplyKeeps` | dispatch/items_rules.py:712-1072 | A successful write keeps all rules of all items: field rules, close times, flags, blockers, acyclicity |
| `BoardInvariants.DraftFields` | dispatch/items_rules.py:938-999 | Whatever fields a caller sends, the settled item meets the ten interlocking field rules |
| `BoardInvariants.NextHoldersDistinct` | dispatch/items_rules.py:789-824 | Whatever is added, removed, replaced or transferred, the merged holders name nobody twice |
| `BoardInvariants.ApplySteps` | dispatch/items_rules.py:712-1072 | What a successful write was made of: a draft, no closed cycle, its own flags, its neighbours, and its owner change |
| `BoardCascade.DoneCascade` | dispatch/items_rules.py:1074-1095 | Whatever flags the rows carry: after a write makes an item done nothing lists it; exactly the blocked dependents left with no blocker and no text leave blocked (to active, or open if unheld off a strict board), get new clocks and form `unblocked`; a dependent loses `blocker_dropped` exactly when no dropped blocker is left; nothing else of any other item changes |
| `BoardOperations.DraftConforms` | dispatch/items_rules.py:611-646 | On a strict board a write leaves its item running or blocked work, given it was or is new |
| `BoardOperations.ConformsMeaning` | dispatch/items_rules.py:78-95 | Conforming is what `strict_violation` accepts, up to its two warnings about the check-back |
| `BoardOperations.UpdateGood` | dispatch/items_rules.py:673-710 | A bulk update keeps all rules, item after item |
| `BoardOperations.CreateGood` | dispatch/items_rules.py:649-671 | A bulk create keeps all rules, item after item |
| `BoardOperations.ResolveGood` | dispatch/items_rules.py:1174-1271 | Resolving a flag or suggestion in any of its ways keeps all rules |
| `BoardOperations.TouchGood` | dispatch/items_rules.py:1106-1172 | Observed activity and its suggestions keep all rules |
| `BoardSoundness.ApplySound` | dispatch/items_rules.py:712-1072 | A write keeps the rules that are not about flags even on a board whose flags are wrong |
| `BoardSoundness.UpdateSound` | dispatch/items_rules.py:673-710 | A bulk update keeps the rules that are not about flags, on any sound board |
| `BoardSoundness.CreateSound` | dispatch/items_rules.py:649-671 | A bulk create keeps them, its new items included |
| `BoardSoundness.ResolveSound` | dispatch/items_rules.py:1174-1271 | Resolving in any of its ways keeps them |
| `BoardSoundness.TouchSound` | dispatch/items_rules.py:1106-1172 | Observed activity keeps them |
| `BoardRecording.ApplyRecorded` | dispatch/items_rules.py:395-430 | A write marks dirty every item whose row it changes, and logs every flag raised, updated or resolved |
| `BoardWriteBack.WriteBackExact` | dispatch/items_db.py:278-390 | The write-back stores exactly the transaction's items if and only if every flag it raised is still open with that detail |
| `BoardWriteBack.WriteBackKinds` | dispatch/items_db.py:344-370 | Details aside, the stored flags are the transaction's if and only if every flag raised is still open |
| `BoardWriteBack.RowsExact` | dispatch/items_db.py:301-343 | Flags aside, every item comes back as the transaction left it |
| `BoardBulkDrop.UpdateStoresFlags` | dispatch/items_db.py:344-370 | On every sound board, the same condition read off the call: it drops no item before one of its own that waits on it and is not flagged yet |
| `BoardBulkDrop.BulkDropped` | dispatch/items_rules.py:1097-1104 | So far into a bulk drop on a sound board: the dropped items that were open carry no flag, every other item is as it was but for the flag of those hit, and a raise is on record for exactly the items hit before their own drop that had no such flag |
| `BoardStore.Store.Write` | dispatch/items_db.py:393-409 | One locked call is the step function of the runs; a refusal changes nothing; a sound board stays sound, and a success keeps one in order, with stray flags allowed for or not, exactly when the call is none that `BoardRuns.CallExact` singles out for it |
| `BoardTransaction.BoardTx.Apply` | dispatch/items_rules.py:712-1072 | The 300-line write, step by step, leaves exactly the transaction state of its specification, or refuses exactly when that does, for the same reason |
| `BoardTransaction.BoardTx.Propose` | dispatch/items_rules.py:736-854 | The fields, holders and blockers a write asks for, with its refusals in the source's order |
| `BoardTransaction.BoardTx.DeriveStatus` | dispatch/items_rules.py:856-900 | The explicit or derived status |
| `BoardTransaction.BoardTx.Settle` | dispatch/items_rules.py:938-989 | What the new status keeps and clears, or the refusal |
| `BoardTransaction.BoardTx.DraftWrite` | dispatch/items_rules.py:712-1000 | The whole settled item before it is placed on the board, or the first refusal |
| `BoardTransaction.BoardTx.Place` | dispatch/items_rules.py:999-1006 | The item on the board, and the owner change recorded: a close ends an ownership, an open change moves it |
| `BoardTransaction.BoardTx.SettleFlags` | dispatch/items_rules.py:1007-1036 | The written item's own flags afterwards: `pick_owner`, `blocker_dropped`, suggestions, and none on a close |
| `BoardTransaction.BoardTx.Path` | dispatch/items_rules.py:515-528 | The depth-first search finds a real walk to the target, or leaves everything it saw explored without it |
| `BoardTransaction.BoardTx.CheckCycles` | dispatch/items_rules.py:507-513 | Reports a cycle exactly when the item's new blockers lead back to it, and what it reports is a real closed walk from the item |
| `BoardTransaction.BoardTx.CascadeDone` | dispatch/items_rules.py:1074-1095 | Unhooks the done item from all its dependents at once, whatever the order it visits them in |
| `BoardTransaction.BoardTx.FlagDependentsDropped` | dispatch/items_rules.py:1097-1104 | Flags every open dependent with its dropped blockers |
| `BoardTransaction.BoardTx.ClearDependents` | dispatch/items_rules.py:1034-1038 | Takes back `blocker_dropped` where no dropped blocker is left |
| `BoardTransaction.BoardTx.RaiseFlag` | dispatch/items_rules.py:474-483 | Raises a flag once, or updates its detail |
| `BoardTransaction.BoardTx.ResolveFlag` | dispatch/items_rules.py:485-497 | Resolves an open flag, and says whether it was open |
| `BoardTransaction.BoardTx.CloseFlags` | dispatch/items_rules.py:1029-1033 | A close leaves no flag open |
| `BoardTransaction.BoardTx.Create` | dispatch/items_rules.py:649-671 | Creates in order, all or none |
| `BoardTransaction.BoardTx.Update` | dispatch/items_rules.py:673-710 | Updates each distinct item in order, all or none, and only from the expected status |
| `BoardTransaction.BoardTx.Resolve` | dispatch/items_rules.py:1174-1271 | Nudge, reassign, block, drop, answer, confirm and dismiss, each with its refusals and the write it makes |
| `BoardTransaction.BoardTx.Touch` | dispatch/items_rules.py:1106-1136 | Touches each distinct open item the actor holds, or any when asked |
| `BoardTransaction.BoardTx.Suggest` | dispatch/items_rules.py:1138-1172 | Raises or replaces a suggestion unless it was dismissed in the same state |
| `BoardTransaction.MergeHolders` | dispatch/items_rules.py:789-824 | The holder list after add, remove, replace, transfer and role assignment |
| `BoardTransaction.AssignRoles` | dispatch/items_rules.py:532-543 | First new holder becomes owner where there is none, the rest contribute, migrated holders keep theirs |
| `BoardTransaction.CheckBlockers` | dispatch/items_rules.py:836-851 | The first blocker refused, and why |
| `BoardOwners.ApplyOwners` | dispatch/items_rules.py:1001-1006 | A write records exactly its own item's owner change, on a hand-over or a close, and leaves holders, links and openness of every other item alone |
| `BoardOwners.UpdateOwners` | dispatch/items_rules.py:673-710 | Over a bulk update the record leads, for every item, from its owner at the start to its owner now or nobody |
| `BoardOwners.CreateOwners` | dispatch/items_rules.py:649-671 | Likewise over a bulk create, with the numbers it gave out |
| `BoardOwners.ResolveOwners` | dispatch/items_rules.py:1174-1271 | Likewise over resolving a flag or suggestion |
| `LaunchGrants.RunSafe` | dispatch/placement.py:186-223 | Over every run of item writes, placing, re-placing, unplacing, link archiving, flags and engine passes on all boards, opened on the way, whoever is steward or orchestrator and whatever the settings at each event: every live launch grant belongs to the owner of an open, live-linked item of its task, and a task has at most one live link |
| `LaunchGrants.NoBoardsSafe` | dispatch/placement.py:186-223 | A server without boards is such a start |
| `LaunchGrants.StepSafe` | dispatch/placement.py:326-494 | Each such step keeps it |
| `LaunchGrants.NoStrayGrant` | dispatch/placement.py:199-223 | Hence a grant for a linked task is never on a closed or handed-back item nor with anyone but its owner |
| `LaunchGrants.MovedGrant` | dispatch/placement.py:199-223 | A grant standing after a transaction was given by one of its owner changes, or stood before and was ended by none |
| `LaunchGrants.MoveLaunchGrants` | dispatch/placement.py:199-223 | The loop over the owner changes, in order |
| `GateRuns.RunKeeps` | dispatch/gate_db.py:274-370 | With the grantors fixed, over every run of posting, attaching, re-checking and revoking grants, editing profiles and classes, rebinding and observing hosts: each live receipt's stored word and non-note reasons are what judging it now would give, it is about what its item binds, and any two live receipts of an item and gate have the same head and, when both name one, the same MF |
| `GateRuns.StepKeeps` | dispatch/gate_db.py:499-618 | Each such command keeps it, whether it succeeds or is refused |
| `GateRuns.BystanderKeeps` | dispatch/gate_db.py:562-602 | A revocation need not re-judge a live receipt that neither cites nor names the grant: its stored verdict is still right |
| `GateRuns.StaleForGood` | dispatch/gate_db.py:138-178 | No command undoes staleness, or changes its reason |
| `GateRuns.NewBoardCurrent` | dispatch/gate_db.py:274-370 | A board nobody posted to satisfies the invariant |
| `GateRevocation.UnnamedGrantIrrelevant` | dispatch/gate_rules.py:972-1308 | Revoking a grant that the receipt does not cite and no loud reason names leaves word and loud reasons the same |
| `GateWaivers.GrantNeverWorsens` | dispatch/gate_rules.py:1186-1308 | One more waiver or variance, verified or not, anywhere in the list, never worsens a verdict (PASS, INCOMPLETE, VOID, FAIL) if the `must_run` entries that are checked, of required pytest steps not run at the must-fail commit, end in at most one slash |
| `GateWaivers.WorsensExactly` | dispatch/gate_rules.py:1186-1308 | For every profile, receipt and list of grants: one more waiver or variance worsens the verdict if and only if the receipt passed without it and some checked `must_run` entry is absent with it |
| `GateWaivers.SlipsBySlashes` | dispatch/gate_rules.py:1061-1075 | An entry that becomes absent from a passing run ends in two or more slashes |
| `GateWaivers.SingleSlashSafe` | dispatch/gate_rules.py:1186-1308 | In the gate that asks for nothing but one entry, no grant ever worsens a verdict if and only if the entry ends in at most one slash |
| `GateWaivers.WaiverHurts` | dispatch/gate_rules.py:1061-1075 | For every other entry, a concrete profile, receipt and verified waiver that turns PASS into INCOMPLETE |
| `GateVerdicts.SingleSlashExact` | dispatch/gate_rules.py:1061-1075 | Covering more nodes never adds a reason to a `must_run` entry, whatever ran, if and only if the entry ends in at most one slash |
| `GateVerdicts.PassExactly` | dispatch/gate_rules.py:1186-1308 | PASS if and only if the run is identified, every required step is wholly waived for this head or ran in its grant or a matching variance with every granted node executed or waived and its results good, and every required input is bound and accepted |
| `GateVerdicts.PassedCommand` | dispatch/gate_rules.py:1255-1279 | Behind a PASS, a required pytest step no grant excuses ran bounded wrappers, the granted program, and arguments within the grant |
| `GateVerdicts.NoProfileNeverPasses` | dispatch/gate_rules.py:1192-1195 | Without a profile the word is always INCOMPLETE |
| `GateEvaluator.Judge` | dispatch/gate_rules.py:1186-1297 | The verdict computed by appending reasons is the specified one |
| `GateEvaluator.EvalStep` | dispatch/gate_rules.py:1238-1294 | The reasons of one step: waived, missing, run, or noted when optional |
| `GateEvaluator.EvalPytest` | dispatch/gate_rules.py:1004-1085 | Consistency, counts, must-run, skips and exit of a pytest step |
| `GateEvaluator.EvalMf` | dispatch/gate_rules.py:1088-1118 | Every must-fail node failed, and with an expected exception |
| `GateEvaluator.EvalInputs` | dispatch/gate_rules.py:1150-1183 | Every required input is bound by content and hashed at the run, or of a kind accepted unverified |
| `GateEvaluator.FindCovering` | dispatch/gate_rules.py:972-994 | The verified grants covering a step, and a note for each that does not |
| `GateBoard.Board.Post` | dispatch/gate_db.py:274-370 | Refused, or stored stale-on-arrival or live, with everything it supersedes cascaded |
| `GateBoard.Board.Attach` | dispatch/gate_db.py:499-559 | Refused, or one more grant under a fresh label and the item's live receipts judged anew |
| `GateBoard.Board.Revoke` | dispatch/gate_db.py:562-602 | Refused, or the grant revoked, and the receipts of the item citing or naming it made stale with what consumed them |
| `GateBoard.Board.Recheck` | dispatch/gate_db.py:562-602 | Refused, or the grant's check stored and the live receipts judged anew |
| `GateBoard.Board.SetProfile` | dispatch/gate_db.py:650-698 | A new profile version stales every receipt of the class, and of items inheriting a changed default |
| `GateBoard.Board.SetDefault` | dispatch/gate_db.py:701-721 | A changed default class stales the receipts of the items inheriting it |
| `GateBoard.Board.Bind` | dispatch/gate_db.py:745-779 | A moved binding stales exactly the receipts it leaves behind |
| `GateBoard.Board.Reevaluate` | dispatch/gate_db.py:604-618 | Stores the grants, and every live receipt of the item gets the verdict of judging it now |
| `GateBoard.Board.MarkStale` | dispatch/gate_db.py:138-178 | Exactly the receipts reached from the seeds fall |
| `StaleCascade.ReceiptTable.MarkStale` | dispatch/gate_db.py:138-178 | The worklist terminates and newly stales exactly the live seeds and what consumed them through receipts that were all live, names each once, and gives each a reason that a fallen input explains |
| `StaleCascade.FallenTwice` | dispatch/gate_db.py:138-178 | Two cascades in a row take down exactly what one from both sets of seeds would |
| `CommandGrant.CommandAccepted` | dispatch/gate_rules.py:877-902 | A pytest command accepted without a problem splits into bounded wrappers with allowed variables only, the granted program, and arguments within the grant, with the grant's filters as a set |
| `CommandGrant.GrantedAccepted` | dispatch/gate_rules.py:877-902 | The exact granted command is accepted, for every kind of step |
| `CommandGrant.PrefixAccepted` | dispatch/gate_rules.py:676-784 | An accepted command stays accepted behind a canonical `timeout`, `nice`, `taskset` or `env` wrapper that is not the granted program itself, for `env` if the next token is neither an assignment nor an option |
| `CommandGrant.PrefixExact` | dispatch/gate_rules.py:676-902 | Exactly when an accepted command stays accepted behind a canonical wrapper: behind another tool always, but for `env` when what it would take as assignments is allowed, no option follows and the rest is accepted; behind the granted program's own name only for a pytest step whose grant already takes all of it as arguments |
| `CommandGrant.PrefixRefusedExample` | dispatch/gate_rules.py:810-830 | A granted `timeout 5 x` is accepted, and refused behind `timeout 9` |
| `CommandGrant.PytestExact` | dispatch/gate_rules.py:833-874 | The argument check passes if and only if the arguments are within the grant |
| `CommandGrant.SameFilters` | dispatch/gate_rules.py:833-874 | Within the grant, the filter options are the grant's as a set |
| `CommandGrant.StripSound` | dispatch/gate_rules.py:810-830 | What is stripped without a problem is a chain of bounded wrappers, and the granted program stands behind it |
| `CommandGrant.WrapperSound` | dispatch/gate_rules.py:676-784 | A wrapper parsed without a problem is one of the bounded forms |
| `CommandGrant.ScanSound` | dispatch/gate_rules.py:664-710 | Options scanned without a problem are all bounded ones |
| `CommandParser.CommandDiff` | dispatch/gate_rules.py:877-902 | The problems found by moving an index along argv are those of the specification |
| `CommandParser.StripWrappers` | dispatch/gate_rules.py:810-830 | The loop over wrappers finds the problems and the remaining argv of the specification |
| `CommandParser.ParseWrapper` | dispatch/gate_rules.py:676-784 | One wrapper: where it ends and what is wrong with it |
| `CommandParser.PytestDiff` | dispatch/gate_rules.py:833-874 | The options added and dropped, paths removed and paths outside the grant, in the source's order |
| `CommandParser.SplitOpts` | dispatch/gate_rules.py:642-661 | Options, with their values, and paths, in order |
| `FeedProtocol.Converges` | dispatch/db.py:254-342 | Whatever writers, aborted writers and retention do between a client's statements (but for a prune between a page's check and its log read that takes rows beyond the cursor), an idle unexpired client holds for every task with no log row beyond its cursor exactly the filtered current row; caught up, its cache is the snapshot |
| `FeedProtocol.CatchesUp` | dispatch/db.py:271-320 | With the writers quiet, a client is caught up after its backlog over its page size, rounded up |
| `FeedProtocol.ExpiredUntilSnapshot` | dispatch/db.py:288-291 | Once rows past its cursor are pruned, every page is refused as expired until a new snapshot |
| `FeedProtocol.PageSafeExactlyWhenRetained` | dispatch/db.py:288-296 | A page misses no write if and only if retention has not passed the cursor when the log is read, one statement after it was checked |
| `FeedProtocol.PruneUnderPageLosesATask` | dispatch/db.py:288-296 | A concrete run from an empty server, with a prune between the two statements of a page, that leaves the client caught up and unexpired without a task |
| `TaskFeed.FiltersAgree` | dispatch/db.py:190-244 | The page filter and the snapshot filter agree on all tasks if and only if the project asked for is not the empty name |
| `TaskFeed.AppliedPage` | dispatch/db.py:304-318 | Applying a page sets each task it names to its current filtered row and touches no other, however often it was logged |
| `TaskFeed.PageOfLog` | dispatch/db.py:293-303 | A page has every row up to its cursor, and every row there is if it is not full |
| `TaskFeed.FeedServer.ListTaskChanges` | dispatch/db.py:271-320 | Expired exactly outside retention and sequence; otherwise the collapsed page, its last number and whether there is more |
| `TaskFeed.FeedServer.TaskSnapshot` | dispatch/db.py:254-268 | All filtered rows, under a cursor no log row exceeds and retention has not passed |
| `TaskFeed.FeedServer.PruneTaskChanges` | dispatch/db.py:323-342 | One pass over the log: exactly the rows in question go and are counted, rows and numbers stay, and the retention mark is at least every number dropped, and one of them if it moved |
| `TaskFeed.BuildChanges` | dispatch/db.py:304-318 | One entry per task in the order of its last log row |
| `NamedQueue.RunKeeps` | dispatch/db.py:1140-1337 | Over every interleaving: at most one unconsumed item per queue and dedupe key, no item lost or altered in payload, key or order, no recovery receipt changed |
| `NamedQueue.ClaimedOnce` | dispatch/db.py:1261-1291 | Between two claims of an item some event released it: a requeue that covered it while claimed, or a recovery that restored it |
| `NamedQueue.ReleasesExactly` | dispatch/db.py:1219-1337 | Those events are exactly the ones that put a claimed or consumed item back to pending |
| `NamedQueue.RecoveredOnce` | dispatch/db.py:1219-1258 | A recovery key restores one item once: repeats answer with the same id and change nothing, other requests under it are refused, whatever happened since |
| `NamedQueue.QueueStore.Claim` | dispatch/db.py:1261-1291 | Claims the oldest unlocked pending items, at most so many, each once, oldest first |
| `NamedQueue.QueueStore.Enqueue` | dispatch/db.py:1160-1192 | Adds the item unless its key is taken, and returns the depth |
| `NamedQueue.QueueStore.RecoverItem` | dispatch/db.py:1219-1258 | Restores an item of this queue that this runner consumed, and keeps a receipt under the key; otherwise changes nothing and says which it was |
| `NamedQueue.QueueStore.Requeue` | dispatch/db.py:1309-1337 | Row by row, the claimed items of the queue, all or those named, become pending and unclaimed; every other item and receipt stays; returns how many |
| `NamedQueue.QueueStore.Ack` | dispatch/db.py:1294-1306 | Row by row, the claimed items of the queue among those named become consumed; every other item and receipt stays; returns how many |
| `PushHandout.HandedOutInTime` | dispatch/items_db.py:1325-1349 | A push with k older undelivered ones is handed out or delivered within 10 * (k / 100) + 1 beats of its daemon, even if nothing is ever acknowledged, whatever else is enqueued or handed to others |
| `PushHandout.DeliveredInTime` | dispatch/items_db.py:1325-1349 | ... and delivered or dropped within ten beats more |
| `PushHandout.AttemptsBounded` | dispatch/items_db.py:1331-1345 | Attempts never exceed ten, over every run |
| `PushHandout.TenBeats` | dispatch/items_db.py:1331-1345 | Ten beats clear the oldest hundred live pushes before a position, or all of them |
| `PushHandout.PushTable.Heartbeat` | dispatch/items_db.py:1325-1349 | Acknowledges, gives up, and hands out at most the hundred oldest live pushes in order, counting exactly those as attempts |
| `FlagEngine.SuccessivePushes` | api/board_engine.py:82-105 | Of two pushes of one flag to one audience with none between, not episodic nor about overload: the fingerprint changed, or the item was touched or its clock reset after the first |
| `FlagEngine.Engine.RepeatedPush` | api/board_engine.py:82-105 | The same of any run of the engine, member writes and writes elsewhere |
| `FlagEngine.Engine.Tick` | api/board_engine.py:632-717 | A pass leaves every item exactly as told: wanted flags raised, refreshed, held back or snoozed, unwanted ones cleared, nudges started, every audience's marks, and nothing for items it did not load; and keeps that all pushes were news, that stale receipts and suggestions reached holders only, and that every `stale` not about an ETA came at least the grace after a nudge with no touch since |
| `FlagEngine.Engine.PassItem` | api/board_engine.py:657-711 | One item's pass, independent of the order of its flags |
| `FlagEngine.Engine.PassKind` | api/board_engine.py:659-708 | One wanted flag: refreshed, snoozed, nudged, waited for or raised, and the holders told if it is theirs first |
| `FlagEngine.Engine.RaiseFlag` | api/board_engine.py:685-687 | A raise is only made when nothing holds it back, and goes on the record |
| `FlagEngine.Engine.Tell` | api/board_engine.py:102-105 | Telling an audience leaves its mark, and needs news |
| `FlagEngine.Engine.PushOrchestrator` | api/board_engine.py:772-829 | The orchestrator is marked as told of exactly the loaded items' open flags that are news to it, neither the holders' only nor theirs first for now |
| `FlagEngine.Engine.Escalate` | api/board_engine.py:835-874 | Owner is told of exactly the loaded items' flags open long enough, of a kind that escalates and not escalated before, which then count as escalated |
| `FlagEngine.Engine.Elsewhere` | dispatch/items_rules.py:1074-1104 | A neighbour's or the gate's change of an item's flags, status or clock, without a touch, keeps all that |
| `FlagEngine.PassOpens` | api/board_engine.py:657-711 | A flag is open after a pass exactly when it was and still holds or is not the engine's, or holds now and neither snooze nor nudge keeps it back |
| `TaskGraph.CheckTaskGraph` | dispatch/session_roster.py:147-177 | Raises `scope_cycle` if and only if the parent and filer edges within the scope have a closed walk, self-loops and doubled edges included; refuses only a scope over the limit otherwise; always terminates |
| `TaskGraph.SearchDecides` | dispatch/session_roster.py:166-177 | A search that ran out of ready tasks took all of them exactly when there is no closed walk |
| `TaskGraph.Search` | dispatch/session_roster.py:164-175 | Given true in-degrees and the tasks without one, takes fewer than all tasks if and only if there is a closed walk |
| `TaskGraph.BuildGraph` | dispatch/session_roster.py:150-163 | The children sets and in-degrees are those of the two kinds of edge |
| `Graphs.RepointedAcyclic` | dispatch/items_rules.py:507-528 | Why checking one item is enough: new out-edges of one node close a cycle exactly when one of them leads back to it |
| `ManagerTree.MoveStaysUnder` | dispatch/org_db.py:1630-1698 | Whoever a lead moves stays under that lead, with everybody below |
| `ManagerTree.RunKeeps` | dispatch/org_db.py:1630-1827 | Over all hires, moves, retirements and reinstatements the reporting lines are a tree and nobody who is not retired reports to somebody who is |
| `ManagerTree.RetireKeepsPlaces` | dispatch/org_db.py:1720-1777 | After a retirement everybody not retired has the same members above as before but the retired one, and no other |
| `ManagerTree.ChainExact` | dispatch/org_db.py:411-422 | On an acyclic tree the chain read of a member is exactly who is above it within 64 steps |
| `ManagerTree.ChainIsAll` | dispatch/org_db.py:411-422 | So with no chain longer than 64 it is everybody above |
| `ManagerTree.ChainAbove` | dispatch/org_db.py:411-422 | Whoever is on the chain is above, at any length |
| `ManagerTree.Registry.ChainOf` | dispatch/org_db.py:411-422 | The loop with its `seen` set and bound |
| `ManagerTree.Registry.RequireChain` | dispatch/org_db.py:1212-1235 | Who may act on a member, or the refusal |
| `ManagerTree.Registry.RequireDestination` | dispatch/org_db.py:1375-1384 | A lead may only move to itself or below itself |
| `ManagerTree.Registry.MoveMember` | dispatch/org_db.py:1630-1698 | Moves or refuses as specified, changing nothing on a refusal, and keeps the tree |
| `ManagerTree.Registry.RetireMember` | dispatch/org_db.py:1720-1777 | Retires and hands the reports up, or refuses, and keeps the tree |
| `ManagerTree.Registry.ReinstateMember` | dispatch/org_db.py:1780-1827 | Reinstates under a manager in service, or refuses, and keeps the tree |

## Left out

- BoardRuns.RunGood: leaves out the bulk drop described above, and with `stray` false also the flags from elsewhere on closed items, because the flags they store are wrong; `BoardRuns.RunSound` covers every run, and `BoardRuns.CallExact` is exact about which calls they are.
- BoardRuns.RunSound: says that a board holds only running or blocked work while its settings stay strict; a board made strict later is only warned about.
- GateWaivers.GrantNeverWorsens: says nothing of selection grants, which are not meant to be monotone, and leaves out the entries that `GateWaivers.WorsensExactly` shows to fail.
- FeedProtocol.Converges: leaves out a prune between a page's retention check and its log read that takes rows beyond the cursor, and the empty project name, because it fails for them (`FeedProtocol.PageSafeExactlyWhenRetained`, `TaskFeed.FiltersAgree`).
- ManagerTree.ChainExact: says nothing of members more than 64 steps up, where the code stops reading.
- BoardOperations.ConformsMeaning: conforming leaves the check-back of a text-blocked item open, as the done-cascade does.
- LaunchGrants.RunSafe: re-placing from another board is an unplacing followed by a placing.
- FlagEngine.Engine.Elsewhere: cannot take an item off the board, nor put it back (`live`); only a member's write does.
- FlagEngine.Engine.Tick: which flags hold (`compute_flags` and the holders' states), which items are loaded, who is overloaded, and whether an orchestrator or an alert target is reachable are inputs of the pass; an overload flag left on an item that is not loaded, and the overload notes to holders, are not modelled.
- GateBoard.Board.Post: leaves out the refusal for archived items, the replay of a request id, and the void flags, which `BoardRuns` has as flags raised on an item.
- GateBoard.Board.Observe: what a host saw of a branch, runner or base is an input; how it is fetched and compared is not modelled.
- BoardStore.Store.Write: leaves out the write-back's refusal of a shell session as holder (`agent_only`, dispatch/items_db.py:278-286); it keeps the board as it was, like any refusal.
- GateRuns.RunKeeps: the items of a gate board are fixed over a run; none is added or removed.
- Item titles, notes, links, groups, descriptions, teams, pushes, events and warnings of a board write: they do not feed the rules above.
- Parsing of times and texts: a text argument is already null, blank or clean, and a time already a number.
- Holder order is kept between writes; the source re-sorts by the time added when it loads (dispatch/items_db.py:219-222).
- The loader reads open items and what they reference; the model loads the whole board.
- Items are values in the transaction's map, replaced as a whole, so aliasing between the map and a local item is not captured.
- The write-back is one atomic step; its flag statements keep their order.
- Snooze times and the resolution texts of flags; a snooze enters an engine pass as a set.
- Waiver grantors do not change: editing them re-judges nothing in the source (dispatch/items_db.py:734-757).
- The pushes raised beside a stale cascade, and which items it flags.
- Messages of verdict reasons: a reason carries what it is about and which grants it names.
- Hashes and digests are injective; regular expressions are read as plain predicates on ASCII words, without a trailing newline, and numbers as plain digits.
- Feed epochs, and the deletion of delivered pushes.
- Queue statistics.
- ManagerTree.Registry.MoveMember: follows the database trigger (sql/028_org_core.sql:255-291) in refusing a manager that is missing, retired or below the member; its two further refusals, a manager of another organisation and a chain of more than 1000, are not modelled: a refusal changes nothing.
- Teams, holds, assistants, promotion, adoption and rebinding of members.
- The status mirror between hosts, epics and their close plans, and the routing of legacy task writes to board calls.
- Virtual machine launch, firewalls, warm pools, routes, clients and displays.
