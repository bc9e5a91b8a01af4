/** A board transaction as functions on its recorded state (class `BoardTx` in
 * dispatch/items_rules.py): what each operation does to every item of the board,
 * and what it records for the write-back.
 */
module BoardSpec {
  import opened Prelude
  import opened Graphs
  import opened BoardRules

  datatype FlagKey = FlagKey(n: ItemNo, kind: FlagKind)
  datatype OwnerChange = OwnerChange(n: ItemNo, from: Option<Pid>, to: Option<Pid>)

  /** The items as changed so far, and the record the write-back reads: of the
   *  flag log, the last detail and the first raise of each flag are what count
   *  there. */
  datatype Tx = Tx(
    items: Items,
    next: nat,
    created: set<ItemNo>,
    dirty: set<ItemNo>,
    holdersChanged: set<ItemNo>,
    depsChanged: set<ItemNo>,
    resolved: set<FlagKey>,
    details: map<FlagKey, Detail>,
    raised: map<FlagKey, Detail>,
    unblocked: set<ItemNo>,
    ownerChanges: seq<OwnerChange>)

  function Begun(items: Items, next: nat): Tx {
    Tx(items, next, {}, {}, {}, {}, {}, map[], map[], {}, [])
  }

  /** From each item to its blockers. */
  function Deps(items: Items): Graph<ItemNo> {
    map n | n in items :: items[n].blockedBy
  }

  function Dependents(items: Items, n: ItemNo): set<ItemNo> {
    set d | d in items && n in items[d].blockedBy
  }

  // ---- flags ----

  function RaiseFlag(tx: Tx, n: ItemNo, kind: FlagKind, detail: Detail): Tx
    requires n in tx.items
  {
    var it := tx.items[n];
    var key := FlagKey(n, kind);
    if kind in it.flags then
      if detail != NoDetail && it.flags[kind] != detail then
        tx.(items := tx.items[n := it.(flags := it.flags[kind := detail])], details := tx.details[key := detail])
      else tx
    else
      tx.(items := tx.items[n := it.(flags := it.flags[kind := detail])],
          raised := if key in tx.raised then tx.raised else tx.raised[key := detail])
  }

  /** Resolves those of `kinds` that are open on `n`. */
  function ResolveFlags(tx: Tx, n: ItemNo, kinds: set<FlagKind>): Tx
    requires n in tx.items
  {
    tx.(items := tx.items[n := tx.items[n].(flags := tx.items[n].flags - kinds)],
        resolved := tx.resolved + set k | k in kinds && k in tx.items[n].flags :: FlagKey(n, k))
  }

  function ResolveAll(tx: Tx, n: ItemNo): Tx
    requires n in tx.items
  {
    ResolveFlags(tx, n, tx.items[n].flags.Keys)
  }

  // ---- effects on other items ----

  /** One dependent after its blocker `n` is done: the edge goes, a stale
   *  `blocker_dropped` goes, and with nothing left to wait on it is unblocked. */
  function Unhooked(strict: bool, now: Time, items: Items, it: Item, n: ItemNo): Item {
    var left := it.blockedBy - {n};
    var it1 := it.(blockedBy := left,
                   flags := if HasDroppedBlocker(items, left) then it.flags else it.flags - {BlockerDropped});
    if !Unblocks(it, n) then it1
    else
      var active := it.holders != [] || strict;
      it1.(status := if active then Active else Open, clockResetAt := Some(now),
           actionableAt := if active then Some(now) else it.actionableAt)
  }

  predicate Unblocks(it: Item, n: ItemNo) {
    n in it.blockedBy && it.blockedBy - {n} == {} && it.status == Blocked && it.blockedOn.None?
  }

  predicate LosesFlag(items: Items, it: Item, n: ItemNo) {
    BlockerDropped in it.flags && !HasDroppedBlocker(items, it.blockedBy - {n})
  }

  function UnhookedItems(strict: bool, now: Time, items: Items, n: ItemNo, deps: set<ItemNo>): Items {
    map m | m in items :: if m in deps then Unhooked(strict, now, items, items[m], n) else items[m]
  }

  /** The dependents in `deps` of an item that is done, all at once. */
  function CascadeDone(strict: bool, now: Time, tx: Tx, n: ItemNo, deps: set<ItemNo>): Tx
    requires deps <= tx.items.Keys
  {
    tx.(items := UnhookedItems(strict, now, tx.items, n, deps),
        dirty := tx.dirty + deps,
        depsChanged := tx.depsChanged + deps,
        resolved := tx.resolved + set m | m in deps && LosesFlag(tx.items, tx.items[m], n) :: FlagKey(m, BlockerDropped),
        unblocked := tx.unblocked + set m | m in deps && Unblocks(tx.items[m], n))
  }

  function DroppedDetail(items: Items, it: Item): Detail {
    DroppedBlockers(DroppedAmong(items, it.blockedBy))
  }

  function Flagged(items: Items, it: Item): Item {
    it.(flags := it.flags[BlockerDropped := DroppedDetail(items, it)])
  }

  function FlaggedItems(items: Items, hear: set<ItemNo>): Items {
    map m | m in items :: if m in hear then Flagged(items, items[m]) else items[m]
  }

  /** Those of `deps` that are open. */
  function Hearing(items: Items, deps: set<ItemNo>): set<ItemNo>
    requires deps <= items.Keys
  {
    set m | m in deps && !Closed(items[m].status)
  }

  /** Those that had the flag open with another detail. */
  function Refreshed(items: Items, hear: set<ItemNo>): set<ItemNo>
    requires hear <= items.Keys
  {
    set m | m in hear && BlockerDropped in items[m].flags
            && items[m].flags[BlockerDropped] != DroppedDetail(items, items[m])
  }

  /** Those that did not have the flag. */
  function Alerted(items: Items, hear: set<ItemNo>): set<ItemNo>
    requires hear <= items.Keys
  {
    set m | m in hear && BlockerDropped !in items[m].flags
  }

  function DroppedFlags(items: Items, ns: set<ItemNo>): (log: map<FlagKey, Detail>)
    requires ns <= items.Keys
    ensures forall key :: key in log <==> key.n in ns && key.kind == BlockerDropped
    ensures forall key :: key in log ==> log[key] == DroppedDetail(items, items[key.n])
  {
    map m | m in ns :: FlagKey(m, BlockerDropped) := DroppedDetail(items, items[m])
  }

  /** The open dependents in `deps` of a dropped item are flagged. */
  function FlagDropped(tx: Tx, deps: set<ItemNo>): Tx
    requires deps <= tx.items.Keys
  {
    var hear := Hearing(tx.items, deps);
    tx.(items := FlaggedItems(tx.items, hear),
        dirty := tx.dirty + hear,
        details := tx.details + DroppedFlags(tx.items, Refreshed(tx.items, hear)),
        raised := DroppedFlags(tx.items, Alerted(tx.items, hear)) + tx.raised)
  }

  /** A reopened blocker is dropped no more: dependents drop the flag if it was the
   *  last one. */
  function ClearDependents(tx: Tx, deps: set<ItemNo>): Tx
    requires deps <= tx.items.Keys
  {
    var cleared := set m | m in deps && BlockerDropped in tx.items[m].flags
                           && !HasDroppedBlocker(tx.items, tx.items[m].blockedBy);
    tx.(items := map m | m in tx.items ::
          if m in cleared then tx.items[m].(flags := tx.items[m].flags - {BlockerDropped}) else tx.items[m],
        resolved := tx.resolved + set m | m in cleared :: FlagKey(m, BlockerDropped))
  }

  // ---- one write ----

  /** The new blockers of `n` lead back to it. */
  ghost predicate ClosesCycle(items: Items, n: ItemNo)
    requires n in items
  {
    exists b :: b in items[n].blockedBy && Reaches(Deps(items), b, n)
  }

  function OwnerChanges(n: ItemNo, from: Option<Pid>, to: Option<Pid>, status: Status, prev: Option<Status>): seq<OwnerChange> {
    if Closed(status) && from.Some? && prev != Some(status) then [OwnerChange(n, from, None)]
    else if to != from && !Closed(status) then [OwnerChange(n, from, to)]
    else []
  }

  /** The draft takes its place among the items. */
  function Placed(tx: Tx, n: ItemNo, d: Draft): Tx {
    tx.(items := tx.items[n := d.it],
        holdersChanged := if d.holdersChanged then tx.holdersChanged + {n} else tx.holdersChanged,
        depsChanged := if d.depsChanged then tx.depsChanged + {n} else tx.depsChanged)
  }

  /** The item's own flags that a write settles: `pick_owner` once an owner is
   *  named, the suggestion when the status moved, and `blocker_dropped` once no
   *  blocker is dropped. */
  function MovedFlags(items: Items, it: Item, depsChanged: bool, status: Status, prev: Option<Status>): set<FlagKind> {
    (if OwnerOf(it.holders).Some? && !Legacy(it.holders) then {PickOwner} else {})
    + (if depsChanged && !HasDroppedBlocker(items, it.blockedBy) then {BlockerDropped} else {})
    + (if prev.Some? && prev != Some(status) then {Suggested} else {})
  }

  /** All of its flags, when the write closes it. */
  function SettledFlags(items: Items, it: Item, depsChanged: bool, status: Status, prev: Option<Status>): set<FlagKind> {
    if Closed(status) && !(prev.Some? && Closed(prev.value)) then it.flags.Keys
    else MovedFlags(items, it, depsChanged, status, prev)
  }

  function OwnFlags(tx: Tx, n: ItemNo, status: Status, prev: Option<Status>): Tx
    requires n in tx.items
  {
    ResolveFlags(tx, n, SettledFlags(tx.items, tx.items[n], n in tx.depsChanged, status, prev))
  }

  /** What the write does to the items waiting on `n`. */
  function Neighbours(ctx: Context, tx: Tx, n: ItemNo, status: Status, prev: Option<Status>): Tx {
    var wasClosed := prev.Some? && Closed(prev.value);
    var deps := Dependents(tx.items, n);
    if !Closed(status) && wasClosed then ClearDependents(tx, deps)
    else if status == Done && prev != Some(Done) then CascadeDone(ctx.settings.strict, ctx.now, tx, n, deps)
    else if status == Dropped && !wasClosed then FlagDropped(tx, deps)
    else tx
  }

  ghost function Finished(ctx: Context, tx: Tx, n: ItemNo, d: Draft, prev: Option<Status>): Result<Tx, Error>
    requires n in tx.items
  {
    var tx1 := Placed(tx, n, d);
    if n in tx1.depsChanged && ClosesCycle(tx1.items, n) then Err(CycleRefused)
    else
      var status := d.it.status;
      var changes := OwnerChanges(n, OwnerOf(tx.items[n].holders), OwnerOf(d.it.holders), status, prev);
      var tx2 := OwnFlags(tx1.(ownerChanges := tx1.ownerChanges + changes), n, status, prev);
      var tx3 := Neighbours(ctx, tx2, n, status, prev);
      Ok(tx3.(dirty := tx3.dirty + {n}))
  }

  ghost function Apply(ctx: Context, tx: Tx, n: ItemNo, w: Write, mode: Mode): Result<Tx, Error> {
    if n !in tx.items then Err(NotFound)
    else
      var d :- Drafted(ctx, tx.items, n, w, mode);
      Finished(ctx, tx, n, d, if mode.Creating? then None else Some(tx.items[n].status))
  }

  // ---- operations ----

  const MAX_ITEMS_PER_CALL: nat := 50

  /** The first occurrence of each number, in order. */
  function Unique(ns: seq<ItemNo>): seq<ItemNo> {
    if ns == [] then []
    else
      var before := Unique(ns[..|ns| - 1]);
      if ns[|ns| - 1] in before then before else before + [ns[|ns| - 1]]
  }

  ghost function UpdateEach(ctx: Context, tx: Tx, ns: seq<ItemNo>, w: Write, expected: Option<Status>): Result<Tx, Error>
    decreases |ns|
  {
    if ns == [] then Ok(tx)
    else
      var before :- UpdateEach(ctx, tx, ns[..|ns| - 1], w, expected);
      var n := ns[|ns| - 1];
      if n !in before.items then Err(NotFound)
      else if expected.Some? && before.items[n].status != expected.value then Err(StatusChanged)
      else Apply(ctx, before, n, w, Editing)
  }

  ghost function Update(ctx: Context, tx: Tx, ns: seq<ItemNo>, w: Write, expected: Option<Status>): Result<Tx, Error> {
    if ns == [] || |ns| > MAX_ITEMS_PER_CALL then Err(InvalidField)
    else UpdateEach(ctx, tx, Unique(ns), w, expected)
  }

  datatype Spec = Spec(fields: Fields, holders: Option<seq<Holder>>)

  function NewItem(now: Time): Item {
    Item(Open, [], {}, None, None, None, None, None, None, None, now, None, None, None, None, None, map[], map[])
  }

  /** The default holder of a new item: the session that adds it. */
  function ActorHolders(actor: Actor): seq<Holder> {
    if actor.hasSession then [Holder(actor.pid, None)] else []
  }

  function SpecWrite(ctx: Context, spec: Spec): Write {
    Write(spec.fields, Some(if spec.holders.Some? then spec.holders.value else ActorHolders(ctx.actor)), [], {}, None, false)
  }

  function Added(ctx: Context, tx: Tx): Tx {
    var n := ItemNo(tx.next);
    tx.(items := tx.items[n := NewItem(ctx.now)], next := tx.next + 1, created := tx.created + {n})
  }

  ghost function CreateEach(ctx: Context, tx: Tx, specs: seq<Spec>): Result<Tx, Error>
    decreases |specs|
  {
    if specs == [] then Ok(tx)
    else
      var before :- CreateEach(ctx, tx, specs[..|specs| - 1]);
      Apply(ctx, Added(ctx, before), ItemNo(before.next), SpecWrite(ctx, specs[|specs| - 1]), Creating)
  }

  ghost function Create(ctx: Context, tx: Tx, specs: seq<Spec>): Result<Tx, Error> {
    if specs == [] || |specs| > MAX_ITEMS_PER_CALL then Err(InvalidField) else CreateEach(ctx, tx, specs)
  }

  datatype Action =
    | Nudge | Reassign(holders: seq<Holder>) | Launch | Drop
    | Block(blockedBy: seq<ItemNo>, blockedOn: TextArg, checkBack: Option<Time>)
    | Answer(message: TextArg) | Confirm(to: Option<Status>) | Dismiss

  function ResolveKinds(tx: Tx, n: ItemNo, kind: Option<FlagKind>): Tx
    requires n in tx.items
  {
    if kind.Some? then ResolveFlags(tx, n, {kind.value}) else ResolveAll(tx, n)
  }

  function SuggestedStatus(it: Item): Option<Status> {
    if Suggested in it.flags && it.flags[Suggested].Suggestion? then Some(it.flags[Suggested].to) else None
  }

  function StatusFields(s: Option<Status>): Fields {
    NO_FIELDS.(status := Set(s))
  }

  function Touched(tx: Tx, n: ItemNo, it: Item): Tx {
    tx.(items := tx.items[n := it], dirty := tx.dirty + {n})
  }

  /** A blank text counts as given here; the write then cleans it away. */
  function BlockFields(blockedBy: seq<ItemNo>, blockedOn: TextArg, checkBack: Option<Time>): Fields {
    Fields(Set(Some(Blocked)),
           if blockedOn.Null? then Keep else Set(blockedOn),
           if blockedOn.Null? then Keep else Set(checkBack),
           Keep, Keep,
           if blockedBy != [] then Set(blockedBy) else Keep)
  }

  ghost function Resolve(ctx: Context, tx: Tx, n: ItemNo, action: Action, kind: Option<FlagKind>): Result<Tx, Error> {
    if n !in tx.items then Err(NotFound)
    else if action.Launch? then Err(InvalidField)
    else
      var it := tx.items[n];
      if Closed(it.status) && !action.Drop? then Err(ItemClosed)
      else
        match action
        case Answer(message) =>
          if it.status != BlockedOnOwner || !message.Words? then Err(InvalidField)
          else
            var to := if it.holders != [] || ctx.settings.strict then Active else Open;
            Apply(ctx, ResolveAll(tx, n), n, FieldWrite(StatusFields(Some(to))), Answering)
        case Confirm(to) =>
          if Suggested !in it.flags then Err(NoSuggestion)
          else if to.None? then Err(InvalidField)
          else if to != SuggestedStatus(it) then Err(SuggestionChanged)
          else Apply(ctx, ResolveFlags(tx, n, {Suggested}), n, FieldWrite(StatusFields(to)), Editing)
        case Dismiss =>
          if Suggested !in it.flags then Err(NoSuggestion)
          else
            var tx1 := ResolveFlags(tx, n, {Suggested});
            Ok(Touched(tx1, n, Forgotten(tx1.items[n], SuggestedStatus(it))))
        case Nudge =>
          if it.holders == [] then Err(NoHolders)
          else
            var tx1 := ResolveKinds(tx, n, kind);
            Ok(Touched(tx1, n, tx1.items[n].(touchedAt := ctx.now)))
        case Reassign(holders) =>
          if holders == [] then Err(InvalidField)
          else Apply(ctx, ResolveKinds(tx, n, kind), n, Write(NO_FIELDS, Some(holders), [], {}, None, false), Editing)
        case Block(blockedBy, blockedOn, checkBack) =>
          if !blockedOn.Null? && checkBack.None? then Err(CheckBackRequired)
          else if blockedBy == [] && blockedOn.Null? then Err(InvalidField)
          else Apply(ctx, ResolveKinds(tx, n, kind), n, FieldWrite(BlockFields(blockedBy, blockedOn, checkBack)), Editing)
        case Drop => Apply(ctx, ResolveKinds(tx, n, kind), n, FieldWrite(StatusFields(Some(Dropped))), Editing)
        case Launch => Err(InvalidField)
  }

  function Forgotten(it: Item, target: Option<Status>): Item {
    if target.None? then it else it.(dismissed := it.dismissed[target.value := Dismissal(it.status, it.gateHead)])
  }

  /** What a post suggests: a status, and the keyword that gave it away. */
  datatype Hint = Hint(to: Status, keyword: Text)

  predicate Suggestible(it: Item, hint: Hint) {
    && (hint.to == Done || hint.to == Blocked) && it.status != hint.to && hint.keyword != ""
    && it.status != BlockedOnOwner
    && !(hint.to in it.dismissed && it.dismissed[hint.to] == Dismissal(it.status, it.gateHead))
  }

  function Suggest(ctx: Context, tx: Tx, n: ItemNo, hint: Hint): Tx
    requires n in tx.items
  {
    var it := tx.items[n];
    if !Suggestible(it, hint) then tx
    else
      var tx1 := if Suggested in it.flags && SuggestedStatus(it) != Some(hint.to) then ResolveFlags(tx, n, {Suggested}) else tx;
      RaiseFlag(tx1, n, Suggested, Suggestion(hint.to, hint.keyword, ctx.actor.pid))
  }

  /** Observed activity on one item; closed, archived and unknown items, and items
   *  of others unless `anyItem`, are skipped. */
  function TouchOne(ctx: Context, tx: Tx, n: ItemNo, anyItem: bool, hint: Option<Hint>): Tx {
    if n !in tx.items || tx.items[n].archivedAt.Some? || Closed(tx.items[n].status) then tx
    else if !anyItem && !Holds(tx.items[n].holders, ctx.actor.pid) then tx
    else
      var it := tx.items[n];
      var tx1 := if Holds(it.holders, ctx.actor.pid)
                 then Touched(tx, n, it.(touchedAt := ctx.now, launchedAt := Some(ctx.now))) else tx;
      if hint.Some? then Suggest(ctx, tx1, n, hint.value) else tx1
  }

  function TouchEach(ctx: Context, tx: Tx, ns: seq<ItemNo>, anyItem: bool, hint: Option<Hint>): Tx {
    if ns == [] then tx
    else TouchOne(ctx, TouchEach(ctx, tx, ns[..|ns| - 1], anyItem, hint), ns[|ns| - 1], anyItem, hint)
  }
}
