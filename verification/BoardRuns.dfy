/** A board over time: writes, engine passes, placement and archiving, each stored
 * before the next (`_write` in dispatch/items_db.py, dispatch/placement.py,
 * api/board_engine.py). A refused write leaves the board as it was.
 */
module BoardRuns {
  import opened Prelude
  import opened Graphs
  import opened BoardRules
  import opened BoardSpec
  import opened BoardInvariants
  import opened BoardOperations
  import opened BoardSoundness
  import opened BoardWriteBack
  import opened BoardRecording
  import opened BoardBulkDrop

  const ARCHIVE_AFTER: nat := 86400

  datatype Command =
    | CreateItems(specs: seq<Spec>)
    | UpdateItems(ns: seq<ItemNo>, w: Write, expected: Option<Status>)
    | ResolveItem(n: ItemNo, action: Action, kind: Option<FlagKind>)
    | TouchItems(ns: seq<ItemNo>, anyItem: bool, hint: Option<Hint>)
    | PlaceAgain(n: ItemNo, holders: seq<Holder>)
    | Unplace(n: ItemNo)
    | ArchiveLink(n: ItemNo)
    | RaiseOther(n: ItemNo, name: string, detail: Detail, openOnly: bool)
    | ClearOther(n: ItemNo, name: string)
    | EnginePass(others: map<ItemNo, map<FlagKind, Detail>>, snoozed: set<ItemNo>)
    | CloseOut
    | BindHead(n: ItemNo, head: Option<Text>)

  // ---- placement ----

  /** An unplaced item coming back, before the write that gives it a status. */
  function Returned(tx: Tx, n: ItemNo): Tx
    requires n in tx.items
  {
    var it := tx.items[n];
    tx.(items := tx.items[n := it.(linkArchivedAt := None, archivedAt := None,
                                   closedAt := if Closed(it.status) then None else it.closedAt)],
        dirty := tx.dirty + {n})
  }

  function ReturnWrite(s: Settings, holders: seq<Holder>): Write {
    Write(StatusFields(Some(if holders != [] || s.strict then Active else Open)), Some(holders), [], {}, None, true)
  }

  ghost function Place(ctx: Context, tx: Tx, n: ItemNo, holders: seq<Holder>): Result<Tx, Error> {
    if n !in tx.items || tx.items[n].linkArchivedAt.None? then Err(NotFound)
    else Apply(ctx, Returned(tx, n), n, ReturnWrite(ctx.settings, holders), Editing)
  }

  predicate HasLiveEdges(items: Items, n: ItemNo)
    requires n in items
  {
    (items[n].blockedBy != {} && !Closed(items[n].status))
    || exists o :: o in items && n in items[o].blockedBy && !Closed(items[o].status)
  }

  function Unplaced(ctx: Context, tx: Tx, n: ItemNo): Result<Tx, Error> {
    if n !in tx.items then Err(NotFound)
    else if HasLiveEdges(tx.items, n) then Err(HasDependencies)
    else Ok(ResolveAll(Touched(tx, n, tx.items[n].(linkArchivedAt := Some(ctx.now), archivedAt := Some(ctx.now))), n))
  }

  function LinkArchiving(ctx: Context, tx: Tx, n: ItemNo): Result<Tx, Error> {
    if n !in tx.items then Err(NotFound)
    else if !Closed(tx.items[n].status) then Err(StillOpen)
    else Ok(Touched(tx, n, tx.items[n].(linkArchivedAt := Some(ctx.now),
                                         archivedAt := if tx.items[n].archivedAt.Some? then tx.items[n].archivedAt else Some(ctx.now))))
  }

  // ---- flags from elsewhere ----

  /** A flag of the gate layer or of a legacy task write, on an item whatever its
   *  status; stale receipts flag open items only. */
  function Noted(tx: Tx, n: ItemNo, name: string, detail: Detail, openOnly: bool): Result<Tx, Error> {
    if n !in tx.items then Err(NotFound)
    else if openOnly && Closed(tx.items[n].status) then Ok(tx)
    else Ok(RaiseFlag(tx, n, OtherFlag(name), detail))
  }

  function Unnoted(tx: Tx, n: ItemNo, name: string): Result<Tx, Error> {
    if n !in tx.items then Err(NotFound) else Ok(ResolveFlags(tx, n, {OtherFlag(name)}))
  }

  // ---- the engine ----

  /** An engine pass over one live item: `blocker_dropped` follows the blockers, a
   *  snoozed one is not raised again; its other flags are whatever the holders'
   *  states make them. */
  function Passed(items: Items, it: Item, others: map<FlagKind, Detail>, snoozed: bool): Item {
    if Closed(it.status) || it.archivedAt.Some? then it
    else
      var kept := map k | k in it.flags && (k == Suggested || k == PickOwner) :: it.flags[k];
      var engine := map k | k in others && k.OtherFlag? :: others[k];
      var dropped := if HasDroppedBlocker(items, it.blockedBy) && (BlockerDropped in it.flags || !snoozed)
                     then map[BlockerDropped := DroppedDetail(items, it)] else map[];
      it.(flags := kept + engine + dropped)
  }

  function Archived(it: Item, now: Time): Item {
    if it.archivedAt.None? && it.closedAt.Some? && it.closedAt.value + ARCHIVE_AFTER < now
    then it.(archivedAt := Some(now)) else it
  }

  /** A gate binding moved: what a dismissed suggestion remembers of the head. */
  function HeadBound(tx: Tx, n: ItemNo, head: Option<Text>): Result<Tx, Error> {
    if n !in tx.items then Err(NotFound) else Ok(tx.(items := tx.items[n := tx.items[n].(gateHead := head)]))
  }

  // ---- one command ----

  ghost function Transaction(ctx: Context, tx: Tx, c: Command): Result<Tx, Error> {
    match c
    case CreateItems(specs) => Create(ctx, tx, specs)
    case UpdateItems(ns, w, expected) => Update(ctx, tx, ns, w, expected)
    case ResolveItem(n, action, kind) => Resolve(ctx, tx, n, action, kind)
    case TouchItems(ns, anyItem, hint) => Ok(TouchEach(ctx, tx, Unique(ns), anyItem, hint))
    case PlaceAgain(n, holders) => Place(ctx, tx, n, holders)
    case Unplace(n) => Unplaced(ctx, tx, n)
    case ArchiveLink(n) => LinkArchiving(ctx, tx, n)
    case RaiseOther(n, name, detail, openOnly) => Noted(tx, n, name, detail, openOnly)
    case ClearOther(n, name) => Unnoted(tx, n, name)
    case EnginePass(others, snoozed) =>
      Ok(tx.(items := map n | n in tx.items ::
           Passed(tx.items, tx.items[n], if n in others then others[n] else map[], n in snoozed)))
    case CloseOut => Ok(tx.(items := map n | n in tx.items :: Archived(tx.items[n], ctx.now)))
    case BindHead(n, head) => HeadBound(tx, n, head)
  }

  /** Engine flags, archive times and gate heads are written as statements of their
   *  own. */
  predicate Direct(c: Command) {
    c.EnginePass? || c.CloseOut? || c.BindHead?
  }

  ghost function Next(ctx: Context, board: Board, c: Command): Board {
    var r := Transaction(ctx, Begun(board.items, board.next), c);
    if r.Err? then board
    else if Direct(c) then Board(r.value.items, board.next)
    else WriteBack(board, r.value)
  }

  /** A board's settings may be edited between its events. */
  datatype Event = Event(settings: Settings, actor: Actor, now: Time, command: Command)

  ghost function After(board: Board, e: Event): Board {
    Next(Context(e.settings, e.actor, e.now), board, e.command)
  }

  ghost function Run(board: Board, events: seq<Event>): Board
    decreases |events|
  {
    if events == [] then board else Run(After(board, events[0]), events[1..])
  }

  /** Every event of a run finds a board strict that is to stay so. */
  predicate StaysStrict(s: Settings, events: seq<Event>) {
    s.strict ==> forall e :: e in events ==> e.settings.strict
  }

  /** The calls that store a flag they should not: the bulk drop, and, unless such
   *  flags are allowed for, a flag from elsewhere on a closed item. */
  predicate Leaves(stray: bool, board: Board, c: Command) {
    DropsWaiting(board, c) || (!stray && FlagsClosed(board.items, c))
  }

  predicate DropsWaiting(board: Board, c: Command) {
    c.UpdateItems? && DropsOwnDependent(board.items, Unique(c.ns), c.w)
  }

  predicate FlagsClosed(items: Items, c: Command) {
    c.RaiseOther? && !c.openOnly && c.n in items && Closed(items[c.n].status)
  }

  ghost predicate Careful(stray: bool, board: Board, events: seq<Event>)
    decreases |events|
  {
    events == [] || (!Leaves(stray, board, events[0].command) && Careful(stray, After(board, events[0]), events[1..]))
  }

  ghost predicate GoodBoard(stray: bool, s: Settings, board: Board) {
    Good(stray, s, Begun(board.items, board.next))
  }

  ghost predicate SoundBoard(s: Settings, board: Board) {
    Sound(s, Begun(board.items, board.next))
  }

  // ---- each transaction keeps the board in order ----

  /** The item itself, coming back: nothing that a rule reads but its close mark. */
  lemma ReturnedItem(stray: bool, tx: Tx, n: ItemNo)
    requires n in tx.items && FieldRules(tx.items[n]) && CloseRule(tx.items[n])
    ensures var a, b := tx.items[n], Returned(tx, n).items[n];
            && FieldRules(b) && (CloseRule(b) || Closed(b.status)) && (ClosedFlagRule(stray, b) <==> ClosedFlagRule(stray, a))
            && b.blockedBy == a.blockedBy && b.status == a.status && b.flags == a.flags
  {
  }

  lemma ReturnedInvBut(stray: bool, tx: Tx, n: ItemNo)
    requires n in tx.items && Inv(stray, tx.items)
    ensures InvBut(stray, Returned(tx, n).items, n)
  {
    hide FieldRules, CloseRule, DroppedFlagRule, BlockerRule, Acyclic, ClosedFlagRule, Deps;
    ReturnedItem(stray, tx, n);
    var after := Returned(tx, n).items;
    SameEdges(tx.items, after);
    SameDroppedFlags(tx.items, after);
  }

  lemma PlaceGood(stray: bool, s: Settings, ctx: Context, tx: Tx, n: ItemNo, holders: seq<Holder>)
    requires Within(s, ctx)
    requires Good(stray, s, tx) && Place(ctx, tx, n, holders).Ok?
    ensures Good(stray, s, Place(ctx, tx, n, holders).value)
  {
    hide FieldRules, CloseRule, Acyclic, Apply, ClosedFlagRule, DroppedFlagRule, Conforms, BlockerRule, Drafted;
    ReturnedInvBut(stray, tx, n);
    var tx1 := Returned(tx, n);
    var w := ReturnWrite(ctx.settings, holders);
    assert Drafted(ctx, tx1.items, n, w, Editing).Ok? by {
      var d, t1, t2 := ApplySteps(ctx, tx1, n, w, Editing);
    }
    ReturnStatus(ctx, tx1, n, holders);
    ApplyKeeps(stray, ctx, tx1, n, w, Editing);
    ApplyShape(ctx, tx1, n, w, Editing);
    if s.strict {
      assert Conforms(tx.items[n]) ==> Conforms(tx1.items[n]) by {
        ReturnedConforms(tx, n);
      }
      ApplyConforms(ctx, tx1, n, w, Editing);
    }
  }

  lemma ReturnedConforms(tx: Tx, n: ItemNo)
    requires n in tx.items
    ensures Conforms(tx.items[n]) <==> Conforms(Returned(tx, n).items[n])
  {
  }

  lemma ReturnStatus(ctx: Context, tx: Tx, n: ItemNo, holders: seq<Holder>)
    requires n in tx.items && Drafted(ctx, tx.items, n, ReturnWrite(ctx.settings, holders), Editing).Ok?
    ensures !Closed(Drafted(ctx, tx.items, n, ReturnWrite(ctx.settings, holders), Editing).value.it.status)
  {
    hide NextHolders, BlockerError, Refusal, OwnerError, Settled;
  }

  /** An item keeps its rules, and its flags mean what they say. */
  ghost predicate ItemKept(stray: bool, items: Items, a: Item, b: Item) {
    && FieldRules(b) && CloseRule(b) && ClosedFlagRule(stray, b) && (Conforms(a) ==> Conforms(b))
    && b.blockedBy == a.blockedBy && b.status == a.status
    && (BlockerDropped in b.flags ==> HasDroppedBlocker(items, b.blockedBy))
  }

  lemma ItemwiseGood(stray: bool, s: Settings, tx: Tx, tx': Tx)
    requires Good(stray, s, tx) && tx'.items.Keys == tx.items.Keys && tx'.next == tx.next
    requires forall m :: m in tx.items ==> ItemKept(stray, tx.items, tx.items[m], tx'.items[m])
    ensures Good(stray, s, tx')
  {
    hide FieldRules, CloseRule, HasDroppedBlocker, Acyclic, Conforms, ClosedFlagRule, BlockerRule;
    SameEdges(tx.items, tx'.items);
    SameDropped(tx.items, tx'.items);
    hide Deps;
  }

  lemma UnchangedKept(stray: bool, items: Items, m: ItemNo)
    requires Inv(stray, items) && m in items
    ensures ItemKept(stray, items, items[m], items[m])
  {
    hide FieldRules, CloseRule, HasDroppedBlocker, Acyclic, Conforms, ClosedFlagRule;
    assert FieldRules(items[m]) && DroppedFlagRule(items, items[m]);
  }

  /** One item's archive marks and flags change. */
  lemma MarkedGood(stray: bool, s: Settings, tx: Tx, tx': Tx, n: ItemNo)
    requires Good(stray, s, tx) && n in tx.items && tx'.items.Keys == tx.items.Keys && tx'.next == tx.next
    requires forall m :: m in tx.items && m != n ==> tx'.items[m] == tx.items[m]
    requires tx'.items[n] == tx.items[n].(archivedAt := tx'.items[n].archivedAt, linkArchivedAt := tx'.items[n].linkArchivedAt,
                                          flags := tx'.items[n].flags)
    requires tx'.items[n].blockedBy == {} && (Closed(tx.items[n].status) || tx'.items[n].linkArchivedAt.Some?)
    requires ClosedFlagRule(stray, tx'.items[n]) && BlockerDropped !in tx'.items[n].flags
    ensures Good(stray, s, tx')
  {
    assert ItemKept(stray, tx.items, tx.items[n], tx'.items[n]) by {
      assert FieldRules(tx.items[n]) && CloseRule(tx.items[n]);
    }
    hide ItemKept;
    forall m | m in tx.items && m != n ensures ItemKept(stray, tx.items, tx.items[m], tx'.items[m]) {
      UnchangedKept(stray, tx.items, m);
    }
    hide Inv;
    ItemwiseGood(stray, s, tx, tx');
  }

  lemma UnplacedGood(stray: bool, s: Settings, ctx: Context, tx: Tx, n: ItemNo)
    requires Good(stray, s, tx) && Unplaced(ctx, tx, n).Ok?
    ensures Good(stray, s, Unplaced(ctx, tx, n).value)
  {
    assert tx.items[n].blockedBy == {} by {
      assert FieldRules(tx.items[n]);
    }
    hide Good;
    MarkedGood(stray, s, tx, Unplaced(ctx, tx, n).value, n);
  }

  lemma LinkArchivingGood(stray: bool, s: Settings, ctx: Context, tx: Tx, n: ItemNo)
    requires Good(stray, s, tx) && LinkArchiving(ctx, tx, n).Ok?
    ensures Good(stray, s, LinkArchiving(ctx, tx, n).value)
  {
    assert tx.items[n].blockedBy == {} && ClosedFlagRule(stray, tx.items[n]) && BlockerDropped !in tx.items[n].flags by {
      assert FieldRules(tx.items[n]) && ClosedFlagRule(stray, tx.items[n]);
    }
    hide Good;
    MarkedGood(stray, s, tx, LinkArchiving(ctx, tx, n).value, n);
  }

  lemma PassedKept(stray: bool, items: Items, m: ItemNo, others: map<FlagKind, Detail>, snoozed: bool)
    requires Inv(stray, items) && m in items
    ensures ItemKept(stray, items, items[m], Passed(items, items[m], others, snoozed))
  {
    UnchangedKept(stray, items, m);
    hide Inv, HasDroppedBlocker;
  }

  lemma PassGood(stray: bool, s: Settings, tx: Tx, tx': Tx, others: map<ItemNo, map<FlagKind, Detail>>, snoozed: set<ItemNo>)
    requires Good(stray, s, tx)
    requires tx' == tx.(items := map n | n in tx.items ::
                          Passed(tx.items, tx.items[n], if n in others then others[n] else map[], n in snoozed))
    ensures Good(stray, s, tx')
  {
    hide Passed, ItemKept, Inv;
    forall m | m in tx.items ensures ItemKept(stray, tx.items, tx.items[m], tx'.items[m]) {
      PassedKept(stray, tx.items, m, if m in others then others[m] else map[], m in snoozed);
    }
    ItemwiseGood(stray, s, tx, tx');
  }

  lemma ArchivedKept(stray: bool, items: Items, m: ItemNo, now: Time)
    requires Inv(stray, items) && m in items
    ensures ItemKept(stray, items, items[m], Archived(items[m], now))
  {
    UnchangedKept(stray, items, m);
    hide Inv, HasDroppedBlocker;
  }

  lemma CloseOutGood(stray: bool, s: Settings, tx: Tx, tx': Tx, now: Time)
    requires Good(stray, s, tx) && tx' == tx.(items := map n | n in tx.items :: Archived(tx.items[n], now))
    ensures Good(stray, s, tx')
  {
    hide Archived, ItemKept, Inv;
    forall m | m in tx.items ensures ItemKept(stray, tx.items, tx.items[m], tx'.items[m]) {
      ArchivedKept(stray, tx.items, m, now);
    }
    ItemwiseGood(stray, s, tx, tx');
  }

  lemma HeadBoundGood(stray: bool, s: Settings, tx: Tx, n: ItemNo, head: Option<Text>)
    requires Good(stray, s, tx) && HeadBound(tx, n, head).Ok?
    ensures Good(stray, s, HeadBound(tx, n, head).value)
  {
    hide Inv;
    var tx' := HeadBound(tx, n, head).value;
    forall m | m in tx.items ensures ItemKept(stray, tx.items, tx.items[m], tx'.items[m]) {
      UnchangedKept(stray, tx.items, m);
    }
    hide ItemKept;
    ItemwiseGood(stray, s, tx, tx');
  }

  lemma NotedGood(stray: bool, s: Settings, tx: Tx, n: ItemNo, name: string, detail: Detail, openOnly: bool)
    requires Good(stray, s, tx) && Noted(tx, n, name, detail, openOnly).Ok? && (stray || openOnly || !Closed(tx.items[n].status))
    ensures Good(stray, s, Noted(tx, n, name, detail, openOnly).value)
  {
    hide Good;
    if !(openOnly && Closed(tx.items[n].status)) {
      OneItemGood(stray, s, tx, RaiseFlag(tx, n, OtherFlag(name), detail), n);
    }
  }

  lemma NotedItem(tx: Tx, n: ItemNo, name: string, detail: Detail, openOnly: bool)
    requires Noted(tx, n, name, detail, openOnly).Ok?
    ensures n in tx.items
  {
  }

  lemma TransactionGood(stray: bool, s: Settings, ctx: Context, tx: Tx, c: Command)
    requires Within(s, ctx)
    requires Good(stray, s, tx) && Transaction(ctx, tx, c).Ok? && (stray || !FlagsClosed(tx.items, c))
    ensures Good(stray, s, Transaction(ctx, tx, c).value)
  {
    hide Good, Resolve, TouchEach, Place, Unplaced, LinkArchiving, Passed, Archived, Noted, ResolveFlags, HeadBound;
    match c
    case CreateItems(specs) => CreateGood(stray, s, ctx, tx, specs);
    case UpdateItems(ns, w, expected) => UpdateGood(stray, s, ctx, tx, Unique(ns), w, expected);
    case ResolveItem(n, action, kind) => ResolveGood(stray, s, ctx, tx, n, action, kind);
    case TouchItems(ns, anyItem, hint) => TouchGood(stray, s, ctx, tx, Unique(ns), anyItem, hint);
    case PlaceAgain(n, holders) => PlaceGood(stray, s, ctx, tx, n, holders);
    case Unplace(n) => UnplacedGood(stray, s, ctx, tx, n);
    case ArchiveLink(n) => LinkArchivingGood(stray, s, ctx, tx, n);
    case RaiseOther(n, name, detail, openOnly) =>
      assert n in tx.items by {
        NotedItem(tx, n, name, detail, openOnly);
      }
      NotedGood(stray, s, tx, n, name, detail, openOnly);
    case ClearOther(n, name) => ResolveFlagsGood(stray, s, tx, n, {OtherFlag(name)});
    case EnginePass(others, snoozed) => PassGood(stray, s, tx, Transaction(ctx, tx, c).value, others, snoozed);
    case CloseOut => CloseOutGood(stray, s, tx, Transaction(ctx, tx, c).value, ctx.now);
    case BindHead(n, head) => HeadBoundGood(stray, s, tx, n, head);
  }

  // ---- ... and sound, whatever its flags ----

  lemma ReturnedCore(tx: Tx, n: ItemNo)
    requires n in tx.items && CoreBut(tx.items, None)
    ensures CoreBut(Returned(tx, n).items, Some(n))
  {
    hide FieldRules, CloseRule, BlockerRule, Acyclic, ClosedFlagRule, Deps;
    ReturnedItem(false, tx, n);
    SameEdges(tx.items, Returned(tx, n).items);
  }

  lemma PlaceSound(s: Settings, ctx: Context, tx: Tx, n: ItemNo, holders: seq<Holder>)
    requires Within(s, ctx)
    requires Sound(s, tx) && Place(ctx, tx, n, holders).Ok?
    ensures Sound(s, Place(ctx, tx, n, holders).value)
  {
    hide FieldRules, CloseRule, Acyclic, Apply, Conforms, BlockerRule, Drafted;
    ReturnedCore(tx, n);
    var tx1 := Returned(tx, n);
    var w := ReturnWrite(ctx.settings, holders);
    assert Drafted(ctx, tx1.items, n, w, Editing).Ok? by {
      var d, t1, t2 := ApplySteps(ctx, tx1, n, w, Editing);
    }
    ReturnStatus(ctx, tx1, n, holders);
    ApplySound(ctx, tx1, n, w, Editing);
    ApplyShape(ctx, tx1, n, w, Editing);
    if s.strict {
      assert Conforms(tx.items[n]) ==> Conforms(tx1.items[n]) by {
        ReturnedConforms(tx, n);
      }
      ApplyConforms(ctx, tx1, n, w, Editing);
    }
  }

  lemma MarkedSound(s: Settings, tx: Tx, tx': Tx, n: ItemNo)
    requires Sound(s, tx) && n in tx.items && tx'.items.Keys == tx.items.Keys && tx'.next == tx.next
    requires forall m :: m in tx.items && m != n ==> tx'.items[m] == tx.items[m]
    requires tx'.items[n] == tx.items[n].(archivedAt := tx'.items[n].archivedAt, linkArchivedAt := tx'.items[n].linkArchivedAt,
                                          flags := tx'.items[n].flags)
    requires tx'.items[n].blockedBy == {} && (Closed(tx.items[n].status) || tx'.items[n].linkArchivedAt.Some?)
    ensures Sound(s, tx')
  {
    hide Sound;
    assert ItemSound(tx.items[n], tx'.items[n]);
    hide FieldRules, CloseRule, Conforms;
    ItemwiseSound(s, tx, tx');
  }

  lemma OpenBlockersOnly(s: Settings, tx: Tx, n: ItemNo)
    requires Sound(s, tx) && n in tx.items && Closed(tx.items[n].status)
    ensures tx.items[n].blockedBy == {}
  {
    assert FieldRules(tx.items[n]);
  }

  lemma UnplacedSound(s: Settings, ctx: Context, tx: Tx, n: ItemNo)
    requires Sound(s, tx) && Unplaced(ctx, tx, n).Ok?
    ensures Sound(s, Unplaced(ctx, tx, n).value)
  {
    hide Sound;
    if Closed(tx.items[n].status) {
      OpenBlockersOnly(s, tx, n);
    }
    MarkedSound(s, tx, Unplaced(ctx, tx, n).value, n);
  }

  lemma LinkArchivingSound(s: Settings, ctx: Context, tx: Tx, n: ItemNo)
    requires Sound(s, tx) && LinkArchiving(ctx, tx, n).Ok?
    ensures Sound(s, LinkArchiving(ctx, tx, n).value)
  {
    hide Sound;
    OpenBlockersOnly(s, tx, n);
    MarkedSound(s, tx, LinkArchiving(ctx, tx, n).value, n);
  }

  lemma EngineSound(s: Settings, tx: Tx, tx': Tx)
    requires Sound(s, tx) && tx'.items.Keys == tx.items.Keys && tx'.next == tx.next
    requires forall m :: m in tx.items ==> ItemSound(tx.items[m], tx'.items[m])
    ensures Sound(s, tx')
  {
    hide Sound, ItemSound;
    ItemwiseSound(s, tx, tx');
  }

  lemma PassedSound(items: Items, it: Item, others: map<FlagKind, Detail>, snoozed: bool)
    ensures ItemSound(it, Passed(items, it, others, snoozed))
  {
    hide HasDroppedBlocker;
  }

  lemma ArchivedSound(it: Item, now: Time)
    requires FieldRules(it) && CloseRule(it)
    ensures ItemSound(it, Archived(it, now))
  {
  }

  lemma HeadBoundSound(s: Settings, tx: Tx, n: ItemNo, head: Option<Text>)
    requires Sound(s, tx) && HeadBound(tx, n, head).Ok?
    ensures Sound(s, HeadBound(tx, n, head).value)
  {
    hide Sound;
    var tx' := HeadBound(tx, n, head).value;
    assert forall m :: m in tx.items ==> ItemSound(tx.items[m], tx'.items[m]);
    EngineSound(s, tx, tx');
  }

  lemma NotedSound(s: Settings, tx: Tx, n: ItemNo, name: string, detail: Detail, openOnly: bool)
    requires Sound(s, tx) && Noted(tx, n, name, detail, openOnly).Ok?
    ensures Sound(s, Noted(tx, n, name, detail, openOnly).value)
  {
    hide Sound;
    OneItemSound(s, tx, RaiseFlag(tx, n, OtherFlag(name), detail), n);
  }

  lemma TransactionSound(s: Settings, ctx: Context, tx: Tx, c: Command)
    requires Within(s, ctx)
    requires Sound(s, tx) && Transaction(ctx, tx, c).Ok?
    ensures Sound(s, Transaction(ctx, tx, c).value)
  {
    hide Sound, Resolve, TouchEach, Place, Unplaced, LinkArchiving, Passed, Archived, ItemSound, Noted, ResolveFlags, HeadBound;
    match c
    case CreateItems(specs) => CreateSound(s, ctx, tx, specs);
    case UpdateItems(ns, w, expected) => UpdateSound(s, ctx, tx, Unique(ns), w, expected);
    case ResolveItem(n, action, kind) => ResolveSound(s, ctx, tx, n, action, kind);
    case TouchItems(ns, anyItem, hint) => TouchSound(s, ctx, tx, Unique(ns), anyItem, hint);
    case PlaceAgain(n, holders) => PlaceSound(s, ctx, tx, n, holders);
    case Unplace(n) => UnplacedSound(s, ctx, tx, n);
    case ArchiveLink(n) => LinkArchivingSound(s, ctx, tx, n);
    case RaiseOther(n, name, detail, openOnly) => NotedSound(s, tx, n, name, detail, openOnly);
    case ClearOther(n, name) => ResolveFlagsSound(s, tx, n, {OtherFlag(name)});
    case EnginePass(others, snoozed) =>
      forall m | m in tx.items
        ensures ItemSound(tx.items[m], Passed(tx.items, tx.items[m], if m in others then others[m] else map[], m in snoozed))
      {
        PassedSound(tx.items, tx.items[m], if m in others then others[m] else map[], m in snoozed);
      }
      EngineSound(s, tx, Transaction(ctx, tx, c).value);
    case CloseOut =>
      forall m | m in tx.items ensures ItemSound(tx.items[m], Archived(tx.items[m], ctx.now)) {
        SoundItem(s, tx, m);
        ArchivedSound(tx.items[m], ctx.now);
      }
      EngineSound(s, tx, Transaction(ctx, tx, c).value);
    case BindHead(n, head) => HeadBoundSound(s, tx, n, head);
  }

  lemma SoundItem(s: Settings, tx: Tx, m: ItemNo)
    requires Sound(s, tx) && m in tx.items
    ensures FieldRules(tx.items[m]) && CloseRule(tx.items[m])
  {
  }

  // ---- each transaction records what it changed ----

  lemma {:induction false} UpdateRecorded(board: Board, s: Settings, ctx: Context, tx: Tx, ns: seq<ItemNo>, w: Write, expected: Option<Status>)
    requires Within(s, ctx)
    requires Recorded(board, tx) && Sound(s, tx) && UpdateEach(ctx, tx, ns, w, expected).Ok?
    ensures Recorded(board, UpdateEach(ctx, tx, ns, w, expected).value)
    decreases |ns|
  {
    hide Recorded, Sound, Apply;
    if ns != [] {
      var before := UpdateEach(ctx, tx, ns[..|ns| - 1], w, expected).value;
      UpdateRecorded(board, s, ctx, tx, ns[..|ns| - 1], w, expected);
      UpdateSound(s, ctx, tx, ns[..|ns| - 1], w, expected);
      WriteRecorded(board, s, ctx, before, ns[|ns| - 1], w, Editing);
    }
  }

  lemma WriteRecorded(board: Board, s: Settings, ctx: Context, tx: Tx, n: ItemNo, w: Write, mode: Mode)
    requires Recorded(board, tx) && Sound(s, tx) && !mode.Creating? && Apply(ctx, tx, n, w, mode).Ok?
    ensures Recorded(board, Apply(ctx, tx, n, w, mode).value)
  {
    hide Recorded, Apply, Acyclic, FieldRules;
    Found(ctx, tx, n, w, mode);
    ApplyRecorded(board, ctx, tx, n, w, mode);
  }

  lemma {:induction false} CreateRecorded(board: Board, s: Settings, ctx: Context, tx: Tx, specs: seq<Spec>)
    requires Within(s, ctx)
    requires Recorded(board, tx) && Sound(s, tx) && CreateEach(ctx, tx, specs).Ok?
    ensures Recorded(board, CreateEach(ctx, tx, specs).value)
    decreases |specs|
  {
    hide Recorded, Sound, Apply, Added;
    if specs != [] {
      var before := CreateEach(ctx, tx, specs[..|specs| - 1]).value;
      CreateRecorded(board, s, ctx, tx, specs[..|specs| - 1]);
      CreateSound(s, ctx, tx, specs[..|specs| - 1]);
      CreateOneRecorded(board, s, ctx, before, SpecWrite(ctx, specs[|specs| - 1]));
    }
  }

  lemma CreateOneRecorded(board: Board, s: Settings, ctx: Context, tx: Tx, w: Write)
    requires Recorded(board, tx) && Sound(s, tx) && Apply(ctx, Added(ctx, tx), ItemNo(tx.next), w, Creating).Ok?
    ensures Recorded(board, Apply(ctx, Added(ctx, tx), ItemNo(tx.next), w, Creating).value)
  {
    hide Recorded, Apply, CoreBut;
    AddedRecorded(board, ctx, tx);
    NewItemRules(ctx.now);
    ApplyRecorded(board, ctx, Added(ctx, tx), ItemNo(tx.next), w, Creating);
  }

  lemma ResolveRecorded(board: Board, s: Settings, ctx: Context, tx: Tx, n: ItemNo, action: Action, kind: Option<FlagKind>)
    requires Recorded(board, tx) && Sound(s, tx) && Resolve(ctx, tx, n, action, kind).Ok?
    ensures Recorded(board, Resolve(ctx, tx, n, action, kind).value)
  {
    hide Recorded, Sound, Apply, ResolveFlags;
    var kinds := ResolvedKinds(tx.items[n], action, kind);
    var tx1 := ResolveFlags(tx, n, kinds);
    ResolveFlagsRecorded(board, tx, n, kinds);
    ResolveFlagsSound(s, tx, n, kinds);
    ResolveFlagsShape(tx, n, kinds);
    match action
    case Dismiss => TouchedRecorded(board, tx1, n, Forgotten(tx1.items[n], SuggestedStatus(tx.items[n])));
    case Nudge => TouchedRecorded(board, tx1, n, tx1.items[n].(touchedAt := ctx.now));
    case Answer(_) => WriteRecorded(board, s, ctx, tx1, n, ResolutionWrite(ctx, tx, n, action), Answering);
    case Confirm(_) => WriteRecorded(board, s, ctx, tx1, n, ResolutionWrite(ctx, tx, n, action), Editing);
    case Reassign(_) => WriteRecorded(board, s, ctx, tx1, n, ResolutionWrite(ctx, tx, n, action), Editing);
    case Block(_, _, _) => WriteRecorded(board, s, ctx, tx1, n, ResolutionWrite(ctx, tx, n, action), Editing);
    case Drop => WriteRecorded(board, s, ctx, tx1, n, ResolutionWrite(ctx, tx, n, action), Editing);
  }

  lemma TouchOneRecorded(board: Board, ctx: Context, tx: Tx, n: ItemNo, anyItem: bool, hint: Option<Hint>)
    requires Recorded(board, tx)
    ensures Recorded(board, TouchOne(ctx, tx, n, anyItem, hint))
  {
    hide Recorded, Suggest;
    if n in tx.items {
      var touched := tx.items[n].(touchedAt := ctx.now, launchedAt := Some(ctx.now));
      TouchedRecorded(board, tx, n, touched);
      if hint.Some? {
        SuggestRecorded(board, ctx, tx, n, hint.value);
        SuggestRecorded(board, ctx, Touched(tx, n, touched), n, hint.value);
      }
    }
  }

  lemma SuggestRecorded(board: Board, ctx: Context, tx: Tx, n: ItemNo, hint: Hint)
    requires Recorded(board, tx) && n in tx.items
    ensures Recorded(board, Suggest(ctx, tx, n, hint))
  {
    hide Recorded, ResolveFlags, RaiseFlag;
    ResolveFlagsRecorded(board, tx, n, {Suggested});
    ResolveFlagsShape(tx, n, {Suggested});
    var detail := Suggestion(hint.to, hint.keyword, ctx.actor.pid);
    RaiseFlagRecorded(board, tx, n, Suggested, detail);
    RaiseFlagRecorded(board, ResolveFlags(tx, n, {Suggested}), n, Suggested, detail);
  }

  lemma {:induction false} TouchRecorded(board: Board, ctx: Context, tx: Tx, ns: seq<ItemNo>, anyItem: bool, hint: Option<Hint>)
    requires Recorded(board, tx)
    ensures Recorded(board, TouchEach(ctx, tx, ns, anyItem, hint))
    decreases |ns|
  {
    hide Recorded, TouchOne;
    if ns != [] {
      TouchRecorded(board, ctx, tx, ns[..|ns| - 1], anyItem, hint);
      TouchOneRecorded(board, ctx, TouchEach(ctx, tx, ns[..|ns| - 1], anyItem, hint), ns[|ns| - 1], anyItem, hint);
    }
  }

  /** An item marked by hand and listed as changed. */
  lemma MarkedRecorded(board: Board, tx: Tx, n: ItemNo, it: Item)
    requires Recorded(board, tx) && n in tx.items
    requires it.flags == tx.items[n].flags && it.holders == tx.items[n].holders && it.blockedBy == tx.items[n].blockedBy
    requires it.gateHead == tx.items[n].gateHead && it.dismissed == tx.items[n].dismissed
    ensures Recorded(board, Touched(tx, n, it))
  {
    hide Recorded;
    assert Logged(tx, Touched(tx, n, it));
    hide Logged;
    LoggedRecorded(board, tx, Touched(tx, n, it));
  }

  lemma PlaceRecorded(board: Board, s: Settings, ctx: Context, tx: Tx, n: ItemNo, holders: seq<Holder>)
    requires Recorded(board, tx) && Sound(s, tx) && Place(ctx, tx, n, holders).Ok?
    ensures Recorded(board, Place(ctx, tx, n, holders).value)
  {
    hide Recorded, Apply, FieldRules, Acyclic;
    ReturnedCore(tx, n);
    var it := tx.items[n];
    MarkedRecorded(board, tx, n, it.(linkArchivedAt := None, archivedAt := None,
                                     closedAt := if Closed(it.status) then None else it.closedAt));
    ApplyRecorded(board, ctx, Returned(tx, n), n, ReturnWrite(ctx.settings, holders), Editing);
  }

  lemma TransactionRecorded(board: Board, s: Settings, ctx: Context, c: Command)
    requires Within(s, ctx)
    requires SoundBoard(s, board) && !Direct(c) && Transaction(ctx, Begun(board.items, board.next), c).Ok?
    ensures Recorded(board, Transaction(ctx, Begun(board.items, board.next), c).value)
  {
    var tx := Begun(board.items, board.next);
    BegunRecorded(board);
    hide Sound, Recorded, Resolve, TouchEach, Place, ResolveFlags, RaiseFlag;
    match c
    case CreateItems(specs) => CreateRecorded(board, s, ctx, tx, specs);
    case UpdateItems(ns, w, expected) => UpdateRecorded(board, s, ctx, tx, Unique(ns), w, expected);
    case ResolveItem(n, action, kind) => ResolveRecorded(board, s, ctx, tx, n, action, kind);
    case TouchItems(ns, anyItem, hint) => TouchRecorded(board, ctx, tx, Unique(ns), anyItem, hint);
    case PlaceAgain(n, holders) => PlaceRecorded(board, s, ctx, tx, n, holders);
    case Unplace(n) =>
      var marked := tx.items[n].(linkArchivedAt := Some(ctx.now), archivedAt := Some(ctx.now));
      MarkedRecorded(board, tx, n, marked);
      ResolveFlagsRecorded(board, Touched(tx, n, marked), n, marked.flags.Keys);
    case ArchiveLink(n) =>
      var it := tx.items[n];
      MarkedRecorded(board, tx, n, it.(linkArchivedAt := Some(ctx.now),
                                       archivedAt := if it.archivedAt.Some? then it.archivedAt else Some(ctx.now)));
    case RaiseOther(n, name, detail, _) => RaiseFlagRecorded(board, tx, n, OtherFlag(name), detail);
    case ClearOther(n, name) => ResolveFlagsRecorded(board, tx, n, {OtherFlag(name)});
  }

  // ---- which transactions store the flags they end with ----

  lemma WriteClean(s: Settings, ctx: Context, tx: Tx, n: ItemNo, w: Write, mode: Mode)
    requires Sound(s, tx) && tx.raised == map[] && mode == Editing && Apply(ctx, tx, n, w, mode).Ok?
    ensures KindsClean(Apply(ctx, tx, n, w, mode).value)
  {
    hide CoreBut, Apply;
    Found(ctx, tx, n, w, mode);
    if Drops(w) {
      ApplyDrop(ctx, tx, n, w);
    } else {
      OnlyDropsRaise(ctx, tx, n, w, mode);
    }
  }

  lemma AnswerClean(ctx: Context, tx: Tx, n: ItemNo, to: Status)
    requires tx.raised == map[] && to != Dropped && Apply(ctx, tx, n, FieldWrite(StatusFields(Some(to))), Answering).Ok?
    ensures KindsClean(Apply(ctx, tx, n, FieldWrite(StatusFields(Some(to))), Answering).value)
  {
    Found(ctx, tx, n, FieldWrite(StatusFields(Some(to))), Answering);
    hide Apply;
    OnlyDropsRaise(ctx, tx, n, FieldWrite(StatusFields(Some(to))), Answering);
  }

  lemma ResolveClean(s: Settings, ctx: Context, tx: Tx, n: ItemNo, action: Action, kind: Option<FlagKind>)
    requires Sound(s, tx) && tx.raised == map[] && Resolve(ctx, tx, n, action, kind).Ok?
    ensures KindsClean(Resolve(ctx, tx, n, action, kind).value)
  {
    hide Sound, Apply, KindsClean;
    var kinds := ResolvedKinds(tx.items[n], action, kind);
    var tx1 := ResolveFlags(tx, n, kinds);
    ResolveFlagsSound(s, tx, n, kinds);
    match action
    case Answer(_) => AnswerClean(ctx, tx1, n, if tx.items[n].holders != [] || ctx.settings.strict then Active else Open);
    case Confirm(_) => WriteClean(s, ctx, tx1, n, ResolutionWrite(ctx, tx, n, action), Editing);
    case Reassign(_) => WriteClean(s, ctx, tx1, n, ResolutionWrite(ctx, tx, n, action), Editing);
    case Block(_, _, _) => WriteClean(s, ctx, tx1, n, ResolutionWrite(ctx, tx, n, action), Editing);
    case Drop => WriteClean(s, ctx, tx1, n, ResolutionWrite(ctx, tx, n, action), Editing);
    case Dismiss => NothingRaisedClean(Resolve(ctx, tx, n, action, kind).value);
    case Nudge => NothingRaisedClean(Resolve(ctx, tx, n, action, kind).value);
  }

  lemma NothingRaisedClean(tx: Tx)
    requires tx.raised == map[]
    ensures KindsClean(tx)
  {
  }

  /** A new item has nobody waiting on it, so even one added as dropped raises
   *  nothing. */
  lemma CreateOneRaises(ctx: Context, tx: Tx, n: ItemNo, w: Write)
    requires n in tx.items && Dependents(tx.items, n) == {} && CoreBut(tx.items, None) && tx.items[n] == NewItem(ctx.now)
    requires Apply(ctx, tx, n, w, Creating).Ok?
    ensures Apply(ctx, tx, n, w, Creating).value.raised == tx.raised
  {
    hide Drafted, OwnFlags, FieldRules, CloseRule, Acyclic, Apply, ClosesCycle, BlockerRule, MidCore, Neighbours;
    var d, tx1, tx2 := ApplySteps(ctx, tx, n, w, Creating);
    var tx0 := Placed(tx, n, d);
    var changes := OwnerChanges(n, OwnerOf(tx.items[n].holders), OwnerOf(d.it.holders), d.it.status, None);
    var tx0' := tx0.(ownerChanges := tx0.ownerChanges + changes);
    PlacedMidCore(ctx, tx, n, w, Creating, d);
    hide CoreBut;
    OwnFlagsFrame(tx0', n, d.it.status, None);
    FlagsKeepMidCore(tx0.items, tx1.items, n);
    NotSelfBlocked(tx1.items, n);
    OthersSame(tx, n, d, tx1);
    assert Dependents(tx1.items, n) == {} by {
      forall m | m in tx1.items ensures n !in tx1.items[m].blockedBy {
        assert m !in Dependents(tx.items, n);
      }
    }
    NobodyHears(ctx, tx1, n, d.it.status, None);
  }

  lemma NobodyHears(ctx: Context, tx: Tx, n: ItemNo, status: Status, prev: Option<Status>)
    requires Dependents(tx.items, n) == {}
    ensures Neighbours(ctx, tx, n, status, prev).raised == tx.raised
  {
    hide Unhooked, HasDroppedBlocker;
  }

  lemma AddedAlone(s: Settings, ctx: Context, tx: Tx)
    requires Sound(s, tx)
    ensures var n, after := ItemNo(tx.next), Added(ctx, tx);
            && n in after.items && after.items[n] == NewItem(ctx.now) && Dependents(after.items, n) == {}
            && after.raised == tx.raised
  {
    hide FieldRules, CloseRule, Acyclic, Conforms;
    forall m | m in tx.items ensures ItemNo(tx.next) !in tx.items[m].blockedBy {
      assert BlockerRule(tx.items, m);
    }
  }

  lemma {:induction false} CreateRaisesNothing(s: Settings, ctx: Context, tx: Tx, specs: seq<Spec>)
    requires Within(s, ctx)
    requires Sound(s, tx) && CreateEach(ctx, tx, specs).Ok?
    ensures CreateEach(ctx, tx, specs).value.raised == tx.raised
    decreases |specs|
  {
    hide Sound, Apply, Added, CoreBut;
    if specs != [] {
      var before := CreateEach(ctx, tx, specs[..|specs| - 1]).value;
      CreateRaisesNothing(s, ctx, tx, specs[..|specs| - 1]);
      CreateSound(s, ctx, tx, specs[..|specs| - 1]);
      AddedSound(s, ctx, before);
      AddedAlone(s, ctx, before);
      CreateOneRaises(ctx, Added(ctx, before), ItemNo(before.next), SpecWrite(ctx, specs[|specs| - 1]));
    }
  }

  lemma TouchOneClean(ctx: Context, tx: Tx, n: ItemNo, anyItem: bool, hint: Option<Hint>)
    requires KindsClean(tx)
    ensures KindsClean(TouchOne(ctx, tx, n, anyItem, hint))
  {
    hide Suggest;
    if n in tx.items {
      var touched := Touched(tx, n, tx.items[n].(touchedAt := ctx.now, launchedAt := Some(ctx.now)));
      assert KindsClean(touched);
      hide KindsClean;
      if hint.Some? {
        SuggestClean(ctx, tx, n, hint.value);
        SuggestClean(ctx, touched, n, hint.value);
      }
    }
  }

  lemma SuggestClean(ctx: Context, tx: Tx, n: ItemNo, hint: Hint)
    requires KindsClean(tx) && n in tx.items
    ensures KindsClean(Suggest(ctx, tx, n, hint))
  {
  }

  lemma {:induction false} TouchClean(ctx: Context, tx: Tx, ns: seq<ItemNo>, anyItem: bool, hint: Option<Hint>)
    requires KindsClean(tx)
    ensures KindsClean(TouchEach(ctx, tx, ns, anyItem, hint))
    decreases |ns|
  {
    hide KindsClean, TouchOne;
    if ns != [] {
      TouchClean(ctx, tx, ns[..|ns| - 1], anyItem, hint);
      TouchOneClean(ctx, TouchEach(ctx, tx, ns[..|ns| - 1], anyItem, hint), ns[|ns| - 1], anyItem, hint);
    }
  }

  lemma PlaceRaises(ctx: Context, tx: Tx, n: ItemNo, holders: seq<Holder>)
    requires Place(ctx, tx, n, holders).Ok?
    ensures Place(ctx, tx, n, holders).value.raised == tx.raised
  {
    hide Apply;
    OnlyDropsRaise(ctx, Returned(tx, n), n, ReturnWrite(ctx.settings, holders), Editing);
  }

  lemma NotedClean(tx: Tx, n: ItemNo, name: string, detail: Detail)
    requires n in tx.items && tx.raised == map[]
    ensures KindsClean(tx) && KindsClean(RaiseFlag(tx, n, OtherFlag(name), detail))
  {
  }

  /** Whatever flags a sound board carries: every call but the bulk drop that takes an
   *  item before one waiting on it stores the flags its transaction ended with; that
   *  one never does. */
  lemma CleanExactlyUnless(s: Settings, ctx: Context, board: Board, c: Command)
    requires Within(s, ctx)
    requires SoundBoard(s, board) && !Direct(c) && Transaction(ctx, Begun(board.items, board.next), c).Ok?
    ensures KindsClean(Transaction(ctx, Begun(board.items, board.next), c).value) <==> !DropsWaiting(board, c)
  {
    var tx := Begun(board.items, board.next);
    var after := Transaction(ctx, tx, c).value;
    NothingRaisedClean(tx);
    hide Sound, Resolve, TouchEach, Place, KindsClean, DropsOwnDependent, RaiseFlag;
    match c
    case CreateItems(specs) =>
      CreateRaisesNothing(s, ctx, tx, specs);
      NothingRaisedClean(after);
    case UpdateItems(ns, w, expected) => UpdateStoresFlags(s, ctx, board, ns, w, expected, after);
    case ResolveItem(n, action, kind) => ResolveClean(s, ctx, tx, n, action, kind);
    case TouchItems(ns, anyItem, hint) => TouchClean(ctx, tx, Unique(ns), anyItem, hint);
    case PlaceAgain(n, holders) =>
      PlaceRaises(ctx, tx, n, holders);
      NothingRaisedClean(after);
    case Unplace(n) => NothingRaisedClean(after);
    case ArchiveLink(n) => NothingRaisedClean(after);
    case RaiseOther(n, name, detail, _) => NotedClean(tx, n, name, detail);
    case ClearOther(n, name) => NothingRaisedClean(after);
  }

  // ---- runs ----

  lemma DetailsDoNotMatter(stray: bool, s: Settings, tx: Tx, stored: Board)
    requires Good(stray, s, tx) && SameButFlags(tx.items, stored.items) && stored.next >= tx.next
    requires forall n :: n in tx.items ==> stored.items[n].flags.Keys == tx.items[n].flags.Keys
    ensures GoodBoard(stray, s, stored)
  {
    hide FieldRules, CloseRule, DroppedFlagRule, BlockerRule, Acyclic, ClosedFlagRule, Conforms, Deps;
    forall m | m in tx.items
      ensures (Conforms(stored.items[m]) <==> Conforms(tx.items[m])) && (FieldRules(stored.items[m]) <==> FieldRules(tx.items[m]))
      ensures CloseRule(tx.items[m]) ==> CloseRule(stored.items[m])
      ensures ClosedFlagRule(stray, tx.items[m]) ==> ClosedFlagRule(stray, stored.items[m])
    {
      FlagsAreNoField(tx.items[m], stored.items[m]);
      SameKinds(stray, tx.items[m], stored.items[m]);
    }
    SameEdges(tx.items, stored.items);
    SameDroppedFlags(tx.items, stored.items);
  }

  lemma SameKinds(stray: bool, a: Item, b: Item)
    requires b == a.(flags := b.flags) && b.flags.Keys == a.flags.Keys
    ensures (CloseRule(a) ==> CloseRule(b)) && (ClosedFlagRule(stray, a) ==> ClosedFlagRule(stray, b))
  {
    assert b.flags == map[] <==> b.flags.Keys == {};
  }

  /** One command keeps the stored board in order, if it is not such a call. */
  lemma NextGood(stray: bool, s: Settings, ctx: Context, board: Board, c: Command)
    requires Within(s, ctx)
    requires GoodBoard(stray, s, board) && !Leaves(stray, board, c)
    ensures GoodBoard(stray, s, Next(ctx, board, c))
  {
    hide Transaction, DropsOwnDependent, KindsClean, Recorded;
    var tx := Begun(board.items, board.next);
    var r := Transaction(ctx, tx, c);
    if r.Ok? {
      TransactionGood(stray, s, ctx, tx, c);
      if Direct(c) {
        DirectNext(ctx, board, c);
      } else {
        GoodIsSound(stray, s, tx);
        TransactionRecorded(board, s, ctx, c);
        CleanExactlyUnless(s, ctx, board, c);
        WriteBackKinds(board, r.value);
        StoredShape(board, r.value);
        hide Good, WriteBack;
        DetailsDoNotMatter(stray, s, r.value, WriteBack(board, r.value));
      }
    }
  }

  lemma DirectNext(ctx: Context, board: Board, c: Command)
    requires Direct(c) && Transaction(ctx, Begun(board.items, board.next), c).Ok?
    ensures Transaction(ctx, Begun(board.items, board.next), c).value
            == Begun(Transaction(ctx, Begun(board.items, board.next), c).value.items, board.next)
  {
  }

  lemma StoredShape(board: Board, tx: Tx)
    requires Recorded(board, tx)
    ensures WriteBack(board, tx).items.Keys == tx.items.Keys && WriteBack(board, tx).next == tx.next
  {
    hide StoredItem, ItemRecorded, KeyRecorded;
  }

  /** Over every run without such a call, the flags mean what they say too: an open
   *  `blocker_dropped` has a dropped blocker, and closed items have no flag open. With
   *  `stray`, flags from elsewhere may go to closed items in the run, and then those
   *  are the only ones open there. */
  lemma {:induction false} RunGood(stray: bool, s: Settings, board: Board, events: seq<Event>)
    requires GoodBoard(stray, s, board) && StaysStrict(s, events) && Careful(stray, board, events)
    ensures GoodBoard(stray, s, Run(board, events))
    decreases |events|
  {
    hide GoodBoard, Next, Leaves;
    if events != [] {
      NextGood(stray, s, Context(events[0].settings, events[0].actor, events[0].now), board, events[0].command);
      RunGood(stray, s, After(board, events[0]), events[1..]);
    }
  }

  /** Whatever flags its rows carry, a sound board stays sound. */
  lemma NextSound(s: Settings, ctx: Context, board: Board, c: Command)
    requires Within(s, ctx)
    requires SoundBoard(s, board)
    ensures SoundBoard(s, Next(ctx, board, c))
  {
    hide Transaction, Recorded, Sound;
    var tx := Begun(board.items, board.next);
    var r := Transaction(ctx, tx, c);
    if r.Ok? {
      TransactionSound(s, ctx, tx, c);
      if Direct(c) {
        DirectNext(ctx, board, c);
      } else {
        TransactionRecorded(board, s, ctx, c);
        StoredSound(s, board, r.value);
      }
    }
  }

  /** The write-back may lose flags, never a field. */
  lemma StoredSound(s: Settings, board: Board, tx: Tx)
    requires Sound(s, tx) && Recorded(board, tx)
    ensures SoundBoard(s, WriteBack(board, tx))
  {
    hide Sound, Recorded;
    var stored := WriteBack(board, tx);
    StoredShape(board, tx);
    hide WriteBack, ItemSound, Begun;
    forall m | m in tx.items ensures ItemSound(tx.items[m], stored.items[m]) {
      RowSound(board, tx, m);
    }
    StoredWhole(s, tx, stored);
  }

  lemma RowSound(board: Board, tx: Tx, m: ItemNo)
    requires Recorded(board, tx) && m in tx.items && m in WriteBack(board, tx).items
    ensures ItemSound(tx.items[m], WriteBack(board, tx).items[m])
  {
    hide Recorded, WriteBack, StoredFlags;
    RowsExact(board, tx, m);
  }

  lemma StoredWhole(s: Settings, tx: Tx, stored: Board)
    requires Sound(s, tx) && stored.items.Keys == tx.items.Keys && stored.next == tx.next
    requires forall m :: m in tx.items ==> ItemSound(tx.items[m], stored.items[m])
    ensures SoundBoard(s, stored)
  {
    hide Sound, ItemSound;
    ItemwiseSound(s, tx, Begun(stored.items, stored.next));
  }

  /** Over every run of a board, with no call left out: the field rules and close
   *  marks of every item, no done or missing blocker, an acyclic blocker graph,
   *  and, on a board that stays strict, only running or blocked work. */
  lemma {:induction false} RunSound(s: Settings, board: Board, events: seq<Event>)
    requires SoundBoard(s, board) && StaysStrict(s, events)
    ensures SoundBoard(s, Run(board, events))
    decreases |events|
  {
    hide SoundBoard, Next;
    if events != [] {
      NextSound(s, Context(events[0].settings, events[0].actor, events[0].now), board, events[0].command);
      RunSound(s, After(board, events[0]), events[1..]);
    }
  }

  /** A new board is in order. */
  lemma EmptyBoardGood(stray: bool, s: Settings, next: nat)
    ensures GoodBoard(stray, s, Board(map[], next))
  {
    var none: Items := map[];
    assert Deps(none) == map[];
    RankedAcyclic(Deps(none), map[]);
  }

  /** The bulk drop in question: it succeeds, and the row of an item it dropped
   *  keeps `blocker_dropped` open. */
  lemma BulkDropLeavesFlag(s: Settings, ctx: Context, board: Board, c: Command) returns (m: ItemNo)
    requires Within(s, ctx)
    requires SoundBoard(s, board) && DropsWaiting(board, c)
    requires Transaction(ctx, Begun(board.items, board.next), c).Ok?
    ensures var after := Next(ctx, board, c).items;
            && HitBy(board.items, Unique(c.ns), m)
            && m in after && after[m].status == Dropped && BlockerDropped in after[m].flags
  {
    hide Recorded, Sound, StoredFlags, DroppedSoFar;
    var start := Begun(board.items, board.next);
    var tx := Transaction(ctx, start, c).value;
    var ns := Unique(c.ns);
    UniqueDistinct(c.ns);
    BulkDropped(s, ctx, start, ns, c.w, c.expected);
    TransactionRecorded(board, s, ctx, c);
    m := LeftOpen(board.items, tx, ns);
    RowsExact(board, tx, m);
    FlagExact(board, tx, FlagKey(m, BlockerDropped));
    StoredShape(board, tx);
  }

  lemma LeftOpen(before: Items, tx: Tx, ns: seq<ItemNo>) returns (m: ItemNo)
    requires DroppedSoFar(before, tx, ns) && Distinct(ns) && HitLater(before, ns)
    ensures m in tx.items && tx.items[m].status == Dropped && FlagKey(m, BlockerDropped) in tx.raised && HitBy(before, ns, m)
  {
    var i, j :| 0 <= i < j < |ns| && Hits(before, ns[i], ns[j]) && BlockerDropped !in before[ns[j]].flags;
    m := ns[j];
    assert m !in ns[..i];
    assert FirstHit(before, ns, m) && HitBy(before, ns, m);
    hide FirstHit, HitBy, Hits, SameButHit;
  }

  lemma NotedNext(ctx: Context, board: Board, c: Command)
    requires FlagsClosed(board.items, c)
    ensures Next(ctx, board, c) == WriteBack(board, RaiseFlag(Begun(board.items, board.next), c.n, OtherFlag(c.name), c.detail))
  {
    hide WriteBack, RaiseFlag;
  }

  /** A flag from elsewhere on a closed item is stored, and nothing resolves it. */
  lemma FlagOnClosedStays(ctx: Context, board: Board, c: Command)
    requires FlagsClosed(board.items, c)
    ensures var after := Next(ctx, board, c).items;
            c.n in after && Closed(after[c.n].status) && OtherFlag(c.name) in after[c.n].flags
  {
    var start := Begun(board.items, board.next);
    var tx := RaiseFlag(start, c.n, OtherFlag(c.name), c.detail);
    NotedNext(ctx, board, c);
    hide Recorded, WriteBack, KindsClean, Next, RaiseFlag;
    BegunRecorded(board);
    RaiseFlagRecorded(board, start, c.n, OtherFlag(c.name), c.detail);
    NotedClean(start, c.n, c.name, c.detail);
    WriteBackKinds(board, tx);
    StoredShape(board, tx);
    NotedStatus(start, c.n, c.name, c.detail);
  }

  lemma NotedStatus(tx: Tx, n: ItemNo, name: string, detail: Detail)
    requires n in tx.items
    ensures var after := RaiseFlag(tx, n, OtherFlag(name), detail).items;
            n in after && after[n].status == tx.items[n].status && OtherFlag(name) in after[n].flags
  {
  }

  lemma BoardIsSound(stray: bool, s: Settings, board: Board)
    requires GoodBoard(stray, s, board)
    ensures SoundBoard(s, board)
  {
    GoodIsSound(stray, s, Begun(board.items, board.next));
  }

  lemma WronglyFlagged(stray: bool, s: Settings, board: Board, m: ItemNo, kind: FlagKind)
    requires m in board.items && Closed(board.items[m].status) && kind in board.items[m].flags && !(stray && kind.OtherFlag?)
    ensures !GoodBoard(stray, s, board)
  {
    hide FieldRules, CloseRule, BlockerRule, DroppedFlagRule, Acyclic, Conforms;
    assert !ClosedFlagRule(stray, board.items[m]);
  }

  /** So a call leaves the board in order if and only if it is none of these: a
   *  condition that can be read off the board before the call. */
  lemma CallExact(stray: bool, s: Settings, ctx: Context, board: Board, c: Command)
    requires Within(s, ctx)
    requires GoodBoard(stray, s, board) && Transaction(ctx, Begun(board.items, board.next), c).Ok?
    ensures GoodBoard(stray, s, Next(ctx, board, c)) <==> !Leaves(stray, board, c)
  {
    hide GoodBoard, Next, DropsWaiting, Transaction;
    if DropsWaiting(board, c) {
      BoardIsSound(stray, s, board);
      var m := BulkDropLeavesFlag(s, ctx, board, c);
      WronglyFlagged(stray, s, Next(ctx, board, c), m, BlockerDropped);
    } else if !stray && FlagsClosed(board.items, c) {
      FlagOnClosedStays(ctx, board, c);
      WronglyFlagged(stray, s, Next(ctx, board, c), c.n, OtherFlag(c.name));
    } else {
      NextGood(stray, s, ctx, board, c);
    }
  }
}
