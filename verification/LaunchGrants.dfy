/** Who may launch sessions for a placed task (dispatch/placement.py): grants follow
 * the owner of its item, and end when it is closed, handed back or unplaced.
 */
module LaunchGrants {
  import opened Prelude
  import opened Graphs
  import opened BoardRules
  import opened BoardSpec
  import opened BoardInvariants
  import opened BoardOperations
  import opened BoardSoundness
  import opened BoardWriteBack
  import opened BoardBulkDrop
  import opened BoardOwners
  import opened BoardRuns

  datatype BoardId = BoardId(id: string)
  datatype TaskId = TaskId(id: string)
  datatype Key = Key(board: BoardId, n: ItemNo)
  datatype LaunchGrant = LaunchGrant(task: TaskId, pid: Pid)

  /** `tasks` says which task an item carries, its link live or archived. */
  datatype World = World(boards: map<BoardId, Board>, tasks: map<Key, TaskId>, grants: set<LaunchGrant>)

  function TasksOn(w: World, b: BoardId): map<ItemNo, TaskId> {
    map k | k in w.tasks && k.board == b :: k.n := w.tasks[k]
  }

  predicate MayGrant(actor: Pid, trusted: set<Pid>, from: Option<Pid>) {
    actor == Owner || from == Some(actor) || actor in trusted
  }

  predicate Launchable(items: Items, n: ItemNo) {
    n in items && items[n].linkArchivedAt.None? && !Closed(items[n].status)
  }

  /** One owner change: the old owner's grant ends, and an authorised change of an
   *  open, placed item gives the new owner one. */
  function MoveOne(grants: set<LaunchGrant>, items: Items, tasks: map<ItemNo, TaskId>, c: OwnerChange, actor: Pid, trusted: set<Pid>): set<LaunchGrant> {
    if c.n !in tasks then grants
    else
      var kept := if c.from.Some? then grants - {LaunchGrant(tasks[c.n], c.from.value)} else grants;
      if c.to.Some? && Launchable(items, c.n) && MayGrant(actor, trusted, c.from)
      then kept + {LaunchGrant(tasks[c.n], c.to.value)} else kept
  }

  function MoveGrants(grants: set<LaunchGrant>, items: Items, tasks: map<ItemNo, TaskId>, changes: seq<OwnerChange>, actor: Pid,
                      trusted: set<Pid>): set<LaunchGrant>
  {
    if changes == [] then grants
    else MoveOne(MoveGrants(grants, items, tasks, changes[..|changes| - 1], actor, trusted), items, tasks, changes[|changes| - 1], actor, trusted)
  }

  method MoveLaunchGrants(grants: set<LaunchGrant>, items: Items, tasks: map<ItemNo, TaskId>, changes: seq<OwnerChange>, actor: Pid,
                          trusted: set<Pid>) returns (now: set<LaunchGrant>)
    ensures now == MoveGrants(grants, items, tasks, changes, actor, trusted)
  {
    now := grants;
    for i := 0 to |changes|
      invariant now == MoveGrants(grants, items, tasks, changes[..i], actor, trusted)
    {
      var c := changes[i];
      assert changes[..i + 1][..i] == changes[..i] && changes[..i + 1][i] == c;
      if c.n !in tasks {
        continue;
      }
      if c.from.Some? {
        now := now - {LaunchGrant(tasks[c.n], c.from.value)};
      }
      if c.to.Some? && Launchable(items, c.n) && MayGrant(actor, trusted, c.from) {
        now := now + {LaunchGrant(tasks[c.n], c.to.value)};
      }
    }
    assert changes[..|changes|] == changes;
  }

  // ---- events ----

  predicate LiveLinked(w: World, k: Key) {
    k in w.tasks && k.board in w.boards && k.n in w.boards[k.board].items && w.boards[k.board].items[k.n].linkArchivedAt.None?
  }

  ghost predicate TaskPlaced(w: World, t: TaskId) {
    exists k :: LiveLinked(w, k) && w.tasks[k] == t
  }

  datatype Call =
    | OpenBoard(id: BoardId, next: nat)
    | Write(board: BoardId, command: Command)
    | PlaceNew(onto: BoardId, task: TaskId, holders: seq<Holder>)
    | PlaceBack(key: Key, heldBy: seq<Holder>)
    | UnplaceTask(placed: Key)
    | ArchiveTaskLink(closed: Key)
    | Engine(swept: BoardId, pass: Command)

  /** A call, with the settings of its board at the time and the steward and
   *  orchestrator it trusts. */
  datatype Event = Event(settings: Settings, trusted: set<Pid>, actor: Actor, now: Time, call: Call)

  predicate IsWrite(c: Command) {
    c.CreateItems? || c.UpdateItems? || c.ResolveItem? || c.TouchItems? || c.RaiseOther? || c.ClearOther?
  }

  /** A placed item that came with an owner and no change of owner counts as given
   *  to that owner. */
  function PlacingChanges(tx: Tx, n: ItemNo): seq<OwnerChange>
    requires n in tx.items
  {
    tx.ownerChanges + if OwnerIn(tx.items, n).Some? && !Mentions(tx.ownerChanges, n)
                      then [OwnerChange(n, None, OwnerIn(tx.items, n))] else []
  }

  /** The board written back, and the grants moved. */
  function Settle(w: World, b: BoardId, tx: Tx, changes: seq<OwnerChange>, actor: Pid, trusted: set<Pid>): World
    requires b in w.boards
  {
    w.(boards := w.boards[b := WriteBack(w.boards[b], tx)],
       grants := MoveGrants(w.grants, tx.items, TasksOn(w, b), changes, actor, trusted))
  }

  function WithoutTask(grants: set<LaunchGrant>, t: TaskId): set<LaunchGrant> {
    set g | g in grants && g.task != t
  }

  ghost function Start(w: World, b: BoardId): Tx
    requires b in w.boards
  {
    Begun(w.boards[b].items, w.boards[b].next)
  }

  ghost function Step(w: World, e: Event): World {
    var ctx, actor, trusted := Context(e.settings, e.actor, e.now), e.actor.pid, e.trusted;
    match e.call
    case OpenBoard(b, next) => if b in w.boards then w else w.(boards := w.boards[b := Board(map[], next)])
    case Write(b, c) =>
      if b !in w.boards || !IsWrite(c) then w
      else
        var r := Transaction(ctx, Start(w, b), c);
        if r.Err? then w else Settle(w, b, r.value, r.value.ownerChanges, actor, trusted)
    case PlaceNew(b, t, holders) =>
      if b !in w.boards || TaskPlaced(w, t) then w
      else
        var n := ItemNo(w.boards[b].next);
        var r := Transaction(ctx, Start(w, b), CreateItems([Spec(NO_FIELDS, Some(holders))]));
        if r.Err? || n !in r.value.items then w
        else Settle(w.(tasks := w.tasks[Key(b, n) := t]), b, r.value, PlacingChanges(r.value, n), actor, trusted)
    case PlaceBack(k, holders) =>
      if k !in w.tasks || k.board !in w.boards || TaskPlaced(w, w.tasks[k]) then w
      else
        var r := Transaction(ctx, Start(w, k.board), PlaceAgain(k.n, holders));
        if r.Err? || k.n !in r.value.items then w
        else Settle(w, k.board, r.value, PlacingChanges(r.value, k.n), actor, trusted)
    case UnplaceTask(k) =>
      if !LiveLinked(w, k) then w
      else
        var r := Transaction(ctx, Start(w, k.board), Unplace(k.n));
        if r.Err? then w else Settle(w, k.board, r.value, [], actor, trusted).(grants := WithoutTask(w.grants, w.tasks[k]))
    case ArchiveTaskLink(k) =>
      if !LiveLinked(w, k) then w
      else
        var r := Transaction(ctx, Start(w, k.board), ArchiveLink(k.n));
        if r.Err? then w else Settle(w, k.board, r.value, [], actor, trusted).(grants := WithoutTask(w.grants, w.tasks[k]))
    case Engine(b, c) =>
      if b !in w.boards || !Direct(c) then w
      else w.(boards := w.boards[b := Next(ctx, w.boards[b], c)])
  }

  ghost function Run(w: World, events: seq<Event>): World {
    if events == [] then w else Step(Run(w, events[..|events| - 1]), events[|events| - 1])
  }

  // ---- the invariant ----

  /** The item behind a grant: open, placed for the task, owned by the grantee. */
  ghost predicate Backs(w: World, k: Key, g: LaunchGrant) {
    LiveLinked(w, k) && w.tasks[k] == g.task && IsOpen(w.boards[k.board].items, k.n)
    && OwnerIn(w.boards[k.board].items, k.n) == Some(g.pid)
  }

  ghost predicate Backed(w: World, g: LaunchGrant) {
    exists k :: Backs(w, k, g)
  }

  ghost predicate LinksUnique(w: World) {
    forall k, j :: LiveLinked(w, k) && LiveLinked(w, j) && w.tasks[k] == w.tasks[j] ==> k == j
  }

  /** What is asked of a board here does not depend on its settings. */
  const ANY_SETTINGS := Settings(false, 0)

  ghost predicate Safe(w: World) {
    && (forall b :: b in w.boards ==> SoundBoard(ANY_SETTINGS, w.boards[b]))
    && (forall k :: k in w.tasks ==> k.board in w.boards && k.n in w.boards[k.board].items)
    && LinksUnique(w)
    && (forall g :: g in w.grants ==> Backed(w, g))
  }

  // ---- moving grants ----

  ghost predicate Given(items: Items, tasks: map<ItemNo, TaskId>, changes: seq<OwnerChange>, g: LaunchGrant, c: OwnerChange) {
    c in changes && c.n in tasks && tasks[c.n] == g.task && c.to == Some(g.pid) && Launchable(items, c.n)
  }

  ghost predicate Ended(tasks: map<ItemNo, TaskId>, changes: seq<OwnerChange>, g: LaunchGrant, c: OwnerChange) {
    c in changes && c.n in tasks && tasks[c.n] == g.task && c.from == Some(g.pid)
  }

  /** A grant there is afterwards was given by some change, or was there and ended
   *  by none. */
  lemma {:induction false} MovedGrant(grants: set<LaunchGrant>, items: Items, tasks: map<ItemNo, TaskId>, changes: seq<OwnerChange>, actor: Pid,
                                      trusted: set<Pid>, g: LaunchGrant)
    requires g in MoveGrants(grants, items, tasks, changes, actor, trusted)
    ensures (exists c :: Given(items, tasks, changes, g, c)) || (g in grants && forall c :: !Ended(tasks, changes, g, c))
    decreases |changes|
  {
    hide Launchable, MayGrant;
    if changes != [] {
      var rest, last := changes[..|changes| - 1], changes[|changes| - 1];
      assert changes == rest + [last];
      if g in MoveGrants(grants, items, tasks, rest, actor, trusted) {
        MovedGrant(grants, items, tasks, rest, actor, trusted, g);
        if c :| Given(items, tasks, rest, g, c) {
          assert Given(items, tasks, changes, g, c);
        } else if Ended(tasks, changes, g, last) {
          assert Given(items, tasks, changes, g, last);
        } else {
          forall c ensures !Ended(tasks, changes, g, c) {
            assert !Ended(tasks, rest, g, c);
          }
        }
      } else {
        assert Given(items, tasks, changes, g, last);
      }
    }
  }

  lemma TasksOnBoard(w: World, b: BoardId, n: ItemNo)
    ensures n in TasksOn(w, b) <==> Key(b, n) in w.tasks
    ensures n in TasksOn(w, b) ==> TasksOn(w, b)[n] == w.tasks[Key(b, n)]
  {
    if Key(b, n) in w.tasks {
      var k := Key(b, n);
      assert k.board == b && k.n == n;
    }
  }

  // ---- writes ----

  /** The board after a recorded transaction, as far as grants look at it. */
  ghost predicate SettledAs(items: Items, tx: Tx) {
    items.Keys == tx.items.Keys && forall n :: n in tx.items ==> SameWork(tx.items, items, n)
  }

  lemma StoredWork(board: Board, tx: Tx)
    requires Recorded(board, tx)
    ensures SettledAs(WriteBack(board, tx).items, tx)
  {
    hide Recorded, StoredFlags;
    StoredShape(board, tx);
    forall n | n in tx.items ensures SameWork(tx.items, WriteBack(board, tx).items, n) {
      RowsExact(board, tx, n);
    }
  }

  /** A true record moves the grants to where the owners are. */
  lemma GrantsFollow(w: World, w': World, b: BoardId, tx: Tx, done: set<ItemNo>, actor: Pid, trusted: set<Pid>)
    requires Safe(w) && b in w.boards && OwnerLog(w.boards[b].items, tx, done)
    requires SettledAs(WriteBack(w.boards[b], tx).items, tx) && SoundBoard(ANY_SETTINGS, WriteBack(w.boards[b], tx))
    requires w' == Settle(w, b, tx, tx.ownerChanges, actor, trusted)
    ensures Safe(w')
  {
    hide SoundBoard, WriteBack, MoveGrants, TasksOn, SameWork, OwnerOf;
    LinksKept(w, w', b, tx, done);
    forall g | g in w'.grants ensures Backed(w', g) {
      MovedGrant(w.grants, tx.items, TasksOn(w, b), tx.ownerChanges, actor, trusted, g);
      if c :| Given(tx.items, TasksOn(w, b), tx.ownerChanges, g, c) {
        GivenBacked(w, w', b, tx, g, c);
      } else {
        var k :| Backs(w, k, g);
        KeptBacked(w, w', b, tx, done, g, k);
      }
    }
  }

  lemma GivenBacked(w: World, w': World, b: BoardId, tx: Tx, g: LaunchGrant, c: OwnerChange)
    requires b in w'.boards && w'.tasks == w.tasks && SettledAs(w'.boards[b].items, tx)
    requires Given(tx.items, TasksOn(w, b), tx.ownerChanges, g, c) && (c.to.None? || c.to == OwnerIn(tx.items, c.n))
    ensures Backed(w', g)
  {
    hide TasksOn;
    TasksOnBoard(w, b, c.n);
    assert SameWork(tx.items, w'.boards[b].items, c.n);
    assert Backs(w', Key(b, c.n), g);
  }

  /** Any change recorded of the backing item ends the grant. */
  lemma MentionEnds(w: World, b: BoardId, tx: Tx, done: set<ItemNo>, g: LaunchGrant, k: Key) returns (c: OwnerChange)
    requires b in w.boards && k.board == b && OwnerLog(w.boards[b].items, tx, done) && Backs(w, k, g) && Mentions(tx.ownerChanges, k.n)
    ensures Ended(TasksOn(w, b), tx.ownerChanges, g, c)
  {
    hide TasksOn, OwnerOf;
    TasksOnBoard(w, b, k.n);
    c :| c in tx.ownerChanges && c.n == k.n;
    assert k == Key(b, k.n);
    assert ChangeTrue(w.boards[b].items, tx.items, c);
  }

  lemma KeptBacked(w: World, w': World, b: BoardId, tx: Tx, done: set<ItemNo>, g: LaunchGrant, k: Key)
    requires b in w.boards && b in w'.boards && w'.boards == w.boards[b := w'.boards[b]] && w'.tasks == w.tasks
    requires b in w'.boards && SettledAs(w'.boards[b].items, tx) && OwnerLog(w.boards[b].items, tx, done)
    requires Backs(w, k, g) && forall c :: !Ended(TasksOn(w, b), tx.ownerChanges, g, c)
    ensures Backed(w', g)
  {
    hide TasksOn, OwnerOf;
    if k.board == b {
      TasksOnBoard(w, b, k.n);
      assert k == Key(b, k.n);
      if Mentions(tx.ownerChanges, k.n) {
        var c := MentionEnds(w, b, tx, done, g, k);
        assert false;
      }
      assert SameWork(tx.items, w'.boards[b].items, k.n);
    }
    assert Backs(w', k, g);
  }

  lemma LinksKept(w: World, w': World, b: BoardId, tx: Tx, done: set<ItemNo>)
    requires b in w.boards && b in w'.boards && w'.boards == w.boards[b := w'.boards[b]] && w'.tasks == w.tasks && LinksUnique(w)
    requires forall k :: k in w.tasks ==> k.board in w.boards && k.n in w.boards[k.board].items
    requires b in w'.boards && SettledAs(w'.boards[b].items, tx) && OwnerLog(w.boards[b].items, tx, done)
    ensures LinksUnique(w') && forall k :: k in w'.tasks ==> k.board in w'.boards && k.n in w'.boards[k.board].items
  {
    hide OwnerOf, Mentions, ChangeTrue;
    forall k ensures LiveLinked(w', k) <==> LiveLinked(w, k) {
      if k in w.tasks && k.board == b {
        assert SameWork(tx.items, w'.boards[b].items, k.n);
      }
    }
  }

  lemma WriteSafe(w: World, e: Event)
    requires Safe(w) && e.call.Write?
    ensures Safe(Step(w, e))
  {
    hide LinksUnique, Backed, Transaction, Settle, MoveGrants, Recorded, WriteBack, OwnerLog, SettledAs;
    if e.call.board in w.boards && IsWrite(e.call.command) {
      var b := e.call.board;
      var ctx := Context(e.settings, e.actor, e.now);
      var r := Transaction(ctx, Start(w, b), e.call.command);
      if r.Ok? {
        var done := WriteLog(ctx, w.boards[b], e.call.command);
        BoardSettles(ctx, w.boards[b], e.call.command);
        GrantsFollow(w, Step(w, e), b, r.value, done, e.actor.pid, e.trusted);
      }
    }
  }

  lemma BoardSettles(ctx: Context, board: Board, c: Command)
    requires SoundBoard(ANY_SETTINGS, board) && !Direct(c) && Transaction(ctx, Begun(board.items, board.next), c).Ok?
    ensures var tx := Transaction(ctx, Begun(board.items, board.next), c).value;
            SettledAs(WriteBack(board, tx).items, tx) && SoundBoard(ANY_SETTINGS, WriteBack(board, tx))
  {
    hide Transaction, Recorded, Sound, WriteBack;
    TransactionRecorded(board, ANY_SETTINGS, ctx, c);
    TransactionSound(ANY_SETTINGS, ctx, Begun(board.items, board.next), c);
    StoredWork(board, Transaction(ctx, Begun(board.items, board.next), c).value);
    StoredSound(ANY_SETTINGS, board, Transaction(ctx, Begun(board.items, board.next), c).value);
  }

  lemma ResolveFound(ctx: Context, tx: Tx, n: ItemNo, action: Action, kind: Option<FlagKind>)
    requires Resolve(ctx, tx, n, action, kind).Ok?
    ensures n in tx.items
  {
  }

  /** A flag is no change of owner. */
  lemma NotedOwners(before: Items, tx: Tx, n: ItemNo, kind: FlagKind, detail: Detail)
    requires OwnerLog(before, tx, {}) && n in tx.items
    ensures OwnerLog(before, RaiseFlag(tx, n, kind, detail), {}) && OwnerLog(before, ResolveFlags(tx, n, {kind}), {})
  {
    hide OwnerLog, SameWork, ResolveFlags, RaiseFlag;
    ResolveFlagsWork(tx, n, {kind});
    FlagsLogged(before, tx, ResolveFlags(tx, n, {kind}), {});
    RaiseFlagWork(tx, n, kind, detail);
    FlagsLogged(before, tx, RaiseFlag(tx, n, kind, detail), {});
  }

  lemma RaiseFlagWork(tx: Tx, n: ItemNo, kind: FlagKind, detail: Detail)
    requires n in tx.items
    ensures WorkKept(tx, RaiseFlag(tx, n, kind, detail))
  {
    hide OwnerOf;
  }

  lemma WriteLog(ctx: Context, board: Board, c: Command) returns (done: set<ItemNo>)
    requires SoundBoard(ANY_SETTINGS, board) && IsWrite(c) && Transaction(ctx, Begun(board.items, board.next), c).Ok?
    ensures OwnerLog(board.items, Transaction(ctx, Begun(board.items, board.next), c).value, done)
  {
    var tx := Begun(board.items, board.next);
    BegunLog(board.items, board.next);
    hide Sound, OwnerLog, Resolve, TouchEach;
    match c
    case CreateItems(specs) => done := CreateOwners(ANY_SETTINGS, ctx, board.items, tx, specs);
    case UpdateItems(ns, w, expected) =>
      UniqueDistinct(ns);
      UpdateOwners(ANY_SETTINGS, ctx, board.items, tx, Unique(ns), w, expected);
      done := ToSet(Unique(ns));
    case ResolveItem(n, action, kind) =>
      ResolveFound(ctx, tx, n, action, kind);
      ResolveOwners(ANY_SETTINGS, ctx, board.items, tx, n, action, kind);
      done := {n};
    case TouchItems(ns, anyItem, hint) =>
      TouchOwners(ctx, board.items, tx, Unique(ns), anyItem, hint);
      done := {};
    case RaiseOther(n, name, detail, _) =>
      NotedOwners(board.items, tx, n, OtherFlag(name), detail);
      done := {};
    case ClearOther(n, name) =>
      NotedOwners(board.items, tx, n, OtherFlag(name), NoDetail);
      done := {};
  }

  // ---- placing ----

  /** No grant is left for a task that is not placed. */
  lemma UnplacedUngranted(w: World, t: TaskId)
    requires Safe(w) && !TaskPlaced(w, t)
    ensures forall g :: g in w.grants ==> g.task != t
  {
    hide SoundBoard;
    forall g | g in w.grants ensures g.task != t {
      var k :| Backs(w, k, g);
      assert LiveLinked(w, k);
    }
  }

  /** What placing `k` leaves of the other items and of the record. */
  ghost predicate PlacedAt(w: World, k: Key, tx: Tx)
    requires k.board in w.boards
  {
    var before := w.boards[k.board].items;
    && before.Keys <= tx.items.Keys && k.n in tx.items
    && (forall n :: n in before && n != k.n ==> SameWork(before, tx.items, n))
    && (forall c :: c in tx.ownerChanges ==> c.n == k.n && (c.to.None? || c.to == OwnerIn(tx.items, k.n)))
  }

  lemma PlacedSafe(w: World, w': World, k: Key, t: TaskId, tx: Tx, actor: Pid, trusted: set<Pid>)
    requires Safe(w) && k.board in w.boards && !TaskPlaced(w, t) && PlacedAt(w, k, tx)
    requires SettledAs(WriteBack(w.boards[k.board], tx).items, tx) && SoundBoard(ANY_SETTINGS, WriteBack(w.boards[k.board], tx))
    requires k in w.tasks ==> w.tasks[k] == t
    requires w' == Settle(w.(tasks := w.tasks[k := t]), k.board, tx, PlacingChanges(tx, k.n), actor, trusted)
    ensures Safe(w')
  {
    hide SoundBoard, WriteBack, MoveGrants, TasksOn, OwnerOf, SameWork, SettledAs;
    var b := k.board;
    var mid := w.(tasks := w.tasks[k := t]);
    UnplacedUngranted(w, t);
    PlacedLinks(w, w', k, t, tx);
    forall g | g in w'.grants ensures Backed(w', g) {
      MovedGrant(w.grants, tx.items, TasksOn(mid, b), PlacingChanges(tx, k.n), actor, trusted, g);
      if c :| Given(tx.items, TasksOn(mid, b), PlacingChanges(tx, k.n), g, c) {
        PlacedGiven(w', mid, k, tx, g, c);
      } else {
        var j :| Backs(w, j, g);
        OtherBacked(w, w', k, tx, g, j);
      }
    }
  }

  lemma PlacedGiven(w': World, mid: World, k: Key, tx: Tx, g: LaunchGrant, c: OwnerChange)
    requires k.board in w'.boards && w'.tasks == mid.tasks && SettledAs(w'.boards[k.board].items, tx) && k.n in tx.items
    requires forall x :: x in tx.ownerChanges ==> x.n == k.n && (x.to.None? || x.to == OwnerIn(tx.items, k.n))
    requires Given(tx.items, TasksOn(mid, k.board), PlacingChanges(tx, k.n), g, c)
    ensures Backed(w', g)
  {
    hide TasksOn, OwnerOf;
    assert c.n == k.n && c.to == OwnerIn(tx.items, k.n);
    TasksOnBoard(mid, k.board, k.n);
    assert SameWork(tx.items, w'.boards[k.board].items, k.n);
    assert Backs(w', Key(k.board, k.n), g);
  }

  lemma OtherBacked(w: World, w': World, k: Key, tx: Tx, g: LaunchGrant, j: Key)
    requires k.board in w.boards && PlacedAt(w, k, tx) && k.board in w'.boards && w'.boards == w.boards[k.board := w'.boards[k.board]]
    requires k.board in w'.boards && SettledAs(w'.boards[k.board].items, tx) && Backs(w, j, g) && j != k
    requires forall x :: x in w.tasks && x != k ==> x in w'.tasks && w'.tasks[x] == w.tasks[x]
    ensures Backed(w', g)
  {
    hide OwnerOf;
    if j.board == k.board {
      assert j.n != k.n;
      assert SameWork(w.boards[j.board].items, tx.items, j.n);
      assert SameWork(tx.items, w'.boards[j.board].items, j.n);
    }
    assert Backs(w', j, g);
  }

  lemma PlacedLinks(w: World, w': World, k: Key, t: TaskId, tx: Tx)
    requires k.board in w.boards && PlacedAt(w, k, tx) && LinksUnique(w) && !TaskPlaced(w, t)
    requires k.board in w'.boards && w'.boards == w.boards[k.board := w'.boards[k.board]] && SettledAs(w'.boards[k.board].items, tx)
    requires w'.tasks == w.tasks[k := t] && forall x :: x in w.tasks ==> x.board in w.boards && x.n in w.boards[x.board].items
    ensures LinksUnique(w') && forall x :: x in w'.tasks ==> x.board in w'.boards && x.n in w'.boards[x.board].items
  {
    hide OwnerOf, SameWork, LinksUnique, TaskPlaced, LiveLinked;
    forall x | x in w.tasks && x != k ensures LiveLinked(w', x) <==> LiveLinked(w, x) {
      SameLink(w, w', k, tx, x);
    }
    LinksStayUnique(w, w', k, t);
  }

  /** Placing `k` leaves every other link as it was. */
  lemma SameLink(w: World, w': World, k: Key, tx: Tx, x: Key)
    requires k.board in w.boards && PlacedAt(w, k, tx) && x in w.tasks && x != k && x in w'.tasks
    requires k.board in w'.boards && w'.boards == w.boards[k.board := w'.boards[k.board]] && SettledAs(w'.boards[k.board].items, tx)
    requires x.board in w.boards && x.n in w.boards[x.board].items
    ensures LiveLinked(w', x) <==> LiveLinked(w, x)
  {
    hide OwnerOf;
    if x.board == k.board {
      assert x.n != k.n;
      assert SameWork(w.boards[x.board].items, tx.items, x.n);
      assert SameWork(tx.items, w'.boards[x.board].items, x.n);
    }
  }

  lemma LinksStayUnique(w: World, w': World, k: Key, t: TaskId)
    requires LinksUnique(w) && !TaskPlaced(w, t) && w'.tasks == w.tasks[k := t]
    requires forall x :: x in w.tasks && x != k ==> (LiveLinked(w', x) <==> LiveLinked(w, x))
    ensures LinksUnique(w')
  {
    assert forall x :: LiveLinked(w', x) ==> x in w'.tasks;
    assert forall x :: LiveLinked(w, x) ==> x in w.tasks;
    hide LiveLinked;
  }

  lemma NewItemPlaced(ctx: Context, w: World, b: BoardId, spec: Spec)
    requires b in w.boards && SoundBoard(ANY_SETTINGS, w.boards[b]) && CreateEach(ctx, Start(w, b), [spec]).Ok?
    ensures PlacedAt(w, Key(b, ItemNo(w.boards[b].next)), CreateEach(ctx, Start(w, b), [spec]).value)
    ensures ItemNo(w.boards[b].next) !in w.boards[b].items
  {
    hide FieldRules, CloseRule, Acyclic, Apply, StrictWork, BlockerRule, OwnerOf;
    var tx := Start(w, b);
    var n := ItemNo(tx.next);
    assert n !in tx.items;
    AddedSound(ANY_SETTINGS, ctx, tx);
    assert CoreBut(Added(ctx, tx).items, Some(n)) && Added(ctx, tx).items[n] == NewItem(ctx.now);
    NewItemRules(ctx.now);
    OneCreated(ctx, tx, spec);
    hide CoreBut, WroteOwner, CreateEach, PlacedAt;
    ApplyOwners(ctx, Added(ctx, tx), n, SpecWrite(ctx, spec), Creating);
    WroteNew(ctx, w, b, CreateEach(ctx, tx, [spec]).value);
  }

  lemma OneCreated(ctx: Context, tx: Tx, spec: Spec)
    ensures CreateEach(ctx, tx, [spec]) == Apply(ctx, Added(ctx, tx), ItemNo(tx.next), SpecWrite(ctx, spec), Creating)
  {
    hide Apply;
    assert [spec][..0] == [];
    assert CreateEach(ctx, tx, []) == Ok(tx);
  }

  lemma WroteNew(ctx: Context, w: World, b: BoardId, after: Tx)
    requires b in w.boards && ItemNo(w.boards[b].next) !in w.boards[b].items
    requires WroteOwner(Added(ctx, Start(w, b)), after, ItemNo(w.boards[b].next), None)
    ensures PlacedAt(w, Key(b, ItemNo(w.boards[b].next)), after)
  {
    hide OwnerOf;
    var added, n := Added(ctx, Start(w, b)), ItemNo(w.boards[b].next);
    forall m | m in w.boards[b].items ensures SameWork(w.boards[b].items, after.items, m) {
      assert SameWork(added.items, after.items, m);
    }
  }

  lemma PlaceNewSafe(w: World, e: Event)
    requires Safe(w) && e.call.PlaceNew?
    ensures Safe(Step(w, e))
  {
    hide LinksUnique, Backed, Settle, MoveGrants, Recorded, WriteBack, SettledAs, PlacedAt, PlacingChanges, TaskPlaced, CreateEach, SoundBoard;
    var b := e.call.onto;
    if b in w.boards && !TaskPlaced(w, e.call.task) {
      var n := ItemNo(w.boards[b].next);
      var ctx := Context(e.settings, e.actor, e.now);
      var spec := Spec(NO_FIELDS, Some(e.call.holders));
      var r := Transaction(ctx, Start(w, b), CreateItems([spec]));
      if r.Ok? && n in r.value.items {
        NewItemPlaced(ctx, w, b, spec);
        BoardSettles(ctx, w.boards[b], CreateItems([spec]));
        PlacedSafe(w, Step(w, e), Key(b, n), e.call.task, r.value, e.actor.pid, e.trusted);
      }
    }
  }

  lemma BackItemPlaced(ctx: Context, w: World, k: Key, holders: seq<Holder>)
    requires k.board in w.boards && SoundBoard(ANY_SETTINGS, w.boards[k.board]) && Place(ctx, Start(w, k.board), k.n, holders).Ok?
    ensures PlacedAt(w, k, Place(ctx, Start(w, k.board), k.n, holders).value)
  {
    hide FieldRules, CloseRule, Acyclic, Apply, Conforms, BlockerRule, OwnerOf, Drafted;
    var tx := Start(w, k.board);
    ReturnedCore(tx, k.n);
    var tx1 := Returned(tx, k.n);
    var write := ReturnWrite(ctx.settings, holders);
    assert Drafted(ctx, tx1.items, k.n, write, Editing).Ok? by {
      var d, t1, t2 := ApplySteps(ctx, tx1, k.n, write, Editing);
    }
    ReturnStatus(ctx, tx1, k.n, holders);
    hide CoreBut;
    ApplyOwners(ctx, tx1, k.n, write, Editing);
  }

  lemma PlaceBackSafe(w: World, e: Event)
    requires Safe(w) && e.call.PlaceBack?
    ensures Safe(Step(w, e))
  {
    hide LinksUnique, Backed, Settle, MoveGrants, Recorded, WriteBack, SettledAs, PlacedAt, PlacingChanges, TaskPlaced, Place, SoundBoard;
    var k := e.call.key;
    if k in w.tasks && k.board in w.boards && !TaskPlaced(w, w.tasks[k]) {
      var ctx := Context(e.settings, e.actor, e.now);
      var r := Transaction(ctx, Start(w, k.board), PlaceAgain(k.n, e.call.heldBy));
      if r.Ok? && k.n in r.value.items {
        BackItemPlaced(ctx, w, k, e.call.heldBy);
        BoardSettles(ctx, w.boards[k.board], PlaceAgain(k.n, e.call.heldBy));
        assert w.(tasks := w.tasks[k := w.tasks[k]]) == w;
        PlacedSafe(w, Step(w, e), k, w.tasks[k], r.value, e.actor.pid, e.trusted);
      }
    }
  }

  // ---- unplacing ----

  /** Taking one item off a board, with every grant of its task. */
  lemma RemovedSafe(w: World, w': World, k: Key, tx: Tx)
    requires Safe(w) && LiveLinked(w, k) && k.n in tx.items && tx.items.Keys == w.boards[k.board].items.Keys
    requires forall n :: n in tx.items && n != k.n ==> SameWork(w.boards[k.board].items, tx.items, n)
    requires tx.items[k.n].linkArchivedAt.Some?
    requires SettledAs(WriteBack(w.boards[k.board], tx).items, tx) && SoundBoard(ANY_SETTINGS, WriteBack(w.boards[k.board], tx))
    requires w' == w.(boards := w.boards[k.board := WriteBack(w.boards[k.board], tx)], grants := WithoutTask(w.grants, w.tasks[k]))
    ensures Safe(w')
  {
    hide SoundBoard, WriteBack, OwnerOf, SameWork;
    forall n | n in tx.items ensures n != k.n ==> SameWork(w.boards[k.board].items, w'.boards[k.board].items, n) {
      if n != k.n {
        WorkThrough(w.boards[k.board].items, tx.items, w'.boards[k.board].items, n);
      }
    }
    assert SameWork(tx.items, w'.boards[k.board].items, k.n);
    RemovedLinks(w, w', k, tx);
    hide LiveLinked;
    forall g | g in w'.grants ensures Backed(w', g) {
      var j :| Backs(w, j, g);
      RemovedBacks(w, w', k, j, g);
    }
  }

  lemma WorkThrough(a: Items, b: Items, c: Items, n: ItemNo)
    requires n in a && n in b && n in c && SameWork(a, b, n) && SameWork(b, c, n)
    ensures SameWork(a, c, n)
  {
  }

  lemma RemovedLinks(w: World, w': World, k: Key, tx: Tx)
    requires LiveLinked(w, k) && k.board in w'.boards && w'.boards == w.boards[k.board := w'.boards[k.board]] && w'.tasks == w.tasks
    requires k.n in tx.items && tx.items[k.n].linkArchivedAt.Some?
    requires w'.boards[k.board].items.Keys == w.boards[k.board].items.Keys == tx.items.Keys
    requires SameWork(tx.items, w'.boards[k.board].items, k.n)
    requires forall n :: n in tx.items && n != k.n ==> SameWork(w.boards[k.board].items, w'.boards[k.board].items, n)
    ensures forall x :: LiveLinked(w', x) <==> LiveLinked(w, x) && x != k
  {
    hide OwnerOf;
  }

  lemma RemovedBacks(w: World, w': World, k: Key, j: Key, g: LaunchGrant)
    requires k.board in w.boards && k.board in w'.boards && w'.boards == w.boards[k.board := w'.boards[k.board]] && w'.tasks == w.tasks
    requires w'.boards[k.board].items.Keys == w.boards[k.board].items.Keys
    requires forall n :: n in w.boards[k.board].items && n != k.n ==> SameWork(w.boards[k.board].items, w'.boards[k.board].items, n)
    requires Backs(w, j, g) && k in w.tasks && g.task != w.tasks[k]
    ensures Backed(w', g)
  {
    hide OwnerOf;
    assert j != k;
    assert j.board == k.board ==> j.n != k.n;
    assert Backs(w', j, g);
  }

  lemma UnplaceSafe(w: World, e: Event)
    requires Safe(w) && e.call.UnplaceTask?
    ensures Safe(Step(w, e))
  {
    hide LinksUnique, Backed, Recorded, WriteBack, SettledAs, SoundBoard, OwnerOf;
    var k := e.call.placed;
    if LiveLinked(w, k) {
      var ctx := Context(e.settings, e.actor, e.now);
      var r := Transaction(ctx, Start(w, k.board), Unplace(k.n));
      if r.Ok? {
        BoardSettles(ctx, w.boards[k.board], Unplace(k.n));
        RemovedSafe(w, Step(w, e), k, r.value);
      }
    }
  }

  lemma ArchiveSafe(w: World, e: Event)
    requires Safe(w) && e.call.ArchiveTaskLink?
    ensures Safe(Step(w, e))
  {
    hide LinksUnique, Backed, Recorded, WriteBack, SettledAs, SoundBoard, OwnerOf;
    var k := e.call.closed;
    if LiveLinked(w, k) {
      var ctx := Context(e.settings, e.actor, e.now);
      var r := Transaction(ctx, Start(w, k.board), ArchiveLink(k.n));
      if r.Ok? {
        BoardSettles(ctx, w.boards[k.board], ArchiveLink(k.n));
        RemovedSafe(w, Step(w, e), k, r.value);
      }
    }
  }

  // ---- the engine ----

  lemma PassWork(items: Items, it: Item, others: map<FlagKind, Detail>, snoozed: bool, now: Time)
    ensures var p, q := Passed(items, it, others, snoozed), Archived(it, now);
            && p.holders == it.holders && p.status == it.status && p.linkArchivedAt == it.linkArchivedAt
            && q.holders == it.holders && q.status == it.status && q.linkArchivedAt == it.linkArchivedAt
  {
    hide HasDroppedBlocker, DroppedDetail;
  }

  lemma EngineWork(ctx: Context, board: Board, c: Command)
    requires Direct(c)
    ensures var after := Next(ctx, board, c).items;
            after.Keys == board.items.Keys && forall n :: n in after ==> SameWork(board.items, after, n)
  {
    hide Passed, Archived;
    match c
    case EnginePass(others, snoozed) =>
      forall n | n in board.items
        ensures var p := Passed(board.items, board.items[n], if n in others then others[n] else map[], n in snoozed);
                p.holders == board.items[n].holders && p.status == board.items[n].status && p.linkArchivedAt == board.items[n].linkArchivedAt
      {
        PassWork(board.items, board.items[n], if n in others then others[n] else map[], n in snoozed, ctx.now);
      }
    case CloseOut =>
      forall n | n in board.items
        ensures var q := Archived(board.items[n], ctx.now);
                q.holders == board.items[n].holders && q.status == board.items[n].status && q.linkArchivedAt == board.items[n].linkArchivedAt
      {
        PassWork(board.items, board.items[n], map[], false, ctx.now);
      }
    case BindHead(_, _) =>
  }

  /** A board whose work is as it was backs the same grants. */
  lemma SameWorkSafe(w: World, w': World, b: BoardId)
    requires Safe(w) && b in w.boards && b in w'.boards && w' == w.(boards := w.boards[b := w'.boards[b]])
    requires SoundBoard(ANY_SETTINGS, w'.boards[b]) && w'.boards[b].items.Keys == w.boards[b].items.Keys
    requires forall n :: n in w.boards[b].items ==> SameWork(w.boards[b].items, w'.boards[b].items, n)
    ensures Safe(w')
  {
    hide SoundBoard, OwnerOf;
    forall x ensures LiveLinked(w', x) <==> LiveLinked(w, x) {
      assert x.board == b && x.n in w.boards[b].items ==> SameWork(w.boards[b].items, w'.boards[b].items, x.n);
    }
    forall g | g in w'.grants ensures Backed(w', g) {
      var j :| Backs(w, j, g);
      assert j.board == b ==> SameWork(w.boards[b].items, w'.boards[b].items, j.n);
      assert Backs(w', j, g);
    }
  }

  lemma EngineSafe(w: World, e: Event)
    requires Safe(w) && e.call.Engine?
    ensures Safe(Step(w, e))
  {
    hide SoundBoard, OwnerOf, Next, SameWork, LinksUnique, Backed;
    if e.call.swept in w.boards && Direct(e.call.pass) {
      var b := e.call.swept;
      var ctx := Context(e.settings, e.actor, e.now);
      EngineWork(ctx, w.boards[b], e.call.pass);
      NextSound(ANY_SETTINGS, ctx, w.boards[b], e.call.pass);
      SameWorkSafe(w, Step(w, e), b);
    }
  }

  // ---- runs ----

  lemma OpenSafe(w: World, e: Event)
    requires Safe(w) && e.call.OpenBoard?
    ensures Safe(Step(w, e))
  {
    hide SoundBoard, OwnerOf, Transaction, Settle, TaskPlaced;
    EmptyBoardSound(e.call.next);
    var w' := Step(w, e);
    assert forall b :: b in w.boards ==> b in w'.boards && w'.boards[b] == w.boards[b];
    assert forall k :: LiveLinked(w', k) <==> LiveLinked(w, k);
    forall g | g in w'.grants ensures Backed(w', g) {
      var k :| Backs(w, k, g);
      assert Backs(w', k, g);
    }
  }

  lemma EmptyBoardSound(next: nat)
    ensures SoundBoard(ANY_SETTINGS, Board(map[], next))
  {
    hide Good, Sound;
    EmptyBoardGood(false, ANY_SETTINGS, next);
    GoodIsSound(false, ANY_SETTINGS, Begun(map[], next));
  }

  lemma StepSafe(w: World, e: Event)
    requires Safe(w)
    ensures Safe(Step(w, e))
  {
    hide Safe, Step;
    match e.call
    case OpenBoard(_, _) => OpenSafe(w, e);
    case Write(_, _) => WriteSafe(w, e);
    case PlaceNew(_, _, _) => PlaceNewSafe(w, e);
    case PlaceBack(_, _) => PlaceBackSafe(w, e);
    case UnplaceTask(_) => UnplaceSafe(w, e);
    case ArchiveTaskLink(_) => ArchiveSafe(w, e);
    case Engine(_, _) => EngineSafe(w, e);
  }

  /** Over every run of item writes, placings, unplacings, link archivings and engine
   *  passes, whoever is steward or orchestrator meanwhile, each live grant belongs
   *  to the owner of an open item placed for its task, and a task has at most one
   *  live link. */
  lemma {:induction false} RunSafe(w: World, events: seq<Event>)
    requires Safe(w)
    ensures Safe(Run(w, events))
    decreases |events|
  {
    hide Step, Safe;
    if events != [] {
      RunSafe(w, events[..|events| - 1]);
      StepSafe(Run(w, events[..|events| - 1]), events[|events| - 1]);
    }
  }

  /** A server without boards is such a start. */
  lemma NoBoardsSafe()
    ensures Safe(World(map[], map[], {}))
  {
  }

  /** Hence nobody holds a grant for a task that is closed, handed back or not
   *  placed. */
  lemma NoStrayGrant(w: World, k: Key, g: LaunchGrant)
    requires Safe(w) && k in w.tasks && g.task == w.tasks[k] && g in w.grants && LiveLinked(w, k)
    ensures IsOpen(w.boards[k.board].items, k.n) && OwnerIn(w.boards[k.board].items, k.n) == Some(g.pid)
  {
    hide SoundBoard;
    var j :| Backs(w, j, g);
    assert j == k;
  }
}
