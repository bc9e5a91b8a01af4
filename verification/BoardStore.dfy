/** A stored board and its locked write (`_write` in dispatch/items_db.py): load,
 * run one call on a transaction, write back what it recorded, or keep the board
 * when the call is refused.
 */
module BoardStore {
  import opened Prelude
  import opened Graphs
  import opened BoardRules
  import opened BoardSpec
  import opened BoardInvariants
  import opened BoardOperations
  import opened BoardSoundness
  import opened BoardWriteBack
  import opened BoardBulkDrop
  import opened BoardRuns
  import opened BoardTransaction

  class Store {
    const settings: Settings
    var board: Board

    constructor (settings: Settings, next: nat)
      ensures this.settings == settings && GoodBoard(false, settings, board)
    {
      this.settings, board := settings, Board(map[], next);
      new;
      EmptyBoardGood(false, settings, next);
    }

    /** One call of the board interface, or a flag from elsewhere. A refusal changes
     *  nothing; a success leaves a sound board sound, and one in order in order
     *  exactly when it is not one of the calls that `Leaves` describes. */
    method Write(actor: Actor, now: Time, c: Command) returns (error: Option<Error>)
      requires c.CreateItems? || c.UpdateItems? || c.ResolveItem? || c.TouchItems? || c.RaiseOther? || c.ClearOther?
      modifies this
      ensures board == Next(Context(settings, actor, now), old(board), c)
      ensures error.Some? ==> board == old(board)
      ensures SoundBoard(settings, old(board)) ==> SoundBoard(settings, board)
      ensures forall stray :: GoodBoard(stray, settings, old(board)) && error.None?
                ==> (GoodBoard(stray, settings, board) <==> !Leaves(stray, old(board), c))
    {
      hide BoardSpec.Create, BoardSpec.Update, BoardSpec.Resolve, TouchEach, GoodBoard, SoundBoard, Leaves, WriteBack,
        BoardSpec.RaiseFlag, ResolveFlags;
      var ctx := Context(settings, actor, now);
      var tx := new BoardTx(board.items, board.next, ctx);
      match c {
        case CreateItems(specs) => error := tx.Create(specs);
        case UpdateItems(ns, w, expected) => error := tx.Update(ns, w, expected);
        case ResolveItem(n, action, kind) => error := tx.Resolve(n, action, kind);
        case TouchItems(ns, anyItem, hint) =>
          tx.Touch(ns, anyItem, hint);
          error := None;
        case RaiseOther(n, name, detail, openOnly) =>
          error := if n in tx.items then None else Some(NotFound);
          if error.None? && !(openOnly && Closed(tx.items[n].status)) {
            tx.RaiseFlag(n, OtherFlag(name), detail);
          }
        case ClearOther(n, name) =>
          error := if n in tx.items then None else Some(NotFound);
          if error.None? {
            var _ := tx.ResolveFlag(n, OtherFlag(name));
          }
      }
      if SoundBoard(settings, board) {
        NextSound(settings, ctx, board, c);
      }
      forall stray | GoodBoard(stray, settings, board) && error.None?
        ensures GoodBoard(stray, settings, Next(ctx, board, c)) <==> !Leaves(stray, board, c)
      {
        CallExact(stray, settings, ctx, board, c);
      }
      if error.None? {
        board := WriteBack(board, tx.View());
      }
    }
  }

  // ---- the bulk drop, on two items ----

  const DROP: Write := FieldWrite(StatusFields(Some(Dropped)))

  /** The board's Owner may drop any item whose link is live. */
  lemma OwnerDrops(ctx: Context, tx: Tx, n: ItemNo)
    requires n in tx.items && tx.items[n].linkArchivedAt.None? && ctx.actor.pid == Owner
    ensures Apply(ctx, tx, n, DROP, Editing).Ok?
  {
    hide Drafted, OwnFlags, Neighbours;
    OwnerDrafts(ctx, tx.items, n);
  }

  lemma OwnerDrafts(ctx: Context, items: Items, n: ItemNo)
    requires n in items && items[n].linkArchivedAt.None? && ctx.actor.pid == Owner
    ensures Drafted(ctx, items, n, DROP, Editing).Ok? && Drafted(ctx, items, n, DROP, Editing).value.it.blockedBy == {}
  {
    hide NextHolders, Holds, OwnerOf, Legacy, Owners;
  }

  function TwoItems(): Items {
    map[ItemNo(1) := NewItem(0).(status := Active),
        ItemNo(2) := NewItem(0).(status := Blocked, blockedBy := {ItemNo(1)})]
  }

  lemma TwoItemsAcyclic()
    ensures Acyclic(Deps(TwoItems()))
  {
    var g := Deps(TwoItems());
    assert Succ(g, ItemNo(1)) == {} && Succ(g, ItemNo(2)) == {ItemNo(1)};
    RankedAcyclic(g, map[ItemNo(1) := 1, ItemNo(2) := 0]);
  }

  lemma TwoItemsGood(stray: bool, s: Settings)
    ensures GoodBoard(stray, s, Board(TwoItems(), 3))
  {
    TwoItemsAcyclic();
    hide Acyclic, FieldRules, CloseRule, ClosedFlagRule, BlockerRule, DroppedFlagRule, Conforms, Deps;
    var items := TwoItems();
    forall n | n in items
      ensures FieldRules(items[n]) && CloseRule(items[n]) && ClosedFlagRule(stray, items[n])
      ensures BlockerRule(items, n) && DroppedFlagRule(items, items[n]) && Conforms(items[n]) && n.n < 3
    {
      TwoItemsRules(stray, n);
    }
  }

  lemma TwoItemsRules(stray: bool, n: ItemNo)
    requires n in TwoItems()
    ensures var items := TwoItems();
            && FieldRules(items[n]) && CloseRule(items[n]) && ClosedFlagRule(stray, items[n])
            && BlockerRule(items, n) && DroppedFlagRule(items, items[n]) && Conforms(items[n]) && n.n < 3
  {
  }

  lemma TwoNumbers()
    ensures Unique([ItemNo(1), ItemNo(2)]) == [ItemNo(1), ItemNo(2)]
  {
    var ns := [ItemNo(1), ItemNo(2)];
    assert ns[..1] == [ItemNo(1)] && ns[..1][..0] == [];
    assert Unique([ItemNo(1)]) == [ItemNo(1)];
  }

  lemma BothDropped(ctx: Context)
    requires ctx.actor.pid == Owner
    ensures Update(ctx, Begun(TwoItems(), 3), [ItemNo(1), ItemNo(2)], DROP, None).Ok?
  {
    var start, ns := Begun(TwoItems(), 3), [ItemNo(1), ItemNo(2)];
    TwoNumbers();
    TwoItemsGood(false, ctx.settings);
    GoodIsSound(false, ctx.settings, start);
    OwnerDrops(ctx, start, ItemNo(1));
    ApplyDrop(ctx, start, ItemNo(1), DROP);
    assert ns[..1] == [ItemNo(1)] && ns[..1][..0] == [];
    hide Apply;
    var once := Apply(ctx, start, ItemNo(1), DROP, Editing).value;
    assert UpdateEach(ctx, start, [], DROP, None) == Ok(start);
    assert UpdateEach(ctx, start, ns[..1], DROP, None) == Ok(once);
    OwnerDrops(ctx, once, ItemNo(2));
  }

  /** Item 2 waits on item 1, and Owner drops both in one call: item 2's row keeps
   *  `blocker_dropped` open although it is closed. */
  lemma BulkDropExample(s: Settings)
    ensures var board, c := Board(TwoItems(), 3), UpdateItems([ItemNo(1), ItemNo(2)], DROP, None);
            var after := Next(Context(s, Actor(Owner, false), 1), board, c);
            && GoodBoard(false, s, board) && Leaves(true, board, c)
            && ItemNo(2) in after.items && after.items[ItemNo(2)].status == Dropped
            && BlockerDropped in after.items[ItemNo(2)].flags
  {
    hide GoodBoard, SoundBoard, Update, Next, DropsWaiting, HitBy, TwoItems;
    var board, ns := Board(TwoItems(), 3), [ItemNo(1), ItemNo(2)];
    var c := UpdateItems(ns, DROP, None);
    var ctx := Context(s, Actor(Owner, false), 1);
    TwoItemsGood(false, s);
    BoardIsSound(false, s, board);
    TwoNumbers();
    BothDropped(ctx);
    SecondWaits(board, c);
    var m := BulkDropLeavesFlag(s, ctx, board, c);
    OnlySecondHit(m);
  }

  lemma SecondWaits(board: Board, c: Command)
    requires board == Board(TwoItems(), 3) && c == UpdateItems([ItemNo(1), ItemNo(2)], DROP, None)
    ensures DropsWaiting(board, c)
  {
    TwoNumbers();
    hide Unique;
    var ns := Unique(c.ns);
    assert Hits(board.items, ns[0], ns[1]);
  }

  lemma OnlySecondHit(m: ItemNo)
    requires HitBy(TwoItems(), [ItemNo(1), ItemNo(2)], m)
    ensures m == ItemNo(2)
  {
  }
}
