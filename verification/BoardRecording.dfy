/** Every operation records what it changes, so the write-back loses no row; and
 * which calls leave a stored flag behind.
 */
module BoardRecording {
  import opened Prelude
  import opened Graphs
  import opened BoardRules
  import opened BoardSpec
  import opened BoardInvariants
  import opened BoardOperations
  import opened BoardWriteBack

  lemma BegunRecorded(board: Board)
    ensures Recorded(board, Begun(board.items, board.next))
  {
  }

  /** What may happen to one flag, with its log entry. */
  ghost predicate KeyStep(a: Tx, b: Tx, key: FlagKey)
    requires key.n in a.items && key.n in b.items
  {
    var before, after := Lookup(a.items[key.n].flags, key.kind), Lookup(b.items[key.n].flags, key.kind);
    && (key in a.raised ==> key in b.raised) && (key in a.resolved ==> key in b.resolved)
    && (|| (after == before && (key in b.raised <==> key in a.raised) && (key in b.resolved <==> key in a.resolved)
            && LogEntry(b.details, key) == LogEntry(a.details, key))
        || (after.None? && key in b.resolved && (key in b.raised <==> key in a.raised))
        || (before.Some? && after.Some? && LogEntry(b.details, key) == after
            && (key in b.raised <==> key in a.raised) && (key in b.resolved <==> key in a.resolved))
        || (before.None? && after.Some? && key in b.raised && (key in b.resolved <==> key in a.resolved)))
  }

  function LogEntry(log: map<FlagKey, Detail>, key: FlagKey): Option<Detail> {
    if key in log then Some(log[key]) else None
  }

  lemma KeyStepRecorded(rows: Items, a: Tx, b: Tx, key: FlagKey)
    requires key.n in a.items && key.n in b.items && KeyRecorded(rows, a, key) && KeyStep(a, b, key)
    ensures KeyRecorded(rows, b, key)
  {
  }

  /** What may happen to one item, with the record of it. */
  ghost predicate ItemStep(a: Tx, b: Tx, m: ItemNo)
    requires m in a.items && m in b.items
  {
    var before, after := a.items[m], b.items[m];
    && (m in a.holdersChanged ==> m in b.holdersChanged) && (m in a.depsChanged ==> m in b.depsChanged)
    && (m in a.dirty ==> m in b.dirty) && (m in b.created <==> m in a.created)
    && after.gateHead == before.gateHead && before.dismissed.Keys <= after.dismissed.Keys
    && (m in b.holdersChanged || after.holders == before.holders)
    && (m in b.depsChanged || after.blockedBy == before.blockedBy)
    && (m in b.dirty || after == before.(holders := after.holders, blockedBy := after.blockedBy, flags := after.flags))
  }

  lemma ItemStepRecorded(rows: Items, a: Tx, b: Tx, m: ItemNo)
    requires m in a.items && m in b.items && (m in rows || m in a.created)
    requires ItemRecorded(rows, a, m) && ItemStep(a, b, m)
    ensures ItemRecorded(rows, b, m)
  {
  }

  /** A step that logs every change keeps the record complete. */
  ghost predicate Logged(a: Tx, b: Tx) {
    && b.items.Keys == a.items.Keys && b.created == a.created && b.next == a.next
    && (forall m :: m in a.items ==> ItemStep(a, b, m))
    && (forall key: FlagKey :: key.n in a.items ==> KeyStep(a, b, key))
    && (forall key :: key in b.raised ==> key in a.raised || key.n in a.items)
  }

  lemma LoggedRecorded(board: Board, a: Tx, b: Tx)
    requires Recorded(board, a) && Logged(a, b)
    ensures Recorded(board, b)
  {
    hide KeyRecorded, KeyStep, ItemRecorded, ItemStep;
    forall key: FlagKey | key.n in b.items ensures KeyRecorded(board.items, b, key) {
      KeyStepRecorded(board.items, a, b, key);
    }
    forall m | m in b.items ensures ItemRecorded(board.items, b, m) {
      ItemStepRecorded(board.items, a, b, m);
    }
  }

  lemma ResolveFlagsLogged(tx: Tx, n: ItemNo, kinds: set<FlagKind>)
    requires n in tx.items
    ensures Logged(tx, ResolveFlags(tx, n, kinds))
  {
    var after := ResolveFlags(tx, n, kinds);
    forall key: FlagKey | key.n in tx.items ensures KeyStep(tx, after, key) {
      assert key == FlagKey(key.n, key.kind);
    }
  }

  lemma CascadeLogged(strict: bool, now: Time, tx: Tx, n: ItemNo, deps: set<ItemNo>)
    requires deps <= tx.items.Keys
    ensures Logged(tx, CascadeDone(strict, now, tx, n, deps))
  {
    hide Unhooked, LosesFlag, Unblocks, KeyStep, ItemStep;
    var after := CascadeDone(strict, now, tx, n, deps);
    forall key: FlagKey | key.n in tx.items ensures KeyStep(tx, after, key) {
      CascadeKey(strict, now, tx, n, deps, key);
    }
    forall m | m in tx.items ensures ItemStep(tx, after, m) {
      CascadeItem(strict, now, tx, n, deps, m);
    }
  }

  lemma CascadeKey(strict: bool, now: Time, tx: Tx, n: ItemNo, deps: set<ItemNo>, key: FlagKey)
    requires deps <= tx.items.Keys && key.n in tx.items
    ensures KeyStep(tx, CascadeDone(strict, now, tx, n, deps), key)
  {
    hide HasDroppedBlocker, Unblocks;
    assert key == FlagKey(key.n, key.kind);
  }

  lemma CascadeItem(strict: bool, now: Time, tx: Tx, n: ItemNo, deps: set<ItemNo>, m: ItemNo)
    requires deps <= tx.items.Keys && m in tx.items
    ensures ItemStep(tx, CascadeDone(strict, now, tx, n, deps), m)
  {
    hide HasDroppedBlocker, Unblocks, LosesFlag;
  }

  lemma FlagDroppedLogged(tx: Tx, deps: set<ItemNo>)
    requires deps <= tx.items.Keys
    ensures Logged(tx, FlagDropped(tx, deps))
  {
    hide DroppedDetail, KeyStep, ItemStep;
    var after := FlagDropped(tx, deps);
    forall key: FlagKey | key.n in tx.items ensures KeyStep(tx, after, key) {
      FlagDroppedKey(tx, deps, key);
    }
    forall m | m in tx.items ensures ItemStep(tx, after, m) {
      FlagDroppedItem(tx, deps, m);
    }
  }

  lemma FlagDroppedItem(tx: Tx, deps: set<ItemNo>, m: ItemNo)
    requires deps <= tx.items.Keys && m in tx.items
    ensures ItemStep(tx, FlagDropped(tx, deps), m)
  {
    hide DroppedDetail, DroppedFlags, Refreshed, Alerted;
  }

  lemma FlagDroppedKey(tx: Tx, deps: set<ItemNo>, key: FlagKey)
    requires deps <= tx.items.Keys && key.n in tx.items
    ensures KeyStep(tx, FlagDropped(tx, deps), key)
  {
    hide DroppedDetail;
    assert key == FlagKey(key.n, key.kind);
  }

  lemma ClearDependentsLogged(tx: Tx, deps: set<ItemNo>)
    requires deps <= tx.items.Keys
    ensures Logged(tx, ClearDependents(tx, deps))
  {
    hide HasDroppedBlocker;
    var after := ClearDependents(tx, deps);
    forall key: FlagKey | key.n in tx.items ensures KeyStep(tx, after, key) {
      assert key == FlagKey(key.n, key.kind);
    }
  }

  lemma RaiseFlagLogged(tx: Tx, n: ItemNo, kind: FlagKind, detail: Detail)
    requires n in tx.items
    ensures Logged(tx, RaiseFlag(tx, n, kind, detail))
  {
    var after := RaiseFlag(tx, n, kind, detail);
    hide KeyStep, ItemStep;
    forall key: FlagKey | key.n in tx.items ensures KeyStep(tx, after, key) {
      RaiseFlagKey(tx, n, kind, detail, key);
    }
    forall m | m in tx.items ensures ItemStep(tx, after, m) {
      RaiseFlagItem(tx, n, kind, detail, m);
    }
  }

  lemma RaiseFlagKey(tx: Tx, n: ItemNo, kind: FlagKind, detail: Detail, key: FlagKey)
    requires n in tx.items && key.n in tx.items
    ensures KeyStep(tx, RaiseFlag(tx, n, kind, detail), key)
  {
    assert key == FlagKey(key.n, key.kind);
  }

  lemma RaiseFlagItem(tx: Tx, n: ItemNo, kind: FlagKind, detail: Detail, m: ItemNo)
    requires n in tx.items && m in tx.items
    ensures ItemStep(tx, RaiseFlag(tx, n, kind, detail), m)
  {
  }

  lemma TouchedLogged(tx: Tx, n: ItemNo, it: Item)
    requires n in tx.items && SameButClocks(tx.items[n], it) && it.flags == tx.items[n].flags
    requires tx.items[n].dismissed.Keys <= it.dismissed.Keys
    ensures Logged(tx, Touched(tx, n, it))
  {
  }

  /** A draft forgets nothing a write-back would have to restore. */
  lemma DraftMemory(ctx: Context, items: Items, n: ItemNo, w: Write, mode: Mode)
    requires n in items && FieldRules(items[n]) && Drafted(ctx, items, n, w, mode).Ok?
    ensures var d := Drafted(ctx, items, n, w, mode).value;
            d.it.gateHead == items[n].gateHead && d.it.dismissed == items[n].dismissed
  {
    hide NextHolders, BlockerError, NextStatus, Refusal, OwnerError, Settled, FieldRules;
    var prev := if mode.Creating? then None else Some(items[n].status);
    var it := Proposed(ctx, items, n, w, mode.Creating?).value;
    var status := NextStatus(ctx, it, w.fields, mode.Creating?, mode.Creating? || it.holders != items[n].holders, it.holders != []);
    EtaTogether(items[n]);
    SettledRules(ctx.settings.strict, it, w.fields, status, prev);
  }

  lemma PlacedLogged(ctx: Context, tx: Tx, n: ItemNo, w: Write, mode: Mode, d: Draft, changes: seq<OwnerChange>)
    requires n in tx.items && FieldRules(tx.items[n]) && Drafted(ctx, tx.items, n, w, mode) == Ok(d)
    requires mode.Creating? ==> tx.items[n] == NewItem(ctx.now)
    ensures var tx0 := Placed(tx, n, d);
            Logged(tx, tx0.(ownerChanges := tx0.ownerChanges + changes, dirty := tx0.dirty + {n}))
  {
    hide FieldRules, CloseRule, Logged, Drafted;
    DraftFrame(ctx, tx.items, n, w, mode);
    DraftMemory(ctx, tx.items, n, w, mode);
    PlacingLogged(tx, n, d, changes);
  }

  lemma PlacingLogged(tx: Tx, n: ItemNo, d: Draft, changes: seq<OwnerChange>)
    requires n in tx.items && d.it.flags == tx.items[n].flags
    requires d.it.gateHead == tx.items[n].gateHead && d.it.dismissed == tx.items[n].dismissed
    requires d.depsChanged || d.it.blockedBy == tx.items[n].blockedBy
    requires d.holdersChanged || d.it.holders == tx.items[n].holders
    ensures var tx0 := Placed(tx, n, d);
            Logged(tx, tx0.(ownerChanges := tx0.ownerChanges + changes, dirty := tx0.dirty + {n}))
  {
    hide ItemStep, KeyStep;
    var tx0 := Placed(tx, n, d);
    var after := tx0.(ownerChanges := tx0.ownerChanges + changes, dirty := tx0.dirty + {n});
    forall key: FlagKey | key.n in tx.items ensures KeyStep(tx, after, key) {
      UntouchedKey(tx, after, key);
    }
    forall m | m in tx.items ensures ItemStep(tx, after, m) {
      PlacedItem(tx, n, d, changes, m);
    }
  }

  lemma UntouchedKey(a: Tx, b: Tx, key: FlagKey)
    requires key.n in a.items && key.n in b.items && b.items[key.n].flags == a.items[key.n].flags
    requires b.raised == a.raised && b.resolved == a.resolved && b.details == a.details
    ensures KeyStep(a, b, key)
  {
  }

  lemma PlacedItem(tx: Tx, n: ItemNo, d: Draft, changes: seq<OwnerChange>, m: ItemNo)
    requires n in tx.items && d.it.gateHead == tx.items[n].gateHead && d.it.dismissed == tx.items[n].dismissed
    requires d.depsChanged || d.it.blockedBy == tx.items[n].blockedBy
    requires d.holdersChanged || d.it.holders == tx.items[n].holders
    requires m in tx.items
    ensures var tx0 := Placed(tx, n, d);
            ItemStep(tx, tx0.(ownerChanges := tx0.ownerChanges + changes, dirty := tx0.dirty + {n}), m)
  {
  }

  lemma NeighboursLogged(ctx: Context, tx: Tx, n: ItemNo, status: Status, prev: Option<Status>)
    ensures Logged(tx, Neighbours(ctx, tx, n, status, prev))
  {
    hide Logged, CascadeDone, FlagDropped, ClearDependents;
    var deps := Dependents(tx.items, n);
    CascadeLogged(ctx.settings.strict, ctx.now, tx, n, deps);
    FlagDroppedLogged(tx, deps);
    ClearDependentsLogged(tx, deps);
    NothingLogged(tx);
  }

  lemma NothingLogged(tx: Tx)
    ensures Logged(tx, tx)
  {
  }

  lemma DirtyFirst(ctx: Context, tx: Tx, n: ItemNo, status: Status, prev: Option<Status>)
    requires n in tx.items
    ensures var tx2 := Neighbours(ctx, OwnFlags(tx, n, status, prev), n, status, prev);
            Neighbours(ctx, OwnFlags(tx.(dirty := tx.dirty + {n}), n, status, prev), n, status, prev)
            == tx2.(dirty := tx2.dirty + {n})
  {
    hide SettledFlags, Neighbours;
    var a := OwnFlags(tx, n, status, prev);
    assert OwnFlags(tx.(dirty := tx.dirty + {n}), n, status, prev) == a.(dirty := a.dirty + {n});
    hide OwnFlags;
    DirtyNeighbours(ctx, a, n, status, prev);
  }

  lemma DirtyNeighbours(ctx: Context, tx: Tx, n: ItemNo, status: Status, prev: Option<Status>)
    ensures var after := Neighbours(ctx, tx, n, status, prev);
            Neighbours(ctx, tx.(dirty := tx.dirty + {n}), n, status, prev) == after.(dirty := after.dirty + {n})
  {
    hide UnhookedItems, LosesFlag, Unblocks, HasDroppedBlocker, FlaggedItems, Hearing, DroppedFlags, Refreshed, Alerted;
    var deps := Dependents(tx.items, n);
    assert tx.dirty + {n} + deps == tx.dirty + deps + {n};
    assert tx.dirty + {n} + Hearing(tx.items, deps) == tx.dirty + Hearing(tx.items, deps) + {n};
  }

  /** Every write records all it changes. */
  lemma ApplyRecorded(board: Board, ctx: Context, tx: Tx, n: ItemNo, w: Write, mode: Mode)
    requires Recorded(board, tx) && n in tx.items && FieldRules(tx.items[n]) && Apply(ctx, tx, n, w, mode).Ok?
    requires mode.Creating? ==> tx.items[n] == NewItem(ctx.now)
    ensures Recorded(board, Apply(ctx, tx, n, w, mode).value)
  {
    hide Drafted, OwnFlags, Neighbours, FieldRules, Apply, ClosesCycle, Recorded, Logged;
    var d, tx1, tx2 := ApplySteps(ctx, tx, n, w, mode);
    var prev := if mode.Creating? then None else Some(tx.items[n].status);
    var changes := OwnerChanges(n, OwnerOf(tx.items[n].holders), OwnerOf(d.it.holders), d.it.status, prev);
    var tx0 := Placed(tx, n, d);
    var tx0' := tx0.(ownerChanges := tx0.ownerChanges + changes, dirty := tx0.dirty + {n});
    PlacedLogged(ctx, tx, n, w, mode, d, changes);
    LoggedRecorded(board, tx, tx0');
    DirtyFirst(ctx, tx0.(ownerChanges := tx0.ownerChanges + changes), n, d.it.status, prev);
    OwnFlagsRecorded(board, tx0', n, d.it.status, prev);
    NeighboursRecorded(board, ctx, OwnFlags(tx0', n, d.it.status, prev), n, d.it.status, prev);
  }

  lemma OwnFlagsRecorded(board: Board, tx: Tx, n: ItemNo, status: Status, prev: Option<Status>)
    requires Recorded(board, tx) && n in tx.items
    ensures Recorded(board, OwnFlags(tx, n, status, prev))
  {
    hide Recorded, Logged;
    ResolveFlagsLogged(tx, n, SettledFlags(tx.items, tx.items[n], n in tx.depsChanged, status, prev));
    LoggedRecorded(board, tx, OwnFlags(tx, n, status, prev));
  }

  lemma NeighboursRecorded(board: Board, ctx: Context, tx: Tx, n: ItemNo, status: Status, prev: Option<Status>)
    requires Recorded(board, tx)
    ensures Recorded(board, Neighbours(ctx, tx, n, status, prev))
  {
    hide Recorded, Logged, Neighbours;
    NeighboursLogged(ctx, tx, n, status, prev);
    LoggedRecorded(board, tx, Neighbours(ctx, tx, n, status, prev));
  }

  lemma ResolveFlagsRecorded(board: Board, tx: Tx, n: ItemNo, kinds: set<FlagKind>)
    requires Recorded(board, tx) && n in tx.items
    ensures Recorded(board, ResolveFlags(tx, n, kinds))
  {
    hide Recorded, Logged;
    ResolveFlagsLogged(tx, n, kinds);
    LoggedRecorded(board, tx, ResolveFlags(tx, n, kinds));
  }

  lemma TouchedRecorded(board: Board, tx: Tx, n: ItemNo, it: Item)
    requires Recorded(board, tx) && n in tx.items && SameButClocks(tx.items[n], it) && it.flags == tx.items[n].flags
    requires tx.items[n].dismissed.Keys <= it.dismissed.Keys
    ensures Recorded(board, Touched(tx, n, it))
  {
    hide Recorded, Logged;
    TouchedLogged(tx, n, it);
    LoggedRecorded(board, tx, Touched(tx, n, it));
  }

  lemma RaiseFlagRecorded(board: Board, tx: Tx, n: ItemNo, kind: FlagKind, detail: Detail)
    requires Recorded(board, tx) && n in tx.items
    ensures Recorded(board, RaiseFlag(tx, n, kind, detail))
  {
    hide Recorded, Logged;
    RaiseFlagLogged(tx, n, kind, detail);
    LoggedRecorded(board, tx, RaiseFlag(tx, n, kind, detail));
  }

  lemma AddedRecorded(board: Board, ctx: Context, tx: Tx)
    requires Recorded(board, tx) && Numbered(tx)
    ensures Recorded(board, Added(ctx, tx))
  {
    var n, after := ItemNo(tx.next), Added(ctx, tx);
    assert n !in tx.items;
    hide KeyRecorded, ItemRecorded;
    forall key: FlagKey | key.n in after.items ensures KeyRecorded(board.items, after, key) {
      if key.n == n {
        NewKey(board, ctx, tx, key.kind);
      } else {
        assert KeyRecorded(board.items, tx, key);
        OldKey(board.items, ctx, tx, key);
      }
    }
    forall m | m in after.items ensures ItemRecorded(board.items, after, m) {
      if m == n {
        NewRow(board, ctx, tx);
      } else {
        assert ItemRecorded(board.items, tx, m);
        OldRow(board.items, ctx, tx, m);
      }
    }
  }

  lemma NewKey(board: Board, ctx: Context, tx: Tx, kind: FlagKind)
    requires ItemNo(tx.next) !in board.items && forall key :: key in tx.raised ==> key.n != ItemNo(tx.next)
    ensures KeyRecorded(board.items, Added(ctx, tx), FlagKey(ItemNo(tx.next), kind))
  {
  }

  lemma OldKey(rows: Items, ctx: Context, tx: Tx, key: FlagKey)
    requires key.n in tx.items && key.n != ItemNo(tx.next) && KeyRecorded(rows, tx, key)
    ensures KeyRecorded(rows, Added(ctx, tx), key)
  {
  }

  lemma NewRow(board: Board, ctx: Context, tx: Tx)
    requires ItemNo(tx.next) !in board.items
    ensures ItemRecorded(board.items, Added(ctx, tx), ItemNo(tx.next))
  {
  }

  lemma OldRow(rows: Items, ctx: Context, tx: Tx, m: ItemNo)
    requires m in tx.items && m != ItemNo(tx.next) && (m in rows || m in tx.created) && ItemRecorded(rows, tx, m)
    ensures ItemRecorded(rows, Added(ctx, tx), m)
  {
  }
}
