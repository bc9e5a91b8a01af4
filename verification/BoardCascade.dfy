/** What an item that becomes done does to the items that wait on it, whatever flags
 * the board's rows carry.
 */
module BoardCascade {
  import opened Prelude
  import opened Graphs
  import opened BoardRules
  import opened BoardSpec
  import opened BoardInvariants
  import opened BoardSoundness

  /** Exactly the blocked dependents left with nothing to wait on. */
  ghost predicate FreedBy(items: Items, m: ItemNo, n: ItemNo) {
    m in items && items[m].status == Blocked && items[m].blockedBy == {n} && items[m].blockedOn.None?
  }

  /** Item `m` after `n` is done. The edge to `n` is gone; if `n` was all it waited
   *  on it leaves blocked and its clocks start over; and if it did wait on `n`, it is
   *  flagged for a dropped blocker only if one is left. */
  ghost predicate AfterDone(strict: bool, now: Time, items: Items, after: Item, m: ItemNo, n: ItemNo)
    requires m in items
  {
    var it, freed := items[m], FreedBy(items, m, n);
    var active := it.holders != [] || strict;
    && after == it.(blockedBy := it.blockedBy - {n},
                    status := if !freed then it.status else if active then Active else Open,
                    clockResetAt := if freed then Some(now) else it.clockResetAt,
                    actionableAt := if freed && active then Some(now) else it.actionableAt,
                    flags := after.flags)
    && after.flags == (if n in it.blockedBy && !HasDroppedBlocker(items, it.blockedBy - {n}) then it.flags - {BlockerDropped}
                       else it.flags)
  }

  /** After a write makes `n` done no item lists it; exactly the dependents left
   *  without a blocker and without a text leave blocked, for active (or open, when
   *  nobody holds them and the board keeps a backlog), and they are the ones
   *  reported unblocked. Nothing else of any other item changes, but for a flag
   *  that has lost its reason. */
  lemma DoneCascade(ctx: Context, tx: Tx, n: ItemNo, w: Write, mode: Mode, after: Tx)
    requires CoreBut(tx.items, None) && !mode.Creating? && Apply(ctx, tx, n, w, mode) == Ok(after)
    requires n in tx.items && tx.items[n].status != Done
    requires n in after.items && after.items[n].status == Done
    ensures after.items.Keys == tx.items.Keys && n !in after.items[n].blockedBy
    ensures after.unblocked == tx.unblocked + (set m | m in tx.items && m != n && FreedBy(tx.items, m, n))
    ensures forall m :: m in tx.items && m != n ==> AfterDone(ctx.settings.strict, ctx.now, tx.items, after.items[m], m, n)
  {
    hide Drafted, OwnFlags, Neighbours, FieldRules, CloseRule, Acyclic, Apply, ClosesCycle, BlockerRule, CascadeDone, AfterDone, MidCore;
    var d, tx1, tx2 := ApplySteps(ctx, tx, n, w, mode);
    var tx0 := Placed(tx, n, d);
    var changes := OwnerChanges(n, OwnerOf(tx.items[n].holders), OwnerOf(d.it.holders), d.it.status, Some(tx.items[n].status));
    var tx0' := tx0.(ownerChanges := tx0.ownerChanges + changes);
    PlacedMidCore(ctx, tx, n, w, mode, d);
    OwnFlagsFrame(tx0', n, d.it.status, Some(tx.items[n].status));
    FlagsKeepMidCore(tx0'.items, tx1.items, n);
    NotSelfBlocked(tx1.items, n);
    hide CoreBut;
    NeighboursSpareSelf(ctx, tx1, n, d.it.status, Some(tx.items[n].status));
    OthersKept(tx, n, d, tx1);
    CascadeEffect(ctx.settings.strict, ctx.now, tx1, n);
    assert tx2 == CascadeDone(ctx.settings.strict, ctx.now, tx1, n, Dependents(tx1.items, n)) by {
      BecomesDone(ctx, tx1, n, tx.items[n].status);
    }
    SameFreed(ctx.settings.strict, ctx.now, tx.items, tx1.items, n);
  }

  lemma OthersKept(tx: Tx, n: ItemNo, d: Draft, tx1: Tx)
    requires n in tx.items && tx1.items.Keys == Placed(tx, n, d).items.Keys && tx1.unblocked == tx.unblocked
    requires forall m :: m in Placed(tx, n, d).items && m != n ==> tx1.items[m] == Placed(tx, n, d).items[m]
    ensures tx1.items.Keys == tx.items.Keys && forall m :: m in tx.items && m != n ==> tx1.items[m] == tx.items[m]
  {
  }

  lemma BecomesDone(ctx: Context, tx: Tx, n: ItemNo, prev: Status)
    requires prev != Done
    ensures Neighbours(ctx, tx, n, Done, Some(prev)) == CascadeDone(ctx.settings.strict, ctx.now, tx, n, Dependents(tx.items, n))
  {
  }

  /** None of this looks at `n` itself. */
  lemma SameFreed(strict: bool, now: Time, a: Items, b: Items, n: ItemNo)
    requires a.Keys == b.Keys && forall m :: m in a && m != n ==> b[m] == a[m]
    ensures (set m | m in a && m != n && FreedBy(a, m, n)) == (set m | m in b && m != n && FreedBy(b, m, n))
    ensures forall m, it: Item :: m in a && m != n ==> (AfterDone(strict, now, a, it, m, n) <==> AfterDone(strict, now, b, it, m, n))
  {
    forall s: set<ItemNo> ensures HasDroppedBlocker(a, s - {n}) <==> HasDroppedBlocker(b, s - {n}) {
    }
    hide HasDroppedBlocker;
  }

  lemma NeighboursSpareSelf(ctx: Context, tx: Tx, n: ItemNo, status: Status, prev: Option<Status>)
    requires n in tx.items && n !in Dependents(tx.items, n)
    ensures Neighbours(ctx, tx, n, status, prev).items.Keys == tx.items.Keys
    ensures Neighbours(ctx, tx, n, status, prev).items[n] == tx.items[n]
  {
    hide Unhooked, HasDroppedBlocker;
  }

  lemma FreedIs(items: Items, m: ItemNo, n: ItemNo)
    requires m in items
    ensures FreedBy(items, m, n) <==> Unblocks(items[m], n)
    ensures n in items[m].blockedBy || items[m].blockedBy - {n} == items[m].blockedBy
  {
    if Unblocks(items[m], n) {
      assert items[m].blockedBy == items[m].blockedBy - {n} + {n};
    }
  }

  /** One item of the cascade, by what the item was. */
  lemma CascadeEffect(strict: bool, now: Time, tx: Tx, n: ItemNo)
    requires n in tx.items && n !in Dependents(tx.items, n)
    ensures var after := CascadeDone(strict, now, tx, n, Dependents(tx.items, n));
            && after.items.Keys == tx.items.Keys
            && after.unblocked == tx.unblocked + (set m | m in tx.items && m != n && FreedBy(tx.items, m, n))
            && n !in after.items[n].blockedBy
            && forall m :: m in tx.items && m != n ==> AfterDone(strict, now, tx.items, after.items[m], m, n)
  {
    hide HasDroppedBlocker, FreedBy;
    forall m | m in tx.items
      ensures FreedBy(tx.items, m, n) <==> Unblocks(tx.items[m], n)
      ensures n in tx.items[m].blockedBy || tx.items[m].blockedBy - {n} == tx.items[m].blockedBy
    {
      FreedIs(tx.items, m, n);
    }
    hide Unblocks;
    var after := CascadeDone(strict, now, tx, n, Dependents(tx.items, n));
    forall m | m in tx.items && m != n ensures AfterDone(strict, now, tx.items, after.items[m], m, n) {
      UnhookedEffect(strict, now, tx.items, m, n);
    }
  }

  lemma UnhookedEffect(strict: bool, now: Time, items: Items, m: ItemNo, n: ItemNo)
    requires m in items
    ensures AfterDone(strict, now, items, if n in items[m].blockedBy then Unhooked(strict, now, items, items[m], n) else items[m], m, n)
  {
    hide HasDroppedBlocker;
    FreedIs(items, m, n);
  }
}
