/** Which calls leave a stored flag behind: a bulk drop that takes an item and,
 * later in the same call, one that waits on it.
 *
 * The first drop raises `blocker_dropped` on the second item, whose own drop then
 * resolves it; the write-back resolves first and inserts after, so the row of the
 * closed item keeps the flag open. Every other call stores the flags the
 * transaction ended with.
 */
module BoardBulkDrop {
  import opened Prelude
  import opened Graphs
  import opened BoardRules
  import opened BoardSpec
  import opened BoardInvariants
  import opened BoardOperations
  import opened BoardSoundness
  import opened BoardWriteBack
  import opened BoardRecording

  predicate Drops(w: Write) {
    Explicit(w.fields) == Some(Dropped)
  }

  /** Dropping `n` is news to the open item `m`. */
  predicate Hits(items: Items, n: ItemNo, m: ItemNo) {
    n in items && m in items && m != n && !Closed(items[n].status) && n in items[m].blockedBy
  }

  /** What a caller can check before the call. */
  predicate DropsOwnDependent(items: Items, ns: seq<ItemNo>, w: Write) {
    Drops(w) && exists i, j :: 0 <= i < j < |ns| && Hits(items, ns[i], ns[j]) && BlockerDropped !in items[ns[j]].flags
  }

  /** A write ends with the status it names. */
  lemma DraftStatus(ctx: Context, items: Items, n: ItemNo, w: Write, mode: Mode)
    requires n in items && Drafted(ctx, items, n, w, mode).Ok?
    ensures var s := Drafted(ctx, items, n, w, mode).value.it.status;
            && (Drops(w) ==> s == Dropped)
            && (!Drops(w) && s == Dropped ==> !mode.Creating? && items[n].status == Dropped)
  {
    hide NextHolders, BlockerError, Refusal, OwnerError, Settled;
  }

  lemma NeighboursRaise(ctx: Context, tx: Tx, n: ItemNo, status: Status, prev: Option<Status>)
    requires status != Dropped || (prev.Some? && Closed(prev.value))
    ensures Neighbours(ctx, tx, n, status, prev).raised == tx.raised
  {
    hide Unhooked, HasDroppedBlocker;
  }

  /** Only a drop raises flags. */
  lemma OnlyDropsRaise(ctx: Context, tx: Tx, n: ItemNo, w: Write, mode: Mode)
    requires n in tx.items && Apply(ctx, tx, n, w, mode).Ok? && !Drops(w)
    ensures Apply(ctx, tx, n, w, mode).value.raised == tx.raised
  {
    hide Drafted, OwnFlags, Neighbours, Apply, ClosesCycle;
    var d, tx1, tx2 := ApplySteps(ctx, tx, n, w, mode);
    var prev := if mode.Creating? then None else Some(tx.items[n].status);
    var tx0 := Placed(tx, n, d);
    var changes := OwnerChanges(n, OwnerOf(tx.items[n].holders), OwnerOf(d.it.holders), d.it.status, prev);
    DraftStatus(ctx, tx.items, n, w, mode);
    OwnFlagsFrame(tx0.(ownerChanges := tx0.ownerChanges + changes), n, d.it.status, prev);
    NeighboursRaise(ctx, tx1, n, d.it.status, prev);
  }

  /** What dropping `n` leaves of the other items and of the raise log. An item that
   *  was closed already may keep flags. */
  ghost predicate DropOutcome(tx: Tx, after: Tx, n: ItemNo) {
    && n in tx.items && after.items.Keys == tx.items.Keys
    && after.items[n].status == Dropped && (Closed(tx.items[n].status) || after.items[n].flags == map[])
    && (forall m :: m in tx.items && m != n ==>
          && after.items[m] == tx.items[m].(flags := after.items[m].flags)
          && after.items[m].flags.Keys == tx.items[m].flags.Keys + (if Hits(tx.items, n, m) then {BlockerDropped} else {}))
    && (forall key :: key in after.raised <==>
          || key in tx.raised
          || (key.kind == BlockerDropped && Hits(tx.items, n, key.n) && BlockerDropped !in tx.items[key.n].flags))
  }

  lemma DropNeighbours(ctx: Context, tx: Tx, n: ItemNo, prev: Status)
    requires n in tx.items && n !in tx.items[n].blockedBy
    requires forall m :: m in tx.items && n in tx.items[m].blockedBy ==> !Closed(tx.items[m].status)
    ensures var after := Neighbours(ctx, tx, n, Dropped, Some(prev));
            && after.items.Keys == tx.items.Keys && after.items[n] == tx.items[n]
            && (forall m :: m in tx.items && m != n ==>
                  && after.items[m] == tx.items[m].(flags := after.items[m].flags)
                  && after.items[m].flags.Keys == tx.items[m].flags.Keys
                       + (if !Closed(prev) && n in tx.items[m].blockedBy then {BlockerDropped} else {}))
            && (forall key :: key in after.raised <==>
                  || key in tx.raised
                  || (key.kind == BlockerDropped && !Closed(prev) && key.n in tx.items && n in tx.items[key.n].blockedBy
                      && BlockerDropped !in tx.items[key.n].flags))
  {
    hide HasDroppedBlocker, DroppedDetail;
    var after := Neighbours(ctx, tx, n, Dropped, Some(prev));
    if !Closed(prev) {
      forall key ensures key in after.raised <==>
          || key in tx.raised
          || (key.kind == BlockerDropped && key.n in tx.items && n in tx.items[key.n].blockedBy
              && BlockerDropped !in tx.items[key.n].flags) {
        assert key == FlagKey(key.n, key.kind);
      }
    }
  }

  /** A drop up to its effect on the others. */
  lemma DropOwnPart(ctx: Context, tx: Tx, n: ItemNo, w: Write) returns (tx1: Tx)
    requires CoreBut(tx.items, None) && Drops(w) && Apply(ctx, tx, n, w, Editing).Ok?
    ensures n in tx.items && OwnPartDropped(tx, n, tx1)
    ensures var tx2 := Neighbours(ctx, tx1, n, Dropped, Some(tx.items[n].status));
            Apply(ctx, tx, n, w, Editing) == Ok(tx2.(dirty := tx2.dirty + {n}))
  {
    Found(ctx, tx, n, w, Editing);
    hide Drafted, OwnFlags, Neighbours, FieldRules, CloseRule, Acyclic, Apply, ClosesCycle, OwnPartDropped, CoreBut;
    var d, t1, tx2 := ApplySteps(ctx, tx, n, w, Editing);
    tx1 := t1;
    var tx0 := Placed(tx, n, d);
    var changes := OwnerChanges(n, OwnerOf(tx.items[n].holders), OwnerOf(d.it.holders), d.it.status, Some(tx.items[n].status));
    DraftStatus(ctx, tx.items, n, w, Editing);
    DropOwnFlags(ctx, tx, n, w, d, tx0.(ownerChanges := tx0.ownerChanges + changes), tx1);
  }

  lemma DropOwnFlags(ctx: Context, tx: Tx, n: ItemNo, w: Write, d: Draft, tx0: Tx, tx1: Tx)
    requires CoreBut(tx.items, None) && n in tx.items && Drafted(ctx, tx.items, n, w, Editing) == Ok(d) && d.it.status == Dropped
    requires tx0 == Placed(tx, n, d).(ownerChanges := tx0.ownerChanges) && (n in tx0.depsChanged ==> !ClosesCycle(tx0.items, n))
    requires tx1 == OwnFlags(tx0, n, Dropped, Some(tx.items[n].status))
    ensures OwnPartDropped(tx, n, tx1)
  {
    hide Drafted, OwnFlags, FieldRules, CloseRule, Acyclic, ClosesCycle, BlockerRule, MidCore;
    PlacedMidCore(ctx, tx, n, w, Editing, d);
    hide CoreBut;
    OwnFlagsFrame(tx0, n, Dropped, Some(tx.items[n].status));
    FlagsKeepMidCore(tx0.items, tx1.items, n);
    OthersSame(tx, n, d, tx1);
    WaitingIsOpen(tx1.items, n);
  }

  ghost predicate OwnPartDropped(tx: Tx, n: ItemNo, tx1: Tx) {
    && tx1.items.Keys == tx.items.Keys && n in tx1.items && tx1.raised == tx.raised
    && (forall m :: m in tx.items && m != n ==> tx1.items[m] == tx.items[m])
    && tx1.items[n].status == Dropped && (Closed(tx.items[n].status) || tx1.items[n].flags == map[])
    && n !in tx1.items[n].blockedBy
    && (forall m :: m in tx1.items && n in tx1.items[m].blockedBy ==> !Closed(tx1.items[m].status))
  }

  lemma ApplyDrop(ctx: Context, tx: Tx, n: ItemNo, w: Write)
    requires CoreBut(tx.items, None) && Drops(w) && Apply(ctx, tx, n, w, Editing).Ok?
    ensures DropOutcome(tx, Apply(ctx, tx, n, w, Editing).value, n)
  {
    hide CoreBut, Apply, Neighbours, OwnPartDropped, DropOutcome;
    var tx1 := DropOwnPart(ctx, tx, n, w);
    DropFollows(ctx, tx, n, tx1);
  }

  lemma DropFollows(ctx: Context, tx: Tx, n: ItemNo, tx1: Tx)
    requires n in tx.items && OwnPartDropped(tx, n, tx1)
    ensures var tx2 := Neighbours(ctx, tx1, n, Dropped, Some(tx.items[n].status));
            DropOutcome(tx, tx2.(dirty := tx2.dirty + {n}), n)
  {
    hide Neighbours;
    var tx2 := Neighbours(ctx, tx1, n, Dropped, Some(tx.items[n].status));
    DropNeighbours(ctx, tx1, n, tx.items[n].status);
    forall m | m in tx.items && m != n ensures Hits(tx.items, n, m) <==> !Closed(tx.items[n].status) && n in tx1.items[m].blockedBy {
    }
    forall key ensures key in tx2.raised <==>
        || key in tx.raised
        || (key.kind == BlockerDropped && Hits(tx.items, n, key.n) && BlockerDropped !in tx.items[key.n].flags) {
      assert Hits(tx.items, n, key.n) ==> key.n in tx.items && key.n != n;
    }
    hide Hits;
  }

  lemma OthersSame(tx: Tx, n: ItemNo, d: Draft, tx1: Tx)
    requires n in tx.items && SameButFlags(Placed(tx, n, d).items, tx1.items)
    requires forall m :: m in Placed(tx, n, d).items && m != n ==> tx1.items[m] == Placed(tx, n, d).items[m]
    ensures tx1.items.Keys == tx.items.Keys && forall m :: m in tx.items && m != n ==> tx1.items[m] == tx.items[m]
  {
  }

  lemma WaitingIsOpen(items: Items, n: ItemNo)
    requires n in items && MidCore(items, n)
    ensures n !in items[n].blockedBy
    ensures forall m :: m in items && n in items[m].blockedBy ==> !Closed(items[m].status)
  {
    hide Acyclic, CloseRule, DistinctPids, Legacy, Owners;
  }

  /** After the first drops of a bulk drop: `before` are the items of the call's
   *  start. Those that were open carry no flag now; the others are as they were, but
   *  for the flag of those hit. */
  ghost predicate DroppedSoFar(before: Items, tx: Tx, ns: seq<ItemNo>) {
    && tx.items.Keys == before.Keys
    && (forall m :: m in ns ==> m in before && tx.items[m].status == Dropped && (Closed(before[m].status) || tx.items[m].flags == map[]))
    && (forall m :: m in before && m !in ns ==> SameButHit(before, tx.items[m], ns, m))
    && (forall key :: key in tx.raised <==> key.kind == BlockerDropped && FirstHit(before, ns, key.n))
  }

  ghost predicate HitBy(before: Items, ns: seq<ItemNo>, m: ItemNo) {
    exists i :: 0 <= i < |ns| && Hits(before, ns[i], m)
  }

  ghost predicate SameButHit(before: Items, it: Item, ns: seq<ItemNo>, m: ItemNo)
    requires m in before
  {
    && it == before[m].(flags := it.flags)
    && it.flags.Keys == before[m].flags.Keys + (if HitBy(before, ns, m) then {BlockerDropped} else {})
  }

  /** `m` was hit before it was dropped itself, and had no such flag. */
  ghost predicate FirstHit(before: Items, ns: seq<ItemNo>, m: ItemNo) {
    m in before && BlockerDropped !in before[m].flags
    && exists i :: 0 <= i < |ns| && Hits(before, ns[i], m) && m !in ns[..i]
  }

  lemma HitsGrow(before: Items, ns: seq<ItemNo>, n: ItemNo, m: ItemNo)
    ensures HitBy(before, ns + [n], m) <==> HitBy(before, ns, m) || Hits(before, n, m)
    ensures FirstHit(before, ns + [n], m) <==>
              FirstHit(before, ns, m) || (m in before && BlockerDropped !in before[m].flags && Hits(before, n, m) && m !in ns)
  {
    var longer := ns + [n];
    assert longer[|ns|] == n && longer[..|ns|] == ns;
    assert forall i :: 0 <= i < |ns| ==> longer[i] == ns[i] && longer[..i] == ns[..i];
  }

  /** One more drop hits those it would have hit at the start, but for the dropped. */
  lemma SameHits(before: Items, tx: Tx, ns: seq<ItemNo>, n: ItemNo, m: ItemNo)
    requires DroppedSoFar(before, tx, ns) && n !in ns && n in before && OnlyOpenWait(tx.items)
    ensures Hits(tx.items, n, m) <==> Hits(before, n, m) && m !in ns
  {
    hide HitBy, FirstHit;
    assert SameButHit(before, tx.items[n], ns, n);
    if m in before && m !in ns {
      assert SameButHit(before, tx.items[m], ns, m);
    }
  }

  lemma DropStep(before: Items, tx: Tx, ns: seq<ItemNo>, n: ItemNo, after: Tx)
    requires DroppedSoFar(before, tx, ns) && n !in ns && DropOutcome(tx, after, n) && OnlyOpenWait(tx.items)
    ensures DroppedSoFar(before, after, ns + [n])
  {
    hide Hits, HitBy, FirstHit, SameButHit, DropOutcome, DroppedSoFar, OnlyOpenWait;
    assert tx.items.Keys == before.Keys && after.items.Keys == before.Keys && n in before by {
      SameKeys(before, tx, ns, n, after);
    }
    forall m | m in ns + [n]
      ensures m in before && after.items[m].status == Dropped && (Closed(before[m].status) || after.items[m].flags == map[])
    {
      DropStepGone(before, tx, ns, n, after, m);
    }
    forall m | m in before && m !in ns + [n] ensures SameButHit(before, after.items[m], ns + [n], m) {
      DropStepItem(before, tx, ns, n, after, m);
    }
    forall key ensures key in after.raised <==> key.kind == BlockerDropped && FirstHit(before, ns + [n], key.n) {
      DropStepKey(before, tx, ns, n, after, key);
    }
    assert DroppedSoFar(before, after, ns + [n]) by {
      ShownDropped(before, after, ns + [n]);
    }
  }

  lemma SameKeys(before: Items, tx: Tx, ns: seq<ItemNo>, n: ItemNo, after: Tx)
    requires DroppedSoFar(before, tx, ns) && DropOutcome(tx, after, n)
    ensures tx.items.Keys == before.Keys && after.items.Keys == before.Keys && n in before
  {
    hide Hits, HitBy, FirstHit, SameButHit;
  }

  lemma ShownDropped(before: Items, tx: Tx, ns: seq<ItemNo>)
    requires tx.items.Keys == before.Keys
    requires forall m :: m in ns ==> m in before && tx.items[m].status == Dropped && (Closed(before[m].status) || tx.items[m].flags == map[])
    requires forall m :: m in before && m !in ns ==> SameButHit(before, tx.items[m], ns, m)
    requires forall key :: key in tx.raised <==> key.kind == BlockerDropped && FirstHit(before, ns, key.n)
    ensures DroppedSoFar(before, tx, ns)
  {
    hide FirstHit, SameButHit;
  }

  lemma DropStepGone(before: Items, tx: Tx, ns: seq<ItemNo>, n: ItemNo, after: Tx, m: ItemNo)
    requires DroppedSoFar(before, tx, ns) && n !in ns && DropOutcome(tx, after, n) && OnlyOpenWait(tx.items) && m in ns + [n]
    ensures m in before && m in after.items && after.items[m].status == Dropped
    ensures Closed(before[m].status) || after.items[m].flags == map[]
  {
    hide HitBy, FirstHit;
    if m == n {
      assert SameButHit(before, tx.items[n], ns, n);
    } else {
      SameHits(before, tx, ns, n, m);
      hide Hits;
    }
  }

  lemma DropStepItem(before: Items, tx: Tx, ns: seq<ItemNo>, n: ItemNo, after: Tx, m: ItemNo)
    requires DroppedSoFar(before, tx, ns) && n !in ns && DropOutcome(tx, after, n) && OnlyOpenWait(tx.items)
    requires m in before && m !in ns + [n]
    ensures m in after.items && SameButHit(before, after.items[m], ns + [n], m)
  {
    assert tx.items.Keys == before.Keys;
    HitsGrow(before, ns, n, m);
    SameHits(before, tx, ns, n, m);
    assert SameButHit(before, tx.items[m], ns, m);
    hide Hits, HitBy, FirstHit, DroppedSoFar;
  }

  lemma DropStepKey(before: Items, tx: Tx, ns: seq<ItemNo>, n: ItemNo, after: Tx, key: FlagKey)
    requires DroppedSoFar(before, tx, ns) && n !in ns && DropOutcome(tx, after, n) && OnlyOpenWait(tx.items)
    ensures key in after.raised <==> key.kind == BlockerDropped && FirstHit(before, ns + [n], key.n)
  {
    assert tx.items.Keys == before.Keys;
    HitsGrow(before, ns, n, key.n);
    SameHits(before, tx, ns, n, key.n);
    HitIsKnown(before, n, key.n);
    if key.n in before && key.n !in ns {
      NotYetFlagged(before, tx, ns, key.n);
    }
    hide FirstHit, HitBy, SameButHit, Hits;
  }

  lemma HitIsKnown(before: Items, n: ItemNo, m: ItemNo)
    ensures Hits(before, n, m) ==> m in before
  {
  }

  /** A raise is on record for whoever has the flag now and had it not. */
  lemma NotYetFlagged(before: Items, tx: Tx, ns: seq<ItemNo>, m: ItemNo)
    requires DroppedSoFar(before, tx, ns) && m in before && m !in ns
    ensures m in tx.items
    ensures BlockerDropped in tx.items[m].flags <==> BlockerDropped in before[m].flags || FirstHit(before, ns, m)
  {
    assert SameButHit(before, tx.items[m], ns, m);
    hide Hits;
    if HitBy(before, ns, m) {
      var i :| 0 <= i < |ns| && Hits(before, ns[i], m);
      assert m !in ns[..i];
    }
  }

  lemma NothingDropped(tx: Tx)
    requires tx.raised == map[]
    ensures DroppedSoFar(tx.items, tx, [])
  {
    hide Hits;
  }

  lemma {:induction false} BulkDropped(s: Settings, ctx: Context, tx: Tx, ns: seq<ItemNo>, w: Write, expected: Option<Status>)
    requires Within(s, ctx)
    requires Sound(s, tx) && tx.raised == map[] && Drops(w) && Distinct(ns)
    requires UpdateEach(ctx, tx, ns, w, expected).Ok?
    ensures DroppedSoFar(tx.items, UpdateEach(ctx, tx, ns, w, expected).value, ns)
    decreases |ns|
  {
    hide Sound, Apply, DropOutcome, OnlyOpenWait, DroppedSoFar;
    if ns == [] {
      NothingDropped(tx);
    } else {
      var first, n := ns[..|ns| - 1], ns[|ns| - 1];
      var before := UpdateEach(ctx, tx, first, w, expected).value;
      BulkDropped(s, ctx, tx, first, w, expected);
      UpdateSound(s, ctx, tx, first, w, expected);
      SoundWaits(s, before);
      ApplyDrop(ctx, before, n, w);
      assert ns == first + [n];
      DropStep(tx.items, before, first, n, Apply(ctx, before, n, w, Editing).value);
    }
  }

  ghost predicate OnlyOpenWait(items: Items) {
    forall m :: m in items && Closed(items[m].status) ==> items[m].blockedBy == {}
  }

  lemma SoundWaits(s: Settings, tx: Tx)
    requires Sound(s, tx)
    ensures CoreBut(tx.items, None) && OnlyOpenWait(tx.items)
  {
    hide Acyclic, CloseRule, DistinctPids, Legacy, Owners;
    forall m | m in tx.items && Closed(tx.items[m].status) ensures tx.items[m].blockedBy == {} {
      assert FieldRules(tx.items[m]);
    }
  }

  ghost predicate HitLater(before: Items, ns: seq<ItemNo>) {
    exists i, j :: 0 <= i < j < |ns| && Hits(before, ns[i], ns[j]) && BlockerDropped !in before[ns[j]].flags
  }

  lemma HitLaterIsUnclean(before: Items, tx: Tx, ns: seq<ItemNo>)
    requires DroppedSoFar(before, tx, ns) && Distinct(ns) && HitLater(before, ns) && OnlyOpenWait(before)
    ensures !KindsClean(tx)
  {
    var i, j :| 0 <= i < j < |ns| && Hits(before, ns[i], ns[j]) && BlockerDropped !in before[ns[j]].flags;
    assert ns[j] !in ns[..i];
    assert FirstHit(before, ns, ns[j]);
    assert !Closed(before[ns[j]].status);
    hide FirstHit, Hits, HitBy, SameButHit;
    assert FlagKey(ns[j], BlockerDropped) in tx.raised;
  }

  lemma UncleanIsHitLater(before: Items, tx: Tx, ns: seq<ItemNo>)
    requires DroppedSoFar(before, tx, ns) && Distinct(ns) && !KindsClean(tx)
    ensures HitLater(before, ns)
  {
    hide Hits, SameButHit;
    var key :| key in tx.raised && key.n in tx.items && key.kind !in tx.items[key.n].flags;
    assert FirstHit(before, ns, key.n);
    if key.n !in ns {
      HitIsKept(before, tx, ns, key.n);
      assert false;
    }
    DroppedAfterHit(before, ns, key.n);
  }

  lemma HitIsKept(before: Items, tx: Tx, ns: seq<ItemNo>, m: ItemNo)
    requires DroppedSoFar(before, tx, ns) && m !in ns && FirstHit(before, ns, m)
    ensures m in tx.items && BlockerDropped in tx.items[m].flags
  {
    assert SameButHit(before, tx.items[m], ns, m);
  }

  lemma DroppedAfterHit(before: Items, ns: seq<ItemNo>, m: ItemNo)
    requires FirstHit(before, ns, m) && m in ns
    ensures HitLater(before, ns)
  {
    var i :| 0 <= i < |ns| && Hits(before, ns[i], m) && m !in ns[..i];
    var j :| 0 <= j < |ns| && ns[j] == m;
    assert forall k :: 0 <= k < i ==> ns[..i][k] == ns[k];
    assert i < j;
  }

  /** A bulk drop stores the flags it ended with exactly when it takes no item
   *  before one that waits on it. */
  lemma UpdateStoresFlags(s: Settings, ctx: Context, board: Board, ns: seq<ItemNo>, w: Write, expected: Option<Status>, tx: Tx)
    requires Within(s, ctx)
    requires Sound(s, Begun(board.items, board.next))
    requires Update(ctx, Begun(board.items, board.next), ns, w, expected) == Ok(tx)
    ensures KindsClean(tx) <==> !DropsOwnDependent(board.items, Unique(ns), w)
  {
    hide Sound;
    UniqueDistinct(ns);
    var start := Begun(board.items, board.next);
    SoundWaits(s, start);
    if Drops(w) {
      BulkDropped(s, ctx, start, Unique(ns), w, expected);
      hide DroppedSoFar, KindsClean;
      if HitLater(board.items, Unique(ns)) {
        HitLaterIsUnclean(board.items, tx, Unique(ns));
      } else if !KindsClean(tx) {
        UncleanIsHitLater(board.items, tx, Unique(ns));
      }
    } else {
      NothingRaised(ctx, start, Unique(ns), w, expected);
    }
  }

  lemma {:induction false} NothingRaised(ctx: Context, tx: Tx, ns: seq<ItemNo>, w: Write, expected: Option<Status>)
    requires UpdateEach(ctx, tx, ns, w, expected).Ok? && !Drops(w)
    ensures UpdateEach(ctx, tx, ns, w, expected).value.raised == tx.raised
    decreases |ns|
  {
    hide Apply;
    if ns != [] {
      var before := UpdateEach(ctx, tx, ns[..|ns| - 1], w, expected).value;
      NothingRaised(ctx, tx, ns[..|ns| - 1], w, expected);
      OnlyDropsRaise(ctx, before, ns[|ns| - 1], w, Editing);
    }
  }

  lemma {:induction false} UniqueDistinct(ns: seq<ItemNo>)
    ensures Distinct(Unique(ns)) && forall n :: n in Unique(ns) <==> n in ns
  {
    if ns != [] {
      UniqueDistinct(ns[..|ns| - 1]);
      assert ns == ns[..|ns| - 1] + [ns[|ns| - 1]];
    }
  }
}
