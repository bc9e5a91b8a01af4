/** What every board transaction keeps: the field rules of each item, an acyclic
 * blocker graph without done blockers, and flags that mean what they say.
 */
module BoardInvariants {
  import opened Prelude
  import opened Graphs
  import opened BoardRules
  import opened BoardSpec

  ghost predicate DistinctPids(holders: seq<Holder>) {
    forall i, j :: 0 <= i < j < |holders| ==> holders[i].pid != holders[j].pid
  }

  /** The interlocking field rules of one item. */
  ghost predicate FieldRules(it: Item) {
    && (it.blockedBy != {} ==> it.status == Blocked)
    && (it.blockedOn.Some? ==> it.status == Blocked || it.status == BlockedOnOwner)
    && (it.etaAt.Some? <==> it.waitingSetAt.Some?)
    && (it.etaAt.Some? ==> it.status == Waiting || it.status == Active)
    && (it.status == Waiting ==> it.etaAt.Some?)
    && (it.job.Some? ==> it.status == Active)
    && (it.blockedBy != {} ==> it.archivedAt.None?)
    && (it.archivedAt.Some? ==> Closed(it.status) || it.linkArchivedAt.Some?)
    && DistinctPids(it.holders)
    && (Owned(it.status) && it.holders != [] && !Legacy(it.holders) ==> Owners(it.holders) == 1)
  }

  ghost predicate CloseRule(it: Item) {
    it.closedAt.Some? <==> Closed(it.status)
  }

  /** Blockers are other items of the board, and none of them is done. */
  ghost predicate BlockerRule(items: Items, n: ItemNo)
    requires n in items
  {
    forall b :: b in items[n].blockedBy ==> b in items && b != n && items[b].status != Done
  }

  ghost predicate DroppedFlagRule(items: Items, it: Item) {
    BlockerDropped in it.flags ==> HasDroppedBlocker(items, it.blockedBy)
  }

  /** A closed item has no open flag; or, where `stray` ones are allowed for, none
   *  but flags from elsewhere. */
  ghost predicate ClosedFlagRule(stray: bool, it: Item) {
    Closed(it.status) ==> it.flags == map[] || (stray && forall k :: k in it.flags ==> k.OtherFlag?)
  }

  ghost predicate Inv(stray: bool, items: Items) {
    && (forall n :: n in items ==> FieldRules(items[n]) && CloseRule(items[n]) && ClosedFlagRule(stray, items[n]))
    && (forall n :: n in items ==> BlockerRule(items, n) && DroppedFlagRule(items, items[n]))
    && Acyclic(Deps(items))
  }

  // ---- holders ----

  lemma {:induction false} DedupeDistinct(holders: seq<Holder>)
    ensures DistinctPids(Dedupe(holders))
  {
    if holders != [] {
      var rest := holders[..|holders| - 1];
      var last := holders[|holders| - 1];
      DedupeDistinct(rest);
      assert forall i :: 0 <= i < |Dedupe(rest)| ==> Dedupe(rest)[i] in Dedupe(rest);
    }
  }

  lemma {:induction false} WithoutDistinct(holders: seq<Holder>, gone: set<Pid>)
    requires DistinctPids(holders)
    ensures DistinctPids(BoardRules.Without(holders, gone))
    ensures forall h :: h in BoardRules.Without(holders, gone) <==> h in holders && h.pid !in gone
  {
    if holders != [] {
      WithoutDistinct(holders[1..], gone);
      var rest := BoardRules.Without(holders[1..], gone);
      assert holders == [holders[0]] + holders[1..];
      assert forall i :: 0 <= i < |rest| ==> rest[i] in rest;
      assert forall h :: h in holders[1..] ==> exists i :: 0 < i < |holders| && holders[i] == h;
    }
  }

  lemma {:induction false} RolesKeepPids(holders: seq<Holder>, prev: seq<Holder>, replaced: bool, hasOwner: bool)
    ensures Pids(WithRoles(holders, prev, replaced, hasOwner)) == Pids(holders)
  {
    if holders != [] {
      var h := holders[0];
      var owned := hasOwner || !(h.role.Some? || (Holds(prev, h.pid) && !replaced));
      RolesKeepPids(holders[1..], prev, replaced, hasOwner);
      RolesKeepPids(holders[1..], prev, replaced, true);
      assert Pids(holders) == [h.pid] + Pids(holders[1..]);
      assert Pids(WithRoles(holders, prev, replaced, hasOwner))
          == [h.pid] + Pids(WithRoles(holders[1..], prev, replaced, owned));
    }
  }

  lemma SamePidsDistinct(a: seq<Holder>, b: seq<Holder>)
    requires Pids(a) == Pids(b) && DistinctPids(a)
    ensures DistinctPids(b)
  {
    assert |a| == |Pids(a)| == |b|;
    assert forall i :: 0 <= i < |a| ==> Pids(a)[i] == a[i].pid && Pids(b)[i] == b[i].pid;
  }

  lemma TransferDistinct(merged: seq<Holder>, pid: Pid)
    requires DistinctPids(merged)
    ensures DistinctPids([Holder(pid, Some(OwnerRole))] + Demoted(BoardRules.Without(merged, {pid})))
  {
    WithoutDistinct(merged, {pid});
    var rest := BoardRules.Without(merged, {pid});
    assert forall i :: 0 <= i < |rest| ==> rest[i] in rest;
    assert forall i :: 0 <= i < |rest| ==> Demoted(rest)[i].pid == rest[i].pid != pid;
  }

  /** The holder list after a write names nobody twice. */
  lemma NextHoldersDistinct(prev: seq<Holder>, w: Write, creating: bool)
    ensures DistinctPids(NextHolders(prev, w, creating))
  {
    hide Dedupe, BoardRules.Without, Demoted, WithRoles, DistinctPids;
    var all := (if w.holders.Some? then w.holders.value else prev) + w.add;
    DedupeDistinct(all);
    WithoutDistinct(Dedupe(all), w.remove);
    var merged := BoardRules.Without(Dedupe(all), w.remove);
    if w.owner.Some? {
      TransferDistinct(merged, w.owner.value.pid);
    }
    var transferred :=
      if w.owner.None? then merged
      else [Holder(w.owner.value.pid, Some(OwnerRole))] + Demoted(BoardRules.Without(merged, {w.owner.value.pid}));
    var roled := WithRoles(transferred, if creating then [] else prev, w.holders.Some?, HasOwner(transferred));
    RolesKeepPids(transferred, if creating then [] else prev, w.holders.Some?, HasOwner(transferred));
    SamePidsDistinct(transferred, roled);
    SuccessorDistinct(roled, OwnerOf(prev));
  }

  lemma SuccessorDistinct(holders: seq<Holder>, prevOwner: Option<Pid>)
    requires DistinctPids(holders)
    ensures DistinctPids(WithSuccessor(holders, prevOwner))
  {
  }

  // ---- the item itself ----

  ghost predicate OpenBlocker(items: Items, n: ItemNo, b: ItemNo) {
    b != n && b in items && items[b].archivedAt.None? && !Closed(items[b].status)
  }

  lemma {:induction false} BlockersOk(items: Items, n: ItemNo, wanted: seq<ItemNo>)
    ensures BlockerError(items, n, wanted).None? <==> forall b :: b in wanted ==> OpenBlocker(items, n, b)
  {
    if wanted != [] {
      BlockersOk(items, n, wanted[1..]);
      assert forall b :: b in wanted <==> b == wanted[0] || b in wanted[1..];
      assert wanted[0] in wanted;
    }
  }

  /** Settling enforces the rules that tie the fields to the status. */
  lemma SettledRules(strict: bool, it: Item, f: Fields, status: Status, prev: Option<Status>)
    requires Settled(strict, it, f, status, prev).Ok?
    requires (it.etaAt.Some? <==> it.waitingSetAt.Some?) && (EtaGiven(f) ==> it.etaAt.Some?)
    ensures var r := Settled(strict, it, f, status, prev).value;
            && (r.blockedBy != {} ==> status == Blocked) && r.blockedBy <= it.blockedBy
            && (r.blockedOn.Some? ==> status == Blocked || status == BlockedOnOwner)
            && (r.etaAt.Some? <==> r.waitingSetAt.Some?)
            && (r.etaAt.Some? ==> status == Waiting || status == Active)
            && (status == Waiting ==> r.etaAt.Some?)
            && (r.job.Some? ==> status == Active && (strict ==> r.etaAt.Some?))
            && (status == Blocked ==> r == it.(etaAt := None, waitingSetAt := None, job := None))
            && r == it.(blockedBy := r.blockedBy, blockedOn := r.blockedOn, checkBackAt := r.checkBackAt,
                        etaAt := r.etaAt, waitingSetAt := r.waitingSetAt, job := r.job)
  {
  }

  /** A draft meets the field rules, whatever the write. */
  lemma DraftFields(ctx: Context, items: Items, n: ItemNo, w: Write, mode: Mode)
    requires n in items && FieldRules(items[n]) && Drafted(ctx, items, n, w, mode).Ok?
    requires mode.Creating? ==> items[n] == NewItem(ctx.now)
    ensures FieldRules(Drafted(ctx, items, n, w, mode).value.it)
  {
    hide NextHolders, BlockerError, NextStatus, Refusal, DistinctPids, Settled, Legacy, Owners;
    NextHoldersDistinct(items[n].holders, w, mode.Creating?);
    var prev := if mode.Creating? then None else Some(items[n].status);
    var it := Proposed(ctx, items, n, w, mode.Creating?).value;
    var status := NextStatus(ctx, it, w.fields, mode.Creating?, mode.Creating? || it.holders != items[n].holders, it.holders != []);
    SettledRules(ctx.settings.strict, it, w.fields, status, prev);
  }

  /** What a draft leaves alone, and where its blockers come from. */
  lemma DraftFrame(ctx: Context, items: Items, n: ItemNo, w: Write, mode: Mode)
    requires n in items && FieldRules(items[n]) && Drafted(ctx, items, n, w, mode).Ok?
    requires mode.Creating? ==> items[n] == NewItem(ctx.now)
    ensures var d := Drafted(ctx, items, n, w, mode).value;
            && d.it.flags == items[n].flags && d.it.linkArchivedAt == items[n].linkArchivedAt
            && (!d.depsChanged ==> d.it.blockedBy == items[n].blockedBy)
            && (!d.holdersChanged ==> d.it.holders == items[n].holders)
            && (CloseRule(items[n]) || (Closed(items[n].status) && !Closed(d.it.status)) ==> CloseRule(d.it))
    ensures forall b :: b in Drafted(ctx, items, n, w, mode).value.it.blockedBy
              ==> b in items[n].blockedBy || OpenBlocker(items, n, b)
  {
    hide NextHolders, BlockerError, NextStatus, Refusal, OwnerError, Settled;
    if w.fields.blockedBy.Set? {
      BlockersOk(items, n, w.fields.blockedBy.value);
    }
    var prev := if mode.Creating? then None else Some(items[n].status);
    var it := Proposed(ctx, items, n, w, mode.Creating?).value;
    var status := NextStatus(ctx, it, w.fields, mode.Creating?, mode.Creating? || it.holders != items[n].holders, it.holders != []);
    SettledRules(ctx.settings.strict, it, w.fields, status, prev);
  }

  // ---- the blocker graph ----

  /** The cycle check is exact: on an acyclic board it refuses a write if and only
   *  if the new edges close a cycle. */
  lemma CycleCheckExact(items: Items, n: ItemNo, it: Item)
    requires Acyclic(Deps(items)) && n in items
    ensures ClosesCycle(items[n := it], n) <==> !Acyclic(Deps(items[n := it]))
  {
    var g, h := Deps(items), Deps(items[n := it]);
    RepointedAcyclic(g, h, n);
    assert Succ(h, n) == it.blockedBy;
  }

  lemma PlacedAcyclic(tx: Tx, n: ItemNo, d: Draft)
    requires Acyclic(Deps(tx.items)) && n in tx.items
    requires !d.depsChanged ==> d.it.blockedBy == tx.items[n].blockedBy
    requires n in Placed(tx, n, d).depsChanged ==> !ClosesCycle(Placed(tx, n, d).items, n)
    ensures Acyclic(Deps(Placed(tx, n, d).items))
  {
    if n in Placed(tx, n, d).depsChanged {
      CycleCheckExact(tx.items, n, d.it);
    } else {
      assert Deps(Placed(tx, n, d).items) == Deps(tx.items);
    }
  }

  lemma FewerEdgesAcyclic(before: Items, after: Items)
    requires Acyclic(Deps(before)) && after.Keys == before.Keys
    requires forall m :: m in before ==> after[m].blockedBy <= before[m].blockedBy
    ensures Acyclic(Deps(after))
  {
    SubgraphAcyclic(Deps(after), Deps(before));
  }

  // ---- one write ----

  /** The invariant, but for the close mark of `n` (an unplaced item coming back). */
  ghost predicate InvBut(stray: bool, items: Items, n: ItemNo) {
    && (forall m :: m in items ==> FieldRules(items[m]) && ClosedFlagRule(stray, items[m]))
    && (forall m :: m in items ==> CloseRule(items[m]) || (m == n && Closed(items[m].status)))
    && (forall m :: m in items ==> BlockerRule(items, m) && DroppedFlagRule(items, items[m]))
    && Acyclic(Deps(items))
  }

  /** Between the write of `n` and what it does to its dependents: they may still
   *  list it when it is done, or be flagged for it when it is open again. */
  ghost predicate Midway(stray: bool, items: Items, n: ItemNo) {
    && (forall m :: m in items ==> FieldRules(items[m]) && CloseRule(items[m]))
    && (forall m :: m in items && m != n ==> ClosedFlagRule(stray, items[m]))
    && (forall m, b :: m in items && b in items[m].blockedBy ==> b in items && b != m && (b != n ==> items[b].status != Done))
    && (forall m :: m in items && m != n ==> DroppedFlagRule(items, items[m]) || n in items[m].blockedBy)
    && Acyclic(Deps(items))
  }

  /** What the placing of a draft relies on. */
  ghost predicate Fits(items: Items, n: ItemNo, it: Item)
    requires n in items
  {
    && FieldRules(it) && CloseRule(it) && it.flags == items[n].flags
    && forall b :: b in it.blockedBy ==> b in items[n].blockedBy || OpenBlocker(items, n, b)
  }

  lemma DraftFits(ctx: Context, items: Items, n: ItemNo, w: Write, mode: Mode, d: Draft)
    requires n in items && FieldRules(items[n]) && Drafted(ctx, items, n, w, mode) == Ok(d)
    requires mode.Creating? ==> items[n] == NewItem(ctx.now)
    requires CloseRule(items[n]) || (Closed(items[n].status) && !Closed(d.it.status))
    ensures Fits(items, n, d.it) && (!d.depsChanged ==> d.it.blockedBy == items[n].blockedBy)
  {
    hide Acyclic, HasDroppedBlocker, OpenBlocker;
    DraftFields(ctx, items, n, w, mode);
    DraftFrame(ctx, items, n, w, mode);
    hide Drafted, FieldRules;
  }

  lemma PlacedMidway(stray: bool, ctx: Context, tx: Tx, n: ItemNo, w: Write, mode: Mode, d: Draft)
    requires n in tx.items && InvBut(stray, tx.items, n) && Drafted(ctx, tx.items, n, w, mode) == Ok(d)
    requires mode.Creating? ==> tx.items[n] == NewItem(ctx.now)
    requires CloseRule(tx.items[n]) || !Closed(d.it.status)
    requires n in Placed(tx, n, d).depsChanged ==> !ClosesCycle(Placed(tx, n, d).items, n)
    ensures Midway(stray, Placed(tx, n, d).items, n)
  {
    hide Drafted, Acyclic, FieldRules, CloseRule, HasDroppedBlocker, OpenBlocker;
    DraftFits(ctx, tx.items, n, w, mode, d);
    PlacedAcyclic(tx, n, d);
    hide ClosesCycle;
    PlacedBlockers(tx.items, n, d.it);
    PlacedFlags(stray, tx.items, n, d.it);
  }

  lemma PlacedBlockers(items: Items, n: ItemNo, it: Item)
    requires n in items && Fits(items, n, it) && forall m :: m in items ==> BlockerRule(items, m)
    ensures var after := items[n := it];
            forall m, b :: m in after && b in after[m].blockedBy ==> b in after && b != m && (b != n ==> after[b].status != Done)
  {
    hide FieldRules, CloseRule, HasDroppedBlocker, Acyclic, ClosedFlagRule, DroppedFlagRule;
    var after := items[n := it];
    forall m, b | m in after && b in after[m].blockedBy
      ensures b in after && b != m && (b != n ==> after[b].status != Done)
    {
      assert BlockerRule(items, m);
    }
  }

  lemma PlacedFlags(stray: bool, items: Items, n: ItemNo, it: Item)
    requires n in items && InvBut(stray, items, n)
    ensures var after := items[n := it];
            forall m :: m in after && m != n ==> DroppedFlagRule(after, after[m]) || n in after[m].blockedBy
  {
    hide FieldRules, CloseRule, Acyclic, ClosedFlagRule, BlockerRule;
    var after := items[n := it];
    forall m | m in after && m != n ensures DroppedFlagRule(after, after[m]) || n in after[m].blockedBy {
      if BlockerDropped in after[m].flags && n !in after[m].blockedBy {
        assert HasDroppedBlocker(items, items[m].blockedBy);
      }
    }
  }

  /** The items differ in their flags only. */
  ghost predicate SameButFlags(a: Items, b: Items) {
    b.Keys == a.Keys && forall m :: m in a ==> b[m] == a[m].(flags := b[m].flags)
  }

  lemma FlagsChangeNothingElse(a: Items, b: Items)
    requires SameButFlags(a, b)
    ensures Deps(b) == Deps(a)
    ensures forall m :: m in a ==> (FieldRules(b[m]) <==> FieldRules(a[m])) && (CloseRule(b[m]) <==> CloseRule(a[m]))
    ensures forall s: set<ItemNo> :: HasDroppedBlocker(b, s) <==> HasDroppedBlocker(a, s)
    ensures forall m :: m in a ==> b[m].blockedBy == a[m].blockedBy && b[m].status == a[m].status
  {
  }

  /** `OwnFlags` takes flags off `n` and changes nothing else of any item. */
  lemma OwnFlagsFrame(tx: Tx, n: ItemNo, status: Status, prev: Option<Status>)
    requires n in tx.items
    ensures var after := OwnFlags(tx, n, status, prev);
            && SameButFlags(tx.items, after.items) && after == tx.(items := after.items, resolved := after.resolved)
            && (forall m :: m in tx.items && m != n ==> after.items[m] == tx.items[m])
            && after.items[n].flags.Keys <= tx.items[n].flags.Keys
            && (n in tx.depsChanged && BlockerDropped in after.items[n].flags ==> HasDroppedBlocker(tx.items, tx.items[n].blockedBy))
            && (Closed(status) && !(prev.Some? && Closed(prev.value)) ==> after.items[n].flags == map[])
  {
    hide HasDroppedBlocker;
  }

  /** Taking or adding flags turns a midway board into a good one when the flags
   *  left mean what they say. */
  lemma FlagsSettle(stray: bool, a: Items, b: Items, n: ItemNo)
    requires n in a && Midway(stray, a, n) && SameButFlags(a, b)
    requires forall m :: m in b ==> ClosedFlagRule(stray, b[m])
    requires forall m :: m in b && BlockerDropped in b[m].flags ==> HasDroppedBlocker(a, a[m].blockedBy)
    requires a[n].status == Done ==> Dependents(a, n) == {}
    ensures Inv(stray, b)
  {
    hide FieldRules, CloseRule, HasDroppedBlocker, Acyclic, ClosedFlagRule;
    FlagsChangeNothingElse(a, b);
    hide SameButFlags;
    forall m | m in b ensures BlockerRule(b, m) && DroppedFlagRule(b, b[m]) {
      assert n in b[m].blockedBy ==> m in Dependents(a, n);
    }
  }

  lemma ReopenedFrame(tx: Tx, n: ItemNo)
    requires n in tx.items
    ensures var after := ClearDependents(tx, Dependents(tx.items, n)).items;
            && SameButFlags(tx.items, after)
            && forall m :: m in after ==>
                 && after[m].flags.Keys <= tx.items[m].flags.Keys
                 && (n !in tx.items[m].blockedBy ==> after[m] == tx.items[m])
                 && (n in tx.items[m].blockedBy && BlockerDropped in after[m].flags ==> HasDroppedBlocker(tx.items, tx.items[m].blockedBy))
  {
    hide HasDroppedBlocker;
  }

  lemma UnhookedRules(strict: bool, now: Time, items: Items, it: Item, n: ItemNo)
    requires FieldRules(it) && CloseRule(it) && n in it.blockedBy
    ensures var u := Unhooked(strict, now, items, it, n);
            && FieldRules(u) && CloseRule(u) && !Closed(u.status) && u.blockedBy == it.blockedBy - {n}
            && (BlockerDropped in u.flags ==> HasDroppedBlocker(items, u.blockedBy))
            && !Closed(it.status)
  {
    hide HasDroppedBlocker;
  }

  /** What a done item's cascade leaves of item `m`. */
  ghost predicate CascadedItem(before: Items, it: Item, m: ItemNo, n: ItemNo)
    requires m in before
  {
    && FieldRules(it) && CloseRule(it) && it.blockedBy == before[m].blockedBy - {n}
    && (it.status == before[m].status || (!Closed(it.status) && !Closed(before[m].status)))
    && (n !in before[m].blockedBy ==> it == before[m])
    && (n in before[m].blockedBy ==> !Closed(it.status))
    && (n in before[m].blockedBy && BlockerDropped in it.flags ==> HasDroppedBlocker(before, it.blockedBy))
  }

  ghost predicate Cascaded(before: Items, after: Items, n: ItemNo) {
    after.Keys == before.Keys && forall m :: m in before ==> CascadedItem(before, after[m], m, n)
  }

  lemma CascadeFrame(strict: bool, now: Time, tx: Tx, n: ItemNo)
    requires forall m :: m in tx.items ==> FieldRules(tx.items[m]) && CloseRule(tx.items[m])
    ensures Cascaded(tx.items, CascadeDone(strict, now, tx, n, Dependents(tx.items, n)).items, n)
  {
    hide Unhooked, FieldRules, CloseRule, HasDroppedBlocker;
    var deps := Dependents(tx.items, n);
    var after := CascadeDone(strict, now, tx, n, deps).items;
    forall m | m in tx.items ensures CascadedItem(tx.items, after[m], m, n) {
      if m in deps {
        UnhookedRules(strict, now, tx.items, tx.items[m], n);
      } else {
        assert tx.items[m].blockedBy - {n} == tx.items[m].blockedBy;
      }
    }
  }

  lemma SameDropped(a: Items, b: Items)
    requires b.Keys == a.Keys
    requires forall m :: m in a ==> b[m].status == a[m].status || (!Closed(b[m].status) && !Closed(a[m].status))
    ensures forall s: set<ItemNo> :: HasDroppedBlocker(b, s) <==> HasDroppedBlocker(a, s)
  {
  }

  lemma CascadeSettles(stray: bool, a: Items, b: Items, n: ItemNo)
    requires n in a && Midway(stray, a, n) && Cascaded(a, b, n)
    requires ClosedFlagRule(stray, a[n]) && DroppedFlagRule(a, a[n])
    ensures Inv(stray, b)
  {
    hide FieldRules, CloseRule, HasDroppedBlocker, Acyclic;
    FewerEdgesAcyclic(a, b);
    SameDropped(a, b);
    forall m | m in b ensures BlockerRule(b, m) && DroppedFlagRule(b, b[m]) {
    }
  }

  lemma DroppedFrame(tx: Tx, n: ItemNo)
    requires n in tx.items && tx.items[n].status == Dropped
    ensures var after := FlagDropped(tx, Dependents(tx.items, n)).items;
            && SameButFlags(tx.items, after)
            && forall m :: m in after ==>
                 && (n !in tx.items[m].blockedBy ==> after[m] == tx.items[m])
                 && (n in tx.items[m].blockedBy ==> HasDroppedBlocker(tx.items, tx.items[m].blockedBy))
                 && (Closed(tx.items[m].status) ==> after[m] == tx.items[m])
  {
  }

  lemma MidwaySurvivesOwnFlags(stray: bool, a: Items, b: Items, n: ItemNo)
    requires n in a && Midway(stray, a, n) && SameButFlags(a, b) && forall m :: m in a && m != n ==> b[m] == a[m]
    ensures Midway(stray, b, n)
  {
    hide FieldRules, CloseRule, HasDroppedBlocker, Acyclic, ClosedFlagRule;
    FlagsChangeNothingElse(a, b);
  }

  /** The item itself is in order after its own flags are settled. */
  lemma OwnFlagsSettle(stray: bool, tx: Tx, n: ItemNo, status: Status, prev: Option<Status>, was: Item)
    requires n in tx.items && Midway(stray, tx.items, n) && tx.items[n].status == status && tx.items[n].flags == was.flags
    requires ClosedFlagRule(stray, was) && (if prev.None? then was.flags == map[] else prev == Some(was.status))
    requires n in tx.depsChanged || DroppedFlagRule(tx.items, tx.items[n])
    ensures var after := OwnFlags(tx, n, status, prev).items;
            Midway(stray, after, n) && ClosedFlagRule(stray, after[n]) && DroppedFlagRule(after, after[n])
  {
    OwnFlagsFrame(tx, n, status, prev);
    hide OwnFlags, FieldRules, CloseRule, HasDroppedBlocker, Acyclic;
    var after := OwnFlags(tx, n, status, prev).items;
    MidwaySurvivesOwnFlags(stray, tx.items, after, n);
    FlagsChangeNothingElse(tx.items, after);
  }

  lemma ReopenSettles(stray: bool, tx: Tx, n: ItemNo)
    requires n in tx.items && Midway(stray, tx.items, n) && !Closed(tx.items[n].status)
    requires DroppedFlagRule(tx.items, tx.items[n])
    ensures Inv(stray, ClearDependents(tx, Dependents(tx.items, n)).items)
  {
    hide FieldRules, CloseRule, HasDroppedBlocker, Acyclic, ClearDependents, BlockerRule;
    ReopenedFrame(tx, n);
    var after := ClearDependents(tx, Dependents(tx.items, n)).items;
    forall m | m in after ensures ClosedFlagRule(stray, after[m]) {
      assert m != n ==> ClosedFlagRule(stray, tx.items[m]);
    }
    hide ClosedFlagRule;
    FlagsSettle(stray, tx.items, after, n);
  }

  lemma DropSettles(stray: bool, tx: Tx, n: ItemNo)
    requires n in tx.items && Midway(stray, tx.items, n) && tx.items[n].status == Dropped && ClosedFlagRule(stray, tx.items[n])
    requires forall m :: m in tx.items ==> DroppedFlagRule(tx.items, tx.items[m])
    ensures Inv(stray, FlagDropped(tx, Dependents(tx.items, n)).items)
  {
    hide FieldRules, CloseRule, HasDroppedBlocker, Acyclic, FlagDropped;
    DroppedFrame(tx, n);
    FlagsSettle(stray, tx.items, FlagDropped(tx, Dependents(tx.items, n)).items, n);
  }

  lemma NeighboursSettle(stray: bool, ctx: Context, tx: Tx, n: ItemNo, status: Status, prev: Option<Status>)
    requires n in tx.items && Midway(stray, tx.items, n) && tx.items[n].status == status
    requires ClosedFlagRule(stray, tx.items[n]) && DroppedFlagRule(tx.items, tx.items[n])
    requires prev == Some(Done) ==> Dependents(tx.items, n) == {}
    requires status == Dropped || prev != Some(Dropped) ==> forall m :: m in tx.items ==> DroppedFlagRule(tx.items, tx.items[m])
    ensures Inv(stray, Neighbours(ctx, tx, n, status, prev).items)
  {
    hide FieldRules, CloseRule, HasDroppedBlocker, Acyclic, ClearDependents, CascadeDone, FlagDropped;
    var wasClosed := prev.Some? && Closed(prev.value);
    if !Closed(status) && wasClosed {
      ReopenSettles(stray, tx, n);
    } else if status == Done && prev != Some(Done) {
      CascadeFrame(ctx.settings.strict, ctx.now, tx, n);
      CascadeSettles(stray, tx.items, CascadeDone(ctx.settings.strict, ctx.now, tx, n, Dependents(tx.items, n)).items, n);
    } else if status == Dropped && !wasClosed {
      DropSettles(stray, tx, n);
    } else {
      FlagsSettle(stray, tx.items, tx.items, n);
    }
  }

  /** Flags about dropped blockers stay true of a write that neither drops nor
   *  revives `n`. */
  lemma DroppedFlagsSurvive(items: Items, n: ItemNo, it: Item)
    requires n in items && forall m :: m in items ==> DroppedFlagRule(items, items[m])
    requires it.status == Dropped || items[n].status != Dropped
    ensures forall m :: m in items && m != n ==> DroppedFlagRule(items[n := it], items[m])
  {
  }

  /** The steps of a write that succeeded. */
  lemma ApplySteps(ctx: Context, tx: Tx, n: ItemNo, w: Write, mode: Mode) returns (d: Draft, tx1: Tx, tx2: Tx)
    requires n in tx.items && Apply(ctx, tx, n, w, mode).Ok?
    ensures var prev := if mode.Creating? then None else Some(tx.items[n].status);
            var status := d.it.status;
            var changes := OwnerChanges(n, OwnerOf(tx.items[n].holders), OwnerOf(d.it.holders), status, prev);
            var tx0 := Placed(tx, n, d);
            && Drafted(ctx, tx.items, n, w, mode) == Ok(d)
            && (n in tx0.depsChanged ==> !ClosesCycle(tx0.items, n))
            && tx1 == OwnFlags(tx0.(ownerChanges := tx0.ownerChanges + changes), n, status, prev)
            && tx2 == Neighbours(ctx, tx1, n, status, prev)
            && Apply(ctx, tx, n, w, mode) == Ok(tx2.(dirty := tx2.dirty + {n}))
  {
    hide Drafted, OwnFlags, Neighbours;
    d := Drafted(ctx, tx.items, n, w, mode).value;
    var prev := if mode.Creating? then None else Some(tx.items[n].status);
    var tx0 := Placed(tx, n, d);
    var changes := OwnerChanges(n, OwnerOf(tx.items[n].holders), OwnerOf(d.it.holders), d.it.status, prev);
    tx1 := OwnFlags(tx0.(ownerChanges := tx0.ownerChanges + changes), n, d.it.status, prev);
    tx2 := Neighbours(ctx, tx1, n, d.it.status, prev);
  }

  /** After the item's own flags, a write is midway and the item in order. */
  lemma OwnPartSettles(stray: bool, ctx: Context, tx: Tx, n: ItemNo, w: Write, mode: Mode, d: Draft, tx0: Tx, tx1: Tx)
    requires n in tx.items && InvBut(stray, tx.items, n) && Drafted(ctx, tx.items, n, w, mode) == Ok(d)
    requires mode.Creating? ==> tx.items[n] == NewItem(ctx.now) && Dependents(tx.items, n) == {}
    requires CloseRule(tx.items[n]) || !Closed(d.it.status)
    requires n in tx0.items && tx0.items == Placed(tx, n, d).items && tx0.depsChanged == Placed(tx, n, d).depsChanged
    requires n in tx0.depsChanged ==> !ClosesCycle(tx0.items, n)
    requires tx1 == OwnFlags(tx0, n, d.it.status, if mode.Creating? then None else Some(tx.items[n].status))
    ensures n in tx1.items && Midway(stray, tx1.items, n) && tx1.items[n].status == d.it.status
    ensures ClosedFlagRule(stray, tx1.items[n]) && DroppedFlagRule(tx1.items, tx1.items[n])
  {
    var was := tx.items[n];
    var prev := if mode.Creating? then None else Some(was.status);
    PlacedMidway(stray, ctx, tx, n, w, mode, d);
    DraftFrame(ctx, tx.items, n, w, mode);
    hide Drafted, OwnFlags, Midway, FieldRules, CloseRule, HasDroppedBlocker, Acyclic;
    assert n !in was.blockedBy by {
      assert BlockerRule(tx.items, n);
    }
    if n !in tx0.depsChanged {
      OwnDroppedFlag(tx.items, n, d.it);
    }
    OwnFlagsSettle(stray, tx0, n, d.it.status, prev, was);
    OwnFlagsFrame(tx0, n, d.it.status, prev);
  }

  /** ... and what the dependents may still hold against it. */
  lemma DependentsBefore(stray: bool, tx: Tx, n: ItemNo, d: Draft, tx1: Tx, mode: Mode)
    requires n in tx.items && InvBut(stray, tx.items, n) && (mode.Creating? ==> Dependents(tx.items, n) == {})
    requires mode.Creating? ==> tx.items[n].status == Open
    requires SameButFlags(tx.items[n := d.it], tx1.items) && n in tx1.items && DroppedFlagRule(tx1.items, tx1.items[n])
    requires forall m :: m in tx.items && m != n ==> tx1.items[m] == tx.items[m]
    ensures d.it.status == Dropped || tx.items[n].status != Dropped
            ==> forall m :: m in tx1.items ==> DroppedFlagRule(tx1.items, tx1.items[m])
    ensures mode.Creating? || tx.items[n].status == Done ==> forall m :: m in Dependents(tx1.items, n) ==> m == n
  {
    hide FieldRules, CloseRule, HasDroppedBlocker, Acyclic;
    FlagsChangeNothingElse(tx.items[n := d.it], tx1.items);
    if d.it.status == Dropped || tx.items[n].status != Dropped {
      DroppedFlagsSurvive(tx.items, n, d.it);
    }
    forall m | m in tx1.items && m != n && n in tx1.items[m].blockedBy ensures !mode.Creating? && tx.items[n].status != Done {
      assert m in Dependents(tx.items, n) && BlockerRule(tx.items, m);
    }
  }

  lemma OwnDroppedFlag(items: Items, n: ItemNo, it: Item)
    requires n in items && DroppedFlagRule(items, items[n]) && n !in items[n].blockedBy
    requires it.blockedBy == items[n].blockedBy && it.flags == items[n].flags
    ensures DroppedFlagRule(items[n := it], it)
  {
  }

  /** Every write that succeeds keeps the board's invariant. */
  lemma ApplyKeeps(stray: bool, ctx: Context, tx: Tx, n: ItemNo, w: Write, mode: Mode)
    requires n in tx.items && InvBut(stray, tx.items, n) && Apply(ctx, tx, n, w, mode).Ok?
    requires mode.Creating? ==> tx.items[n] == NewItem(ctx.now) && Dependents(tx.items, n) == {}
    requires CloseRule(tx.items[n]) || !Closed(Drafted(ctx, tx.items, n, w, mode).value.it.status)
    ensures Inv(stray, Apply(ctx, tx, n, w, mode).value.items)
  {
    hide Drafted, OwnFlags, Neighbours, Midway, Inv, InvBut, CloseRule, Apply, ClosesCycle, ClosedFlagRule, DroppedFlagRule, OwnerChanges;
    var d, tx1, tx2 := ApplySteps(ctx, tx, n, w, mode);
    var prev := if mode.Creating? then None else Some(tx.items[n].status);
    var tx0 := Placed(tx, n, d);
    var changes := OwnerChanges(n, OwnerOf(tx.items[n].holders), OwnerOf(d.it.holders), d.it.status, prev);
    OwnPartSettles(stray, ctx, tx, n, w, mode, d, tx0.(ownerChanges := tx0.ownerChanges + changes), tx1);
    OwnFlagsFrame(tx0.(ownerChanges := tx0.ownerChanges + changes), n, d.it.status, prev);
    NotItsOwnBlocker(stray, tx1.items, n);
    DependentsBefore(stray, tx, n, d, tx1, mode);
    NeighboursSettle(stray, ctx, tx1, n, d.it.status, prev);
  }

  lemma NotItsOwnBlocker(stray: bool, items: Items, n: ItemNo)
    requires n in items && Midway(stray, items, n)
    ensures n !in Dependents(items, n)
  {
  }

  /** A write changes neither which items there are nor what else is counted. */
  lemma ApplyShape(ctx: Context, tx: Tx, n: ItemNo, w: Write, mode: Mode)
    requires n in tx.items && Apply(ctx, tx, n, w, mode).Ok?
    ensures var after := Apply(ctx, tx, n, w, mode).value;
            after.items.Keys == tx.items.Keys && after.next == tx.next && after.created == tx.created
  {
    hide Drafted, Apply, Neighbours, OwnFlags, OwnerChanges;
    var d, tx1, tx2 := ApplySteps(ctx, tx, n, w, mode);
    var prev := if mode.Creating? then None else Some(tx.items[n].status);
    var changes := OwnerChanges(n, OwnerOf(tx.items[n].holders), OwnerOf(d.it.holders), d.it.status, prev);
    OwnFlagsFrame(Placed(tx, n, d).(ownerChanges := Placed(tx, n, d).ownerChanges + changes), n, d.it.status, prev);
    NeighboursShape(ctx, tx1, n, d.it.status, prev);
  }

  lemma NeighboursShape(ctx: Context, tx: Tx, n: ItemNo, status: Status, prev: Option<Status>)
    ensures var after := Neighbours(ctx, tx, n, status, prev);
            after.items.Keys == tx.items.Keys && after.next == tx.next && after.created == tx.created
  {
    hide Unhooked, HasDroppedBlocker, DroppedDetail;
  }
}
