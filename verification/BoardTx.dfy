/** The write transaction of a locked board (class `BoardTx` in
 * dispatch/items_rules.py), step by step, against the functions of `BoardSpec`.
 */
module BoardTransaction {
  import opened Prelude
  import opened Graphs
  import opened BoardRules
  import opened BoardSpec
  import opened BoardInvariants

  // ---- holders ----

  lemma SnocTaken<T>(s: seq<T>, i: nat)
    requires i < |s|
    ensures s[..i + 1] == s[..i] + [s[i]] && s[..i + 1][..i] == s[..i]
  {
  }

  /** Keeps the first holder of each pid. */
  method DedupeHolders(holders: seq<Holder>) returns (out: seq<Holder>)
    ensures out == Dedupe(holders)
  {
    out := [];
    for i := 0 to |holders|
      invariant out == Dedupe(holders[..i])
    {
      SnocTaken(holders, i);
      if !Holds(out, holders[i].pid) {
        out := out + [holders[i]];
      }
    }
    assert holders[..|holders|] == holders;
  }

  lemma {:induction false} WithoutSnoc(holders: seq<Holder>, h: Holder, gone: set<Pid>)
    ensures BoardRules.Without(holders + [h], gone)
            == BoardRules.Without(holders, gone) + (if h.pid in gone then [] else [h])
  {
    if holders == [] {
      assert holders + [h] == [h] && [h][1..] == [];
    } else {
      assert (holders + [h])[1..] == holders[1..] + [h];
      WithoutSnoc(holders[1..], h, gone);
    }
  }

  method RemoveHolders(holders: seq<Holder>, gone: set<Pid>) returns (out: seq<Holder>)
    ensures out == BoardRules.Without(holders, gone)
  {
    out := [];
    for i := 0 to |holders|
      invariant out == BoardRules.Without(holders[..i], gone)
    {
      SnocTaken(holders, i);
      WithoutSnoc(holders[..i], holders[i], gone);
      if holders[i].pid !in gone {
        out := out + [holders[i]];
      }
    }
    assert holders[..|holders|] == holders;
  }

  /** Gives each new holder a role, in order. */
  method AssignRoles(holders: seq<Holder>, prev: seq<Holder>, replaced: bool) returns (out: seq<Holder>)
    ensures out == WithRoles(holders, prev, replaced, HasOwner(holders))
  {
    var hasOwner := HasOwner(holders);
    out := [];
    for i := 0 to |holders|
      invariant out + WithRoles(holders[i..], prev, replaced, hasOwner)
             == WithRoles(holders, prev, replaced, HasOwner(holders))
    {
      var h := holders[i];
      RolesHead(out, holders[i..], prev, replaced, hasOwner);
      assert holders[i..][1..] == holders[i + 1..];
      if h.role.None? && (!Holds(prev, h.pid) || replaced) {
        h := h.(role := Some(if hasOwner then Contributor else OwnerRole));
        hasOwner := true;
      }
      out := out + [h];
    }
    assert out + [] == out;
  }

  lemma RolesHead(out: seq<Holder>, holders: seq<Holder>, prev: seq<Holder>, replaced: bool, hasOwner: bool)
    requires holders != []
    ensures var h := holders[0];
            if h.role.None? && (!Holds(prev, h.pid) || replaced)
            then out + WithRoles(holders, prev, replaced, hasOwner)
                 == out + [h.(role := Some(if hasOwner then Contributor else OwnerRole))]
                    + WithRoles(holders[1..], prev, replaced, true)
            else out + WithRoles(holders, prev, replaced, hasOwner)
                 == out + [h] + WithRoles(holders[1..], prev, replaced, hasOwner)
  {
  }

  method MergeHolders(prev: seq<Holder>, w: Write, creating: bool) returns (out: seq<Holder>)
    ensures out == NextHolders(prev, w, creating)
  {
    out := if w.holders.Some? then w.holders.value else prev;
    out := DedupeHolders(out + w.add);
    out := RemoveHolders(out, w.remove);
    if w.owner.Some? {
      // A transfer: the named holder becomes the owner, any other contributes.
      var rest := RemoveHolders(out, {w.owner.value.pid});
      out := [Holder(w.owner.value.pid, Some(OwnerRole))] + Demoted(rest);
    }
    out := AssignRoles(out, if creating then [] else prev, w.holders.Some?);
    if OwnerOf(prev).Some? && |out| == 1 && !HasOwner(out) && !Legacy(out) {
      out := [out[0].(role := Some(OwnerRole))];
    }
  }

  method CheckBlockers(items: Items, n: ItemNo, wanted: seq<ItemNo>) returns (error: Option<Error>)
    ensures error == BlockerError(items, n, wanted)
  {
    for i := 0 to |wanted|
      invariant BlockerError(items, n, wanted) == BlockerError(items, n, wanted[i..])
    {
      var b := wanted[i];
      assert wanted[i..][0] == b && wanted[i..][1..] == wanted[i + 1..];
      if b == n {
        return Some(SelfBlocker);
      }
      if b !in items || items[b].archivedAt.Some? {
        return Some(NoSuchBlocker(b));
      }
      if Closed(items[b].status) {
        return Some(ClosedBlocker(b));
      }
    }
    error := None;
  }

  /** One locked board's transaction. */
  class BoardTx {
    const ctx: Context
    var items: Items
    var next: nat
    var created: set<ItemNo>
    var dirty: set<ItemNo>
    var holdersChanged: set<ItemNo>
    var depsChanged: set<ItemNo>
    var resolved: set<FlagKey>
    var details: map<FlagKey, Detail>
    var raised: map<FlagKey, Detail>
    var unblocked: set<ItemNo>
    var ownerChanges: seq<OwnerChange>

    function View(): Tx
      reads this
    {
      Tx(items, next, created, dirty, holdersChanged, depsChanged, resolved, details, raised, unblocked, ownerChanges)
    }

    constructor (items: Items, next: nat, ctx: Context)
      ensures View() == Begun(items, next) && this.ctx == ctx
    {
      this.items, this.next, this.ctx := items, next, ctx;
      created, dirty, holdersChanged, depsChanged := {}, {}, {}, {};
      resolved, details, raised := {}, map[], map[];
      unblocked, ownerChanges := {}, [];
    }

    // ---- flags ----

    method RaiseFlag(n: ItemNo, kind: FlagKind, detail: Detail)
      requires n in items
      modifies this
      ensures View() == BoardSpec.RaiseFlag(old(View()), n, kind, detail)
    {
      var it := items[n];
      var key := FlagKey(n, kind);
      if kind in it.flags {
        if detail != NoDetail && it.flags[kind] != detail {
          items := items[n := it.(flags := it.flags[kind := detail])];
          details := details[key := detail];
        }
        return;
      }
      items := items[n := it.(flags := it.flags[kind := detail])];
      if key !in raised {
        raised := raised[key := detail];
      }
    }

    method ResolveFlag(n: ItemNo, kind: FlagKind) returns (open: bool)
      requires n in items
      modifies this
      ensures View() == ResolveFlags(old(View()), n, {kind})
      ensures open <==> kind in old(items)[n].flags
    {
      var it := items[n];
      open := kind in it.flags;
      assert !open ==> it.flags - {kind} == it.flags && items[n := it] == items;
      assert (set k | k in {kind} && k in it.flags :: FlagKey(n, k)) == if open then {FlagKey(n, kind)} else {};
      if open {
        items := items[n := it.(flags := it.flags - {kind})];
        resolved := resolved + {FlagKey(n, kind)};
      }
    }

    /** Resolves every open flag of an item. */
    method CloseFlags(n: ItemNo)
      requires n in items
      modifies this
      ensures View() == ResolveAll(old(View()), n)
    {
      var kinds := items[n].flags.Keys;
      var left := kinds;
      ghost var was := View();
      assert View() == ResolveFlags(was, n, {}) by {
        assert items[n].flags - {} == items[n].flags && items[n := items[n]] == items;
      }
      ghost var done: set<FlagKind> := {};
      while left != {}
        invariant done + left == kinds && n in items
        invariant View() == ResolveFlags(was, n, done)
        decreases left
      {
        var kind :| kind in left;
        ResolveTwice(was, n, done, {kind});
        left, done := left - {kind}, done + {kind};
        var open := ResolveFlag(n, kind);
      }
      assert done == kinds;
    }

    method ClearBlockerDropped(n: ItemNo)
      requires n in items
      modifies this
      ensures View() == ResolveFlags(old(View()), n, if HasDroppedBlocker(old(items), old(items)[n].blockedBy) then {} else {BlockerDropped})
    {
      if BlockerDropped in items[n].flags && !HasDroppedBlocker(items, items[n].blockedBy) {
        var open := ResolveFlag(n, BlockerDropped);
      } else {
        ResolveNothing(View(), n, if HasDroppedBlocker(items, items[n].blockedBy) then {} else {BlockerDropped});
      }
    }

    // ---- cycles ----

    /** Depth-first search along blockers from `frm` for `target`, sharing `seen`
     *  across branches. Finding nothing leaves every node newly seen explored. */
    method Path(frm: ItemNo, target: ItemNo, seen: set<ItemNo>) returns (path: Option<seq<ItemNo>>, seen': set<ItemNo>)
      ensures seen <= seen'
      ensures path.Some? ==> WalkFromTo(Deps(items), path.value, frm, target)
      ensures path.None? ==> frm != target && frm in seen' && Explored(Deps(items), target, seen, seen')
      decreases items.Keys - seen
    {
      if frm == target {
        assert WalkFromTo(Deps(items), [frm], frm, target);
        return Some([frm]), seen;
      }
      if frm in seen {
        return None, seen;
      }
      seen' := seen + {frm};
      if frm !in items {
        return None, seen';
      }
      var left := items[frm].blockedBy;
      while left != {}
        invariant left <= items[frm].blockedBy && seen + {frm} <= seen'
        invariant items[frm].blockedBy - left <= seen' && target !in items[frm].blockedBy - left
        invariant Explored(Deps(items), target, seen + {frm}, seen')
        decreases left
      {
        var next :| next in left;
        left := left - {next};
        assert items.Keys - seen' < items.Keys - seen by {
          assert frm in items.Keys - seen && frm !in items.Keys - seen';
        }
        ghost var was := seen';
        var rest;
        rest, seen' := Path(next, target, seen');
        if rest.Some? {
          assert next in Succ(Deps(items), frm);
          WalkOn(Deps(items), frm, rest.value, target);
          return Some([frm] + rest.value), seen';
        }
        assert Explored(Deps(items), target, seen + {frm}, seen');
      }
      assert Succ(Deps(items), frm) == items[frm].blockedBy;
      path := None;
    }

    /** The walk that a write of `n` closed, if it closed one: `n` itself, some new
     *  blocker, and on along blockers back to `n`. */
    method CheckCycles(n: ItemNo) returns (cycle: Option<seq<ItemNo>>)
      requires n in items
      ensures cycle.Some? <==> ClosesCycle(items, n)
      ensures cycle.Some? ==> ClosedWalk(Deps(items), cycle.value) && cycle.value[0] == n
    {
      var left := items[n].blockedBy;
      while left != {}
        invariant left <= items[n].blockedBy
        invariant forall b :: b in items[n].blockedBy - left ==> !Reaches(Deps(items), b, n)
        decreases left
      {
        var start :| start in left;
        left := left - {start};
        var path, seen := Path(start, n, {n});
        if path.Some? {
          assert start in Succ(Deps(items), n);
          WalkOn(Deps(items), n, path.value, n);
          assert Reaches(Deps(items), start, n);
          return Some([n] + path.value);
        }
        ExploredMisses(Deps(items), n, seen, start);
      }
      cycle := None;
    }

    // ---- effects on other items ----

    method CascadeDone(n: ItemNo)
      modifies this
      ensures View() == BoardSpec.CascadeDone(ctx.settings.strict, ctx.now, old(View()), n, Dependents(old(items), n))
    {
      ghost var was := View();
      var left := Dependents(items, n);
      ghost var done: set<ItemNo> := {};
      CascadeNone(ctx.settings.strict, ctx.now, was, n);
      while left != {}
        invariant done + left == Dependents(was.items, n) && done !! left
        invariant View() == BoardSpec.CascadeDone(ctx.settings.strict, ctx.now, was, n, done)
        decreases left
      {
        var d :| d in left;
        CascadeOne(ctx.settings.strict, ctx.now, was, n, done, d);
        left, done := left - {d}, done + {d};
        Unhook(d, n);
      }
      assert done == Dependents(was.items, n);
    }

    /** One dependent of a done item. */
    method Unhook(d: ItemNo, n: ItemNo)
      requires d in items && n in items[d].blockedBy
      modifies this
      ensures View() == UnhookedTx(ctx.settings.strict, ctx.now, old(View()), d, n)
    {
      hide UnhookedTx, EdgeGone, Released;
      UnhookedParts(ctx.settings.strict, ctx.now, View(), d, n);
      EdgeGoneItem(View(), d, n);
      DropEdge(d, n);
      if items[d].blockedBy == {} && items[d].status == Blocked && items[d].blockedOn.None? {
        Unblock(d);
      }
    }

    /** The edge goes, and a flag that has lost its reason. */
    method DropEdge(d: ItemNo, n: ItemNo)
      requires d in items && n in items[d].blockedBy
      modifies this
      ensures View() == EdgeGone(old(View()), d, n)
    {
      hide HasDroppedBlocker, LosesFlag;
      var it := items[d];
      it := it.(blockedBy := it.blockedBy - {n});
      items := items[d := it];
      depsChanged, dirty := depsChanged + {d}, dirty + {d};
      ghost var before := View();
      ClearBlockerDropped(d);
      UnhookedFlags(old(View()), before, d, n);
      UpdatedTwice(old(items), d, it, items[d]);
    }

    /** A blocked item with nothing left to wait on is work again. */
    method Unblock(d: ItemNo)
      requires d in items
      modifies this
      ensures View() == Released(ctx.settings.strict, ctx.now, old(View()), d)
    {
      var it := items[d];
      it := it.(status := if it.holders != [] || ctx.settings.strict then Active else Open, clockResetAt := Some(ctx.now));
      if it.status == Active {
        it := it.(actionableAt := Some(ctx.now));
      }
      items, unblocked := items[d := it], unblocked + {d};
    }

    method FlagDependentsDropped(n: ItemNo)
      modifies this
      ensures View() == FlagDropped(old(View()), Dependents(old(items), n))
    {
      hide FlagDropped, DroppedDetail;
      ghost var was := View();
      var left := Dependents(items, n);
      ghost var done: set<ItemNo> := {};
      FlagNone(was);
      while left != {}
        invariant done + left == Dependents(was.items, n) && done !! left
        invariant View() == FlagDropped(was, done)
        decreases left
      {
        var d :| d in left;
        left := left - {d};
        FlagOne(was, done, d);
        if !Closed(items[d].status) {
          var detail := DroppedDetail(items, items[d]);
          RaiseFlag(d, BlockerDropped, detail);
          dirty := dirty + {d};
        }
        done := done + {d};
      }
      assert done == Dependents(was.items, n);
    }

    method ClearDependents(n: ItemNo)
      modifies this
      ensures View() == BoardSpec.ClearDependents(old(View()), Dependents(old(items), n))
    {
      ghost var was := View();
      var left := Dependents(items, n);
      ghost var done: set<ItemNo> := {};
      ClearNone(was);
      while left != {}
        invariant done + left == Dependents(was.items, n) && done !! left
        invariant View() == BoardSpec.ClearDependents(was, done)
        decreases left
      {
        var d :| d in left;
        assert items[d] == was.items[d];
        ClearOne(was, done, d);
        left, done := left - {d}, done + {d};
        ClearBlockerDropped(d);
      }
      assert done == Dependents(was.items, n);
    }

    // ---- one write ----

    method Propose(n: ItemNo, w: Write, creating: bool) returns (r: Result<Item, Error>)
      requires n in items
      ensures r == Proposed(ctx, items, n, w, creating)
    {
      hide BlockerError, NextHolders, Patched;
      var f := w.fields;
      var patched := PatchFields(items[n], f);
      if patched.Err? {
        return patched;
      }
      var it := patched.value;
      var holders := MergeHolders(it.holders, w, creating);
      it := it.(holders := holders);
      if f.blockedBy.Set? {
        var error := CheckBlockers(items, n, f.blockedBy.value);
        if error.Some? {
          return Err(error.value);
        }
        it := it.(blockedBy := ToSet(f.blockedBy.value));
      }
      r := Ok(it);
    }

    /** The fields as sent, each where the write sets it. */
    method PatchFields(was: Item, f: Fields) returns (r: Result<Item, Error>)
      ensures r == Patched(ctx, was, f)
      ensures r.Ok? ==> r.value.holders == was.holders && r.value.blockedBy == was.blockedBy
    {
      var it := was;
      if f.status == Set(None) {
        return Err(InvalidStatus);
      }
      if f.blockedOn.Set? {
        it := it.(blockedOn := Clean(f.blockedOn.value));
      }
      if f.checkBack.Set? {
        it := it.(checkBackAt := f.checkBack.value);
        if ctx.settings.strict && it.checkBackAt.Some? && it.checkBackAt.value > ctx.now + ctx.settings.checkBackMax {
          return Err(CheckBackTooFar);
        }
      }
      if f.job.Set? {
        it := it.(job := Clean(f.job.value));
      }
      if f.eta.Set? {
        it := it.(etaAt := f.eta.value, waitingSetAt := if EtaGiven(f) then Some(ctx.now) else None);
      }
      r := Ok(it);
    }

    /** The status a write leads to, explicit or derived. */
    method DeriveStatus(it: Item, f: Fields, creating: bool, holdersChanged: bool) returns (status: Status)
      ensures status == NextStatus(ctx, it, f, creating, holdersChanged, it.holders != [])
    {
      var strict := ctx.settings.strict;
      var held := it.holders != [];
      status := if creating then Open else it.status;
      if Explicit(f).Some? {
        status := Explicit(f).value;
      } else {
        if creating {
          status := if held then Active else Open;
        } else if holdersChanged && !Closed(status) {
          if !held && status == Active {
            if !strict {
              status := Open;
            }
          } else if held && status == Open {
            status := Active;
          }
        }
        if !Closed(status) {
          if f.blockedBy.Set? && it.blockedBy != {} {
            status := Blocked;
          } else if f.blockedOn.Set? && it.blockedOn.Some? && status != BlockedOnOwner {
            status := Blocked;
          } else if EtaGiven(f) {
            status := if strict then Active else Waiting;
          } else if f.blockedBy.Set? && it.blockedBy == {} && status == Blocked && it.blockedOn.None? {
            status := if held || strict then Active else Open;
          }
        }
      }
      if strict && creating && status == Open && !held && ctx.actor.pid == Owner {
        status := Active;
      }
    }

    method SettleBlock(proposed: Item, f: Fields, status: Status) returns (r: Result<Item, Error>)
      ensures r == SettledBlock(proposed, f, status)
    {
      var it := proposed;
      if status != Blocked {
        if f.blockedBy.Set? && it.blockedBy != {} {
          return Err(BlockersNeedBlocked);
        }
        var keepsText := status == BlockedOnOwner;
        if f.blockedOn.Set? && it.blockedOn.Some? && !keepsText {
          return Err(TextNeedsBlocked);
        }
        it := it.(blockedBy := {});
        if !keepsText {
          it := it.(blockedOn := None);
        }
        it := it.(checkBackAt := None);
      }
      r := Ok(it);
    }

    method SettleEta(proposed: Item, f: Fields, status: Status, prev: Option<Status>) returns (r: Result<Item, Error>)
      ensures r == SettledEta(proposed, f, status, prev)
    {
      var it := proposed;
      var keepsEta := status == Active && it.etaAt.Some? && (EtaGiven(f) || prev == Some(Active));
      if status == Waiting {
        if !EtaGiven(f) && (prev != Some(Waiting) || it.etaAt.None?) {
          return Err(EtaRequired);
        }
      } else if keepsEta {
      } else if it.etaAt.Some? || it.waitingSetAt.Some? {
        if EtaGiven(f) {
          return Err(EtaNeedsStatus);
        }
        it := it.(etaAt := None, waitingSetAt := None);
      }
      r := Ok(it);
    }

    /** Clears what the new status does not carry, or refuses it. */
    method Settle(proposed: Item, f: Fields, status: Status, prev: Option<Status>) returns (r: Result<Item, Error>)
      ensures r == Settled(ctx.settings.strict, proposed, f, status, prev)
    {
      hide SettledBlock, SettledEta;
      r := SettleBlock(proposed, f, status);
      if r.Err? {
        return;
      }
      r := SettleEta(r.value, f, status, prev);
      if r.Err? {
        return;
      }
      var it := r.value;
      if status != Active {
        if JobGiven(f) {
          return Err(JobNeedsActive);
        }
        it := it.(job := None);
      } else if ctx.settings.strict && it.job.Some? && it.etaAt.None? {
        return Err(JobNeedsEta);
      }
      r := Ok(it);
    }

    method DraftWrite(n: ItemNo, w: Write, mode: Mode) returns (r: Result<Draft, Error>)
      requires n in items
      ensures r == Drafted(ctx, items, n, w, mode)
    {
      hide Proposed, NextStatus, Refusal, Settled, Stamped, OwnerError;
      var was := items[n];
      var prev := if mode.Creating? then None else Some(was.status);
      if was.linkArchivedAt.Some? && !mode.Creating? {
        return Err(LinkArchived);
      }
      var proposed := Propose(n, w, mode.Creating?);
      if proposed.Err? {
        return Err(proposed.error);
      }
      var it := proposed.value;
      var holdersMoved := mode.Creating? || it.holders != was.holders;
      var depsMoved := it.blockedBy != was.blockedBy;
      var status := DeriveStatus(it, w.fields, mode.Creating?, holdersMoved);
      var refusal := Refusal(ctx, it, was, w.fields, status, prev, mode, w.reopen);
      if refusal.Some? {
        return Err(refusal.value);
      }
      var settled := Settle(it, w.fields, status, prev);
      if settled.Err? {
        return Err(settled.error);
      }
      if OwnerError(status, it.holders).Some? {
        return Err(OwnerError(status, it.holders).value);
      }
      depsMoved := depsMoved || settled.value.blockedBy != was.blockedBy;
      r := Ok(Draft(Stamped(ctx, settled.value, status, prev, holdersMoved), holdersMoved, depsMoved));
    }

    /** An item with a named owner needs no owner picked. */
    method SettlePickOwner(n: ItemNo)
      requires n in items
      modifies this
      ensures var it := old(items)[n];
              View() == ResolveFlags(old(View()), n, if OwnerOf(it.holders).Some? && !Legacy(it.holders) then {PickOwner} else {})
    {
      ResolveNothing(View(), n, {});
      if OwnerOf(items[n].holders).Some? && !Legacy(items[n].holders) {
        var open := ResolveFlag(n, PickOwner);
      }
    }

    method SettleBlockerDropped(n: ItemNo)
      requires n in items
      modifies this
      ensures View() == ResolveFlags(old(View()), n,
                if n in old(depsChanged) && !HasDroppedBlocker(old(items), old(items)[n].blockedBy) then {BlockerDropped} else {})
    {
      hide HasDroppedBlocker;
      ResolveNothing(View(), n, {});
      if n in depsChanged {
        ClearBlockerDropped(n);
      }
    }

    /** `Suggested` is resolved by a write that moves the status, and by no other. */
    method SettleSuggestion(n: ItemNo, status: Status, prev: Option<Status>)
      requires n in items
      modifies this
      ensures View() == ResolveFlags(old(View()), n, if prev.Some? && prev != Some(status) then {Suggested} else {})
    {
      ResolveNothing(View(), n, {});
      if prev.Some? && prev != Some(status) {
        var open := ResolveFlag(n, Suggested);
      }
    }

    /** The flags of the written item that a new owner, new blockers or a new
     *  status settle. */
    method SettleMoved(n: ItemNo, status: Status, prev: Option<Status>)
      requires n in items
      modifies this
      ensures View() == ResolveFlags(old(View()), n, MovedFlags(old(items), old(items)[n], n in old(depsChanged), status, prev))
    {
      hide ResolveFlags, HasDroppedBlocker, OwnerOf, Legacy;
      ghost var was := View();
      ghost var it := items[n];
      ghost var moved := MovedFlags(items, it, n in depsChanged, status, prev);
      ghost var owned: set<FlagKind> := if OwnerOf(it.holders).Some? && !Legacy(it.holders) then {PickOwner} else {};
      ghost var unhurt: set<FlagKind> := if n in depsChanged && !HasDroppedBlocker(items, it.blockedBy) then {BlockerDropped} else {};
      ghost var acted: set<FlagKind> := if prev.Some? && prev != Some(status) then {Suggested} else {};
      assert owned + unhurt + acted == moved;
      hide MovedFlags;
      ResolveFrame(was, n, owned);
      ResolveTwice(was, n, owned, unhurt);
      ResolveTwice(was, n, owned + unhurt, acted);
      SettlePickOwner(n);
      SettleBlockerDropped(n);
      ResolveFrame(was, n, owned + unhurt);
      SettleSuggestion(n, status, prev);
    }

    /** Settles the flags of the written item itself. */
    method SettleFlags(n: ItemNo, status: Status, prev: Option<Status>)
      requires n in items
      modifies this
      ensures View() == OwnFlags(old(View()), n, status, prev)
    {
      hide MovedFlags;
      ghost var was := View();
      ghost var moved := MovedFlags(items, items[n], n in depsChanged, status, prev);
      SettleMoved(n, status, prev);
      if Closed(status) && !(prev.Some? && Closed(prev.value)) {
        ghost var left := items[n].flags.Keys;
        ResolveTwice(was, n, moved, left);
        CloseFlags(n);
        ResolveSame(was, n, moved + left, was.items[n].flags.Keys);
      }
    }

    method TellDependents(n: ItemNo, status: Status, prev: Option<Status>)
      modifies this
      ensures View() == Neighbours(ctx, old(View()), n, status, prev)
    {
      hide BoardSpec.CascadeDone, BoardSpec.ClearDependents, FlagDropped;
      var wasClosed := prev.Some? && Closed(prev.value);
      if !Closed(status) && wasClosed {
        ClearDependents(n);
      }
      if status == Done && prev != Some(Done) {
        CascadeDone(n);
      } else if status == Dropped && !wasClosed {
        FlagDependentsDropped(n);
      }
    }

    method Place(n: ItemNo, draft: Draft, prev: Option<Status>)
      requires n in items
      modifies this
      ensures var was := old(View());
              var placed := Placed(was, n, draft);
              View() == placed.(ownerChanges := placed.ownerChanges
                + OwnerChanges(n, OwnerOf(was.items[n].holders), OwnerOf(draft.it.holders), draft.it.status, prev))
    {
      var prevOwner, owner := OwnerOf(items[n].holders), OwnerOf(draft.it.holders);
      if draft.holdersChanged {
        holdersChanged := holdersChanged + {n};
      }
      if draft.depsChanged {
        depsChanged := depsChanged + {n};
      }
      items := items[n := draft.it];
      var status := draft.it.status;
      if Closed(status) && prevOwner.Some? && prev != Some(status) {
        ownerChanges := ownerChanges + [OwnerChange(n, prevOwner, None)];
      } else if owner != prevOwner && !Closed(status) {
        ownerChanges := ownerChanges + [OwnerChange(n, prevOwner, owner)];
      }
    }

    /** One write, to the end of its effects on other items. After a refusal nobody looks
     *  at this transaction again, so only successes say what it leaves. */
    method Apply(n: ItemNo, w: Write, mode: Mode) returns (error: Option<Error>)
      modifies this
      ensures BoardSpec.Apply(ctx, old(View()), n, w, mode) == if error.Some? then Err(error.value) else Ok(View())
    {
      hide Drafted, OwnFlags, Neighbours, ClosesCycle, OwnerChanges;
      if n !in items {
        return Some(NotFound);
      }
      var draft := DraftWrite(n, w, mode);
      if draft.Err? {
        return Some(draft.error);
      }
      var status := draft.value.it.status;
      var prev := if mode.Creating? then None else Some(items[n].status);
      Place(n, draft.value, prev);
      if n in depsChanged {
        var cycle := CheckCycles(n);
        if cycle.Some? {
          return Some(CycleRefused);
        }
      }
      SettleFlags(n, status, prev);
      TellDependents(n, status, prev);
      dirty := dirty + {n};
      error := None;
    }

    // ---- operations ----

    method Update(ns: seq<ItemNo>, w: Write, expected: Option<Status>) returns (error: Option<Error>)
      modifies this
      ensures BoardSpec.Update(ctx, old(View()), ns, w, expected) == if error.Some? then Err(error.value) else Ok(View())
    {
      hide BoardSpec.Apply, Unique;
      if ns == [] || |ns| > MAX_ITEMS_PER_CALL {
        return Some(InvalidField);
      }
      var numbers := EachOnce(ns);
      ghost var was := View();
      for i := 0 to |numbers|
        invariant UpdateEach(ctx, was, numbers[..i], w, expected) == Ok(View())
      {
        var n := numbers[i];
        SnocTaken(numbers, i);
        UpdateStops(ctx, was, numbers, i + 1, w, expected);
        if n !in items {
          return Some(NotFound);
        }
        if expected.Some? && items[n].status != expected.value {
          return Some(StatusChanged);
        }
        error := Apply(n, w, Editing);
        if error.Some? {
          return;
        }
      }
      assert numbers[..|numbers|] == numbers;
      error := None;
    }

    method Create(specs: seq<Spec>) returns (error: Option<Error>)
      modifies this
      ensures BoardSpec.Create(ctx, old(View()), specs) == if error.Some? then Err(error.value) else Ok(View())
    {
      hide BoardSpec.Apply;
      if specs == [] || |specs| > MAX_ITEMS_PER_CALL {
        return Some(InvalidField);
      }
      ghost var was := View();
      for i := 0 to |specs|
        invariant CreateEach(ctx, was, specs[..i]) == Ok(View())
      {
        SnocTaken(specs, i);
        CreateStops(ctx, was, specs, i + 1);
        ghost var before := View();
        var n := ItemNo(next);
        next := next + 1;
        items := items[n := NewItem(ctx.now)];
        created := created + {n};
        assert View() == Added(ctx, before);
        error := Apply(n, SpecWrite(ctx, specs[i]), Creating);
        if error.Some? {
          return;
        }
      }
      assert specs[..|specs|] == specs;
      error := None;
    }

    /** Resolves one kind of flag, or every open one. */
    method ResolveKinds(n: ItemNo, kind: Option<FlagKind>)
      requires n in items
      modifies this
      ensures View() == BoardSpec.ResolveKinds(old(View()), n, kind)
    {
      if kind.Some? {
        var open := ResolveFlag(n, kind.value);
      } else {
        CloseFlags(n);
      }
    }

    method Resolve(n: ItemNo, action: Action, kind: Option<FlagKind>) returns (error: Option<Error>)
      modifies this
      ensures BoardSpec.Resolve(ctx, old(View()), n, action, kind) == if error.Some? then Err(error.value) else Ok(View())
    {
      hide BoardSpec.Apply, BoardSpec.ResolveKinds, ResolveFlags;
      if n !in items {
        return Some(NotFound);
      }
      if action.Launch? {
        return Some(InvalidField);
      }
      var it := items[n];
      if Closed(it.status) && !action.Drop? {
        return Some(ItemClosed);
      }
      match action {
        case Answer(message) =>
          if it.status != BlockedOnOwner || !message.Words? {
            return Some(InvalidField);
          }
          CloseFlags(n);
          var to := if it.holders != [] || ctx.settings.strict then Active else Open;
          error := Apply(n, FieldWrite(StatusFields(Some(to))), Answering);
        case Confirm(to) =>
          if Suggested !in it.flags {
            return Some(NoSuggestion);
          }
          if to.None? {
            return Some(InvalidField);
          }
          if to != SuggestedStatus(it) {
            return Some(SuggestionChanged);
          }
          var open := ResolveFlag(n, Suggested);
          error := Apply(n, FieldWrite(StatusFields(to)), Editing);
        case Dismiss =>
          if Suggested !in it.flags {
            return Some(NoSuggestion);
          }
          DismissSuggestion(n);
          error := None;
        case Nudge =>
          if it.holders == [] {
            return Some(NoHolders);
          }
          ResolveKinds(n, kind);
          ResolveKeeps(old(View()), n, kind);
          items, dirty := items[n := items[n].(touchedAt := ctx.now)], dirty + {n};
          error := None;
        case Reassign(holders) =>
          if holders == [] {
            return Some(InvalidField);
          }
          ResolveKinds(n, kind);
          error := Apply(n, Write(NO_FIELDS, Some(holders), [], {}, None, false), Editing);
        case Block(blockedBy, blockedOn, checkBack) =>
          if !blockedOn.Null? && checkBack.None? {
            return Some(CheckBackRequired);
          }
          if blockedBy == [] && blockedOn.Null? {
            return Some(InvalidField);
          }
          ResolveKinds(n, kind);
          error := Apply(n, FieldWrite(BlockFields(blockedBy, blockedOn, checkBack)), Editing);
        case Drop =>
          ResolveKinds(n, kind);
          error := Apply(n, FieldWrite(StatusFields(Some(Dropped))), Editing);
      }
    }

    /** Settles the suggestion and remembers it was refused at this status. */
    method DismissSuggestion(n: ItemNo)
      requires n in items
      modifies this
      ensures var was := old(View());
              var tx := ResolveFlags(was, n, {Suggested});
              View() == Touched(tx, n, Forgotten(tx.items[n], SuggestedStatus(was.items[n])))
    {
      var target := SuggestedStatus(items[n]);
      var open := ResolveFlag(n, Suggested);
      var it := items[n];
      if target.Some? {
        it := it.(dismissed := it.dismissed[target.value := Dismissal(it.status, it.gateHead)]);
      }
      items, dirty := items[n := it], dirty + {n};
    }

    /** Observed activity on items, each named once. */
    method Touch(ns: seq<ItemNo>, anyItem: bool, hint: Option<Hint>)
      modifies this
      ensures View() == TouchEach(ctx, old(View()), Unique(ns), anyItem, hint)
    {
      hide TouchOne;
      var numbers := EachOnce(ns);
      ghost var was := View();
      for i := 0 to |numbers|
        invariant View() == TouchEach(ctx, was, numbers[..i], anyItem, hint)
      {
        SnocTaken(numbers, i);
        TouchItem(numbers[i], anyItem, hint);
      }
      assert numbers[..|numbers|] == numbers;
    }

    method TouchItem(n: ItemNo, anyItem: bool, hint: Option<Hint>)
      modifies this
      ensures View() == TouchOne(ctx, old(View()), n, anyItem, hint)
    {
      hide BoardSpec.Suggest;
      if n !in items || items[n].archivedAt.Some? || Closed(items[n].status) {
        return;
      }
      if !anyItem && !Holds(items[n].holders, ctx.actor.pid) {
        return;
      }
      if Holds(items[n].holders, ctx.actor.pid) {
        items, dirty := items[n := items[n].(touchedAt := ctx.now, launchedAt := Some(ctx.now))], dirty + {n};
      }
      if hint.Some? {
        Suggest(n, hint.value);
      }
    }

    method Suggest(n: ItemNo, hint: Hint)
      requires n in items
      modifies this
      ensures View() == BoardSpec.Suggest(ctx, old(View()), n, hint)
    {
      hide BoardSpec.RaiseFlag;
      var it := items[n];
      if !Suggestible(it, hint) {
        return;
      }
      if Suggested in it.flags && SuggestedStatus(it) != Some(hint.to) {
        var open := ResolveFlag(n, Suggested);
      }
      RaiseFlag(n, Suggested, Suggestion(hint.to, hint.keyword, ctx.actor.pid));
    }
  }

  /** Each number once, in order of first mention. */
  method EachOnce(ns: seq<ItemNo>) returns (numbers: seq<ItemNo>)
    ensures numbers == Unique(ns)
  {
    numbers := [];
    for i := 0 to |ns|
      invariant numbers == Unique(ns[..i])
    {
      SnocTaken(ns, i);
      if ns[i] !in numbers {
        numbers := numbers + [ns[i]];
      }
    }
    assert ns[..|ns|] == ns;
  }

  lemma {:induction false} UpdateStops(ctx: Context, tx: Tx, ns: seq<ItemNo>, k: nat, w: Write, expected: Option<Status>)
    requires k <= |ns|
    ensures UpdateEach(ctx, tx, ns[..k], w, expected).Err? ==>
              UpdateEach(ctx, tx, ns, w, expected) == UpdateEach(ctx, tx, ns[..k], w, expected)
    decreases |ns|
  {
    hide BoardSpec.Apply;
    if k == |ns| {
      assert ns[..k] == ns;
    } else {
      var rest := ns[..|ns| - 1];
      assert rest[..k] == ns[..k];
      UpdateStops(ctx, tx, rest, k, w, expected);
    }
  }

  lemma {:induction false} CreateStops(ctx: Context, tx: Tx, specs: seq<Spec>, k: nat)
    requires k <= |specs|
    ensures CreateEach(ctx, tx, specs[..k]).Err? ==> CreateEach(ctx, tx, specs) == CreateEach(ctx, tx, specs[..k])
    decreases |specs|
  {
    hide BoardSpec.Apply;
    if k == |specs| {
      assert specs[..k] == specs;
    } else {
      var rest := specs[..|specs| - 1];
      assert rest[..k] == specs[..k];
      CreateStops(ctx, tx, rest, k);
    }
  }

  lemma ResolveKeeps(tx: Tx, n: ItemNo, kind: Option<FlagKind>)
    requires n in tx.items
    ensures n in BoardSpec.ResolveKinds(tx, n, kind).items
  {
  }

  /** Every node seen since `before` has all its successors seen, and none is the
   *  target. */
  ghost predicate Explored(g: Graph<ItemNo>, target: ItemNo, before: set<ItemNo>, seen: set<ItemNo>) {
    forall x {:trigger Succ(g, x)} :: x in seen && x !in before ==> target !in Succ(g, x) && Succ(g, x) <= seen
  }

  lemma WalkOn(g: Graph<ItemNo>, a: ItemNo, p: seq<ItemNo>, b: ItemNo)
    requires Walk(g, p) && p[0] in Succ(g, a) && p[|p| - 1] == b
    ensures WalkFromTo(g, [a] + p, a, b)
  {
  }

  lemma ExploredMisses(g: Graph<ItemNo>, n: ItemNo, seen: set<ItemNo>, start: ItemNo)
    requires Explored(g, n, {n}, seen) && start in seen && start != n
    ensures !Reaches(g, start, n)
  {
    if p :| WalkFromTo(g, p, start, n) {
      ClosedKeepsWalks(g, seen - {n}, p);
      assert false;
    }
  }

  /** What one step of the cascade does, from the state it finds. */
  function UnhookedTx(strict: bool, now: Time, tx: Tx, d: ItemNo, n: ItemNo): Tx
    requires d in tx.items
  {
    tx.(items := tx.items[d := Unhooked(strict, now, tx.items, tx.items[d], n)],
        dirty := tx.dirty + {d}, depsChanged := tx.depsChanged + {d},
        resolved := tx.resolved + (if LosesFlag(tx.items, tx.items[d], n) then {FlagKey(d, BlockerDropped)} else {}),
        unblocked := tx.unblocked + (if Unblocks(tx.items[d], n) then {d} else {}))
  }

  /** Its first half: the edge and the flag. */
  function EdgeGone(tx: Tx, d: ItemNo, n: ItemNo): Tx
    requires d in tx.items
  {
    var it := tx.items[d];
    tx.(items := tx.items[d := it.(blockedBy := it.blockedBy - {n},
                                   flags := if HasDroppedBlocker(tx.items, it.blockedBy - {n}) then it.flags
                                            else it.flags - {BlockerDropped})],
        dirty := tx.dirty + {d}, depsChanged := tx.depsChanged + {d},
        resolved := tx.resolved + (if LosesFlag(tx.items, tx.items[d], n) then {FlagKey(d, BlockerDropped)} else {}))
  }

  /** ... and its second: the item is work again. */
  function Released(strict: bool, now: Time, tx: Tx, d: ItemNo): Tx
    requires d in tx.items
  {
    var it := tx.items[d];
    var active := it.holders != [] || strict;
    tx.(unblocked := tx.unblocked + {d},
        items := tx.items[d := it.(status := if active then Active else Open, clockResetAt := Some(now),
                                   actionableAt := if active then Some(now) else it.actionableAt)])
  }

  lemma EdgeGoneItem(tx: Tx, d: ItemNo, n: ItemNo)
    requires d in tx.items && n in tx.items[d].blockedBy
    ensures d in EdgeGone(tx, d, n).items
    ensures var it := EdgeGone(tx, d, n).items[d];
            it.blockedBy == {} && it.status == Blocked && it.blockedOn.None? <==> Unblocks(tx.items[d], n)
  {
  }

  lemma UnhookedParts(strict: bool, now: Time, tx: Tx, d: ItemNo, n: ItemNo)
    requires d in tx.items
    ensures d in EdgeGone(tx, d, n).items
    ensures UnhookedTx(strict, now, tx, d, n)
            == if Unblocks(tx.items[d], n) then Released(strict, now, EdgeGone(tx, d, n), d) else EdgeGone(tx, d, n)
  {
    hide Unblocks, LosesFlag, HasDroppedBlocker;
    var gone := EdgeGone(tx, d, n);
    UpdatedTwice(tx.items, d, gone.items[d], Released(strict, now, gone, d).items[d]);
  }

  lemma CascadeNone(strict: bool, now: Time, tx: Tx, n: ItemNo)
    ensures BoardSpec.CascadeDone(strict, now, tx, n, {}) == tx
  {
    assert BoardSpec.CascadeDone(strict, now, tx, n, {}).items == tx.items;
  }

  /** Unhooking one more dependent takes the cascade from `done` to `done + {d}`. */
  lemma CascadeOne(strict: bool, now: Time, was: Tx, n: ItemNo, done: set<ItemNo>, d: ItemNo)
    requires done + {d} <= Dependents(was.items, n) && d !in done
    ensures UnhookedTx(strict, now, BoardSpec.CascadeDone(strict, now, was, n, done), d, n)
            == BoardSpec.CascadeDone(strict, now, was, n, done + {d})
  {
    hide HasDroppedBlocker, LosesFlag, Unblocks, Unhooked;
    var items := was.items;
    var some := BoardSpec.CascadeDone(strict, now, was, n, done);
    var one, all := UnhookedTx(strict, now, some, d, n), BoardSpec.CascadeDone(strict, now, was, n, done + {d});
    UnhookedSame(strict, now, items, n, done, d);
    assert one.items == all.items by {
      UnhookedGrow(strict, now, items, n, done, d);
      hide UnhookedItems;
    }
    hide UnhookedItems;
    assert one.resolved == all.resolved by {
      LosersGrow(items, n, done, d);
      UnionsGroup(was.resolved, set m | m in done && LosesFlag(items, items[m], n) :: FlagKey(m, BlockerDropped),
                  if LosesFlag(items, items[d], n) then {FlagKey(d, BlockerDropped)} else {});
    }
    assert one.unblocked == all.unblocked by {
      FreedGrow(items, n, done, d);
      UnionsGroup(was.unblocked, set m | m in done && Unblocks(items[m], n), if Unblocks(items[d], n) then {d} else {});
    }
    UnionsGroup(was.dirty, done, {d});
    UnionsGroup(was.depsChanged, done, {d});
  }

  /** The cascade leaves what it has not reached as it was, and drops nobody. */
  lemma UnhookedSame(strict: bool, now: Time, items: Items, n: ItemNo, done: set<ItemNo>, d: ItemNo)
    requires done <= items.Keys && d in items && d !in done
    ensures var some := UnhookedItems(strict, now, items, n, done);
            && d in some && some[d] == items[d]
            && (LosesFlag(some, items[d], n) <==> LosesFlag(items, items[d], n))
            && Unhooked(strict, now, some, items[d], n) == Unhooked(strict, now, items, items[d], n)
  {
    var some := UnhookedItems(strict, now, items, n, done);
    SameDropped(items, some);
    hide UnhookedItems, HasDroppedBlocker;
  }

  lemma UnhookedGrow(strict: bool, now: Time, items: Items, n: ItemNo, done: set<ItemNo>, d: ItemNo)
    requires d in items && d !in done
    ensures UnhookedItems(strict, now, items, n, done + {d})
            == UnhookedItems(strict, now, items, n, done)[d := Unhooked(strict, now, items, items[d], n)]
  {
    hide Unhooked;
  }

  lemma LosersGrow(items: Items, n: ItemNo, done: set<ItemNo>, d: ItemNo)
    requires done + {d} <= items.Keys
    ensures (set m | m in done + {d} && LosesFlag(items, items[m], n) :: FlagKey(m, BlockerDropped))
            == (set m | m in done && LosesFlag(items, items[m], n) :: FlagKey(m, BlockerDropped))
               + if LosesFlag(items, items[d], n) then {FlagKey(d, BlockerDropped)} else {}
  {
    hide LosesFlag;
  }

  lemma FreedGrow(items: Items, n: ItemNo, done: set<ItemNo>, d: ItemNo)
    requires done + {d} <= items.Keys
    ensures (set m | m in done + {d} && Unblocks(items[m], n))
            == (set m | m in done && Unblocks(items[m], n)) + if Unblocks(items[d], n) then {d} else {}
  {
    hide Unblocks;
  }

  /** The flags of a dependent that lost its blocker `n`, once settled. */
  lemma UnhookedFlags(was: Tx, tx: Tx, d: ItemNo, n: ItemNo)
    requires d in was.items && tx.resolved == was.resolved
    requires tx.items == was.items[d := was.items[d].(blockedBy := was.items[d].blockedBy - {n})]
    ensures var kinds := if HasDroppedBlocker(tx.items, tx.items[d].blockedBy) then {} else {BlockerDropped};
            && ResolveFlags(tx, d, kinds).resolved
               == was.resolved + (if LosesFlag(was.items, was.items[d], n) then {FlagKey(d, BlockerDropped)} else {})
            && ResolveFlags(tx, d, kinds).items[d].flags
               == if HasDroppedBlocker(was.items, was.items[d].blockedBy - {n}) then was.items[d].flags
                  else was.items[d].flags - {BlockerDropped}
  {
    SameDropped(was.items, tx.items);
    assert was.items[d].flags - {} == was.items[d].flags;
  }

  lemma FlagNone(tx: Tx)
    ensures FlagDropped(tx, {}) == tx
  {
    hide DroppedDetail, DroppedFlags;
    var none := FlagDropped(tx, {});
    assert none.items == tx.items;
    assert none.details == tx.details;
    assert none.raised == tx.raised;
  }

  /** What a dependent hears of a dropped blocker, from the state it finds. */
  function FlaggedTx(tx: Tx, d: ItemNo): Tx
    requires d in tx.items
  {
    if Closed(tx.items[d].status) then tx
    else
      var tx1 := BoardSpec.RaiseFlag(tx, d, BlockerDropped, DroppedDetail(tx.items, tx.items[d]));
      tx1.(dirty := tx1.dirty + {d})
  }

  lemma FlagOne(was: Tx, done: set<ItemNo>, d: ItemNo)
    requires done + {d} <= was.items.Keys && d !in done
    ensures d in FlagDropped(was, done).items && FlagDropped(was, done).items[d] == was.items[d]
    ensures FlaggedTx(FlagDropped(was, done), d) == FlagDropped(was, done + {d})
  {
    var items := was.items;
    var hear, hear' := Hearing(items, done), Hearing(items, done + {d});
    var some := FlaggedItems(items, hear);
    FlaggedSame(items, hear, d);
    var it, key, detail := items[d], FlagKey(d, BlockerDropped), DroppedDetail(items, items[d]);
    if Closed(it.status) {
      assert hear' == hear;
    } else {
      assert hear' == hear + {d} && d !in hear;
      FlaggedGrow(items, hear, d);
      hide FlaggedItems, DroppedDetail, DroppedFlags, Hearing;
      assert was.dirty + hear' == was.dirty + hear + {d};
      RefreshedGrow(was, hear, d);
      AlertedGrow(was, hear, d);
      hide Refreshed, Alerted;
      if BlockerDropped in it.flags && it.flags[BlockerDropped] == detail {
        assert it.flags[BlockerDropped := detail] == it.flags;
        assert some[d := it] == some;
      }
    }
  }

  lemma FlaggedSame(items: Items, hear: set<ItemNo>, d: ItemNo)
    requires d in items && d !in hear
    ensures d in FlaggedItems(items, hear) && FlaggedItems(items, hear)[d] == items[d]
    ensures DroppedDetail(FlaggedItems(items, hear), items[d]) == DroppedDetail(items, items[d])
  {
    assert DroppedAmong(FlaggedItems(items, hear), items[d].blockedBy) == DroppedAmong(items, items[d].blockedBy);
  }

  lemma FlaggedGrow(items: Items, hear: set<ItemNo>, d: ItemNo)
    requires d in items && d !in hear
    ensures FlaggedItems(items, hear + {d}) == FlaggedItems(items, hear)[d := Flagged(items, items[d])]
  {
    hide Flagged;
  }

  lemma RefreshedGrow(was: Tx, hear: set<ItemNo>, d: ItemNo)
    requires hear + {d} <= was.items.Keys && d !in hear
    ensures var items, key, detail := was.items, FlagKey(d, BlockerDropped), DroppedDetail(was.items, was.items[d]);
            was.details + DroppedFlags(items, Refreshed(items, hear + {d}))
            == var log := was.details + DroppedFlags(items, Refreshed(items, hear));
               if BlockerDropped in items[d].flags && items[d].flags[BlockerDropped] != detail then log[key := detail] else log
  {
    hide DroppedDetail, DroppedFlags;
    assert Refreshed(was.items, hear + {d})
        == Refreshed(was.items, hear)
           + if BlockerDropped in was.items[d].flags
                && was.items[d].flags[BlockerDropped] != DroppedDetail(was.items, was.items[d]) then {d} else {};
    LogGrows(was.items, Refreshed(was.items, hear), d);
    UpdatedLast(was.details, DroppedFlags(was.items, Refreshed(was.items, hear)), FlagKey(d, BlockerDropped),
                DroppedDetail(was.items, was.items[d]));
    hide Refreshed;
  }

  lemma LogGrows(items: Items, ns: set<ItemNo>, d: ItemNo)
    requires ns <= items.Keys && d in items
    ensures DroppedFlags(items, ns + {d})
            == DroppedFlags(items, ns)[FlagKey(d, BlockerDropped) := DroppedDetail(items, items[d])]
    ensures DroppedFlags(items, ns + {}) == DroppedFlags(items, ns)
  {
    hide DroppedDetail;
    assert ns + {} == ns;
  }

  lemma AlertedGrow(was: Tx, hear: set<ItemNo>, d: ItemNo)
    requires hear + {d} <= was.items.Keys && d !in hear
    ensures var items, key, detail := was.items, FlagKey(d, BlockerDropped), DroppedDetail(was.items, was.items[d]);
            DroppedFlags(items, Alerted(items, hear + {d})) + was.raised
            == var log := DroppedFlags(items, Alerted(items, hear)) + was.raised;
               if BlockerDropped !in items[d].flags && key !in log then log[key := detail] else log
  {
    hide DroppedDetail, DroppedFlags;
    assert Alerted(was.items, hear + {d}) == Alerted(was.items, hear) + if BlockerDropped !in was.items[d].flags then {d} else {};
  }

  lemma ClearNone(tx: Tx)
    ensures BoardSpec.ClearDependents(tx, {}) == tx
  {
    assert BoardSpec.ClearDependents(tx, {}).items == tx.items;
  }

  lemma ClearOne(was: Tx, done: set<ItemNo>, d: ItemNo)
    requires done + {d} <= was.items.Keys && d !in done
    ensures var some := BoardSpec.ClearDependents(was, done);
            ResolveFlags(some, d, if HasDroppedBlocker(some.items, some.items[d].blockedBy) then {} else {BlockerDropped})
            == BoardSpec.ClearDependents(was, done + {d})
  {
    hide HasDroppedBlocker;
    var some := BoardSpec.ClearDependents(was, done);
    assert some.items.Keys == was.items.Keys && some.items[d] == was.items[d];
    SameDropped(was.items, some.items);
    ClearOneStep(was, done, d, if HasDroppedBlocker(was.items, was.items[d].blockedBy) then {} else {BlockerDropped});
  }

  lemma ClearOneStep(was: Tx, done: set<ItemNo>, d: ItemNo, kinds: set<FlagKind>)
    requires done + {d} <= was.items.Keys && d !in done
    requires kinds == if HasDroppedBlocker(was.items, was.items[d].blockedBy) then {} else {BlockerDropped}
    ensures d in BoardSpec.ClearDependents(was, done).items
    ensures ResolveFlags(BoardSpec.ClearDependents(was, done), d, kinds) == BoardSpec.ClearDependents(was, done + {d})
  {
    hide HasDroppedBlocker;
    var some, more := BoardSpec.ClearDependents(was, done), BoardSpec.ClearDependents(was, done + {d});
    assert some.items[d] == was.items[d];
    var next := ResolveFlags(some, d, kinds);
    assert next.items[d] == more.items[d] by {
      assert BlockerDropped !in was.items[d].flags ==> was.items[d].flags - kinds == was.items[d].flags;
      assert was.items[d].flags - {} == was.items[d].flags;
    }
    assert next.items == more.items;
    assert next.resolved == more.resolved;
  }

  lemma ResolveTwice(tx: Tx, n: ItemNo, a: set<FlagKind>, b: set<FlagKind>)
    requires n in tx.items
    ensures ResolveFlags(ResolveFlags(tx, n, a), n, b) == ResolveFlags(tx, n, a + b)
  {
    var once, twice := ResolveFlags(tx, n, a), ResolveFlags(tx, n, a + b);
    assert tx.items[n].flags - a - b == tx.items[n].flags - (a + b);
    assert ResolveFlags(once, n, b).items == twice.items;
    assert ResolveFlags(once, n, b).resolved == twice.resolved;
  }

  /** Resolving flags of `n` touches nothing that other rules look at. */
  lemma ResolveFrame(tx: Tx, n: ItemNo, kinds: set<FlagKind>)
    requires n in tx.items
    ensures var after := ResolveFlags(tx, n, kinds);
            && n in after.items && after.depsChanged == tx.depsChanged
            && after.items[n].blockedBy == tx.items[n].blockedBy
            && forall s: set<ItemNo> :: HasDroppedBlocker(after.items, s) <==> HasDroppedBlocker(tx.items, s)
  {
    SameDropped(tx.items, ResolveFlags(tx, n, kinds).items);
  }

  lemma ResolveSame(tx: Tx, n: ItemNo, a: set<FlagKind>, b: set<FlagKind>)
    requires n in tx.items && a * tx.items[n].flags.Keys == b * tx.items[n].flags.Keys
    ensures ResolveFlags(tx, n, a) == ResolveFlags(tx, n, b)
  {
    var flags := tx.items[n].flags;
    assert forall k :: k in flags ==> (k in a <==> k in a * flags.Keys) && (k in b <==> k in b * flags.Keys);
    assert flags - a == flags - b;
    assert ResolveFlags(tx, n, a).resolved == ResolveFlags(tx, n, b).resolved;
  }

  lemma ResolveNothing(tx: Tx, n: ItemNo, kinds: set<FlagKind>)
    requires n in tx.items && kinds !! tx.items[n].flags.Keys
    ensures ResolveFlags(tx, n, kinds) == tx
  {
    assert tx.items[n].flags - kinds == tx.items[n].flags;
    assert tx.items[n := tx.items[n]] == tx.items;
    assert (set k | k in kinds && k in tx.items[n].flags :: FlagKey(n, k)) == {};
  }
}
