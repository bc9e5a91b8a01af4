/** What a board transaction records of owners: every change of an open item's owner,
 * and every close of an owned item (`owner_changes` in dispatch/items_rules.py).
 */
module BoardOwners {
  import opened Prelude
  import opened Graphs
  import opened BoardRules
  import opened BoardSpec
  import opened BoardInvariants
  import opened BoardOperations
  import opened BoardSoundness

  function OwnerIn(items: Items, n: ItemNo): Option<Pid>
    requires n in items
  {
    OwnerOf(items[n].holders)
  }

  predicate IsOpen(items: Items, n: ItemNo)
    requires n in items
  {
    !Closed(items[n].status)
  }

  /** Same holders, same link, and open if it was. */
  ghost predicate SameWork(a: Items, b: Items, n: ItemNo)
    requires n in a && n in b
  {
    b[n].holders == a[n].holders && b[n].linkArchivedAt == a[n].linkArchivedAt && (IsOpen(b, n) <==> IsOpen(a, n))
  }

  predicate Mentions(changes: seq<OwnerChange>, n: ItemNo) {
    exists c :: c in changes && c.n == n
  }

  /** The record so far of a transaction that began with `before`; the items not in
   *  `done` have not been written yet. */
  ghost predicate OwnerLog(before: Items, tx: Tx, done: set<ItemNo>) {
    && before.Keys <= tx.items.Keys
    && (forall n :: n in before ==> tx.items[n].linkArchivedAt == before[n].linkArchivedAt)
    && (forall n :: n in before && n !in done ==> SameWork(before, tx.items, n) && !Mentions(tx.ownerChanges, n))
    && (forall n :: n in before && !Mentions(tx.ownerChanges, n) && IsOpen(before, n) && OwnerIn(before, n).Some? ==>
          IsOpen(tx.items, n) && OwnerIn(tx.items, n) == OwnerIn(before, n))
    && (forall c :: c in tx.ownerChanges ==> ChangeTrue(before, tx.items, c))
  }

  /** A recorded change leads from the owner at the start to the owner now, or to
   *  nobody. */
  ghost predicate ChangeTrue(before: Items, items: Items, c: OwnerChange) {
    && c.n in items && (c.to.None? || c.to == OwnerIn(items, c.n))
    && c.from == (if c.n in before then OwnerIn(before, c.n) else None)
  }

  lemma BegunLog(before: Items, next: nat)
    ensures OwnerLog(before, Begun(before, next), {})
  {
  }

  lemma UnhookedWork(strict: bool, now: Time, items: Items, it: Item, n: ItemNo)
    ensures var u := Unhooked(strict, now, items, it, n);
            u.holders == it.holders && u.linkArchivedAt == it.linkArchivedAt && (Closed(u.status) <==> Closed(it.status))
  {
    hide HasDroppedBlocker;
  }

  /** `after` is `before` with its items' work unchanged. */
  ghost predicate WorkKept(before: Tx, after: Tx) {
    after.items.Keys == before.items.Keys && after.ownerChanges == before.ownerChanges
    && forall m :: m in before.items ==> SameWork(before.items, after.items, m)
  }

  lemma FlagsOnlyWork(before: Tx, after: Tx)
    requires SameButFlags(before.items, after.items) && after.ownerChanges == before.ownerChanges
    ensures WorkKept(before, after)
  {
  }

  lemma CascadeWork(strict: bool, now: Time, tx: Tx, n: ItemNo)
    ensures WorkKept(tx, CascadeDone(strict, now, tx, n, Dependents(tx.items, n)))
    ensures forall m :: m in tx.items && n !in tx.items[m].blockedBy
              ==> CascadeDone(strict, now, tx, n, Dependents(tx.items, n)).items[m] == tx.items[m]
  {
    hide Unhooked;
    forall m | m in tx.items
      ensures var u := Unhooked(strict, now, tx.items, tx.items[m], n);
              u.holders == tx.items[m].holders && u.linkArchivedAt == tx.items[m].linkArchivedAt
              && (Closed(u.status) <==> Closed(tx.items[m].status))
    {
      UnhookedWork(strict, now, tx.items, tx.items[m], n);
    }
  }

  lemma NeighboursWork(ctx: Context, tx: Tx, n: ItemNo, status: Status, prev: Option<Status>)
    requires n in tx.items && n !in tx.items[n].blockedBy && tx.items[n].status == status
    ensures WorkKept(tx, Neighbours(ctx, tx, n, status, prev))
    ensures Neighbours(ctx, tx, n, status, prev).items[n] == tx.items[n]
  {
    hide HasDroppedBlocker, SameWork, SameButFlags, CascadeDone, FlaggedItems, Hearing;
    var deps := Dependents(tx.items, n);
    if !Closed(status) && prev.Some? && Closed(prev.value) {
      ReopenedFrame(tx, n);
      FlagsOnlyWork(tx, ClearDependents(tx, deps));
    } else if status == Done && prev != Some(Done) {
      CascadeWork(ctx.settings.strict, ctx.now, tx, n);
    } else if status == Dropped && !(prev.Some? && Closed(prev.value)) {
      DroppedFrame(tx, n);
      FlagsOnlyWork(tx, FlagDropped(tx, deps));
    } else {
      NothingKept(tx);
    }
  }

  lemma NothingKept(tx: Tx)
    ensures WorkKept(tx, tx)
  {
  }

  /** What one write does to owners. */
  ghost predicate WroteOwner(tx: Tx, after: Tx, n: ItemNo, prev: Option<Status>)
    requires n in tx.items
  {
    && after.items.Keys == tx.items.Keys
    && (forall m :: m in tx.items && m != n ==> SameWork(tx.items, after.items, m))
    && after.items[n].linkArchivedAt == tx.items[n].linkArchivedAt
    && after.ownerChanges == tx.ownerChanges
                             + OwnerChanges(n, OwnerIn(tx.items, n), OwnerIn(after.items, n), after.items[n].status, prev)
  }

  /** Up to its own flags, a write changes one item, to its draft. */
  lemma OwnPartWork(ctx: Context, tx: Tx, n: ItemNo, w: Write, mode: Mode, d: Draft, changes: seq<OwnerChange>, tx1: Tx)
    requires n in tx.items && FieldRules(tx.items[n]) && Drafted(ctx, tx.items, n, w, mode) == Ok(d)
    requires mode.Creating? ==> tx.items[n] == NewItem(ctx.now)
    requires tx1 == OwnFlags(Placed(tx, n, d).(ownerChanges := tx.ownerChanges + changes), n, d.it.status,
                             if mode.Creating? then None else Some(tx.items[n].status))
    ensures tx1.items.Keys == tx.items.Keys && tx1.ownerChanges == tx.ownerChanges + changes
    ensures forall m :: m in tx.items && m != n ==> tx1.items[m] == tx.items[m]
    ensures tx1.items[n] == d.it.(flags := tx1.items[n].flags) && d.it.linkArchivedAt == tx.items[n].linkArchivedAt
  {
    hide Drafted, OwnFlags, FieldRules, HasDroppedBlocker, OwnerOf, CloseRule, OpenBlocker;
    DraftFrame(ctx, tx.items, n, w, mode);
    OwnFlagsFrame(Placed(tx, n, d).(ownerChanges := tx.ownerChanges + changes), n, d.it.status,
                  if mode.Creating? then None else Some(tx.items[n].status));
  }

  lemma ApplyOwners(ctx: Context, tx: Tx, n: ItemNo, w: Write, mode: Mode)
    requires n in tx.items && CoreBut(tx.items, Some(n)) && Apply(ctx, tx, n, w, mode).Ok?
    requires mode.Creating? ==> tx.items[n] == NewItem(ctx.now)
    requires CloseRule(tx.items[n]) || !Closed(Drafted(ctx, tx.items, n, w, mode).value.it.status)
    ensures WroteOwner(tx, Apply(ctx, tx, n, w, mode).value, n, if mode.Creating? then None else Some(tx.items[n].status))
  {
    hide Drafted, OwnFlags, Neighbours, FieldRules, CloseRule, Apply, ClosesCycle, Acyclic, HasDroppedBlocker, BlockerRule, OwnerChanges, OwnerOf;
    var d, tx1, tx2 := ApplySteps(ctx, tx, n, w, mode);
    var prev := if mode.Creating? then None else Some(tx.items[n].status);
    var changes := OwnerChanges(n, OwnerOf(tx.items[n].holders), OwnerOf(d.it.holders), d.it.status, prev);
    PlacedMidCore(ctx, tx, n, w, mode, d);
    OwnPartWork(ctx, tx, n, w, mode, d, changes, tx1);
    NotSelfBlocked(Placed(tx, n, d).items, n);
    hide CoreBut, MidCore;
    NeighboursWork(ctx, tx1, n, d.it.status, prev);
  }

  lemma MentionsMore(changes: seq<OwnerChange>, more: seq<OwnerChange>, n: ItemNo)
    ensures Mentions(changes + more, n) <==> Mentions(changes, n) || Mentions(more, n)
  {
    assert forall c :: c in changes + more <==> c in changes || c in more;
  }

  lemma WriteMentions(tx: Tx, after: Tx, n: ItemNo, prev: Option<Status>)
    requires n in tx.items && n in after.items && WroteOwner(tx, after, n, prev)
    ensures var more := OwnerChanges(n, OwnerIn(tx.items, n), OwnerIn(after.items, n), after.items[n].status, prev);
            forall m :: Mentions(after.ownerChanges, m) <==> Mentions(tx.ownerChanges, m) || (m == n && more != [])
  {
    hide OwnerOf, SameWork;
    var more := OwnerChanges(n, OwnerIn(tx.items, n), OwnerIn(after.items, n), after.items[n].status, prev);
    forall m ensures Mentions(after.ownerChanges, m) <==> Mentions(tx.ownerChanges, m) || (m == n && more != []) {
      MentionsMore(tx.ownerChanges, more, m);
      assert more != [] ==> more[0] in more && more[0].n == n;
    }
  }

  lemma WriteTrue(before: Items, tx: Tx, after: Tx, n: ItemNo, prev: Option<Status>, c: OwnerChange)
    requires n in tx.items && WroteOwner(tx, after, n, prev) && c in after.ownerChanges && !Mentions(tx.ownerChanges, n)
    requires forall x :: x in tx.ownerChanges ==> ChangeTrue(before, tx.items, x)
    requires OwnerIn(tx.items, n) == if n in before then OwnerIn(before, n) else None
    ensures ChangeTrue(before, after.items, c)
  {
    hide OwnerOf;
    if c in tx.ownerChanges {
      assert ChangeTrue(before, tx.items, c);
      assert c.n != n;
    }
  }

  /** A write of an item not yet written extends the record truthfully. */
  lemma WriteLogged(before: Items, tx: Tx, after: Tx, n: ItemNo, done: set<ItemNo>, prev: Option<Status>)
    requires OwnerLog(before, tx, done) && n in tx.items && n !in done && WroteOwner(tx, after, n, prev)
    requires if n in before then prev == Some(tx.items[n].status) else prev.None? && OwnerIn(tx.items, n).None? && !Mentions(tx.ownerChanges, n)
    ensures OwnerLog(before, after, done + {n})
  {
    hide OwnerOf, OwnerChanges, Mentions, ChangeTrue;
    WriteMentions(tx, after, n, prev);
    forall c | c in after.ownerChanges ensures ChangeTrue(before, after.items, c) {
      WriteTrue(before, tx, after, n, prev, c);
    }
    forall m | m in before && !Mentions(after.ownerChanges, m) && IsOpen(before, m) && OwnerIn(before, m).Some?
      ensures IsOpen(after.items, m) && OwnerIn(after.items, m) == OwnerIn(before, m)
    {
      if m == n {
        QuietWrite(n, OwnerIn(tx.items, n), OwnerIn(after.items, n), after.items[n].status, tx.items[n].status);
      }
    }
  }

  /** A write that records nothing of an open, owned item leaves it open and owned. */
  lemma QuietWrite(n: ItemNo, from: Option<Pid>, to: Option<Pid>, status: Status, prev: Status)
    requires from.Some? && !Closed(prev) && OwnerChanges(n, from, to, status, Some(prev)) == []
    ensures !Closed(status) && to == from
  {
  }

  lemma {:induction false} UpdateOwners(s: Settings, ctx: Context, before: Items, tx: Tx, ns: seq<ItemNo>, w: Write, expected: Option<Status>)
    requires Within(s, ctx)
    requires OwnerLog(before, tx, {}) && Sound(s, tx) && UpdateEach(ctx, tx, ns, w, expected).Ok?
    requires Distinct(ns) && tx.items.Keys == before.Keys
    ensures OwnerLog(before, UpdateEach(ctx, tx, ns, w, expected).value, ToSet(ns))
    ensures UpdateEach(ctx, tx, ns, w, expected).value.items.Keys == before.Keys
    decreases |ns|
  {
    hide OwnerLog, Apply, Sound;
    if ns == [] {
      assert ToSet(ns) == {};
    } else {
      var rest, n := ns[..|ns| - 1], ns[|ns| - 1];
      var mid := UpdateEach(ctx, tx, rest, w, expected).value;
      UpdateOwners(s, ctx, before, tx, rest, w, expected);
      UpdateSound(s, ctx, tx, rest, w, expected);
      Found(ctx, mid, n, w, Editing);
      SoundWrite(s, ctx, mid, n, w, Editing);
      assert n !in rest;
      assert ToSet(ns) == ToSet(rest) + {n};
      WriteLogged(before, mid, Apply(ctx, mid, n, w, Editing).value, n, ToSet(rest), Some(mid.items[n].status));
    }
  }

  lemma SoundWrite(s: Settings, ctx: Context, tx: Tx, n: ItemNo, w: Write, mode: Mode)
    requires Sound(s, tx) && !mode.Creating? && Apply(ctx, tx, n, w, mode).Ok? && n in tx.items
    ensures WroteOwner(tx, Apply(ctx, tx, n, w, mode).value, n, Some(tx.items[n].status))
  {
    hide FieldRules, Acyclic, Apply, Conforms, BlockerRule, WroteOwner;
    assert CoreBut(tx.items, Some(n));
    ApplyOwners(ctx, tx, n, w, mode);
  }

  lemma CreateOneOwners(s: Settings, ctx: Context, before: Items, tx: Tx, w: Write, done: set<ItemNo>)
    requires OwnerLog(before, tx, done) && Sound(s, tx) && Apply(ctx, Added(ctx, tx), ItemNo(tx.next), w, Creating).Ok?
    requires forall c :: c in tx.ownerChanges ==> c.n.n < tx.next
    requires forall n :: n in done ==> n.n < tx.next
    ensures var after := Apply(ctx, Added(ctx, tx), ItemNo(tx.next), w, Creating).value;
            && OwnerLog(before, after, done + {ItemNo(tx.next)})
            && after.next == tx.next + 1 && forall c :: c in after.ownerChanges ==> c.n.n < after.next
  {
    var n, added := ItemNo(tx.next), Added(ctx, tx);
    assert n !in tx.items;
    AddedSound(s, ctx, tx);
    NewItemRules(ctx.now);
    hide FieldRules, CloseRule, Acyclic, Apply, StrictWork, BlockerRule;
    assert CoreBut(added.items, Some(n)) && added.items[n] == NewItem(ctx.now);
    hide CoreBut, OwnerLog, WroteOwner;
    AddedLog(ctx, before, tx, done);
    ApplyOwners(ctx, added, n, w, Creating);
    ApplyShape(ctx, added, n, w, Creating);
    var after := Apply(ctx, added, n, w, Creating).value;
    assert OwnerIn(added.items, n).None? && !Mentions(added.ownerChanges, n) && n !in done && n !in before by {
      NewcomerUnowned(ctx, before, tx, done);
    }
    WriteLogged(before, added, after, n, done, None);
    NobodyElse(added, after, n, None);
  }

  lemma NewcomerUnowned(ctx: Context, before: Items, tx: Tx, done: set<ItemNo>)
    requires OwnerLog(before, tx, done) && ItemNo(tx.next) !in tx.items
    requires forall c :: c in tx.ownerChanges ==> c.n.n < tx.next
    requires forall n :: n in done ==> n.n < tx.next
    ensures var n, added := ItemNo(tx.next), Added(ctx, tx);
            OwnerIn(added.items, n).None? && !Mentions(added.ownerChanges, n) && n !in done && n !in before
  {
    hide ChangeTrue, SameWork;
  }

  lemma NobodyElse(tx: Tx, after: Tx, n: ItemNo, prev: Option<Status>)
    requires n in tx.items && WroteOwner(tx, after, n, prev)
    ensures forall c :: c in after.ownerChanges ==> c in tx.ownerChanges || c.n == n
  {
    hide OwnerOf, SameWork;
    OnlyOf(n, OwnerIn(tx.items, n), OwnerIn(after.items, n), after.items[n].status, prev);
    hide OwnerChanges, OwnerIn;
  }

  lemma OnlyOf(n: ItemNo, from: Option<Pid>, to: Option<Pid>, status: Status, prev: Option<Status>)
    ensures forall c :: c in OwnerChanges(n, from, to, status, prev) ==> c.n == n
  {
  }

  lemma AddedLog(ctx: Context, before: Items, tx: Tx, done: set<ItemNo>)
    requires OwnerLog(before, tx, done) && ItemNo(tx.next) !in tx.items
    ensures OwnerLog(before, Added(ctx, tx), done)
  {
    hide OwnerOf;
  }

  lemma {:induction false} CreateOwners(s: Settings, ctx: Context, before: Items, tx: Tx, specs: seq<Spec>) returns (done: set<ItemNo>)
    requires Within(s, ctx)
    requires OwnerLog(before, tx, {}) && tx.ownerChanges == [] && Sound(s, tx) && CreateEach(ctx, tx, specs).Ok?
    ensures var after := CreateEach(ctx, tx, specs).value;
            && OwnerLog(before, after, done) && after.next == tx.next + |specs|
            && (forall c :: c in after.ownerChanges ==> c.n.n < after.next) && (forall n :: n in done ==> n.n < after.next)
    decreases |specs|
  {
    hide OwnerLog, Apply, Sound, Added;
    if specs == [] {
      done := {};
    } else {
      var rest := specs[..|specs| - 1];
      done := CreateOwners(s, ctx, before, tx, rest);
      CreateSound(s, ctx, tx, rest);
      var mid := CreateEach(ctx, tx, rest).value;
      CreateOneOwners(s, ctx, before, mid, SpecWrite(ctx, specs[|specs| - 1]), done);
      done := done + {ItemNo(mid.next)};
    }
  }

  /** Flags, clocks and memory of suggestions are nobody's work. */
  lemma FlagsLogged(before: Items, tx: Tx, after: Tx, done: set<ItemNo>)
    requires OwnerLog(before, tx, done) && after.items.Keys == tx.items.Keys && after.ownerChanges == tx.ownerChanges
    requires forall m :: m in tx.items ==> SameWork(tx.items, after.items, m)
    ensures OwnerLog(before, after, done)
  {
    hide OwnerOf, Mentions;
  }

  lemma ResolveFlagsWork(tx: Tx, n: ItemNo, kinds: set<FlagKind>)
    requires n in tx.items
    ensures var after := ResolveFlags(tx, n, kinds);
            && after.items.Keys == tx.items.Keys && after.ownerChanges == tx.ownerChanges
            && forall m :: m in tx.items ==> SameWork(tx.items, after.items, m)
  {
  }

  lemma TouchedWork(tx: Tx, n: ItemNo, it: Item)
    requires n in tx.items && SameButClocks(tx.items[n], it)
    ensures var after := Touched(tx, n, it);
            && after.items.Keys == tx.items.Keys && after.ownerChanges == tx.ownerChanges
            && forall m :: m in tx.items ==> SameWork(tx.items, after.items, m)
  {
  }

  lemma ResolveOwners(s: Settings, ctx: Context, before: Items, tx: Tx, n: ItemNo, action: Action, kind: Option<FlagKind>)
    requires OwnerLog(before, tx, {}) && Sound(s, tx) && Resolve(ctx, tx, n, action, kind).Ok? && n in before
    ensures OwnerLog(before, Resolve(ctx, tx, n, action, kind).value, {n})
  {
    hide OwnerLog, Apply, Sound, ResolveFlags, SameWork;
    var kinds := ResolvedKinds(tx.items[n], action, kind);
    var tx1 := ResolveFlags(tx, n, kinds);
    ResolveFlagsSound(s, tx, n, kinds);
    ResolveFlagsWork(tx, n, kinds);
    FlagsLogged(before, tx, tx1, {});
    if action.Dismiss? || action.Nudge? {
      var it := if action.Nudge? then tx1.items[n].(touchedAt := ctx.now) else Forgotten(tx1.items[n], SuggestedStatus(tx.items[n]));
      TouchedWork(tx1, n, it);
      FlagsLogged(before, tx1, Touched(tx1, n, it), {});
      WidenLog(before, Touched(tx1, n, it), n);
    } else {
      var mode := if action.Answer? then Answering else Editing;
      var w := ResolutionWrite(ctx, tx, n, action);
      assert Resolve(ctx, tx, n, action, kind) == Apply(ctx, tx1, n, w, mode);
      SoundWrite(s, ctx, tx1, n, w, mode);
      WriteLogged(before, tx1, Apply(ctx, tx1, n, w, mode).value, n, {}, Some(tx1.items[n].status));
      assert {} + {n} == {n};
    }
  }

  lemma WidenLog(before: Items, tx: Tx, n: ItemNo)
    requires OwnerLog(before, tx, {})
    ensures OwnerLog(before, tx, {n})
  {
    hide OwnerOf, Mentions, SameWork;
  }

  lemma SuggestWork(ctx: Context, tx: Tx, n: ItemNo, hint: Hint)
    requires n in tx.items
    ensures WorkKept(tx, Suggest(ctx, tx, n, hint))
  {
    hide Suggest;
    SuggestShape(ctx, tx, n, hint);
  }

  lemma KeptThrough(a: Tx, b: Tx, c: Tx)
    requires WorkKept(a, b) && WorkKept(b, c)
    ensures WorkKept(a, c)
  {
  }

  lemma TouchOneWork(ctx: Context, tx: Tx, n: ItemNo, anyItem: bool, hint: Option<Hint>)
    ensures WorkKept(tx, TouchOne(ctx, tx, n, anyItem, hint))
  {
    hide Suggest, WorkKept;
    NothingKept(tx);
    if n in tx.items {
      var touched := Touched(tx, n, tx.items[n].(touchedAt := ctx.now, launchedAt := Some(ctx.now)));
      assert WorkKept(tx, touched) by {
        TouchedKept(tx, touched);
      }
      if hint.Some? {
        SuggestWork(ctx, tx, n, hint.value);
        SuggestWork(ctx, touched, n, hint.value);
        KeptThrough(tx, touched, Suggest(ctx, touched, n, hint.value));
      }
    }
  }

  lemma TouchedKept(tx: Tx, after: Tx)
    requires after.items.Keys == tx.items.Keys && after.ownerChanges == tx.ownerChanges
    requires forall m :: m in tx.items ==> SameButClocks(tx.items[m], after.items[m])
    ensures WorkKept(tx, after)
  {
  }

  lemma {:induction false} TouchOwners(ctx: Context, before: Items, tx: Tx, ns: seq<ItemNo>, anyItem: bool, hint: Option<Hint>)
    requires OwnerLog(before, tx, {})
    ensures OwnerLog(before, TouchEach(ctx, tx, ns, anyItem, hint), {})
    decreases |ns|
  {
    hide OwnerLog, TouchOne, SameWork;
    if ns != [] {
      var rest := ns[..|ns| - 1];
      TouchOwners(ctx, before, tx, rest, anyItem, hint);
      TouchOneWork(ctx, TouchEach(ctx, tx, rest, anyItem, hint), ns[|ns| - 1], anyItem, hint);
      FlagsLogged(before, TouchEach(ctx, tx, rest, anyItem, hint), TouchEach(ctx, tx, ns, anyItem, hint), {});
    }
  }
}
