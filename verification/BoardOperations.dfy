/** The operations of a board transaction keep what one write keeps: the board
 * invariant, and, on a strict board, that every item is running or blocked work.
 */
module BoardOperations {
  import opened Prelude
  import opened Graphs
  import opened BoardRules
  import opened BoardSpec
  import opened BoardInvariants

  /** Item numbers are handed out in order. */
  ghost predicate Numbered(tx: Tx) {
    forall n :: n in tx.items ==> n.n < tx.next
  }

  /** Work a strict board may hold: nothing open or waiting, nothing blocked
   *  without any trigger, no job in flight without an ETA. */
  ghost predicate Conforms(it: Item) {
    && it.status != Open && it.status != Waiting
    && (it.status == Blocked ==> it.blockedBy != {} || it.blockedOn.Some?)
    && (it.status == Active && it.job.Some? ==> it.etaAt.Some?)
  }

  ghost predicate StrictWork(s: Settings, items: Items) {
    s.strict ==> forall n :: n in items ==> Conforms(items[n])
  }

  ghost predicate Good(stray: bool, s: Settings, tx: Tx) {
    Inv(stray, tx.items) && Numbered(tx) && StrictWork(s, tx.items)
  }

  /** A board that is to stay strict is written under strict settings only. */
  predicate Within(s: Settings, ctx: Context) {
    s.strict ==> ctx.settings.strict
  }

  /** `Conforms` and the source's own test agree on what is refused outright; the
   *  test also warns of a missing or distant check-back. */
  lemma ConformsMeaning(it: Item, s: Settings, now: Time)
    ensures Conforms(it) || Closed(it.status) <==>
              var v := StrictViolation(it, s, now);
              v == None || v == Some(NoCheckBack) || v == Some(CheckBackFar)
  {
  }

  /** A draft on a strict board conforms, if the item did or is new. */
  lemma DraftConforms(ctx: Context, items: Items, n: ItemNo, w: Write, mode: Mode)
    requires n in items && FieldRules(items[n]) && Drafted(ctx, items, n, w, mode).Ok? && ctx.settings.strict
    requires if mode.Creating? then items[n] == NewItem(ctx.now) else Conforms(items[n])
    ensures Conforms(Drafted(ctx, items, n, w, mode).value.it)
  {
    hide NextHolders, BlockerError, NextStatus, AuthorityError, OwnerError, Settled, FieldRules;
    var prev := if mode.Creating? then None else Some(items[n].status);
    var it := Proposed(ctx, items, n, w, mode.Creating?).value;
    var status := NextStatus(ctx, it, w.fields, mode.Creating?, mode.Creating? || it.holders != items[n].holders, it.holders != []);
    assert (it.etaAt.Some? <==> it.waitingSetAt.Some?) by {
      EtaTogether(items[n]);
    }
    SettledRules(ctx.settings.strict, it, w.fields, status, prev);
    assert StrictError(ctx, it, w.fields, status, prev, mode.Creating?, it.holders != []).None?;
    if status == Blocked {
      BlockedKeepsText(ctx.settings.strict, it, w.fields, status, prev);
    }
  }

  lemma EtaTogether(it: Item)
    requires FieldRules(it)
    ensures it.etaAt.Some? <==> it.waitingSetAt.Some?
  {
  }

  lemma BlockedKeepsText(strict: bool, it: Item, f: Fields, status: Status, prev: Option<Status>)
    requires Settled(strict, it, f, status, prev).Ok? && status == Blocked
    ensures var r := Settled(strict, it, f, status, prev).value;
            r.blockedBy == it.blockedBy && r.blockedOn == it.blockedOn
  {
  }

  lemma UnhookedConforms(now: Time, items: Items, it: Item, n: ItemNo)
    requires FieldRules(it) && Conforms(it) && n in it.blockedBy
    ensures Conforms(Unhooked(true, now, items, it, n))
  {
    hide HasDroppedBlocker;
  }

  lemma NeighboursConform(ctx: Context, tx: Tx, n: ItemNo, status: Status, prev: Option<Status>)
    requires n in tx.items && ctx.settings.strict
    requires forall m :: m in tx.items ==> FieldRules(tx.items[m]) && Conforms(tx.items[m])
    ensures forall m :: m in Neighbours(ctx, tx, n, status, prev).items ==> Conforms(Neighbours(ctx, tx, n, status, prev).items[m])
  {
    hide FieldRules, Unhooked, HasDroppedBlocker;
    forall m | m in Dependents(tx.items, n) ensures Conforms(Unhooked(true, ctx.now, tx.items, tx.items[m], n)) {
      UnhookedConforms(ctx.now, tx.items, tx.items[m], n);
    }
  }

  lemma ApplyConforms(ctx: Context, tx: Tx, n: ItemNo, w: Write, mode: Mode)
    requires n in tx.items && Apply(ctx, tx, n, w, mode).Ok? && ctx.settings.strict
    requires forall m :: m in tx.items ==> FieldRules(tx.items[m]) && (m != n || !mode.Creating? ==> Conforms(tx.items[m]))
    requires mode.Creating? ==> tx.items[n] == NewItem(ctx.now)
    ensures forall m :: m in Apply(ctx, tx, n, w, mode).value.items ==> Conforms(Apply(ctx, tx, n, w, mode).value.items[m])
  {
    hide Drafted, OwnFlags, Neighbours, FieldRules, Apply, ClosesCycle;
    var d, tx1, tx2 := ApplySteps(ctx, tx, n, w, mode);
    var prev := if mode.Creating? then None else Some(tx.items[n].status);
    DraftConforms(ctx, tx.items, n, w, mode);
    DraftFields(ctx, tx.items, n, w, mode);
    var tx0 := Placed(tx, n, d);
    var changes := OwnerChanges(n, OwnerOf(tx.items[n].holders), OwnerOf(d.it.holders), d.it.status, prev);
    OwnFlagsFrame(tx0.(ownerChanges := tx0.ownerChanges + changes), n, d.it.status, prev);
    forall m | m in tx1.items ensures FieldRules(tx1.items[m]) && Conforms(tx1.items[m]) {
      FlagsAreNoField(tx0.items[m], tx1.items[m]);
      hide Conforms;
    }
    hide Conforms;
    NeighboursConform(ctx, tx1, n, d.it.status, prev);
  }

  lemma FlagsAreNoField(a: Item, b: Item)
    requires b == a.(flags := b.flags)
    ensures (FieldRules(b) <==> FieldRules(a)) && (Conforms(b) <==> Conforms(a))
  {
  }

  lemma ApplyGood(stray: bool, s: Settings, ctx: Context, tx: Tx, n: ItemNo, w: Write, mode: Mode)
    requires Within(s, ctx)
    requires Good(stray, s, tx) && !mode.Creating? && Apply(ctx, tx, n, w, mode).Ok?
    ensures Good(stray, s, Apply(ctx, tx, n, w, mode).value)
  {
    hide FieldRules, CloseRule, Acyclic, Apply, ClosedFlagRule, DroppedFlagRule, Conforms;
    assert n in tx.items by {
      Found(ctx, tx, n, w, mode);
    }
    ApplyKeeps(stray, ctx, tx, n, w, mode);
    ApplyShape(ctx, tx, n, w, mode);
    if s.strict {
      ApplyConforms(ctx, tx, n, w, mode);
    }
  }

  lemma Found(ctx: Context, tx: Tx, n: ItemNo, w: Write, mode: Mode)
    requires Apply(ctx, tx, n, w, mode).Ok?
    ensures n in tx.items
  {
  }

  lemma {:induction false} UpdateGood(stray: bool, s: Settings, ctx: Context, tx: Tx, ns: seq<ItemNo>, w: Write, expected: Option<Status>)
    requires Within(s, ctx)
    requires Good(stray, s, tx) && UpdateEach(ctx, tx, ns, w, expected).Ok?
    ensures Good(stray, s, UpdateEach(ctx, tx, ns, w, expected).value)
    decreases |ns|
  {
    hide Good, Apply;
    if ns != [] {
      var before := UpdateEach(ctx, tx, ns[..|ns| - 1], w, expected).value;
      UpdateGood(stray, s, ctx, tx, ns[..|ns| - 1], w, expected);
      ApplyGood(stray, s, ctx, before, ns[|ns| - 1], w, Editing);
    }
  }

  /** A new item is listed by nobody, so the board it joins is still in order. */
  lemma AddedKeeps(stray: bool, s: Settings, ctx: Context, tx: Tx)
    requires Good(stray, s, tx)
    ensures var after := Added(ctx, tx);
            Inv(stray, after.items) && Numbered(after) && Dependents(after.items, ItemNo(tx.next)) == {}
  {
    AddedInv(stray, tx.items, ItemNo(tx.next), ctx.now);
  }

  lemma AddedInv(stray: bool, items: Items, n: ItemNo, now: Time)
    requires Inv(stray, items) && n !in items
    ensures var after := items[n := NewItem(now)];
            Inv(stray, after) && Dependents(after, n) == {}
  {
    hide FieldRules, CloseRule, Acyclic, ClosedFlagRule, DroppedFlagRule, BlockerRule, NewItem;
    NewItemRules(now);
    AddedEdges(items, n, now);
    assert ClosedFlagRule(stray, NewItem(now)) by {
      NoFlagsClosed(stray, NewItem(now));
    }
    SameFlagsWithMore(items, n, NewItem(now));
  }

  lemma NoFlagsClosed(stray: bool, it: Item)
    requires it.flags == map[]
    ensures ClosedFlagRule(stray, it)
  {
  }

  lemma AddedEdges(items: Items, n: ItemNo, now: Time)
    requires Acyclic(Deps(items)) && n !in items && forall m :: m in items ==> BlockerRule(items, m)
    ensures var after := items[n := NewItem(now)];
            Acyclic(Deps(after)) && Dependents(after, n) == {} && forall m :: m in after ==> BlockerRule(after, m)
  {
    hide Acyclic, Deps, BlockerRule;
    var after := items[n := NewItem(now)];
    forall m | m in after ensures BlockerRule(after, m) && n !in after[m].blockedBy {
      OldBlockers(items, n, now, m);
    }
    AddedAcyclic(items, after);
  }

  lemma OldBlockers(items: Items, n: ItemNo, now: Time, m: ItemNo)
    requires n !in items && (m == n || (m in items && BlockerRule(items, m)))
    ensures var after := items[n := NewItem(now)];
            BlockerRule(after, m) && n !in after[m].blockedBy
  {
  }

  lemma NewItemRules(now: Time)
    ensures FieldRules(NewItem(now)) && CloseRule(NewItem(now))
    ensures NewItem(now).flags == map[] && NewItem(now).blockedBy == {}
  {
  }

  ghost predicate FewerEdges(before: Items, after: Items) {
    forall m :: m in after ==> after[m].blockedBy <= if m in before then before[m].blockedBy else {}
  }

  lemma AddedAcyclic(before: Items, after: Items)
    requires Acyclic(Deps(before)) && FewerEdges(before, after)
    ensures Acyclic(Deps(after))
  {
    SubgraphAcyclic(Deps(after), Deps(before));
  }

  lemma SameFlagsWithMore(items: Items, n: ItemNo, it: Item)
    requires n !in items && it.flags == map[] && it.blockedBy == {} && forall m :: m in items ==> BlockerRule(items, m)
    requires forall m :: m in items ==> DroppedFlagRule(items, items[m])
    ensures var after := items[n := it];
            forall m :: m in after ==> DroppedFlagRule(after, after[m]) && BlockerRule(after, m)
  {
    var after := items[n := it];
    forall m | m in after ensures DroppedFlagRule(after, after[m]) && BlockerRule(after, m) {
      if m in items {
        assert BlockerRule(items, m) && DroppedFlagRule(items, items[m]);
      }
    }
  }

  lemma {:induction false} CreateGood(stray: bool, s: Settings, ctx: Context, tx: Tx, specs: seq<Spec>)
    requires Within(s, ctx)
    requires Good(stray, s, tx) && CreateEach(ctx, tx, specs).Ok?
    ensures Good(stray, s, CreateEach(ctx, tx, specs).value)
    decreases |specs|
  {
    if specs != [] {
      var before := CreateEach(ctx, tx, specs[..|specs| - 1]).value;
      CreateGood(stray, s, ctx, tx, specs[..|specs| - 1]);
      CreateOneGood(stray, s, ctx, before, SpecWrite(ctx, specs[|specs| - 1]));
    }
  }

  lemma CreateOneGood(stray: bool, s: Settings, ctx: Context, tx: Tx, w: Write)
    requires Within(s, ctx)
    requires Good(stray, s, tx) && Apply(ctx, Added(ctx, tx), ItemNo(tx.next), w, Creating).Ok?
    ensures Good(stray, s, Apply(ctx, Added(ctx, tx), ItemNo(tx.next), w, Creating).value)
  {
    hide Apply, StrictWork;
    var n, added := ItemNo(tx.next), Added(ctx, tx);
    AddedKeeps(stray, s, ctx, tx);
    NewItemRules(ctx.now);
    assert InvBut(stray, added.items, n) && added.items[n] == NewItem(ctx.now) by {
      hide FieldRules, CloseRule, Acyclic, ClosedFlagRule, DroppedFlagRule, BlockerRule;
    }
    ItemsFields(stray, tx.items);
    CreateOneConforms(s, ctx, tx, w);
    hide Inv, InvBut, Added;
    ApplyKeeps(stray, ctx, added, n, w, Creating);
    ApplyShape(ctx, added, n, w, Creating);
  }

  lemma ItemsFields(stray: bool, items: Items)
    requires Inv(stray, items)
    ensures forall m :: m in items ==> FieldRules(items[m])
  {
    hide FieldRules, CloseRule, Acyclic, ClosedFlagRule, DroppedFlagRule, BlockerRule;
  }

  /** An item added on a strict board is running or blocked work. */
  lemma CreateOneConforms(s: Settings, ctx: Context, tx: Tx, w: Write)
    requires Within(s, ctx)
    requires Numbered(tx) && StrictWork(s, tx.items) && forall m :: m in tx.items ==> FieldRules(tx.items[m])
    requires Apply(ctx, Added(ctx, tx), ItemNo(tx.next), w, Creating).Ok?
    ensures StrictWork(s, Apply(ctx, Added(ctx, tx), ItemNo(tx.next), w, Creating).value.items)
  {
    hide FieldRules, Apply, Conforms;
    NewItemRules(ctx.now);
    if s.strict {
      ApplyConforms(ctx, Added(ctx, tx), ItemNo(tx.next), w, Creating);
    }
  }

  /** The item differs in what no rule reads: its clocks and its memory of
   *  dismissed suggestions. */
  ghost predicate SameButClocks(a: Item, b: Item) {
    b == a.(touchedAt := b.touchedAt, launchedAt := b.launchedAt, dismissed := b.dismissed, flags := b.flags)
  }

  /** One item touched, its flags taken off or added to truthfully. */
  lemma OneItemGood(stray: bool, s: Settings, tx: Tx, tx': Tx, n: ItemNo)
    requires Good(stray, s, tx) && n in tx.items && tx'.items.Keys == tx.items.Keys && tx'.next == tx.next
    requires forall m :: m in tx.items && m != n ==> tx'.items[m] == tx.items[m]
    requires SameButClocks(tx.items[n], tx'.items[n])
    requires ClosedFlagRule(stray, tx.items[n]) ==> ClosedFlagRule(stray, tx'.items[n])
    requires BlockerDropped in tx'.items[n].flags ==> BlockerDropped in tx.items[n].flags
    ensures Good(stray, s, tx')
  {
    OneItemInv(stray, tx.items, tx'.items, n);
    ClocksAreNoField(tx.items[n], tx'.items[n]);
    hide Inv, Conforms, SameButClocks, ClosedFlagRule;
  }

  lemma OneItemInv(stray: bool, a: Items, b: Items, n: ItemNo)
    requires Inv(stray, a) && n in a && b.Keys == a.Keys && forall m :: m in a && m != n ==> b[m] == a[m]
    requires SameButClocks(a[n], b[n]) && (ClosedFlagRule(stray, a[n]) ==> ClosedFlagRule(stray, b[n]))
    requires BlockerDropped in b[n].flags ==> BlockerDropped in a[n].flags
    ensures Inv(stray, b)
  {
    hide FieldRules, CloseRule, Acyclic, BlockerRule, DroppedFlagRule, ClosedFlagRule, Deps;
    assert Deps(b) == Deps(a) by {
      SameBlockers(a, b);
    }
    SameRules(stray, a, b, n);
    ClocksAreNoField(a[n], b[n]);
    hide SameButClocks;
  }

  lemma ClocksAreNoField(a: Item, b: Item)
    requires SameButClocks(a, b)
    ensures (FieldRules(b) <==> FieldRules(a)) && (CloseRule(b) <==> CloseRule(a)) && (Conforms(b) <==> Conforms(a))
  {
  }

  lemma SameBlockers(a: Items, b: Items)
    requires a.Keys == b.Keys && forall m :: m in a ==> b[m].blockedBy == a[m].blockedBy
    ensures Deps(b) == Deps(a)
  {
  }

  /** Same blockers and statuses, same rules about blockers. */
  lemma SameEdges(a: Items, b: Items)
    requires b.Keys == a.Keys && forall m :: m in a ==> b[m].blockedBy == a[m].blockedBy && b[m].status == a[m].status
    requires forall m :: m in a ==> BlockerRule(a, m)
    ensures Deps(b) == Deps(a) && forall m :: m in b ==> BlockerRule(b, m)
  {
    SameBlockers(a, b);
    hide Deps;
    forall m | m in b ensures BlockerRule(b, m) {
      assert BlockerRule(a, m);
    }
  }

  /** ... and what a flag for a dropped blocker says is as true as before. */
  lemma SameDroppedFlags(a: Items, b: Items)
    requires b.Keys == a.Keys && forall m :: m in a ==> b[m].blockedBy == a[m].blockedBy && b[m].status == a[m].status
    requires forall m :: m in a ==> DroppedFlagRule(a, a[m]) && (BlockerDropped in b[m].flags ==> BlockerDropped in a[m].flags)
    ensures forall m :: m in b ==> DroppedFlagRule(b, b[m])
  {
    SameDropped(a, b);
    hide HasDroppedBlocker;
    forall m | m in b ensures DroppedFlagRule(b, b[m]) {
      assert DroppedFlagRule(a, a[m]);
    }
  }

  lemma SameRules(stray: bool, a: Items, b: Items, n: ItemNo)
    requires n in a && a.Keys == b.Keys && forall m :: m in a && m != n ==> b[m] == a[m]
    requires SameButClocks(a[n], b[n]) && (ClosedFlagRule(stray, a[n]) ==> ClosedFlagRule(stray, b[n]))
    requires BlockerDropped in b[n].flags ==> BlockerDropped in a[n].flags
    requires forall m :: m in a ==> BlockerRule(a, m) && DroppedFlagRule(a, a[m]) && ClosedFlagRule(stray, a[m])
    ensures forall m :: m in b ==> BlockerRule(b, m) && DroppedFlagRule(b, b[m]) && ClosedFlagRule(stray, b[m])
  {
    SameDropped(a, b);
    hide HasDroppedBlocker;
    forall m | m in b ensures BlockerRule(b, m) && DroppedFlagRule(b, b[m]) && ClosedFlagRule(stray, b[m]) {
      assert BlockerRule(a, m) && DroppedFlagRule(a, a[m]) && ClosedFlagRule(stray, a[m]);
    }
  }

  lemma ResolveFlagsGood(stray: bool, s: Settings, tx: Tx, n: ItemNo, kinds: set<FlagKind>)
    requires Good(stray, s, tx) && n in tx.items
    ensures Good(stray, s, ResolveFlags(tx, n, kinds))
  {
    hide Good;
    OneItemGood(stray, s, tx, ResolveFlags(tx, n, kinds), n);
  }

  lemma ResolveGood(stray: bool, s: Settings, ctx: Context, tx: Tx, n: ItemNo, action: Action, kind: Option<FlagKind>)
    requires Within(s, ctx)
    requires Good(stray, s, tx) && Resolve(ctx, tx, n, action, kind).Ok?
    ensures Good(stray, s, Resolve(ctx, tx, n, action, kind).value)
  {
    hide Good, Apply, ResolveFlags;
    assert n in tx.items;
    var kinds := if action.Confirm? || action.Dismiss? then {Suggested}
                 else if kind.Some? && !action.Answer? then {kind.value}
                 else tx.items[n].flags.Keys;
    var tx1 := ResolveFlags(tx, n, kinds);
    ResolveFlagsGood(stray, s, tx, n, kinds);
    ResolveFlagsShape(tx, n, kinds);
    match action
    case Answer(_) =>
      var to := if tx.items[n].holders != [] || ctx.settings.strict then Active else Open;
      ApplyGood(stray, s, ctx, tx1, n, FieldWrite(StatusFields(Some(to))), Answering);
    case Confirm(to) => ApplyGood(stray, s, ctx, tx1, n, FieldWrite(StatusFields(to)), Editing);
    case Reassign(holders) => ApplyGood(stray, s, ctx, tx1, n, Write(NO_FIELDS, Some(holders), [], {}, None, false), Editing);
    case Block(by_, on, back) => ApplyGood(stray, s, ctx, tx1, n, FieldWrite(BlockFields(by_, on, back)), Editing);
    case Drop => ApplyGood(stray, s, ctx, tx1, n, FieldWrite(StatusFields(Some(Dropped))), Editing);
    case Dismiss => ForgottenGood(stray, s, tx1, n, SuggestedStatus(tx.items[n]));
    case Nudge => NudgedGood(stray, s, tx1, n, ctx.now);
  }

  lemma ForgottenGood(stray: bool, s: Settings, tx: Tx, n: ItemNo, target: Option<Status>)
    requires Good(stray, s, tx) && n in tx.items
    ensures Good(stray, s, Touched(tx, n, Forgotten(tx.items[n], target)))
  {
    hide Good;
    TouchedGood(stray, s, tx, n, Forgotten(tx.items[n], target));
  }

  lemma NudgedGood(stray: bool, s: Settings, tx: Tx, n: ItemNo, now: Time)
    requires Good(stray, s, tx) && n in tx.items
    ensures Good(stray, s, Touched(tx, n, tx.items[n].(touchedAt := now)))
  {
    hide Good;
    TouchedGood(stray, s, tx, n, tx.items[n].(touchedAt := now));
  }

  lemma ResolveFlagsShape(tx: Tx, n: ItemNo, kinds: set<FlagKind>)
    requires n in tx.items
    ensures ResolveFlags(tx, n, kinds).items.Keys == tx.items.Keys
  {
  }

  lemma TouchedGood(stray: bool, s: Settings, tx: Tx, n: ItemNo, it: Item)
    requires Good(stray, s, tx) && n in tx.items && SameButClocks(tx.items[n], it) && it.flags == tx.items[n].flags
    ensures Good(stray, s, Touched(tx, n, it))
  {
    hide Good;
    OneItemGood(stray, s, tx, Touched(tx, n, it), n);
  }

  /** Only flags of `n` changed, and none says anew that a blocker was dropped. */
  ghost predicate OnlyFlags(tx: Tx, after: Tx, n: ItemNo) {
    && n in tx.items && after.items.Keys == tx.items.Keys && after.next == tx.next && after.ownerChanges == tx.ownerChanges
    && (forall m :: m in tx.items && m != n ==> after.items[m] == tx.items[m])
    && after.items[n] == tx.items[n].(flags := after.items[n].flags)
    && (BlockerDropped in after.items[n].flags ==> BlockerDropped in tx.items[n].flags)
  }

  lemma ResolveOnlyFlags(tx: Tx, n: ItemNo, kinds: set<FlagKind>)
    requires n in tx.items
    ensures OnlyFlags(tx, ResolveFlags(tx, n, kinds), n)
  {
  }

  lemma RaiseOnlyFlags(tx: Tx, n: ItemNo, kind: FlagKind, detail: Detail)
    requires n in tx.items && kind != BlockerDropped
    ensures OnlyFlags(tx, RaiseFlag(tx, n, kind, detail), n)
  {
  }

  lemma FlagsTwice(a: Tx, b: Tx, c: Tx, n: ItemNo)
    requires OnlyFlags(a, b, n) && OnlyFlags(b, c, n)
    ensures OnlyFlags(a, c, n)
  {
  }

  lemma SuggestShape(ctx: Context, tx: Tx, n: ItemNo, hint: Hint)
    requires n in tx.items
    ensures OnlyFlags(tx, Suggest(ctx, tx, n, hint), n)
  {
    hide Suggestible, SuggestedStatus, ResolveFlags, RaiseFlag;
    var detail := Suggestion(hint.to, hint.keyword, ctx.actor.pid);
    var tx1 := ResolveFlags(tx, n, {Suggested});
    ResolveOnlyFlags(tx, n, {Suggested});
    RaiseOnlyFlags(tx, n, Suggested, detail);
    RaiseOnlyFlags(tx1, n, Suggested, detail);
    FlagsTwice(tx, tx1, RaiseFlag(tx1, n, Suggested, detail), n);
  }

  lemma SuggestGood(stray: bool, s: Settings, ctx: Context, tx: Tx, n: ItemNo, hint: Hint)
    requires Good(stray, s, tx) && n in tx.items && !Closed(tx.items[n].status)
    ensures Good(stray, s, Suggest(ctx, tx, n, hint))
  {
    hide Good, Suggest;
    SuggestShape(ctx, tx, n, hint);
    OneItemGood(stray, s, tx, Suggest(ctx, tx, n, hint), n);
  }

  lemma TouchOneGood(stray: bool, s: Settings, ctx: Context, tx: Tx, n: ItemNo, anyItem: bool, hint: Option<Hint>)
    requires Good(stray, s, tx)
    ensures Good(stray, s, TouchOne(ctx, tx, n, anyItem, hint))
  {
    hide Good, Suggest;
    if n in tx.items && !Closed(tx.items[n].status) {
      var it := tx.items[n];
      var touched := it.(touchedAt := ctx.now, launchedAt := Some(ctx.now));
      TouchedGood(stray, s, tx, n, touched);
      if hint.Some? {
        SuggestGood(stray, s, ctx, tx, n, hint.value);
        SuggestGood(stray, s, ctx, Touched(tx, n, touched), n, hint.value);
      }
    }
  }

  lemma {:induction false} TouchGood(stray: bool, s: Settings, ctx: Context, tx: Tx, ns: seq<ItemNo>, anyItem: bool, hint: Option<Hint>)
    requires Good(stray, s, tx)
    ensures Good(stray, s, TouchEach(ctx, tx, ns, anyItem, hint))
    decreases |ns|
  {
    hide Good, TouchOne;
    if ns != [] {
      TouchGood(stray, s, ctx, tx, ns[..|ns| - 1], anyItem, hint);
      TouchOneGood(stray, s, ctx, TouchEach(ctx, tx, ns[..|ns| - 1], anyItem, hint), ns[|ns| - 1], anyItem, hint);
    }
  }
}
