/** What holds of a board whatever flags its rows carry: the field rules, the close
 * marks, an acyclic blocker graph without done blockers and, on a strict board,
 * only running or blocked work.
 */
module BoardSoundness {
  import opened Prelude
  import opened Graphs
  import opened BoardRules
  import opened BoardSpec
  import opened BoardInvariants
  import opened BoardOperations

  /** The invariant without what flags mean, but for the close mark of `n`. */
  ghost predicate CoreBut(items: Items, n: Option<ItemNo>) {
    && (forall m :: m in items ==> FieldRules(items[m]))
    && (forall m :: m in items ==> CloseRule(items[m]) || (n == Some(m) && Closed(items[m].status)))
    && (forall m :: m in items ==> BlockerRule(items, m))
    && Acyclic(Deps(items))
  }

  ghost predicate Sound(s: Settings, tx: Tx) {
    CoreBut(tx.items, None) && Numbered(tx) && StrictWork(s, tx.items)
  }

  lemma GoodIsSound(stray: bool, s: Settings, tx: Tx)
    requires Good(stray, s, tx)
    ensures Sound(s, tx)
  {
    hide FieldRules, CloseRule, Acyclic, ClosedFlagRule, DroppedFlagRule, Conforms;
  }

  /** Between the write of `n` and its cascade: items may still list it. */
  ghost predicate MidCore(items: Items, n: ItemNo) {
    && (forall m :: m in items ==> FieldRules(items[m]) && CloseRule(items[m]))
    && (forall m, b :: m in items && b in items[m].blockedBy ==> b in items && b != m && (b != n ==> items[b].status != Done))
    && Acyclic(Deps(items))
  }

  lemma PlacedMidCore(ctx: Context, tx: Tx, n: ItemNo, w: Write, mode: Mode, d: Draft)
    requires n in tx.items && CoreBut(tx.items, Some(n)) && Drafted(ctx, tx.items, n, w, mode) == Ok(d)
    requires mode.Creating? ==> tx.items[n] == NewItem(ctx.now)
    requires CloseRule(tx.items[n]) || !Closed(d.it.status)
    requires n in Placed(tx, n, d).depsChanged ==> !ClosesCycle(Placed(tx, n, d).items, n)
    ensures MidCore(Placed(tx, n, d).items, n)
  {
    hide Drafted, Acyclic, FieldRules, CloseRule, OpenBlocker, BlockerRule;
    DraftFits(ctx, tx.items, n, w, mode, d);
    PlacedAcyclic(tx, n, d);
    hide ClosesCycle;
    PlacedBlockers(tx.items, n, d.it);
  }

  lemma NotSelfBlocked(items: Items, n: ItemNo)
    requires MidCore(items, n) && n in items
    ensures n !in items[n].blockedBy
  {
    hide FieldRules, CloseRule, Acyclic;
  }

  lemma FlagsKeepMidCore(a: Items, b: Items, n: ItemNo)
    requires MidCore(a, n) && SameButFlags(a, b)
    ensures MidCore(b, n)
  {
    hide FieldRules, CloseRule, HasDroppedBlocker, Acyclic;
    FlagsChangeNothingElse(a, b);
  }

  lemma MidCoreSettles(a: Items, b: Items, n: ItemNo)
    requires n in a && MidCore(a, n) && SameButFlags(a, b) && (a[n].status == Done ==> Dependents(a, n) == {})
    ensures CoreBut(b, None)
  {
    hide FieldRules, CloseRule, HasDroppedBlocker, Acyclic;
    FlagsChangeNothingElse(a, b);
    hide SameButFlags;
    forall m | m in b ensures BlockerRule(b, m) {
      assert n in b[m].blockedBy ==> m in Dependents(a, n);
    }
  }

  lemma CascadedCore(a: Items, b: Items, n: ItemNo)
    requires n in a && MidCore(a, n) && Cascaded(a, b, n)
    ensures CoreBut(b, None)
  {
    hide FieldRules, CloseRule, HasDroppedBlocker, Acyclic;
    FewerEdgesAcyclic(a, b);
  }

  lemma NeighboursSound(ctx: Context, tx: Tx, n: ItemNo, status: Status, prev: Option<Status>)
    requires n in tx.items && MidCore(tx.items, n) && tx.items[n].status == status
    requires prev == Some(Done) ==> Dependents(tx.items, n) == {}
    ensures CoreBut(Neighbours(ctx, tx, n, status, prev).items, None)
  {
    hide FieldRules, CloseRule, HasDroppedBlocker, Acyclic, ClearDependents, CascadeDone, FlagDropped;
    var after := Neighbours(ctx, tx, n, status, prev).items;
    if !Closed(status) && prev.Some? && Closed(prev.value) {
      ReopenedFrame(tx, n);
      MidCoreSettles(tx.items, after, n);
    } else if status == Done && prev != Some(Done) {
      CascadeFrame(ctx.settings.strict, ctx.now, tx, n);
      CascadedCore(tx.items, after, n);
    } else {
      if status == Dropped {
        DroppedFrame(tx, n);
      }
      MidCoreSettles(tx.items, after, n);
    }
  }

  /** The dependents of a done item: there are none. */
  lemma NobodyWaits(items: Items, n: ItemNo)
    requires n in items && items[n].status == Done && forall m :: m in items ==> BlockerRule(items, m)
    ensures Dependents(items, n) == {}
  {
    forall m | m in items ensures n !in items[m].blockedBy {
      assert BlockerRule(items, m);
    }
  }

  lemma SameDependents(a: Items, b: Items, n: ItemNo)
    requires n in a && b.Keys == a.Keys && forall m :: m in a && m != n ==> b[m].blockedBy == a[m].blockedBy
    requires Dependents(a, n) == {} && n !in b[n].blockedBy
    ensures Dependents(b, n) == {}
  {
    assert forall m :: m in a ==> m !in Dependents(a, n);
  }

  lemma ApplySound(ctx: Context, tx: Tx, n: ItemNo, w: Write, mode: Mode)
    requires n in tx.items && CoreBut(tx.items, Some(n)) && Apply(ctx, tx, n, w, mode).Ok?
    requires mode.Creating? ==> tx.items[n] == NewItem(ctx.now)
    requires CloseRule(tx.items[n]) || !Closed(Drafted(ctx, tx.items, n, w, mode).value.it.status)
    ensures CoreBut(Apply(ctx, tx, n, w, mode).value.items, None)
  {
    hide Drafted, OwnFlags, Neighbours, FieldRules, CloseRule, Apply, ClosesCycle, Acyclic, HasDroppedBlocker, BlockerRule;
    var d, tx1, tx2 := ApplySteps(ctx, tx, n, w, mode);
    var prev := if mode.Creating? then None else Some(tx.items[n].status);
    var tx0 := Placed(tx, n, d);
    var changes := OwnerChanges(n, OwnerOf(tx.items[n].holders), OwnerOf(d.it.holders), d.it.status, prev);
    PlacedMidCore(ctx, tx, n, w, mode, d);
    OwnFlagsFrame(tx0.(ownerChanges := tx0.ownerChanges + changes), n, d.it.status, prev);
    FlagsKeepMidCore(tx0.items, tx1.items, n);
    if prev == Some(Done) {
      NobodyWaits(tx.items, n);
      SameDependents(tx.items, tx1.items, n);
    }
    NeighboursSound(ctx, tx1, n, d.it.status, prev);
  }

  lemma WriteSound(s: Settings, ctx: Context, tx: Tx, n: ItemNo, w: Write, mode: Mode)
    requires Within(s, ctx)
    requires Sound(s, tx) && !mode.Creating? && Apply(ctx, tx, n, w, mode).Ok?
    ensures Sound(s, Apply(ctx, tx, n, w, mode).value)
  {
    hide FieldRules, CloseRule, Acyclic, Apply, Conforms, BlockerRule;
    Found(ctx, tx, n, w, mode);
    ApplySound(ctx, tx, n, w, mode);
    ApplyShape(ctx, tx, n, w, mode);
    if s.strict {
      ApplyConforms(ctx, tx, n, w, mode);
    }
  }

  lemma {:induction false} UpdateSound(s: Settings, ctx: Context, tx: Tx, ns: seq<ItemNo>, w: Write, expected: Option<Status>)
    requires Within(s, ctx)
    requires Sound(s, tx) && UpdateEach(ctx, tx, ns, w, expected).Ok?
    ensures Sound(s, UpdateEach(ctx, tx, ns, w, expected).value)
    decreases |ns|
  {
    hide Sound, Apply;
    if ns != [] {
      var before := UpdateEach(ctx, tx, ns[..|ns| - 1], w, expected).value;
      UpdateSound(s, ctx, tx, ns[..|ns| - 1], w, expected);
      WriteSound(s, ctx, before, ns[|ns| - 1], w, Editing);
    }
  }

  lemma AddedSound(s: Settings, ctx: Context, tx: Tx)
    requires Sound(s, tx)
    ensures CoreBut(Added(ctx, tx).items, None) && Numbered(Added(ctx, tx))
  {
    hide FieldRules, CloseRule, Acyclic, StrictWork, BlockerRule, NewItem;
    NewItemRules(ctx.now);
    AddedEdges(tx.items, ItemNo(tx.next), ctx.now);
  }

  lemma CreateOneSound(s: Settings, ctx: Context, tx: Tx, w: Write)
    requires Within(s, ctx)
    requires Sound(s, tx) && Apply(ctx, Added(ctx, tx), ItemNo(tx.next), w, Creating).Ok?
    ensures Sound(s, Apply(ctx, Added(ctx, tx), ItemNo(tx.next), w, Creating).value)
  {
    hide Apply, StrictWork, FieldRules, CloseRule, Acyclic, BlockerRule;
    var n, added := ItemNo(tx.next), Added(ctx, tx);
    AddedSound(s, ctx, tx);
    NewItemRules(ctx.now);
    assert CoreBut(added.items, Some(n)) && added.items[n] == NewItem(ctx.now);
    CreateOneConforms(s, ctx, tx, w);
    hide CoreBut, Added;
    ApplySound(ctx, added, n, w, Creating);
    ApplyShape(ctx, added, n, w, Creating);
  }

  lemma {:induction false} CreateSound(s: Settings, ctx: Context, tx: Tx, specs: seq<Spec>)
    requires Within(s, ctx)
    requires Sound(s, tx) && CreateEach(ctx, tx, specs).Ok?
    ensures Sound(s, CreateEach(ctx, tx, specs).value)
    decreases |specs|
  {
    hide Sound, Apply, Added;
    if specs != [] {
      CreateSound(s, ctx, tx, specs[..|specs| - 1]);
      CreateOneSound(s, ctx, CreateEach(ctx, tx, specs[..|specs| - 1]).value, SpecWrite(ctx, specs[|specs| - 1]));
    }
  }

  // ---- changes of single items ----

  /** An item keeps its rules, its status and its blockers. */
  ghost predicate ItemSound(a: Item, b: Item) {
    && (FieldRules(a) ==> FieldRules(b)) && (CloseRule(a) ==> CloseRule(b)) && (Conforms(a) ==> Conforms(b))
    && b.blockedBy == a.blockedBy && b.status == a.status
  }

  lemma ItemwiseSound(s: Settings, tx: Tx, tx': Tx)
    requires Sound(s, tx) && tx'.items.Keys == tx.items.Keys && tx'.next >= tx.next
    requires forall m :: m in tx.items ==> ItemSound(tx.items[m], tx'.items[m])
    ensures Sound(s, tx')
  {
    hide FieldRules, CloseRule, Acyclic, Conforms, BlockerRule, Deps;
    SameEdges(tx.items, tx'.items);
  }

  lemma OneItemSound(s: Settings, tx: Tx, tx': Tx, n: ItemNo)
    requires Sound(s, tx) && n in tx.items && tx'.items.Keys == tx.items.Keys && tx'.next == tx.next
    requires forall m :: m in tx.items && m != n ==> tx'.items[m] == tx.items[m]
    requires SameButClocks(tx.items[n], tx'.items[n])
    ensures Sound(s, tx')
  {
    hide Sound;
    ClocksAreNoField(tx.items[n], tx'.items[n]);
    hide FieldRules, CloseRule, Conforms;
    ItemwiseSound(s, tx, tx');
  }

  lemma ResolveFlagsSound(s: Settings, tx: Tx, n: ItemNo, kinds: set<FlagKind>)
    requires Sound(s, tx) && n in tx.items
    ensures Sound(s, ResolveFlags(tx, n, kinds))
  {
    hide Sound;
    OneItemSound(s, tx, ResolveFlags(tx, n, kinds), n);
  }

  lemma TouchedSound(s: Settings, tx: Tx, n: ItemNo, it: Item)
    requires Sound(s, tx) && n in tx.items && SameButClocks(tx.items[n], it)
    ensures Sound(s, Touched(tx, n, it))
  {
    hide Sound;
    OneItemSound(s, tx, Touched(tx, n, it), n);
  }

  lemma ResolveSound(s: Settings, ctx: Context, tx: Tx, n: ItemNo, action: Action, kind: Option<FlagKind>)
    requires Within(s, ctx)
    requires Sound(s, tx) && Resolve(ctx, tx, n, action, kind).Ok?
    ensures Sound(s, Resolve(ctx, tx, n, action, kind).value)
  {
    hide Sound, Apply, ResolveFlags;
    var kinds := ResolvedKinds(tx.items[n], action, kind);
    var tx1 := ResolveFlags(tx, n, kinds);
    ResolveFlagsSound(s, tx, n, kinds);
    ResolveFlagsShape(tx, n, kinds);
    match action
    case Dismiss => TouchedSound(s, tx1, n, Forgotten(tx1.items[n], SuggestedStatus(tx.items[n])));
    case Nudge => TouchedSound(s, tx1, n, tx1.items[n].(touchedAt := ctx.now));
    case Answer(_) => WriteSound(s, ctx, tx1, n, ResolutionWrite(ctx, tx, n, action), Answering);
    case Confirm(_) => WriteSound(s, ctx, tx1, n, ResolutionWrite(ctx, tx, n, action), Editing);
    case Reassign(_) => WriteSound(s, ctx, tx1, n, ResolutionWrite(ctx, tx, n, action), Editing);
    case Block(_, _, _) => WriteSound(s, ctx, tx1, n, ResolutionWrite(ctx, tx, n, action), Editing);
    case Drop => WriteSound(s, ctx, tx1, n, ResolutionWrite(ctx, tx, n, action), Editing);
  }

  function ResolvedKinds(it: Item, action: Action, kind: Option<FlagKind>): set<FlagKind> {
    if action.Confirm? || action.Dismiss? then {Suggested}
    else if kind.Some? && !action.Answer? then {kind.value}
    else it.flags.Keys
  }

  /** The write a resolution comes down to. */
  function ResolutionWrite(ctx: Context, tx: Tx, n: ItemNo, action: Action): Write
    requires n in tx.items
  {
    match action
    case Answer(_) => FieldWrite(StatusFields(Some(if tx.items[n].holders != [] || ctx.settings.strict then Active else Open)))
    case Confirm(to) => FieldWrite(StatusFields(to))
    case Reassign(holders) => Write(NO_FIELDS, Some(holders), [], {}, None, false)
    case Block(blockers, text, checkBack) => FieldWrite(BlockFields(blockers, text, checkBack))
    case _ => FieldWrite(StatusFields(Some(Dropped)))
  }

  lemma SuggestSound(s: Settings, ctx: Context, tx: Tx, n: ItemNo, hint: Hint)
    requires Sound(s, tx) && n in tx.items
    ensures Sound(s, Suggest(ctx, tx, n, hint))
  {
    hide Sound, Suggest;
    SuggestShape(ctx, tx, n, hint);
    OneItemSound(s, tx, Suggest(ctx, tx, n, hint), n);
  }

  lemma TouchOneSound(s: Settings, ctx: Context, tx: Tx, n: ItemNo, anyItem: bool, hint: Option<Hint>)
    requires Sound(s, tx)
    ensures Sound(s, TouchOne(ctx, tx, n, anyItem, hint))
  {
    hide Sound, Suggest;
    if n in tx.items {
      var touched := tx.items[n].(touchedAt := ctx.now, launchedAt := Some(ctx.now));
      TouchedSound(s, tx, n, touched);
      if hint.Some? {
        SuggestSound(s, ctx, tx, n, hint.value);
        SuggestSound(s, ctx, Touched(tx, n, touched), n, hint.value);
      }
    }
  }

  lemma {:induction false} TouchSound(s: Settings, ctx: Context, tx: Tx, ns: seq<ItemNo>, anyItem: bool, hint: Option<Hint>)
    requires Sound(s, tx)
    ensures Sound(s, TouchEach(ctx, tx, ns, anyItem, hint))
    decreases |ns|
  {
    hide Sound, TouchOne;
    if ns != [] {
      TouchSound(s, ctx, tx, ns[..|ns| - 1], anyItem, hint);
      TouchOneSound(s, ctx, TouchEach(ctx, tx, ns[..|ns| - 1], anyItem, hint), ns[|ns| - 1], anyItem, hint);
    }
  }
}
