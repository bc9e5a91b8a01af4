/** The board engine over time (api/board_engine.py): which flags a pass leaves open,
 * and when an audience hears of one again.
 */
module FlagEngine {
  import opened Prelude

  type Time = nat
  datatype ItemNo = ItemNo(n: nat)

  datatype Kind =
    | Unassigned | HolderGone | HolderIdle | HolderWaitingOnHuman | HolderErrored | Stale | StaleBackground | Overdue | CheckBack
    | BlockerDropped | EtaPassed | NeedsTriage | Unlaunched | HolderOverloaded
    | ReceiptStale | RunnerVoid | InputVoid | Suggested | MemberKind(name: string)

  /** What a flag says; `EtaAt` anchors it on an ETA. */
  datatype Detail = NoDetail | EtaAt(eta: Time) | Says(text: string)

  predicate EngineOwns(k: Kind) {
    !k.MemberKind? && !GateKind(k) && k != Suggested
  }

  predicate GateKind(k: Kind) {
    k == ReceiptStale || k == RunnerVoid || k == InputVoid
  }

  /** Each raise of these is news of its own. */
  predicate Episodic(k: Kind) {
    k == HolderErrored || k == HolderWaitingOnHuman || k == HolderGone || k == BlockerDropped
  }

  /** The holder hears of these first. */
  predicate HolderFirst(k: Kind) {
    k == Overdue || k == EtaPassed
  }

  /** Nobody but the holders hears of these. */
  predicate HolderOnly(k: Kind) {
    k == ReceiptStale || k == Suggested
  }

  predicate Escalates(k: Kind) {
    !GateKind(k) && !HolderOnly(k) && k != NeedsTriage && k != HolderOverloaded && k != Unlaunched
  }

  datatype Audience = Orchestrator | Holders | BoardOwner

  /** The part of an item a flag is about, apart from times. */
  datatype Shape = Shape(status: string, holders: set<string>)

  /** The fingerprint of a flag, through an injective digest. */
  datatype Print = Print(kind: Kind, shape: Shape, detail: Detail)
  datatype Mark = Mark(print_: Print, at: Time)
  datatype Key = Key(kind: Kind, audience: Audience)
  datatype Flag = Flag(detail: Detail, raisedAt: Time, escalated: bool)

  datatype Item = Item(shape: Shape, live: bool, touchedAt: Time, clockResetAt: Option<Time>, nudgedAt: Option<Time>,
                       open: map<Kind, Flag>, marks: map<Key, Mark>)

  /** When the item last changed hands or was last heard of. */
  function Episode(it: Item): Time {
    if it.clockResetAt.Some? && it.clockResetAt.value > it.touchedAt then it.clockResetAt.value else it.touchedAt
  }

  function PrintOf(it: Item, kind: Kind, detail: Detail): Print {
    Print(kind, it.shape, detail)
  }

  predicate News(it: Item, kind: Kind, audience: Audience, detail: Detail) {
    var key := Key(kind, audience);
    key !in it.marks || it.marks[key].print_ != PrintOf(it, kind, detail) || Episode(it) > it.marks[key].at
  }

  predicate Due(it: Item, kind: Kind, audience: Audience, flag: Flag) {
    var key := Key(kind, audience);
    News(it, kind, audience, flag.detail) || (Episodic(kind) && (key !in it.marks || flag.raisedAt > it.marks[key].at))
  }

  datatype StaleMove = NudgeHolder | WaitOut | FlagIt

  /** A nudge comes before the flag, and a touch starts over. */
  function StaleStep(it: Item, grace: Time, now: Time): StaleMove {
    if it.nudgedAt.None? || it.nudgedAt.value < Episode(it) then NudgeHolder
    else if now >= it.nudgedAt.value + grace then FlagIt
    else WaitOut
  }

  /** A `stale` not anchored on an ETA waits for its nudge. */
  predicate HeldBack(it: Item, kind: Kind, detail: Detail, grace: Time, now: Time) {
    kind == Stale && !detail.EtaAt? && StaleStep(it, grace, now) != FlagIt
  }

  // ---- what was sent and done ----

  datatype Push = Push(n: ItemNo, kind: Kind, audience: Audience, at: Time, print_: Print, episode: Time, raisedAt: Time)
  datatype Raise = Raise(n: ItemNo, kind: Kind, detail: Detail, at: Time, nudgedAt: Option<Time>, touches: nat)
  datatype Touch = Touch(n: ItemNo, at: Time)
  datatype Nudge = Nudge(n: ItemNo, at: Time)

  /** The last time this audience heard of this flag. */
  function LastPush(pushes: seq<Push>, n: ItemNo, key: Key): Option<Push> {
    if pushes == [] then None
    else
      var last := pushes[|pushes| - 1];
      if last.n == n && Key(last.kind, last.audience) == key then Some(last) else LastPush(pushes[..|pushes| - 1], n, key)
  }

  /** The push is the first of its kind to its audience, or the fingerprint changed
   *  since the one before, or the item was touched or its clock reset after it, or
   *  an episodic flag was raised after it. */
  ghost predicate NovelAt(pushes: seq<Push>, j: nat)
    requires j < |pushes|
  {
    var p := pushes[j];
    var before := LastPush(pushes[..j], p.n, Key(p.kind, p.audience));
    || before.None? || p.print_ != before.value.print_ || p.episode > before.value.at
    || (Episodic(p.kind) && p.raisedAt > before.value.at)
    || p.kind == HolderOverloaded
  }

  predicate Addressed(p: Push) {
    HolderOnly(p.kind) ==> p.audience == Holders
  }

  /** A `stale` without an ETA was raised at least the grace after a nudge, with no
   *  touch of the item after the nudge. */
  ghost predicate Patient(r: Raise, grace: Time, nudges: seq<Nudge>, touches: seq<Touch>) {
    r.kind == Stale && !r.detail.EtaAt? ==>
      && r.nudgedAt.Some? && Nudge(r.n, r.nudgedAt.value) in nudges && r.at >= r.nudgedAt.value + grace
      && r.touches <= |touches|
      && forall i :: 0 <= i < r.touches && touches[i].n == r.n ==> touches[i].at <= r.nudgedAt.value
  }

  // ---- what a run keeps ----

  /** The mark of a flag and an audience is that of their last push. */
  ghost predicate MarksTrue(items: map<ItemNo, Item>, pushes: seq<Push>) {
    forall n, key: Key :: n in items ==>
      (LastPush(pushes, n, key) == None && key !in items[n].marks)
      || (LastPush(pushes, n, key).Some? && key in items[n].marks
          && items[n].marks[key] == Mark(LastPush(pushes, n, key).value.print_, LastPush(pushes, n, key).value.at))
  }

  ghost predicate TimesTrue(items: map<ItemNo, Item>, now: Time, nudges: seq<Nudge>, touches: seq<Touch>) {
    && (forall n :: n in items ==> Episode(items[n]) <= now)
    && (forall n :: n in items && items[n].nudgedAt.Some? ==> Nudge(n, items[n].nudgedAt.value) in nudges)
    && (forall i :: 0 <= i < |touches| ==> touches[i].n in items && touches[i].at <= Episode(items[touches[i].n]))
  }

  ghost predicate PushesTrue(items: map<ItemNo, Item>, pushes: seq<Push>) {
    forall j :: 0 <= j < |pushes| ==> pushes[j].n in items && NovelAt(pushes, j) && Addressed(pushes[j])
  }

  // ---- the engine ----

  class Engine {
    const grace: Time
    const repush: Time
    const escalateAfter: Time
    var items: map<ItemNo, Item>
    var now: Time
    var pushes: seq<Push>
    var raises: seq<Raise>
    var nudges: seq<Nudge>
    var touches: seq<Touch>

    /** Every push so far was news and for its audience, and every `stale` came after a nudge. */
    ghost predicate Honest()
      reads this
    {
      && MarksTrue(items, pushes) && TimesTrue(items, now, nudges, touches) && PushesTrue(items, pushes)
      && (forall r :: r in raises ==> Patient(r, grace, nudges, touches))
    }

    constructor (grace: Time, repush: Time, escalateAfter: Time)
      ensures Honest() && items == map[] && this.grace == grace
    {
      this.grace, this.repush, this.escalateAfter := grace, repush, escalateAfter;
      items, now, pushes, raises, nudges, touches := map[], 0, [], [], [], [];
    }

    // ---- members ----

    method Add(n: ItemNo, at: Time, shape: Shape)
      requires Honest() && n !in items && at >= now
      modifies this
      ensures Honest() && now == at && items == old(items)[n := Item(shape, true, at, None, None, map[], map[])]
      ensures pushes == old(pushes) && raises == old(raises)
    {
      NeverPushed(pushes, n);
      items, now := items[n := Item(shape, true, at, None, None, map[], map[])], at;
    }

    /** A member's write: it touches the item, and may change its state and flags,
     *  but raises none of the engine's (a dropped blocker aside). */
    method MemberWrite(n: ItemNo, at: Time, shape: Shape, live: bool, open: map<Kind, Flag>)
      requires Honest() && n in items && at >= now
      requires forall k :: k in open && k !in items[n].open ==> !EngineOwns(k) || k == BlockerDropped
      modifies this
      ensures Honest() && now == at && touches == old(touches) + [Touch(n, at)]
      ensures items == old(items)[n := old(items)[n].(shape := shape, live := live, touchedAt := at, open := open)]
      ensures pushes == old(pushes) && raises == old(raises)
    {
      ghost var was := touches;
      var it := items[n].(shape := shape, live := live, touchedAt := at, open := open);
      SameMarksTrue(items, pushes, n, it);
      hide MarksTrue, PushesTrue;
      items := items[n := it];
      now, touches := at, touches + [Touch(n, at)];
      PatientStays(raises, grace, nudges, nudges, was, touches);
    }

    /** What happens to an item without a touch of its own: a blocker of it is done or
     *  dropped, or the gate layer raises or clears a flag. Losing its last blocker
     *  starts its clock over. */
    method Elsewhere(n: ItemNo, at: Time, shape: Shape, open: map<Kind, Flag>, unblocked: bool)
      requires Honest() && n in items && at >= now
      requires forall k :: k in open && k !in items[n].open ==> !EngineOwns(k) || k == BlockerDropped
      modifies this
      ensures Honest() && now == at
      ensures items == old(items)[n := old(items)[n].(shape := shape, open := open,
                                                      clockResetAt := if unblocked then Some(at) else old(items)[n].clockResetAt)]
      ensures pushes == old(pushes) && raises == old(raises)
    {
      var reset := if unblocked then Some(at) else items[n].clockResetAt;
      var it := items[n].(shape := shape, open := open, clockResetAt := reset);
      SameMarksTrue(items, pushes, n, it);
      hide MarksTrue, PushesTrue, Patient;
      items, now := items[n := it], at;
    }

    /** Over the whole run: two pushes of one flag to one audience, with none in
     *  between, mean a change, a touch or a reset after the first, unless the kind is
     *  episodic or about overload. */
    lemma RepeatedPush(i: nat, j: nat)
      requires Honest() && i < j < |pushes|
      requires pushes[i].n == pushes[j].n && pushes[i].kind == pushes[j].kind && pushes[i].audience == pushes[j].audience
      requires forall m :: i < m < j ==>
                 pushes[m].n != pushes[i].n || pushes[m].kind != pushes[i].kind || pushes[m].audience != pushes[i].audience
      requires !Episodic(pushes[j].kind) && pushes[j].kind != HolderOverloaded
      ensures pushes[j].print_ != pushes[i].print_ || pushes[j].episode > pushes[i].at
    {
      hide MarksTrue, TimesTrue;
      SuccessivePushes(pushes, i, j);
    }

    // ---- a pass ----

    /** Tells an audience of an open flag, and marks that it was told. */
    method Tell(n: ItemNo, kind: Kind, audience: Audience, flag: Flag)
      requires Honest() && n in items
      requires Due(items[n], kind, audience, flag) || kind == HolderOverloaded
      requires HolderOnly(kind) ==> audience == Holders
      modifies this`items, this`pushes
      ensures Honest()
      ensures items == old(items)[n := ToldOf(old(items)[n], kind, audience, flag.detail, now)]
      ensures pushes == old(pushes) + [PushOf(old(items)[n], n, kind, audience, flag, now)]
    {
      hide Patient, MarksTrue, PushesTrue, Due;
      var it := items[n];
      var p := PushOf(it, n, kind, audience, flag, now);
      ghost var told := ToldOf(it, kind, audience, flag.detail, now);
      assert Episode(told) == Episode(it);
      hide Episode;
      PushKeepsMarks(items, pushes, p, told);
      PushKeepsPushes(items, pushes, p, flag, told);
      pushes := pushes + [p];
      items := items[n := it.(marks := it.marks[Key(kind, audience) := Mark(p.print_, now)])];
    }

    /** Raises a flag that was not open. */
    method RaiseFlag(n: ItemNo, kind: Kind, detail: Detail)
      requires Honest() && n in items && kind !in items[n].open && !HeldBack(items[n], kind, detail, grace, now)
      modifies this`items, this`raises
      ensures Honest()
      ensures items == old(items)[n := old(items)[n].(open := old(items)[n].open[kind := Flag(detail, now, false)])]
      ensures raises == old(raises) + [Raise(n, kind, detail, now, old(items)[n].nudgedAt, |touches|)]
    {
      var r := Raise(n, kind, detail, now, items[n].nudgedAt, |touches|);
      assert Patient(r, grace, nudges, touches);
      var it := items[n].(open := items[n].open[kind := Flag(detail, now, false)]);
      SameMarksTrue(items, pushes, n, it);
      hide MarksTrue, PushesTrue;
      items := items[n := it];
      raises := raises + [r];
    }

    /** Nudges the holders, and starts the grace. */
    method NudgeItem(n: ItemNo)
      requires Honest() && n in items
      modifies this`items, this`nudges
      ensures Honest() && items == old(items)[n := old(items)[n].(nudgedAt := Some(now))] && nudges == old(nudges) + [Nudge(n, now)]
    {
      ghost var was := nudges;
      var it := items[n].(nudgedAt := Some(now));
      SameMarksTrue(items, pushes, n, it);
      hide MarksTrue, PushesTrue;
      items, nudges := items[n := it], nudges + [Nudge(n, now)];
      PatientStays(raises, grace, was, nudges, touches, touches);
    }

    /** One wanted flag of one live item. */
    method PassKind(n: ItemNo, kind: Kind, detail: Detail, snoozed: bool)
      requires Honest() && n in items
      modifies this`items, this`pushes, this`raises, this`nudges
      ensures Honest()
      ensures items == old(items)[n := Visited(old(items)[n], kind, detail, snoozed, grace, now)]
    {
      hide Honest, HeldBack, News;
      var it := items[n];
      if kind in it.open {
        if detail != NoDetail && it.open[kind].detail != detail {
          Refresh(n, kind, detail);
        } else {
          assert it.open[kind := it.open[kind]] == it.open && items == items[n := it];
        }
        return;
      }
      if snoozed {
        return;
      }
      HeldBackIs(it, kind, detail, grace, now);
      if kind == Stale && !detail.EtaAt? {
        var step := StaleStep(it, grace, now);
        if step == NudgeHolder {
          NudgeItem(n);
          return;
        }
        if step == WaitOut {
          return;
        }
      }
      RaiseFlag(n, kind, detail);
      NewsAtRaise(it, items[n], kind, detail);
      if HolderFirst(kind) && News(items[n], kind, Holders, detail) {
        Tell(n, kind, Holders, items[n].open[kind]);
      }
    }

    method Refresh(n: ItemNo, kind: Kind, detail: Detail)
      requires Honest() && n in items && kind in items[n].open
      modifies this`items
      ensures Honest()
      ensures items == old(items)[n := old(items)[n].(open := old(items)[n].open[kind := old(items)[n].open[kind].(detail := detail)])]
    {
      var it := items[n].(open := items[n].open[kind := items[n].open[kind].(detail := detail)]);
      SameMarksTrue(items, pushes, n, it);
      hide MarksTrue, PushesTrue, Patient;
      items := items[n := it];
    }

    /** One live item: the wanted flags, then the engine's own that are not wanted
     *  any more. */
    method PassItem(n: ItemNo, want: map<Kind, Detail>, snoozed: set<Kind>)
      requires Honest() && n in items
      modifies this`items, this`pushes, this`raises, this`nudges
      ensures Honest()
      ensures items == old(items)[n := AfterPass(old(items)[n], want, snoozed, grace, now)]
    {
      hide Honest, Visited, AfterKinds;
      ghost var was := items[n];
      var left := want.Keys;
      ghost var done: set<Kind> := {};
      NoKinds(was, want, snoozed, grace, now);
      assert items == old(items)[n := items[n]];
      while left != {}
        invariant Honest() && n in items && left + done == want.Keys && left !! done
        invariant items == old(items)[n := AfterKinds(was, want, done, snoozed, grace, now)]
        decreases left
      {
        var kind :| kind in left;
        OneMoreKind(was, want, done, kind, snoozed, grace, now);
        left, done := left - {kind}, done + {kind};
        PassKind(n, kind, want[kind], kind in snoozed);
      }
      assert done == want.Keys;
      ClearUnwanted(n, want);
    }

    method ClearUnwanted(n: ItemNo, want: map<Kind, Detail>)
      requires Honest() && n in items
      modifies this`items
      ensures Honest()
      ensures items == old(items)[n := old(items)[n].(open := StillWanted(old(items)[n].open, want))]
    {
      var it := items[n].(open := StillWanted(items[n].open, want));
      SameMarksTrue(items, pushes, n, it);
      hide MarksTrue, PushesTrue, Patient;
      items := items[n := it];
    }

    /** What the orchestrator is told: open flags that are news to it, none of the
     *  holders' own, and what the holder hears first only after a while. */
    method PushOrchestrator(loaded: set<ItemNo>, overloaded: set<ItemNo>)
      requires Honest()
      modifies this`items, this`pushes
      ensures Honest() && items.Keys == old(items).Keys
      ensures forall n :: n in items ==>
                items[n] == if n in loaded then Woken(old(items)[n], n in overloaded, repush, now) else old(items)[n]
    {
      hide Honest, AllTold, Due;
      ghost var was := items;
      var left := items.Keys;
      while left != {}
        invariant Honest() && items.Keys == was.Keys && left <= was.Keys
        invariant forall n :: n in left ==> items[n] == was[n]
        invariant forall n :: n in items && n !in left ==>
                    items[n] == if n in loaded then Woken(was[n], n in overloaded, repush, now) else was[n]
        decreases left
      {
        var n :| n in left;
        left := left - {n};
        if n in loaded {
          TellAll(n, OrchestratorNews(items[n], n in overloaded, repush, now), Orchestrator);
        }
      }
    }

    /** Tells an audience of several flags of an item, all of them due. */
    method TellAll(n: ItemNo, said: map<Kind, Detail>, audience: Audience)
      requires Honest() && n in items
      requires forall k :: k in said ==> k in items[n].open && items[n].open[k].detail == said[k]
                                         && (Due(items[n], k, audience, items[n].open[k]) || k == HolderOverloaded)
                                         && (HolderOnly(k) ==> audience == Holders)
      modifies this`items, this`pushes
      ensures Honest()
      ensures items == old(items)[n := AllTold(old(items)[n], said, audience, now)]
    {
      hide Honest, AllTold, Due, ToldOf, Only, HolderOnly;
      ghost var was := items[n];
      var left := said.Keys;
      ghost var done: set<Kind> := {};
      ToldNothing(was, said, audience, now);
      assert items == old(items)[n := items[n]];
      while left != {}
        invariant Honest() && n in items && left + done == said.Keys && left !! done
        invariant items == old(items)[n := AllTold(was, Only(said, done), audience, now)]
        decreases left
      {
        var kind :| kind in left;
        OneMoreTold(was, said, done, kind, audience, now);
        var flag := items[n].open[kind];
        SameDue(was, items[n], kind, audience, flag);
        left, done := left - {kind}, done + {kind};
        Tell(n, kind, audience, flag);
      }
      OnlyAll(said, done);
    }

    /** What Owner is told: flags left unresolved for long enough, once each. */
    method Escalate(loaded: set<ItemNo>)
      requires Honest()
      modifies this`items, this`pushes
      ensures Honest() && items.Keys == old(items).Keys
      ensures forall n :: n in items ==> items[n] == if n in loaded then Escalated(old(items)[n], escalateAfter, now) else old(items)[n]
    {
      hide Honest, AllTold, Due;
      ghost var was := items;
      var left := items.Keys;
      while left != {}
        invariant Honest() && items.Keys == was.Keys && left <= was.Keys
        invariant forall n :: n in left ==> items[n] == was[n]
        invariant forall n :: n in items && n !in left ==>
                    items[n] == if n in loaded then Escalated(was[n], escalateAfter, now) else was[n]
        decreases left
      {
        var n :| n in left;
        left := left - {n};
        if n in loaded {
          var stuck := OwnerNews(items[n], escalateAfter, now);
          TellAll(n, stuck, BoardOwner);
          SameOpen(was[n], stuck, BoardOwner, now);
          MarkEscalated(n, stuck.Keys);
        }
      }
    }

    method MarkEscalated(n: ItemNo, kinds: set<Kind>)
      requires Honest() && n in items
      modifies this`items
      ensures Honest()
      ensures items == old(items)[n := old(items)[n].(open := WithEscalated(old(items)[n].open, kinds))]
    {
      var it := items[n].(open := WithEscalated(items[n].open, kinds));
      SameMarksTrue(items, pushes, n, it);
      hide MarksTrue, PushesTrue, Patient;
      items := items[n := it];
    }

    /** One pass over the board: `want` are the flags that hold now, `loaded` the items
     *  read for it, every live one among them. Of the others nobody hears. */
    method Tick(at: Time, loaded: set<ItemNo>, want: map<ItemNo, map<Kind, Detail>>, snoozed: map<ItemNo, set<Kind>>,
                orchestrator: bool, overloaded: set<ItemNo>, escalates: bool)
      requires Honest() && at >= now && forall n :: n in items && items[n].live ==> n in loaded
      modifies this
      ensures Honest() && now == at && items.Keys == old(items).Keys
      ensures forall n :: n in items ==>
                var passed := PassedOf(old(items)[n], WantedOf(want, n), SnoozedOf(snoozed, n), grace, at);
                var woken := if orchestrator && n in loaded then Woken(passed, n in overloaded, repush, at) else passed;
                items[n] == if escalates && n in loaded then Escalated(woken, escalateAfter, at) else woken
    {
      hide AfterPass, Woken, Escalated;
      SetClock(at);
      hide Honest;
      PassAll(want, snoozed);
      if orchestrator {
        PushOrchestrator(loaded, overloaded);
      }
      if escalates {
        Escalate(loaded);
      }
    }

    method SetClock(at: Time)
      requires Honest() && at >= now
      modifies this`now
      ensures Honest() && now == at
    {
      hide MarksTrue, PushesTrue, Patient, Episode;
      now := at;
    }

    /** Every live item's pass. */
    method PassAll(want: map<ItemNo, map<Kind, Detail>>, snoozed: map<ItemNo, set<Kind>>)
      requires Honest()
      modifies this`items, this`pushes, this`raises, this`nudges
      ensures Honest() && items.Keys == old(items).Keys
      ensures forall n :: n in items ==> items[n] == PassedOf(old(items)[n], WantedOf(want, n), SnoozedOf(snoozed, n), grace, now)
    {
      hide Honest, AfterPass;
      ghost var was := items;
      var left := items.Keys;
      while left != {}
        invariant Honest() && items.Keys == was.Keys && left <= was.Keys
        invariant forall n :: n in left ==> items[n] == was[n]
        invariant forall n :: n in items && n !in left ==>
                    items[n] == PassedOf(was[n], WantedOf(want, n), SnoozedOf(snoozed, n), grace, now)
        decreases left
      {
        var n :| n in left;
        left := left - {n};
        if items[n].live {
          PassItem(n, WantedOf(want, n), SnoozedOf(snoozed, n));
        }
      }
    }
  }

  /** The item once an audience has been told. */
  function ToldOf(it: Item, kind: Kind, audience: Audience, detail: Detail, now: Time): Item {
    it.(marks := it.marks[Key(kind, audience) := Mark(PrintOf(it, kind, detail), now)])
  }

  function PushOf(it: Item, n: ItemNo, kind: Kind, audience: Audience, flag: Flag, now: Time): Push {
    Push(n, kind, audience, now, PrintOf(it, kind, flag.detail), Episode(it), flag.raisedAt)
  }

  /** Does the orchestrator hear of this open flag on this pass? */
  predicate ShouldTell(it: Item, kind: Kind, flag: Flag, overloaded: bool, repush: Time, now: Time) {
    && !HolderOnly(kind) && !(HolderFirst(kind) && now < flag.raisedAt + repush)
    && if kind == HolderOverloaded then overloaded else Due(it, kind, Orchestrator, flag)
  }

  predicate ShouldEscalate(it: Item, kind: Kind, flag: Flag, after: Time, now: Time) {
    !flag.escalated && now >= flag.raisedAt + after && Escalates(kind) && Due(it, kind, BoardOwner, flag)
  }

  function OrchestratorNews(it: Item, overloaded: bool, repush: Time, now: Time): map<Kind, Detail> {
    map k | k in it.open && ShouldTell(it, k, it.open[k], overloaded, repush, now) :: it.open[k].detail
  }

  function OwnerNews(it: Item, after: Time, now: Time): map<Kind, Detail> {
    map k | k in it.open && ShouldEscalate(it, k, it.open[k], after, now) :: it.open[k].detail
  }

  /** Raised on this pass, and news to the holders. */
  predicate HoldersHear(it: Item, kind: Kind, detail: Detail, snoozed: bool) {
    kind !in it.open && !snoozed && HolderFirst(kind) && News(it, kind, Holders, detail)
  }

  /** The marks an audience leaves that was told all of `said`. */
  ghost function ToldMarks(it: Item, said: map<Kind, Detail>, audience: Audience, now: Time): (told: map<Key, Mark>)
    ensures forall key :: key in told <==> key.audience == audience && key.kind in said
    ensures forall key :: key in told ==> told[key] == Mark(PrintOf(it, key.kind, said[key.kind]), now)
  {
    map k | k in said :: Key(k, audience) := Mark(PrintOf(it, k, said[k]), now)
  }

  ghost function AllTold(it: Item, said: map<Kind, Detail>, audience: Audience, now: Time): Item {
    it.(marks := it.marks + ToldMarks(it, said, audience, now))
  }

  ghost function Woken(it: Item, overloaded: bool, repush: Time, now: Time): Item {
    AllTold(it, OrchestratorNews(it, overloaded, repush, now), Orchestrator, now)
  }

  function WithEscalated(open: map<Kind, Flag>, kinds: set<Kind>): map<Kind, Flag> {
    map k | k in open :: if k in kinds then open[k].(escalated := true) else open[k]
  }

  ghost function Escalated(it: Item, after: Time, now: Time): Item {
    var stuck := OwnerNews(it, after, now);
    AllTold(it, stuck, BoardOwner, now).(open := WithEscalated(it.open, stuck.Keys))
  }

  ghost function Only(said: map<Kind, Detail>, kinds: set<Kind>): map<Kind, Detail> {
    map k | k in said && k in kinds :: said[k]
  }

  lemma ToldNothing(it: Item, said: map<Kind, Detail>, audience: Audience, now: Time)
    ensures AllTold(it, Only(said, {}), audience, now) == it
  {
    assert AllTold(it, Only(said, {}), audience, now).marks == it.marks;
  }

  lemma SameOpen(it: Item, said: map<Kind, Detail>, audience: Audience, now: Time)
    ensures AllTold(it, said, audience, now).open == it.open
  {
  }

  /** Being told of some kinds changes nothing for another. */
  lemma OnlyAll(said: map<Kind, Detail>, kinds: set<Kind>)
    requires kinds == said.Keys
    ensures Only(said, kinds) == said
  {
  }

  lemma OneMoreTold(it: Item, said: map<Kind, Detail>, done: set<Kind>, kind: Kind, audience: Audience, now: Time)
    requires kind !in done && kind in said
    ensures var mid := AllTold(it, Only(said, done), audience, now);
            && AllTold(it, Only(said, done + {kind}), audience, now) == ToldOf(mid, kind, audience, said[kind], now)
            && mid == it.(marks := mid.marks)
            && (var key := Key(kind, audience); (key in mid.marks <==> key in it.marks) && (key in it.marks ==> mid.marks[key] == it.marks[key]))
  {
    assert Only(said, done + {kind}) == Only(said, done)[kind := said[kind]];
    hide PrintOf, ToldMarks;
    MarksGrow(it, Only(said, done), kind, said[kind], audience, now);
    PutLast(it.marks, ToldMarks(it, Only(said, done), audience, now), Key(kind, audience), Mark(PrintOf(it, kind, said[kind]), now));
  }

  lemma PutLast(a: map<Key, Mark>, b: map<Key, Mark>, key: Key, mark: Mark)
    ensures a + b[key := mark] == (a + b)[key := mark]
  {
  }

  lemma MarksGrow(it: Item, said: map<Kind, Detail>, kind: Kind, detail: Detail, audience: Audience, now: Time)
    ensures ToldMarks(it, said[kind := detail], audience, now)
            == ToldMarks(it, said, audience, now)[Key(kind, audience) := Mark(PrintOf(it, kind, detail), now)]
  {
    hide ToldMarks, PrintOf;
    assert forall k: Key :: k == Key(kind, audience) <==> k.kind == kind && k.audience == audience;
  }

  /** Whether an audience should hear of a kind depends on its own mark only. */
  lemma SameDue(a: Item, b: Item, kind: Kind, audience: Audience, flag: Flag)
    requires b == a.(marks := b.marks)
    requires var key := Key(kind, audience);
             (key in a.marks <==> key in b.marks) && (key in a.marks ==> b.marks[key] == a.marks[key])
    ensures Due(b, kind, audience, flag) <==> Due(a, kind, audience, flag)
  {
    assert Episode(b) == Episode(a) && PrintOf(b, kind, flag.detail) == PrintOf(a, kind, flag.detail);
    hide Episode, PrintOf, Episodic;
  }

  function WantedOf(want: map<ItemNo, map<Kind, Detail>>, n: ItemNo): map<Kind, Detail> {
    if n in want then want[n] else map[]
  }

  function SnoozedOf(snoozed: map<ItemNo, set<Kind>>, n: ItemNo): set<Kind> {
    if n in snoozed then snoozed[n] else {}
  }

  /** A wanted `stale` that is not open, snoozed or anchored, with no nudge yet. */
  predicate NudgesNow(it: Item, kind: Kind, detail: Detail, snoozed: bool, grace: Time, now: Time) {
    kind !in it.open && !snoozed && kind == Stale && !detail.EtaAt? && StaleStep(it, grace, now) == NudgeHolder
  }

  predicate Opens(it: Item, kind: Kind, detail: Detail, snoozed: bool, grace: Time, now: Time) {
    kind !in it.open && !snoozed && !HeldBack(it, kind, detail, grace, now)
  }

  function Refreshed(flag: Flag, detail: Detail): Flag {
    if detail != NoDetail then flag.(detail := detail) else flag
  }

  /** An item after one wanted flag was looked at. */
  function Visited(it: Item, kind: Kind, detail: Detail, snoozed: bool, grace: Time, now: Time): Item {
    it.(open := if kind in it.open then it.open[kind := Refreshed(it.open[kind], detail)]
                else if Opens(it, kind, detail, snoozed, grace, now) then it.open[kind := Flag(detail, now, false)]
                else it.open,
        nudgedAt := if NudgesNow(it, kind, detail, snoozed, grace, now) then Some(now) else it.nudgedAt,
        marks := if HoldersHear(it, kind, detail, snoozed) then it.marks[Key(kind, Holders) := Mark(PrintOf(it, kind, detail), now)]
                 else it.marks)
  }

  function HolderNews(it: Item, want: map<Kind, Detail>, kinds: set<Kind>, snoozed: set<Kind>): map<Kind, Detail> {
    map k | k in want && k in kinds && HoldersHear(it, k, want[k], k in snoozed) :: want[k]
  }

  /** The flags open once the wanted ones of `kinds` were looked at. */
  ghost function OpenFlags(it: Item, want: map<Kind, Detail>, kinds: set<Kind>, snoozed: set<Kind>, grace: Time, now: Time): (open: map<Kind, Flag>)
    ensures forall k :: k in open <==>
              k in it.open || (k in want && k in kinds && Opens(it, k, want[k], k in snoozed, grace, now))
    ensures forall k :: k in open ==>
              open[k] == if k !in it.open then Flag(want[k], now, false)
                         else if k in want && k in kinds then Refreshed(it.open[k], want[k]) else it.open[k]
  {
    map k | k in it.open.Keys + want.Keys && (k in it.open || (k in kinds && Opens(it, k, want[k], k in snoozed, grace, now)))
      :: if k !in it.open then Flag(want[k], now, false)
         else if k in want && k in kinds then Refreshed(it.open[k], want[k]) else it.open[k]
  }

  /** An item after the wanted flags of `kinds` were looked at, in whatever order. */
  ghost function AfterKinds(it: Item, want: map<Kind, Detail>, kinds: set<Kind>, snoozed: set<Kind>, grace: Time, now: Time): Item {
    AllTold(it, HolderNews(it, want, kinds, snoozed), Holders, now).(
      open := OpenFlags(it, want, kinds, snoozed, grace, now),
      nudgedAt := if Stale in kinds && Stale in want && NudgesNow(it, Stale, want[Stale], Stale in snoozed, grace, now)
                  then Some(now) else it.nudgedAt)
  }

  function StillWanted(open: map<Kind, Flag>, want: map<Kind, Detail>): map<Kind, Flag> {
    map k | k in open && (k in want || !EngineOwns(k)) :: open[k]
  }

  /** A live item after a pass over the wanted flags. */
  ghost function AfterPass(it: Item, want: map<Kind, Detail>, snoozed: set<Kind>, grace: Time, now: Time): Item {
    var looked := AfterKinds(it, want, want.Keys, snoozed, grace, now);
    looked.(open := StillWanted(looked.open, want))
  }

  /** Items that are closed or archived are passed over. */
  ghost function PassedOf(it: Item, want: map<Kind, Detail>, snoozed: set<Kind>, grace: Time, now: Time): Item {
    if it.live then AfterPass(it, want, snoozed, grace, now) else it
  }

  lemma NoKinds(it: Item, want: map<Kind, Detail>, snoozed: set<Kind>, grace: Time, now: Time)
    ensures AfterKinds(it, want, {}, snoozed, grace, now) == it
  {
    hide Opens, HoldersHear, NudgesNow;
    assert AfterKinds(it, want, {}, snoozed, grace, now).open == it.open;
    assert AfterKinds(it, want, {}, snoozed, grace, now).marks == it.marks;
  }

  lemma OneMoreOpen(it: Item, want: map<Kind, Detail>, done: set<Kind>, kind: Kind, snoozed: set<Kind>, grace: Time, now: Time)
    requires kind !in done && kind in want
    ensures var open := OpenFlags(it, want, done, snoozed, grace, now);
            && (kind in open <==> kind in it.open)
            && OpenFlags(it, want, done + {kind}, snoozed, grace, now)
               == if kind in open then open[kind := Refreshed(open[kind], want[kind])]
                  else if Opens(it, kind, want[kind], kind in snoozed, grace, now) then open[kind := Flag(want[kind], now, false)]
                  else open
  {
    hide OpenFlags, Opens, Refreshed;
  }

  lemma OneMoreHeard(it: Item, want: map<Kind, Detail>, done: set<Kind>, kind: Kind, snoozed: set<Kind>, now: Time)
    requires kind !in done && kind in want
    ensures var said, heard := HolderNews(it, want, done, snoozed), HolderNews(it, want, done + {kind}, snoozed);
            && Key(kind, Holders) !in ToldMarks(it, said, Holders, now)
            && it.marks + ToldMarks(it, heard, Holders, now)
               == if HoldersHear(it, kind, want[kind], kind in snoozed)
                  then (it.marks + ToldMarks(it, said, Holders, now))[Key(kind, Holders) := Mark(PrintOf(it, kind, want[kind]), now)]
                  else it.marks + ToldMarks(it, said, Holders, now)
  {
    hide ToldMarks, PrintOf, HoldersHear;
    var said, hears := HolderNews(it, want, done, snoozed), HoldersHear(it, kind, want[kind], kind in snoozed);
    assert HolderNews(it, want, done + {kind}, snoozed) == if hears then said[kind := want[kind]] else said;
    MarksGrow(it, said, kind, want[kind], Holders, now);
    PutLast(it.marks, ToldMarks(it, said, Holders, now), Key(kind, Holders), Mark(PrintOf(it, kind, want[kind]), now));
  }

  /** Looking at some kinds changes nothing for another. */
  lemma OneMoreKind(it: Item, want: map<Kind, Detail>, done: set<Kind>, kind: Kind, snoozed: set<Kind>, grace: Time, now: Time)
    requires kind !in done && kind in want
    ensures AfterKinds(it, want, done + {kind}, snoozed, grace, now)
            == Visited(AfterKinds(it, want, done, snoozed, grace, now), kind, want[kind], kind in snoozed, grace, now)
  {
    hide ToldMarks, PrintOf, OpenFlags, Opens, HoldersHear, NudgesNow, HolderNews, Refreshed;
    OneMoreOpen(it, want, done, kind, snoozed, grace, now);
    OneMoreHeard(it, want, done, kind, snoozed, now);
    SameLook(it, AfterKinds(it, want, done, snoozed, grace, now), kind, want[kind], kind in snoozed, grace, now);
  }

  /** What a look at one kind finds is the same after looks at others. */
  lemma SameLook(a: Item, b: Item, kind: Kind, detail: Detail, snoozed: bool, grace: Time, now: Time)
    requires b == a.(open := b.open, marks := b.marks, nudgedAt := b.nudgedAt)
    requires (kind in b.open <==> kind in a.open) && (kind == Stale ==> b.nudgedAt == a.nudgedAt)
    requires var key := Key(kind, Holders);
             (key in a.marks <==> key in b.marks) && (key in a.marks ==> b.marks[key] == a.marks[key])
    ensures Opens(b, kind, detail, snoozed, grace, now) <==> Opens(a, kind, detail, snoozed, grace, now)
    ensures HoldersHear(b, kind, detail, snoozed) <==> HoldersHear(a, kind, detail, snoozed)
    ensures NudgesNow(b, kind, detail, snoozed, grace, now) <==> NudgesNow(a, kind, detail, snoozed, grace, now)
    ensures NudgesNow(a, kind, detail, snoozed, grace, now) ==> kind == Stale
    ensures PrintOf(b, kind, detail) == PrintOf(a, kind, detail)
  {
  }

  lemma NewsAtRaise(a: Item, b: Item, kind: Kind, detail: Detail)
    requires b == a.(open := b.open)
    ensures News(b, kind, Holders, detail) <==> News(a, kind, Holders, detail)
    ensures PrintOf(b, kind, detail) == PrintOf(a, kind, detail)
  {
  }

  /** Is the flag open after a pass: it was and still holds, or is not the engine's,
   *  or it holds now and neither a snooze nor a nudge keeps it back. */
  ghost predicate OpenAfter(it: Item, want: map<Kind, Detail>, snoozed: set<Kind>, grace: Time, now: Time, k: Kind) {
    if k in it.open then k in want || !EngineOwns(k)
    else k in want && k !in snoozed && !HeldBack(it, k, want[k], grace, now)
  }

  /** A pass opens and closes exactly these. */
  lemma PassOpens(it: Item, want: map<Kind, Detail>, snoozed: set<Kind>, grace: Time, now: Time, k: Kind)
    ensures k in AfterPass(it, want, snoozed, grace, now).open <==> OpenAfter(it, want, snoozed, grace, now, k)
  {
    hide HeldBack, ToldMarks;
  }

  lemma HeldBackIs(it: Item, kind: Kind, detail: Detail, grace: Time, now: Time)
    ensures HeldBack(it, kind, detail, grace, now) <==> kind == Stale && !detail.EtaAt? && StaleStep(it, grace, now) != FlagIt
  {
  }

  lemma {:induction false} NeverPushed(pushes: seq<Push>, n: ItemNo)
    requires forall j :: 0 <= j < |pushes| ==> pushes[j].n != n
    ensures forall key :: LastPush(pushes, n, key).None?
  {
    if pushes != [] {
      NeverPushed(pushes[..|pushes| - 1], n);
    }
  }

  lemma LastOf(pushes: seq<Push>, p: Push, n: ItemNo, key: Key)
    ensures LastPush(pushes + [p], n, key) == if p.n == n && Key(p.kind, p.audience) == key then Some(p) else LastPush(pushes, n, key)
  {
    var longer := pushes + [p];
    assert longer[|longer| - 1] == p && longer[..|longer| - 1] == pushes;
  }

  lemma LastOfAll(pushes: seq<Push>, p: Push)
    ensures forall n, key: Key :: LastPush(pushes + [p], n, key)
              == if p.n == n && Key(p.kind, p.audience) == key then Some(p) else LastPush(pushes, n, key)
  {
    forall n, key: Key ensures LastPush(pushes + [p], n, key)
                            == if p.n == n && Key(p.kind, p.audience) == key then Some(p) else LastPush(pushes, n, key)
    {
      LastOf(pushes, p, n, key);
    }
  }

  /** A due push is novel, when the marks are those of the last pushes. */
  lemma NovelTo(pushes: seq<Push>, it: Item, p: Push, flag: Flag)
    requires p == PushOf(it, p.n, p.kind, p.audience, flag, p.at)
    requires Due(it, p.kind, p.audience, flag) || p.kind == HolderOverloaded
    requires var key, last := Key(p.kind, p.audience), LastPush(pushes, p.n, Key(p.kind, p.audience));
             last.Some? ==> key in it.marks && it.marks[key] == Mark(last.value.print_, last.value.at)
    ensures NovelAt(pushes + [p], |pushes|)
  {
    assert (pushes + [p])[..|pushes|] == pushes;
  }

  /** A push and its mark go together. */
  lemma PushKeepsMarks(items: map<ItemNo, Item>, pushes: seq<Push>, p: Push, told: Item)
    requires MarksTrue(items, pushes) && p.n in items
    requires told.marks == items[p.n].marks[Key(p.kind, p.audience) := Mark(p.print_, p.at)]
    ensures MarksTrue(items[p.n := told], pushes + [p])
  {
    hide LastPush;
    LastOfAll(pushes, p);
  }

  /** Anything but the marks of an item may change. */
  lemma SameMarksTrue(items: map<ItemNo, Item>, pushes: seq<Push>, n: ItemNo, it: Item)
    requires MarksTrue(items, pushes) && PushesTrue(items, pushes) && n in items && it.marks == items[n].marks
    ensures MarksTrue(items[n := it], pushes) && PushesTrue(items[n := it], pushes)
  {
    hide LastPush, NovelAt;
  }

  lemma PushKeepsPushes(items: map<ItemNo, Item>, pushes: seq<Push>, p: Push, flag: Flag, it: Item)
    requires MarksTrue(items, pushes) && PushesTrue(items, pushes) && p.n in items && Addressed(p)
    requires p == PushOf(items[p.n], p.n, p.kind, p.audience, flag, p.at)
    requires Due(items[p.n], p.kind, p.audience, flag) || p.kind == HolderOverloaded
    ensures PushesTrue(items[p.n := it], pushes + [p])
  {
    hide LastPush, NovelAt, Due, PushOf;
    NovelTo(pushes, items[p.n], p, flag);
    NovelStill(pushes, p);
  }

  lemma NovelStill(pushes: seq<Push>, p: Push)
    ensures forall j :: 0 <= j < |pushes| ==> (NovelAt(pushes + [p], j) <==> NovelAt(pushes, j))
  {
    forall j | 0 <= j < |pushes| ensures NovelAt(pushes + [p], j) <==> NovelAt(pushes, j) {
      assert (pushes + [p])[..j] == pushes[..j];
    }
  }

  /** Records only grow, so what they say of a raise stays said. */
  lemma PatientStays(raises: seq<Raise>, grace: Time, nudges: seq<Nudge>, nudges': seq<Nudge>, touches: seq<Touch>, touches': seq<Touch>)
    requires nudges <= nudges' && touches <= touches'
    requires forall r :: r in raises ==> Patient(r, grace, nudges, touches)
    ensures forall r :: r in raises ==> Patient(r, grace, nudges', touches')
  {
    forall r | r in raises ensures Patient(r, grace, nudges', touches') {
      assert Patient(r, grace, nudges, touches);
    }
  }

  /** Two pushes of one flag to one audience, with none in between: unless the kind
   *  is episodic or about overload, the fingerprint changed or the item was touched
   *  or reset after the first. */
  lemma SuccessivePushes(pushes: seq<Push>, i: nat, j: nat)
    requires i < j < |pushes| && NovelAt(pushes, j)
    requires pushes[i].n == pushes[j].n && pushes[i].kind == pushes[j].kind && pushes[i].audience == pushes[j].audience
    requires forall m :: i < m < j ==>
               pushes[m].n != pushes[i].n || pushes[m].kind != pushes[i].kind || pushes[m].audience != pushes[i].audience
    requires !Episodic(pushes[j].kind) && pushes[j].kind != HolderOverloaded
    ensures pushes[j].print_ != pushes[i].print_ || pushes[j].episode > pushes[i].at
  {
    LastIs(pushes, i, j);
  }

  lemma {:induction false} LastIs(pushes: seq<Push>, i: nat, j: nat)
    requires i < j <= |pushes|
    requires forall m :: i < m < j ==>
               pushes[m].n != pushes[i].n || pushes[m].kind != pushes[i].kind || pushes[m].audience != pushes[i].audience
    ensures LastPush(pushes[..j], pushes[i].n, Key(pushes[i].kind, pushes[i].audience)) == Some(pushes[i])
    decreases j
  {
    assert pushes[..j][..j - 1] == pushes[..j - 1];
    if i < j - 1 {
      LastIs(pushes, i, j - 1);
    }
  }
}
