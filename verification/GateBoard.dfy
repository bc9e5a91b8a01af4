/** The gate side of a board, as its writes happen under the board-row lock
 * (dispatch/gate_db.py).
 */
module GateBoard {
  import opened Prelude
  import opened Graphs
  import opened GateRules
  import opened GateState
  import opened StaleCascade
  import GateEvaluator
  import opened GateRevocation
  import GateRuns

  datatype Refusal = NoItem | ClassMismatch | NoReceipt | NoGrant | Forbidden | InvalidField | InvalidGrant

  function Because(cause: Cause): StaleCascade.Reason {
    StaleCascade.Reason(cause, None, None)
  }

  class Board {
    const grantors: set<Who>
    var profiles: map<Name, Profile>
    var defaultClass: Option<Name>
    var items: map<ItemId, ItemGate>
    var grants: map<ItemId, seq<Grant>>
    var rows: map<ReceiptId, Row>
    var stale: Staleness
    var inputs: Inputs
    var next: nat

    function View(): Gate
      reads this
    {
      Gate(profiles, defaultClass, items, grants, rows, stale, inputs, next)
    }

    constructor (items: map<ItemId, ItemGate>, grantors: set<Who>)
      ensures this.grantors == grantors && Current(View(), grantors) && GateRuns.Numbered(View())
    {
      this.grantors, this.items := grantors, items;
      profiles, defaultClass, grants := map[], None, map item | item in items :: [];
      rows, stale, inputs, next := map[], map[], {}, 0;
      new;
      GateRuns.NewBoardCurrent(items, grantors);
    }

    // ---- reading ----

    function ClassOf(item: ItemId): (klass: Option<Name>)
      requires item in items
      reads this
      ensures klass == Effective(View(), item)
    {
      if items[item].klass.Some? then items[item].klass else defaultClass
    }

    function ProfileOf(klass: Option<Name>): (p: Option<Profile>)
      reads this
      ensures p == ProfileFor(View(), klass)
    {
      if klass.Some? && klass.value in profiles then Some(profiles[klass.value]) else None
    }

    // ---- staleness ----

    /** Marks the receipts of `ids` stale, and all that consumed them. */
    method MarkStale(ids: set<ReceiptId>, cause: Cause)
      modifies this`stale
      ensures Fallen(old(stale), stale, inputs, ids)
    {
      hide Fallen, Cascaded;
      ghost var was := stale;
      var listed := Listed(ids);
      var table := new ReceiptTable(stale, inputs);
      AllLoaded(listed);
      var labels := table.MarkStale(LoadedLive(listed), Because(cause));
      CascadedFalls(was, table.stale, inputs, listed, Because(cause));
      stale := table.stale;
    }

    /** Marks each of `ids` on its own, one cascade after the other. */
    method MarkEach(ids: set<ReceiptId>, causes: map<ReceiptId, Cause>)
      requires ids <= causes.Keys
      modifies this`stale
      ensures Fallen(old(stale), stale, inputs, ids)
    {
      hide Fallen;
      ghost var was := stale;
      var left := ids;
      ghost var done: set<ReceiptId> := {};
      NothingFalls(stale, inputs);
      while left != {}
        invariant done + left == ids
        invariant Fallen(was, stale, inputs, done)
        decreases left
      {
        var id :| id in left;
        ghost var mid := stale;
        MarkStale({id}, causes[id]);
        FallenTwice(was, mid, stale, inputs, done, {id});
        left, done := left - {id}, done + {id};
      }
      assert done == ids;
    }

    // ---- receipts ----

    method Post(item: ItemId, r: Receipt, claimed: Option<Name>, bound: set<(Text, Text)>, consumed: set<ReceiptId>)
      returns (result: Result<ReceiptId, Refusal>)
      requires Shaped(View())
      modifies this
      ensures Step(old(View()), View(), grantors, Command.Post(item, r, claimed, bound, consumed))
      ensures result.Err? ==> View() == old(View())
    {
      hide Fallen, Shaped, Posted;
      HasGrants(View());
      if item !in items {
        return Err(NoItem);
      }
      if claimed.Some? && claimed != ClassOf(item) {
        return Err(ClassMismatch);
      }
      if !(consumed <= rows.Keys) {
        return Err(NoReceipt);
      }
      Store(item, r, bound, consumed);
      result := Ok(ReceiptId(next - 1));
    }

    method Store(item: ItemId, r: Receipt, bound: set<(Text, Text)>, consumed: set<ReceiptId>)
      requires item in items && item in grants
      modifies this
      ensures Posted(old(View()), View(), grantors, item, r, bound, consumed) && next == old(next) + 1
    {
      hide Fallen, NewRow, PostSeeds;
      ghost var start := View();
      var row := MakeRow(item, r, bound);
      var id := ReceiptId(next);
      rows, stale, next := rows[id := row], stale[id := None], next + 1;
      inputs := inputs + set p | p in consumed :: (id, p);
      assert View() == WithReceipt(start, grantors, item, r, bound, consumed);
      MarkOutdated(id);
    }

    /** What a newly stored receipt makes stale. */
    method MarkOutdated(id: ReceiptId)
      requires id in rows && rows[id].item in items
      modifies this`stale
      ensures Fallen(old(stale), stale, inputs, PostSeeds(old(View()), id))
    {
      hide Fallen;
      ghost var was := stale;
      // The seeds of `PostSeeds`, in its order: first the superseded, then the input
      // changers.
      var older, changed := Superseded(View(), id), InputChangers(View(), id);
      MarkEach(older, map o | o in older :: SupersededBy(rows[o].receipt, rows[id].receipt).value);
      ghost var mid := stale;
      MarkStale(changed, InputChanged);
      FallenTwice(was, mid, stale, inputs, older, changed);
      ghost var late := stale;
      MarkArrival(id);
      FallenTwice(was, late, stale, inputs, older + changed, Arrived(old(View()), id));
    }

    method MarkArrival(id: ReceiptId)
      requires id in rows && rows[id].item in items
      modifies this`stale
      ensures Fallen(old(stale), stale, inputs, Arrived(old(View()), id))
    {
      hide Fallen;
      var arrival := ArrivalStale(rows[id].receipt, items[rows[id].item].binding);
      if arrival.Some? {
        MarkStale({id}, arrival.value);
      } else if rows[id].verdict.word == FailWord || rows[id].verdict.word == VoidWord {
        MarkStale((set c | c in rows && (c, id) in inputs), InputReceiptInvalid);
      } else {
        NothingFalls(stale, inputs);
      }
    }

    method MakeRow(item: ItemId, r: Receipt, bound: set<(Text, Text)>) returns (row: Row)
      requires item in items && item in grants
      ensures row == NewRow(View(), grantors, item, r, bound) && row.item == item && row.receipt == r
    {
      hide Evaluate, Grade;
      var klass := ClassOf(item);
      var verdict := GateEvaluator.Judge(r, ProfileOf(klass), Grade(grants[item], ProfileOf(ClassOf(item)), grantors));
      row := Row(item, r, klass, VersionOf(ProfileOf(klass)), verdict, bound);
    }

    // ---- grants ----

    method Attach(item: ItemId, by_: Who, draft: Grant) returns (refusal: Option<Refusal>)
      requires Current(View(), grantors)
      modifies this
      ensures Step(old(View()), View(), grantors, Command.Attach(item, by_, draft))
      ensures refusal.Some? ==> View() == old(View())
    {
      hide Evaluate, Grade, RowCurrent, ShapeProblems, SameGate, Agree, DistinctTags;
      if draft.reason == "" || draft.risk == "" || (draft.kind == Variance && draft.digest.None?) {
        return Some(InvalidField);
      }
      if item !in items {
        return Some(NoItem);
      }
      if by_ !in grantors {
        return Some(Forbidden);
      }
      var grant := Completed(View(), item, by_, draft);
      if ShapeProblems(grant, ProfileOf(ClassOf(item))) != {} {
        return Some(InvalidGrant);
      }
      CurrentVersions(View(), grantors);
      hide Current, Shaped;
      Reevaluate(item, grants[item] + [grant]);
      refusal := None;
    }

    /** Stores the item's grants and judges its live receipts anew. */
    method Reevaluate(item: ItemId, now: seq<Grant>)
      requires Shaped(View()) && item in items && VersionsInForce(View())
      modifies this`grants, this`rows
      ensures Regranted(old(View()), View(), grantors, item, now)
    {
      hide Evaluate, Grade, DistinctTags;
      ghost var start := View();
      var graded := Grade(now, ProfileOf(ClassOf(item)), grantors);
      grants := grants[item := now];
      var mine := set id | id in rows && rows[id].item == item && Live(stale, id);
      JudgeAgain(mine, graded);
    }

    method JudgeAgain(ids: set<ReceiptId>, graded: seq<Graded>)
      requires ids <= rows.Keys && forall id :: id in ids ==> rows[id].version == VersionOf(ProfileFor(View(), rows[id].klass))
      modifies this`rows
      ensures rows.Keys == old(rows).Keys
      ensures forall id :: id in rows ==> rows[id] == if id in ids then Rejudged(old(View()), old(rows)[id], graded) else old(rows)[id]
    {
      hide Rejudged, VersionOf;
      ghost var start := View();
      var left := ids;
      while left != {}
        invariant left <= ids && rows.Keys == start.rows.Keys
        invariant forall id :: id in rows ==> rows[id] == if id in ids - left then Rejudged(start, start.rows[id], graded) else start.rows[id]
        decreases left
      {
        var id :| id in left;
        left := left - {id};
        SameProfiles(View(), start, rows[id], graded);
        Rejudge(id, graded);
      }
    }

    /** A profile edit that has not restaled a receipt never judges it anew. */
    method Rejudge(id: ReceiptId, graded: seq<Graded>)
      requires id in rows && rows[id].version == VersionOf(ProfileFor(View(), rows[id].klass))
      modifies this`rows
      ensures rows == old(rows)[id := Rejudged(old(View()), old(rows)[id], graded)]
    {
      hide Evaluate;
      var profile := ProfileOf(rows[id].klass);
      if profile.Some? && rows[id].version != VersionOf(profile) {
        return;
      }
      var verdict := GateEvaluator.Judge(rows[id].receipt, profile, graded);
      if verdict != rows[id].verdict {
        rows := rows[id := rows[id].(verdict := verdict)];
      }
    }

    method Revoke(item: ItemId, by_: Who, tag: Label, mentions: set<ReceiptId>) returns (refusal: Option<Refusal>)
      requires Shaped(View())
      modifies this
      ensures Step(old(View()), View(), grantors, Command.Revoke(item, by_, tag, mentions))
      ensures refusal.Some? ==> View() == old(View())
    {
      hide Evaluate, Fallen, Grade, DistinctTags;
      if item !in items {
        return Some(NoItem);
      }
      var grant := FindGrant(grants[item], tag);
      if grant.None? {
        return Some(NoGrant);
      }
      if by_ != grant.value.grantor && by_ != Owner {
        return Some(Forbidden);
      }
      if !grant.value.revoked {
        var users := Users(View(), item, tag, mentions);
        grants := grants[item := WithRevoked(grants[item], tag)];
        MarkStale(users, GrantRevoked);
      }
      refusal := None;
    }

    method Recheck(item: ItemId, tag: Label, check: MessageCheck) returns (refusal: Option<Refusal>)
      requires Current(View(), grantors)
      modifies this
      ensures Step(old(View()), View(), grantors, Command.Recheck(item, tag, check))
      ensures refusal.Some? ==> View() == old(View())
    {
      hide Evaluate, Grade, RowCurrent, SameGate, Agree, DistinctTags;
      if item !in items {
        return Some(NoItem);
      }
      var grant := FindGrant(grants[item], tag);
      if grant.None? {
        return Some(NoGrant);
      }
      if check != grant.value.check {
        CurrentVersions(View(), grantors);
        hide Current, Shaped;
        Reevaluate(item, WithCheck(grants[item], tag, check));
      }
      refusal := None;
    }

    // ---- profiles ----

    method SetProfile(klass: Name, profile: Option<Profile>, makeDefault: bool)
      requires Shaped(View())
      modifies this
      ensures Step(old(View()), View(), grantors, Command.SetProfile(klass, profile, makeDefault))
    {
      hide Fallen, OfClass, Inheriting, Posted, Regranted, RevokedIn, Redefaulted, BoundTo;
      ghost var start := View();
      var oldDefault := defaultClass;
      var ofClass, inheriting := OfClass(View(), klass), Inheriting(View());
      EditProfile(klass, profile, makeDefault);
      hide WithProfile;
      MarkStale(ofClass, ProfileChanged);
      ghost var mid := stale;
      if defaultClass != oldDefault {
        MarkStale(inheriting, ClassChanged);
        FallenTwice(start.stale, mid, stale, inputs, ofClass, inheriting);
      } else {
        assert ofClass + {} == ofClass;
      }
      assert Reprofiled(start, View(), klass, profile, makeDefault);
      hide Reprofiled;
    }

    /** Creates, replaces or deletes a class of the profile table. */
    method EditProfile(klass: Name, profile: Option<Profile>, makeDefault: bool)
      modifies this`profiles, this`defaultClass
      ensures View() == WithProfile(old(View()), klass, profile, makeDefault)
    {
      var version := if klass in profiles then profiles[klass].version + 1 else 1;
      if profile.Some? {
        profiles := profiles[klass := profile.value.(version := version)];
        if makeDefault {
          defaultClass := Some(klass);
        }
      } else {
        profiles := profiles - {klass};
        if defaultClass == Some(klass) {
          defaultClass := None;
        }
      }
    }

    method SetDefault(klass: Option<Name>)
      requires Shaped(View())
      modifies this
      ensures Step(old(View()), View(), grantors, Command.SetDefault(klass))
    {
      hide Fallen;
      if klass != defaultClass {
        defaultClass := klass;
        MarkStale(Inheriting(View()), ClassChanged);
      } else {
        NothingFalls(stale, inputs);
      }
    }

    // ---- bindings ----

    method Bind(item: ItemId, head: Option<Option<Sha>>, mf: Option<Option<Sha>>, ruling: Option<Option<Text>>, newClass: Option<Option<Name>>)
      returns (refusal: Option<Refusal>)
      requires Shaped(View())
      modifies this
      ensures Step(old(View()), View(), grantors, Command.Bind(item, head, mf, ruling, newClass))
    {
      hide Fallen;
      ghost var start := View();
      var c := Command.Bind(item, head, mf, ruling, newClass);
      hide Shaped, ChangedFields, Rebound;
      if item !in items {
        return Some(NoItem);
      }
      var was := items[item];
      var changed := ChangedFields(was.binding, c);
      var classChanged := Moved(was.klass, newClass);
      if changed == {} && !classChanged {
        Unmoved(View(), c);
        NothingFalls(stale, inputs);
        assert BoundTo(start, View(), c);
        hide BoundTo;
        return None;
      }
      var binding := Rebound(was.binding, c);
      var leaving := LeftBehind(View(), c);
      items := items[item := ItemGate(MovedTo(was.klass, newClass), binding)];
      MarkEach(leaving, map id | id in leaving ::
        var why := BindingStale(rows[id].receipt, binding, changed); if why.Some? then why.value else ClassChanged);
      assert BoundTo(start, View(), c);
      hide BoundTo;
      refusal := None;
    }

    /** What the posting host saw of a receipt's branch, runner or base. */
    method Observe(id: ReceiptId, why: Option<Cause>)
      requires Shaped(View())
      modifies this`stale
      ensures Step(old(View()), View(), grantors, Command.Observe(id, why.Some?))
    {
      hide Fallen;
      if why.Some? {
        MarkStale({id}, why.value);
      } else {
        NothingFalls(stale, inputs);
      }
    }
  }

  /** The row with the verdict it has under `graded` now. */
  function Rejudged(g: Gate, row: Row, graded: seq<Graded>): Row {
    row.(verdict := Evaluate(row.receipt, ProfileFor(g, row.klass), graded))
  }

  lemma SameProfiles(g: Gate, h: Gate, row: Row, graded: seq<Graded>)
    requires g.profiles == h.profiles
    ensures Rejudged(g, row, graded) == Rejudged(h, row, graded) && ProfileFor(g, row.klass) == ProfileFor(h, row.klass)
  {
  }

  ghost predicate VersionsInForce(g: Gate)
    requires g.stale.Keys == g.rows.Keys
  {
    forall id :: Live(g.stale, id) ==> g.rows[id].version == VersionOf(ProfileFor(g, g.rows[id].klass))
  }

  lemma CurrentVersions(g: Gate, who: set<Who>)
    requires Current(g, who)
    ensures Shaped(g) && VersionsInForce(g)
  {
    hide SameVerdict, MatchesBinding, Agree, SameGate, DistinctTags;
    forall id | Live(g.stale, id) ensures g.rows[id].version == VersionOf(ProfileFor(g, g.rows[id].klass)) {
      assert RowCurrent(g, who, id);
    }
  }

  lemma HasGrants(g: Gate)
    requires Shaped(g)
    ensures g.grants.Keys == g.items.Keys && g.stale.Keys == g.rows.Keys
  {
  }

  method Listed(ids: set<ReceiptId>) returns (listed: seq<ReceiptId>)
    ensures ToSet(listed) == ids
  {
    listed := [];
    var left := ids;
    while left != {}
      invariant ToSet(listed) + left == ids
      decreases left
    {
      var id :| id in left;
      listed, left := listed + [id], left - {id};
    }
  }

  function LoadedLive(ids: seq<ReceiptId>): seq<Loaded> {
    if ids == [] then [] else [Loaded(ids[0], true)] + LoadedLive(ids[1..])
  }

  lemma {:induction false} AllLoaded(ids: seq<ReceiptId>)
    ensures LiveIds(LoadedLive(ids)) == ids
  {
    if ids != [] {
      AllLoaded(ids[1..]);
      assert LoadedLive(ids)[1..] == LoadedLive(ids[1..]);
    }
  }

  /** A binding that names nothing new moves nothing. */
  lemma Unmoved(g: Gate, c: Command)
    requires c.Bind? && c.bindee in g.items
    requires ChangedFields(g.items[c.bindee].binding, c) == {} && !Moved(g.items[c.bindee].klass, c.newClass)
    ensures g.items[c.bindee := ItemGate(MovedTo(g.items[c.bindee].klass, c.newClass), Rebound(g.items[c.bindee].binding, c))] == g.items
    ensures LeftBehind(g, c) == {}
  {
    var was := g.items[c.bindee];
    assert Head !in ChangedFields(was.binding, c) && Mf !in ChangedFields(was.binding, c) && Ruling !in ChangedFields(was.binding, c);
    assert Rebound(was.binding, c) == was.binding;
  }
}
