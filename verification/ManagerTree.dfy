/** Who reports to whom, and who may change it (`move`, `retire` and `reinstate` in
 * dispatch/org_db.py). The database itself refuses a manager that is missing,
 * retired, or below the member.
 */
module ManagerTree {
  import opened Prelude
  import opened Graphs

  datatype MemberId = MemberId(id: string)
  datatype Status = Active | Vacant | Suspended | Retired

  /** `before` is the status a retired member had. */
  datatype Member = Member(manager: Option<MemberId>, status: Status, before: Status)

  type Org = map<MemberId, Member>

  datatype Error = NotFound | NotMember | NotManager | UnknownManager | NeedsOwner | InvalidManager | AlreadyRetired | NotRetired
                 | OwnerOnly | HandleTaken

  /** The acting session: Owner, or whoever's main session it is. */
  datatype Actor = Owner | MainSessionOf(member: Option<MemberId>)

  const CHAIN_LIMIT: nat := 64

  /** From each member to its manager. */
  function Managers(org: Org): Graph<MemberId> {
    map m | m in org :: if org[m].manager.Some? then {org[m].manager.value} else {}
  }

  /** `a` is `m` or somewhere up its manager chain. */
  ghost predicate Under(org: Org, m: MemberId, a: MemberId) {
    Reaches(Managers(org), m, a)
  }

  ghost predicate ManagersExist(org: Org) {
    forall m :: m in org && org[m].manager.Some? ==> org[m].manager.value in org
  }

  /** Nobody who is not retired reports to somebody who is. */
  ghost predicate ManagersServe(org: Org) {
    forall m :: m in org && org[m].status != Retired && org[m].manager.Some? ==>
      org[m].manager.value in org && org[org[m].manager.value].status != Retired
  }

  ghost predicate Sane(org: Org, root: MemberId) {
    && root in org && org[root].manager.None? && org[root].status != Retired
    && (forall m :: m in org ==> org[m].before != Retired)
    && ManagersExist(org) && ManagersServe(org) && Acyclic(Managers(org))
  }

  // ---- what each operation does ----

  function Hired(org: Org, m: MemberId, manager: MemberId): Org {
    org[m := Member(Some(manager), Active, Active)]
  }

  function Moved(org: Org, m: MemberId, manager: MemberId): Org
    requires m in org
  {
    org[m := org[m].(manager := Some(manager))]
  }

  /** The reports go to the retired member's own manager. */
  function WithRetired(org: Org, m: MemberId): Org
    requires m in org
  {
    map x | x in org ::
      if x == m then org[m].(status := Retired, before := org[m].status)
      else if org[x].manager == Some(m) && org[x].status != Retired then org[x].(manager := org[m].manager)
      else org[x]
  }

  function Reinstated(org: Org, m: MemberId): Org
    requires m in org
  {
    org[m := org[m].(status := org[m].before)]
  }

  /** What the database takes as a manager for `m`. */
  ghost predicate DatabaseAccepts(org: Org, m: MemberId, manager: MemberId)
    requires m in org
  {
    manager in org && org[manager].status != Retired && Acyclic(Managers(Moved(org, m, manager)))
  }

  /** An active member up the chain, within the chain's limit; None stands for
   *  Owner. */
  function ChainFrom(org: Org, m: MemberId, seen: set<MemberId>, steps: nat): seq<MemberId>
    decreases steps
  {
    if steps == 0 || m !in org || org[m].manager.None? || org[m].manager.value in seen || org[m].manager.value !in org then []
    else [org[m].manager.value] + ChainFrom(org, org[m].manager.value, seen + {org[m].manager.value}, steps - 1)
  }

  function Chain(org: Org, m: MemberId): seq<MemberId> {
    ChainFrom(org, m, {m}, CHAIN_LIMIT)
  }

  function Authority(org: Org, actor: Actor, m: MemberId): Result<Option<MemberId>, Error> {
    match actor
    case Owner => Ok(None)
    case MainSessionOf(a) =>
      if a.None? || a.value !in org || org[a.value].status != Active then Err(NotMember)
      else if a.value in Chain(org, m) then Ok(a)
      else Err(NotManager)
  }

  predicate DestinationOk(org: Org, actorMember: Option<MemberId>, manager: MemberId) {
    actorMember.None? || manager == actorMember.value || actorMember.value in Chain(org, manager)
  }

  ghost function Move(org: Org, root: MemberId, actor: Actor, m: MemberId, manager: MemberId): Result<Org, Error> {
    if m !in org || m == root then Err(NotFound)
    else
      var actorMember :- Authority(org, actor, m);
      if manager !in org then Err(UnknownManager)
      else if !DestinationOk(org, actorMember, manager) then Err(NeedsOwner)
      else if !DatabaseAccepts(org, m, manager) then Err(InvalidManager)
      else Ok(Moved(org, m, manager))
  }

  function Retire(org: Org, root: MemberId, actor: Actor, m: MemberId): Result<Org, Error> {
    if m !in org || m == root then Err(NotFound)
    else
      var actorMember :- Authority(org, actor, m);
      if org[m].status == Retired then Err(AlreadyRetired) else Ok(WithRetired(org, m))
  }

  function Reinstate(org: Org, root: MemberId, actor: Actor, m: MemberId): Result<Org, Error> {
    if !actor.Owner? then Err(OwnerOnly)
    else if m !in org || m == root then Err(NotFound)
    else if org[m].status != Retired then Err(NotRetired)
    else if org[m].manager.Some? && org[m].manager.value in org && org[org[m].manager.value].status == Retired then Err(InvalidManager)
    else Ok(Reinstated(org, m))
  }

  function Hire(org: Org, m: MemberId, manager: MemberId): Result<Org, Error> {
    if m in org then Err(HandleTaken)
    else if manager !in org then Err(UnknownManager)
    else if org[manager].status == Retired then Err(InvalidManager)
    else Ok(Hired(org, m, manager))
  }

  // ---- chains ----

  /** Everybody on the chain is above. */
  lemma {:induction false} ChainAbove(org: Org, m: MemberId, seen: set<MemberId>, steps: nat, a: MemberId)
    requires a in ChainFrom(org, m, seen, steps)
    ensures Under(org, m, a)
    decreases steps
  {
    hide Reaches;
    var next := org[m].manager.value;
    if a == next {
      ReachesSelf(Managers(org), a);
    } else {
      ChainAbove(org, next, seen + {next}, steps - 1, a);
    }
    StepUp(org, m, next, a);
  }

  lemma StepUp(org: Org, m: MemberId, next: MemberId, a: MemberId)
    requires m in org && org[m].manager == Some(next) && Under(org, next, a)
    ensures Under(org, m, a)
  {
    var g := Managers(org);
    var p :| WalkFromTo(g, p, next, a);
    assert next in Succ(g, m);
    assert WalkFromTo(g, [m] + p, m, a);
  }

  /** Below the limit, everybody above is on the chain. */
  lemma {:induction false} ChainComplete(org: Org, m: MemberId, seen: set<MemberId>, steps: nat, p: seq<MemberId>)
    requires ManagersExist(org) && Acyclic(Managers(org)) && Walk(Managers(org), p) && p[0] == m && |p| - 1 <= steps
    requires forall s :: s in seen ==> Under(org, s, m)
    ensures p[|p| - 1] == m || p[|p| - 1] in ChainFrom(org, m, seen, steps)
    decreases steps
  {
    hide Reaches, Acyclic;
    if |p| > 1 {
      var g := Managers(org);
      var next := p[1];
      assert next in Succ(g, m) by {
        assert p[0 + 1] in Succ(g, p[0]);
      }
      NotBelow(org, m, next);
      forall s | s in seen + {next} ensures Under(org, s, next) {
        if s == next {
          ReachesSelf(g, next);
        } else {
          ReachesStep(g, s, m, next);
        }
      }
      TailWalk(g, p);
      ChainComplete(org, next, seen + {next}, steps - 1, p[1..]);
    }
  }

  /** A manager below its own report would close a cycle. */
  lemma CycleAbove(org: Org, m: MemberId, next: MemberId) returns (q: seq<MemberId>)
    requires m in org && org[m].manager == Some(next) && Under(org, next, m)
    ensures ClosedWalk(Managers(org), q)
  {
    var g := Managers(org);
    var p :| WalkFromTo(g, p, next, m);
    assert next in Succ(g, m);
    q := [m] + p;
  }

  lemma NotBelow(org: Org, m: MemberId, next: MemberId)
    requires m in org && org[m].manager == Some(next) && Acyclic(Managers(org))
    ensures !Under(org, next, m)
  {
    if Under(org, next, m) {
      var q := CycleAbove(org, m, next);
      assert false;
    }
  }

  lemma TailWalk(g: Graph<MemberId>, p: seq<MemberId>)
    requires Walk(g, p) && |p| > 1
    ensures Walk(g, p[1..])
  {
    var q := p[1..];
    forall i | 0 <= i < |q| - 1 ensures q[i + 1] in Succ(g, q[i]) {
      assert p[i + 1 + 1] in Succ(g, p[i + 1]);
    }
  }

  lemma {:induction false} ChainWalk(org: Org, m: MemberId, seen: set<MemberId>, steps: nat, a: MemberId) returns (p: seq<MemberId>)
    requires a in ChainFrom(org, m, seen, steps)
    ensures WalkFromTo(Managers(org), p, m, a) && 1 < |p| <= steps + 1
    decreases steps
  {
    var next := org[m].manager.value;
    assert next in Succ(Managers(org), m);
    if a == next {
      p := [m, next];
    } else {
      var rest := ChainWalk(org, next, seen + {next}, steps - 1, a);
      p := [m] + rest;
    }
  }

  /** The chain of a member is exactly who is above it within the limit. */
  lemma ChainExact(org: Org, m: MemberId, a: MemberId)
    requires ManagersExist(org) && Acyclic(Managers(org))
    ensures a in Chain(org, m) <==> exists p :: WalkFromTo(Managers(org), p, m, a) && 1 < |p| <= CHAIN_LIMIT + 1
  {
    hide Acyclic, ChainFrom;
    if a in Chain(org, m) {
      var p := ChainWalk(org, m, {m}, CHAIN_LIMIT, a);
    }
    if p :| WalkFromTo(Managers(org), p, m, a) && 1 < |p| <= CHAIN_LIMIT + 1 {
      ReachesSelf(Managers(org), m);
      ChainComplete(org, m, {m}, CHAIN_LIMIT, p);
      NoWayBack(org, p);
    }
  }

  lemma NoWayBack(org: Org, p: seq<MemberId>)
    requires Acyclic(Managers(org)) && Walk(Managers(org), p) && |p| > 1
    ensures p[0] != p[|p| - 1]
  {
    assert p[0] == p[|p| - 1] ==> ClosedWalk(Managers(org), p);
  }

  /** So while no chain is longer than the limit, it is everybody above. */
  lemma ChainIsAll(org: Org, m: MemberId, a: MemberId)
    requires ManagersExist(org) && Acyclic(Managers(org)) && a != m
    requires forall p :: Walk(Managers(org), p) ==> |p| - 1 <= CHAIN_LIMIT
    ensures a in Chain(org, m) <==> Under(org, m, a)
  {
    hide Acyclic, ChainFrom;
    ChainExact(org, m, a);
    if Under(org, m, a) {
      var p :| WalkFromTo(Managers(org), p, m, a);
    }
  }

  // ---- moving ----

  /** A walk up from `b` does not pass `m`, or the move would have closed a cycle. */
  lemma {:induction false} WalkAvoids(org: Org, m: MemberId, b: MemberId, p: seq<MemberId>)
    requires m in org && Acyclic(Managers(Moved(org, m, b))) && Walk(Managers(org), p) && p[0] == b
    ensures Walk(Managers(Moved(org, m, b)), p) && p[|p| - 1] != m
    decreases |p|
  {
    hide Acyclic;
    var g, h := Managers(org), Managers(Moved(org, m, b));
    if |p| > 1 {
      var q := p[..|p| - 1];
      assert Walk(g, q);
      WalkAvoids(org, m, b, q);
      assert p[|p| - 2 + 1] in Succ(g, p[|p| - 2]);
      assert Succ(h, p[|p| - 2]) == Succ(g, p[|p| - 2]);
    }
    assert Walk(h, p);
    if p[|p| - 1] == m {
      Known(h, p, b, m);
      NotBelow(Moved(org, m, b), m, b);
      assert false;
    }
  }

  /** Whoever a lead moves stays under that lead, with everybody below. */
  lemma MoveStaysUnder(org: Org, root: MemberId, a: MemberId, m: MemberId, manager: MemberId, x: MemberId)
    requires Move(org, root, MainSessionOf(Some(a)), m, manager).Ok?
    requires Under(Move(org, root, MainSessionOf(Some(a)), m, manager).value, x, m)
    ensures Under(org, m, a) && Under(Move(org, root, MainSessionOf(Some(a)), m, manager).value, x, a)
  {
    hide Acyclic, ChainFrom;
    var after := Moved(org, m, manager);
    ChainAbove(org, m, {m}, CHAIN_LIMIT, a);
    assert Under(org, manager, a) by {
      if manager == a {
        ReachesSelf(Managers(org), a);
      } else {
        ChainAbove(org, manager, {manager}, CHAIN_LIMIT, a);
      }
    }
    var p :| WalkFromTo(Managers(org), p, manager, a);
    WalkAvoids(org, m, manager, p);
    assert WalkFromTo(Managers(after), p, manager, a);
    hide Reaches;
    assert Under(after, manager, a) by {
      Known(Managers(after), p, manager, a);
    }
    StepUp(after, m, manager, a);
    Through(Managers(after), x, m, a);
  }

  lemma Known(g: Graph<MemberId>, p: seq<MemberId>, a: MemberId, b: MemberId)
    requires WalkFromTo(g, p, a, b)
    ensures Reaches(g, a, b)
  {
  }

  lemma Through(g: Graph<MemberId>, x: MemberId, m: MemberId, a: MemberId)
    requires Reaches(g, x, m) && Reaches(g, m, a)
    ensures Reaches(g, x, a)
  {
    var p :| WalkFromTo(g, p, x, m);
    var q :| WalkFromTo(g, q, m, a);
    var r := p + q[1..];
    forall i | 0 <= i < |r| - 1 ensures r[i + 1] in Succ(g, r[i]) {
      if i < |p| - 1 {
        assert p[i + 1] in Succ(g, p[i]);
      } else {
        var k := i - (|p| - 1);
        assert r[i] == q[k] && r[i + 1] == q[k + 1];
        assert q[k + 1] in Succ(g, q[k]);
      }
    }
    assert WalkFromTo(g, r, x, a);
  }

  // ---- retiring ----

  /** One step up after the retirement skips the retired member. */
  lemma RetiredStep(org: Org, root: MemberId, m: MemberId, x: MemberId)
    requires Sane(org, root) && m in org && m != root && org[m].status != Retired && x in org && x != m && org[x].status != Retired
    ensures WithRetired(org, m)[x].manager == if org[x].manager == Some(m) then org[m].manager else org[x].manager
    ensures WithRetired(org, m)[x].manager.Some? ==>
              var next := WithRetired(org, m)[x].manager.value;
              next in org && next != m && org[next].status != Retired
  {
    ReachesSelf(Managers(org), m);
    if org[m].manager.Some? {
      NotBelow(org, m, org[m].manager.value);
    }
  }

  lemma {:induction false} RetiredWalkUp(org: Org, root: MemberId, m: MemberId, p: seq<MemberId>)
    requires Sane(org, root) && m in org && m != root && org[m].status != Retired
    requires Walk(Managers(org), p) && p[0] in org && p[0] != m && org[p[0]].status != Retired && p[|p| - 1] != m
    ensures Under(WithRetired(org, m), p[0], p[|p| - 1])
    decreases |p|
  {
    hide Reaches, Acyclic;
    var g, after := Managers(org), WithRetired(org, m);
    var x, a := p[0], p[|p| - 1];
    if |p| == 1 {
      ReachesSelf(Managers(after), x);
    } else {
      assert p[0 + 1] in Succ(g, p[0]);
      RetiredStep(org, root, m, x);
      TailWalk(g, p);
      if p[1] == m {
        assert p[1 + 1] in Succ(g, p[1]);
        TailWalk(g, p[1..]);
        assert p[1..][1..] == p[2..];
        RetiredWalkUp(org, root, m, p[2..]);
        StepUp(after, x, p[2], a);
      } else {
        RetiredWalkUp(org, root, m, p[1..]);
        StepUp(after, x, p[1], a);
      }
    }
  }

  lemma {:induction false} RetiredWalkBack(org: Org, root: MemberId, m: MemberId, p: seq<MemberId>)
    requires Sane(org, root) && m in org && m != root && org[m].status != Retired
    requires Walk(Managers(WithRetired(org, m)), p) && p[0] in org && p[0] != m && org[p[0]].status != Retired
    ensures Under(org, p[0], p[|p| - 1]) && p[|p| - 1] != m
    decreases |p|
  {
    hide Reaches, Acyclic;
    var h, after := Managers(WithRetired(org, m)), WithRetired(org, m);
    var x, a := p[0], p[|p| - 1];
    if |p| == 1 {
      ReachesSelf(Managers(org), x);
    } else {
      assert p[0 + 1] in Succ(h, p[0]);
      RetiredStep(org, root, m, x);
      TailWalk(h, p);
      RetiredWalkBack(org, root, m, p[1..]);
      if org[x].manager == Some(m) {
        StepUp(org, m, p[1], a);
        StepUp(org, x, m, a);
      } else {
        StepUp(org, x, p[1], a);
      }
    }
  }

  /** A retirement changes nobody's place under anybody else: whoever is not
   *  retired has the same members above as before, but for the retired one. */
  lemma RetireKeepsPlaces(org: Org, root: MemberId, actor: Actor, m: MemberId, x: MemberId, a: MemberId)
    requires Sane(org, root) && Retire(org, root, actor, m).Ok? && x in org && x != m && org[x].status != Retired
    ensures Under(Retire(org, root, actor, m).value, x, a) <==> Under(org, x, a) && a != m
  {
    hide Acyclic, ManagersExist, ManagersServe, Authority;
    var after := WithRetired(org, m);
    if Under(after, x, a) {
      var p :| WalkFromTo(Managers(after), p, x, a);
      RetiredWalkBack(org, root, m, p);
    }
    if Under(org, x, a) && a != m {
      var p :| WalkFromTo(Managers(org), p, x, a);
      RetiredWalkUp(org, root, m, p);
    }
  }

  // ---- every operation keeps the organisation sane ----

  lemma HireKeeps(org: Org, root: MemberId, m: MemberId, manager: MemberId)
    requires Sane(org, root) && Hire(org, m, manager).Ok?
    ensures Sane(Hired(org, m, manager), root)
  {
    var after := Hired(org, m, manager);
    var g, h := Managers(org), Managers(after);
    forall x | x != m ensures Succ(h, x) == Succ(g, x) {
    }
    NobodyReportsTo(org, m, manager);
    assert Succ(h, m) == {manager};
    RepointedAcyclic(g, h, m);
  }

  /** Nobody leads up to a member just hired. */
  lemma NobodyReportsTo(org: Org, m: MemberId, manager: MemberId)
    requires ManagersExist(org) && m !in org && manager in org
    ensures !Reaches(Managers(Hired(org, m, manager)), manager, m)
  {
    var h := Managers(Hired(org, m, manager));
    forall y ensures m !in Succ(h, y) {
    }
    if p :| WalkFromTo(h, p, manager, m) {
      LastStep(h, p);
      assert false;
    }
  }

  lemma LastStep(g: Graph<MemberId>, p: seq<MemberId>)
    requires Walk(g, p)
    ensures |p| > 1 ==> p[|p| - 1] in Succ(g, p[|p| - 2])
  {
    if |p| > 1 {
      assert p[|p| - 2 + 1] in Succ(g, p[|p| - 2]);
    }
  }

  lemma MoveKeeps(org: Org, root: MemberId, m: MemberId, manager: MemberId)
    requires Sane(org, root) && m in org && m != root && DatabaseAccepts(org, m, manager)
    ensures Sane(Moved(org, m, manager), root)
  {
    hide Acyclic;
  }

  lemma RetireKeeps(org: Org, root: MemberId, m: MemberId)
    requires Sane(org, root) && m in org && m != root && org[m].status != Retired
    ensures Sane(WithRetired(org, m), root)
  {
    hide Acyclic, ManagersServe;
    RetiredAcyclic(org, root, m);
    RetiredServe(org, root, m);
    assert ManagersExist(WithRetired(org, m));
  }

  lemma RetiredServe(org: Org, root: MemberId, m: MemberId)
    requires Sane(org, root) && m in org && m != root && org[m].status != Retired
    ensures ManagersServe(WithRetired(org, m))
  {
    hide Acyclic, ManagersExist;
    var after := WithRetired(org, m);
    forall x | x in org && x != m && org[x].status != Retired ensures after[x].manager.Some? ==>
        after[x].manager.value in after && after[after[x].manager.value].status != Retired
    {
      RetiredStep(org, root, m, x);
      hide WithRetired;
    }
    assert after[m].status == Retired && after.Keys == org.Keys;
    assert forall x :: x in org && x != m ==> after[x].status == org[x].status;
    hide WithRetired;
  }

  /** Skipping a member makes no cycle: a walk of the new tree has its shadow in the
   *  old one. */
  lemma RetiredAcyclic(org: Org, root: MemberId, m: MemberId)
    requires Sane(org, root) && m in org && m != root && org[m].status != Retired
    ensures Acyclic(Managers(WithRetired(org, m)))
  {
    var h := Managers(WithRetired(org, m));
    if p :| ClosedWalk(h, p) {
      var x := p[0];
      assert p[0 + 1] in Succ(h, p[0]);
      TailWalk(h, p);
      ShadowWalk(org, m, p[1..]);
      FirstStep(org, m, x, p[1]);
      var z :| org[x].manager == Some(z) && Under(org, z, p[1]);
      BackAround(org, x, z, p[1]);
      assert false;
    }
  }

  /** One edge of the new tree is one or two of the old. */
  lemma FirstStep(org: Org, m: MemberId, x: MemberId, y: MemberId)
    requires m in org && x in org && WithRetired(org, m)[x].manager == Some(y)
    ensures exists z :: org[x].manager == Some(z) && Under(org, z, y)
  {
    if org[x].manager == Some(y) {
      ReachesSelf(Managers(org), y);
    } else {
      ReachesSelf(Managers(org), y);
      StepUp(org, m, y, y);
    }
  }

  lemma {:induction false} ShadowWalk(org: Org, m: MemberId, p: seq<MemberId>)
    requires m in org && Walk(Managers(WithRetired(org, m)), p)
    ensures Under(org, p[0], p[|p| - 1])
    decreases |p|
  {
    hide Reaches;
    var h := Managers(WithRetired(org, m));
    if |p| == 1 {
      ReachesSelf(Managers(org), p[0]);
    } else {
      assert p[0 + 1] in Succ(h, p[0]);
      FirstStep(org, m, p[0], p[1]);
      var z :| org[p[0]].manager == Some(z) && Under(org, z, p[1]);
      TailWalk(h, p);
      ShadowWalk(org, m, p[1..]);
      Through(Managers(org), z, p[1], p[|p| - 1]);
      StepUp(org, p[0], z, p[|p| - 1]);
    }
  }

  lemma BackAround(org: Org, x: MemberId, z: MemberId, y: MemberId)
    requires x in org && org[x].manager == Some(z) && Under(org, z, y) && Acyclic(Managers(org))
    ensures !Under(org, y, x)
  {
    hide Reaches, Acyclic;
    NotBelow(org, x, z);
    if Under(org, y, x) {
      Through(Managers(org), z, y, x);
      assert false;
    }
  }

  lemma ReinstateKeeps(org: Org, root: MemberId, actor: Actor, m: MemberId)
    requires Sane(org, root) && Reinstate(org, root, actor, m).Ok?
    ensures Sane(Reinstated(org, m), root)
  {
    var after := Reinstated(org, m);
    assert Managers(after) == Managers(org);
    hide Acyclic;
  }

  // ---- runs ----

  datatype Command =
    | HireMember(newMember: MemberId, under: MemberId)
    | MoveMember(mover: Actor, moved: MemberId, to: MemberId)
    | RetireMember(retirer: Actor, retiree: MemberId)
    | ReinstateMember(reinstater: Actor, returning: MemberId)

  ghost function Outcome(org: Org, root: MemberId, c: Command): Result<Org, Error> {
    match c
    case HireMember(m, manager) => Hire(org, m, manager)
    case MoveMember(actor, m, manager) => Move(org, root, actor, m, manager)
    case RetireMember(actor, m) => Retire(org, root, actor, m)
    case ReinstateMember(actor, m) => Reinstate(org, root, actor, m)
  }

  ghost function Next(org: Org, root: MemberId, c: Command): Org {
    if Outcome(org, root, c).Ok? then Outcome(org, root, c).value else org
  }

  ghost function Run(org: Org, root: MemberId, commands: seq<Command>): Org
    decreases |commands|
  {
    if commands == [] then org else Run(Next(org, root, commands[0]), root, commands[1..])
  }

  lemma NextKeeps(org: Org, root: MemberId, c: Command)
    requires Sane(org, root)
    ensures Sane(Next(org, root, c), root)
  {
    hide Sane, Authority, DestinationOk;
    if Outcome(org, root, c).Ok? {
      match c
      case HireMember(m, manager) => HireKeeps(org, root, m, manager);
      case MoveMember(_, m, manager) => MoveKeeps(org, root, m, manager);
      case RetireMember(_, m) => RetireKeeps(org, root, m);
      case ReinstateMember(actor, m) => ReinstateKeeps(org, root, actor, m);
    }
  }

  /** Over every run of hires, moves, retirements and reinstatements the reporting
   *  lines are a tree, and nobody who is not retired reports to somebody who is. */
  lemma {:induction false} RunKeeps(org: Org, root: MemberId, commands: seq<Command>)
    requires Sane(org, root)
    ensures Sane(Run(org, root, commands), root)
    decreases |commands|
  {
    hide Sane, Next;
    if commands != [] {
      NextKeeps(org, root, commands[0]);
      RunKeeps(Next(org, root, commands[0]), root, commands[1..]);
    }
  }

  // ---- the operations as they run ----

  class Registry {
    const root: MemberId
    var org: Org

    constructor (root: MemberId)
      ensures this.root == root && Sane(org, root)
    {
      this.root, org := root, map[root := Member(None, Active, Active)];
      new;
      AloneAcyclic(root);
    }

    /** Up the managers, at most `CHAIN_LIMIT` of them. */
    method ChainOf(m: MemberId) returns (chain: seq<MemberId>)
      ensures chain == Chain(org, m)
    {
      chain := [];
      var seen, cur := {m}, m;
      var steps := CHAIN_LIMIT;
      while steps > 0
        invariant Chain(org, m) == chain + ChainFrom(org, cur, seen, steps)
        decreases steps
      {
        if cur !in org || org[cur].manager.None? || org[cur].manager.value in seen || org[cur].manager.value !in org {
          return;
        }
        cur := org[cur].manager.value;
        seen, chain, steps := seen + {cur}, chain + [cur], steps - 1;
      }
    }

    method RequireChain(actor: Actor, m: MemberId) returns (r: Result<Option<MemberId>, Error>)
      ensures r == Authority(org, actor, m)
    {
      hide Chain;
      if actor.Owner? {
        return Ok(None);
      }
      var a := actor.member;
      if a.None? || a.value !in org || org[a.value].status != Active {
        return Err(NotMember);
      }
      var chain := ChainOf(m);
      if a.value !in chain {
        return Err(NotManager);
      }
      r := Ok(a);
    }

    method RequireDestination(actorMember: Option<MemberId>, manager: MemberId) returns (ok: bool)
      ensures ok == DestinationOk(org, actorMember, manager)
    {
      hide Chain;
      if actorMember.None? || manager == actorMember.value {
        return true;
      }
      var chain := ChainOf(manager);
      ok := actorMember.value in chain;
    }

    /** The database's own check: does `from` lead up to `to`? */
    method LeadsTo(from: MemberId, to: MemberId) returns (yes: bool)
      requires Sane(org, root) && from in org
      ensures yes == Under(org, from, to)
    {
      hide Acyclic, ManagersServe, Reaches;
      var g := Managers(org);
      var cur := from;
      ghost var seen: set<MemberId> := {};
      ReachesSelf(g, from);
      while cur != to
        invariant cur in org && seen <= org.Keys
        invariant Under(org, from, to) <==> Under(org, cur, to)
        invariant Under(org, from, cur)
        invariant cur !in seen && forall s :: s in seen ==> s != cur && !Under(org, cur, s)
        decreases org.Keys - seen
      {
        OneUp(org, cur, to);
        if org[cur].manager.None? {
          return false;
        }
        var next := org[cur].manager.value;
        forall s | s in seen + {cur} ensures s != next && !Under(org, next, s) {
          NotSeenAbove(org, cur, next, s);
        }
        assert next in Succ(g, cur);
        ReachesStep(g, from, cur, next);
        seen, cur := seen + {cur}, next;
      }
      ReachesSelf(g, to);
      yes := true;
    }

    method MoveMember(actor: Actor, m: MemberId, manager: MemberId) returns (error: Option<Error>)
      requires Sane(org, root)
      modifies this
      ensures Move(old(org), root, actor, m, manager) == if error.Some? then Err(error.value) else Ok(org)
      ensures error.Some? ==> org == old(org)
      ensures Sane(org, root)
    {
      hide Authority, DestinationOk, Acyclic, Reaches;
      if m !in org || m == root {
        return Some(NotFound);
      }
      var authority := RequireChain(actor, m);
      if authority.Err? {
        return Some(authority.error);
      }
      if manager !in org {
        return Some(UnknownManager);
      }
      var ok := RequireDestination(authority.value, manager);
      if !ok {
        return Some(NeedsOwner);
      }
      var below := LeadsTo(manager, m);
      MoveCloses(org, root, m, manager);
      if org[manager].status == Retired || below {
        return Some(InvalidManager);
      }
      MoveKeeps(org, root, m, manager);
      org := org[m := org[m].(manager := Some(manager))];
      error := None;
    }

    method RetireMember(actor: Actor, m: MemberId) returns (error: Option<Error>)
      requires Sane(org, root)
      modifies this
      ensures Retire(old(org), root, actor, m) == if error.Some? then Err(error.value) else Ok(org)
      ensures error.Some? ==> org == old(org)
      ensures Sane(org, root)
    {
      hide Authority, Sane;
      if m !in org || m == root {
        return Some(NotFound);
      }
      var authority := RequireChain(actor, m);
      if authority.Err? {
        return Some(authority.error);
      }
      if org[m].status == Retired {
        return Some(AlreadyRetired);
      }
      ghost var was := org;
      var row := org[m];
      RetireKeeps(org, root, m);
      var reports := set x | x in org && x != m && org[x].manager == Some(m) && org[x].status != Retired;
      var left := reports;
      while left != {}
        invariant left <= reports && org.Keys == was.Keys
        invariant forall x :: x in org ==> org[x] == if x in reports - left then was[x].(manager := row.manager) else was[x]
        decreases left
      {
        var report :| report in left;
        left := left - {report};
        org := org[report := org[report].(manager := row.manager)];
      }
      org := org[m := row.(status := Retired, before := row.status)];
      assert org == WithRetired(was, m);
      error := None;
    }

    method ReinstateMember(actor: Actor, m: MemberId) returns (error: Option<Error>)
      requires Sane(org, root)
      modifies this
      ensures Reinstate(old(org), root, actor, m) == if error.Some? then Err(error.value) else Ok(org)
      ensures error.Some? ==> org == old(org)
      ensures Sane(org, root)
    {
      if !actor.Owner? {
        return Some(OwnerOnly);
      }
      if m !in org || m == root {
        return Some(NotFound);
      }
      if org[m].status != Retired {
        return Some(NotRetired);
      }
      var manager := org[m].manager;
      if manager.Some? && manager.value in org && org[manager.value].status == Retired {
        return Some(InvalidManager);
      }
      ReinstateKeeps(org, root, actor, m);
      hide Sane;
      org := org[m := org[m].(status := org[m].before)];
      error := None;
    }
  }

  lemma AloneAcyclic(root: MemberId)
    ensures Acyclic(Managers(map[root := Member(None, Active, Active)]))
  {
    var g := Managers(map[root := Member(None, Active, Active)]);
    assert forall x :: Succ(g, x) == {};
    RankedAcyclic(g, map[]);
  }

  /** Above a member is itself, or whoever is at or above its manager. */
  lemma OneUp(org: Org, m: MemberId, a: MemberId)
    requires m in org && a != m
    ensures Under(org, m, a) <==> org[m].manager.Some? && Under(org, org[m].manager.value, a)
  {
    var g := Managers(org);
    if Under(org, m, a) {
      var p :| WalkFromTo(g, p, m, a);
      assert p[0 + 1] in Succ(g, p[0]);
      TailWalk(g, p);
      Known(g, p[1..], p[1], a);
    }
    if org[m].manager.Some? && Under(org, org[m].manager.value, a) {
      StepUp(org, m, org[m].manager.value, a);
    }
  }

  lemma NotSeenAbove(org: Org, m: MemberId, next: MemberId, s: MemberId)
    requires m in org && org[m].manager == Some(next) && Acyclic(Managers(org))
    requires s == m || (s != m && !Under(org, m, s))
    ensures s != next && !Under(org, next, s)
  {
    hide Reaches;
    NotBelow(org, m, next);
    ReachesSelf(Managers(org), next);
    if s != m {
      OneUp(org, m, s);
    }
  }

  /** The database refuses a move exactly when the new manager is below the member. */
  lemma MoveCloses(org: Org, root: MemberId, m: MemberId, manager: MemberId)
    requires Sane(org, root) && m in org && manager in org
    ensures Acyclic(Managers(Moved(org, m, manager))) <==> !Under(org, manager, m)
  {
    hide ManagersServe, ManagersExist;
    var g, h := Managers(org), Managers(Moved(org, m, manager));
    assert forall x :: x != m ==> Succ(h, x) == Succ(g, x);
    assert Succ(h, m) == {manager};
    RepointedAcyclic(g, h, m);
    SameReach(g, h, m, manager);
  }

  /** Reaching `m` does not depend on where `m` leads. */
  lemma SameReach(g: Graph<MemberId>, h: Graph<MemberId>, m: MemberId, b: MemberId)
    requires forall x :: x != m ==> Succ(h, x) == Succ(g, x)
    ensures Reaches(g, b, m) <==> Reaches(h, b, m)
  {
    if Reaches(g, b, m) {
      var p :| WalkFromTo(g, p, b, m);
      FirstArrival(g, h, m, p);
    }
    if Reaches(h, b, m) {
      var p :| WalkFromTo(h, p, b, m);
      FirstArrival(h, g, m, p);
    }
  }

  lemma {:induction false} FirstArrival(g: Graph<MemberId>, h: Graph<MemberId>, m: MemberId, p: seq<MemberId>)
    requires forall x :: x != m ==> Succ(h, x) == Succ(g, x)
    requires Walk(g, p) && p[|p| - 1] == m
    ensures Reaches(h, p[0], m)
    decreases |p|
  {
    if p[0] == m {
      ReachesSelf(h, m);
    } else {
      assert p[0 + 1] in Succ(g, p[0]);
      TailWalk(g, p);
      FirstArrival(g, h, m, p[1..]);
      var q :| WalkFromTo(h, q, p[1], m);
      assert WalkFromTo(h, [p[0]] + q, p[0], m);
    }
  }
}
