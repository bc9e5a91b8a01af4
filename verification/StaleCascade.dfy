/** Marking receipts stale (`_mark_stale` in dispatch/gate_db.py): one way, and
 * on to every receipt that consumed an artifact of one that went stale.
 */
module StaleCascade {
  import opened Prelude
  import opened Graphs

  datatype ReceiptId = ReceiptId(number: nat)

  datatype Cause = HeadMoved | MfMoved | RulingSuperseded | InputChanged | ProfileChanged
                 | ClassChanged | GrantRevoked | RunnerChanged | BaseMoved | InputReceiptInvalid

  /** Why a receipt is stale; `via` is the stale receipt whose artifact it read. */
  datatype Reason = Reason(cause: Cause, via: Option<ReceiptId>, because: Option<Cause>)

  type Staleness = map<ReceiptId, Option<Reason>>

  /** (consumer, producer) pairs, from the inputs' `produced_by`. */
  type Inputs = set<(ReceiptId, ReceiptId)>

  predicate Live(stale: Staleness, r: ReceiptId) {
    r in stale && stale[r].None?
  }

  function LiveConsumers(stale: Staleness, inputs: Inputs, p: ReceiptId): set<ReceiptId> {
    set c | c in stale && stale[c].None? && (c, p) in inputs
  }

  /** From each live receipt to the live receipts that consumed it. */
  function ConsumerGraph(stale: Staleness, inputs: Inputs): Graph<ReceiptId> {
    map p | p in stale && stale[p].None? :: LiveConsumers(stale, inputs, p)
  }

  /** The live receipts a cascade from `seeds` must reach: through producers that
   *  were all live when it began. */
  ghost predicate Invalidated(stale: Staleness, inputs: Inputs, seeds: seq<ReceiptId>, r: ReceiptId) {
    exists s :: s in seeds && Live(stale, s) && Reaches(ConsumerGraph(stale, inputs), s, r)
  }

  function CascadeReason(p: ReceiptId, why: Reason): Reason {
    Reason(InputReceiptInvalid, Some(p), Some(why.cause))
  }

  /** The staleness after a cascade, stated without its order: exactly the
   *  invalidated receipts are newly stale; a seed for the given reason, any
   *  other because of a consumed receipt that went stale with it. */
  ghost predicate Cascaded(before: Staleness, after: Staleness, inputs: Inputs, seeds: seq<ReceiptId>, why: Reason) {
    && after.Keys == before.Keys
    && (forall r :: Live(before, r) && Invalidated(before, inputs, seeds, r) ==> after[r].Some?)
    && (forall r :: r in before && !(Live(before, r) && Invalidated(before, inputs, seeds, r)) ==> after[r] == before[r])
    && (forall r :: Live(before, r) && r in seeds ==> after[r] == Some(why))
    && (forall r :: Live(before, r) && r !in seeds && after[r].Some? ==> Explained(before, after, inputs, r))
  }

  ghost predicate Explained(before: Staleness, after: Staleness, inputs: Inputs, r: ReceiptId)
    requires r in after && after.Keys == before.Keys
  {
    exists p :: (r, p) in inputs && Live(before, p) && after[p].Some? && after[r] == Some(CascadeReason(p, after[p].value))
  }

  /** A loaded receipt: its id and whether the copy in hand was live. */
  datatype Loaded = Loaded(id: ReceiptId, live: bool)

  function LiveIds(receipts: seq<Loaded>): seq<ReceiptId> {
    if receipts == [] then []
    else (if receipts[0].live then [receipts[0].id] else []) + LiveIds(receipts[1..])
  }

  datatype Job = Job(id: ReceiptId, why: Reason)

  function SeedJobs(seeds: seq<ReceiptId>, why: Reason): seq<Job> {
    seq(|seeds|, i requires 0 <= i < |seeds| => Job(seeds[i], why))
  }

  /** What holds between two jobs. `front` are the seeds still to do, `back` the
   *  consumers found so far; those in `debt` are found but not queued yet. */
  ghost predicate Working(before: Staleness, now: Staleness, inputs: Inputs, seeds: seq<ReceiptId>, why: Reason,
                          front: seq<Job>, back: seq<Job>, debt: set<ReceiptId>)
  {
    && now.Keys == before.Keys
    && (forall r :: r in before && !Live(before, r) ==> now[r] == before[r])
    && (forall r :: Live(before, r) && now[r].Some? ==> Invalidated(before, inputs, seeds, r))
    && (forall j :: j in front ==> j.why == why && j.id in seeds)
    && (forall j :: j in back ==> Live(before, j.id) && Invalidated(before, inputs, seeds, j.id) && Caused(before, now, inputs, j))
    && (forall s :: s in seeds && Live(before, s) ==> now[s] == Some(why) || Job(s, why) in front)
    && Owed(before, now, inputs, front, back, debt)
    && (forall r :: Live(before, r) && r !in seeds && now[r].Some? ==> Explained(before, now, inputs, r))
    && (front != [] ==> forall r :: Live(before, r) && now[r].Some? ==> now[r] == Some(why))
  }

  /** Every live consumer of a receipt that went stale is stale, queued or in debt. */
  ghost predicate Owed(before: Staleness, now: Staleness, inputs: Inputs, front: seq<Job>, back: seq<Job>, debt: set<ReceiptId>)
    requires now.Keys == before.Keys
  {
    forall p, c :: Live(before, p) && now[p].Some? && Live(before, c) && (c, p) in inputs
      ==> now[c].Some? || Awaited(front, c) || Awaited(back, c) || c in debt
  }

  ghost predicate Awaited(jobs: seq<Job>, r: ReceiptId) {
    exists j :: j in jobs && j.id == r
  }

  ghost predicate Caused(before: Staleness, now: Staleness, inputs: Inputs, j: Job)
    requires now.Keys == before.Keys
  {
    exists p :: (j.id, p) in inputs && Live(before, p) && now[p].Some? && j.why == CascadeReason(p, now[p].value)
  }

  class ReceiptTable {
    var stale: Staleness
    var inputs: Inputs

    constructor (stale: Staleness, inputs: Inputs)
      ensures this.stale == stale && this.inputs == inputs
    {
      this.stale, this.inputs := stale, inputs;
    }

    /** The live receipts that consumed an artifact of `p`, each once. */
    method Consumers(p: ReceiptId) returns (found: seq<ReceiptId>)
      ensures ToSet(found) == LiveConsumers(stale, inputs, p)
    {
      found := [];
      var left := LiveConsumers(stale, inputs, p);
      while left != {}
        invariant ToSet(found) + left == LiveConsumers(stale, inputs, p)
        decreases left
      {
        var c :| c in left;
        found, left := found + [c], left - {c};
      }
    }

    method MarkStale(receipts: seq<Loaded>, why: Reason) returns (labels: seq<ReceiptId>)
      modifies this`stale
      ensures Cascaded(old(stale), stale, inputs, LiveIds(receipts), why)
      ensures Distinct(labels)
      ensures forall r :: r in labels <==> Live(old(stale), r) && Invalidated(old(stale), inputs, LiveIds(receipts), r)
    {
      ghost var before, seeds := stale, LiveIds(receipts);
      hide Working, Cascaded, Invalidated;
      var queue := SeedJobs(LiveIds(receipts), why);
      var seen: set<ReceiptId> := {};
      labels := [];
      ghost var front: seq<Job>, back: seq<Job> := queue, [];
      Begins(before, inputs, seeds, why);
      while queue != []
        invariant queue == front + back
        invariant Working(before, stale, inputs, seeds, why, front, back, {})
        invariant NoneLive(stale, seen)
        invariant ListsFallen(before, stale, labels)
        decreases LiveSet(stale), |queue|
      {
        var job := queue[0];
        queue := queue[1..];
        ghost var front', back' := RestFront(front), RestBack(front, back);
        assert queue == front' + back';
        if job.id !in seen {
          ghost var seenBefore := seen;
          seen := seen + {job.id};
          if Live(stale, job.id) {
            Marks(before, stale, inputs, seeds, why, front, back, job);
            ghost var was := stale;
            stale := stale[job.id := Some(job.why)];
            Shrinks(was, stale, job.id);
            FallsOnce(before, was, stale, labels, seenBefore, job.id);
            labels := labels + [job.id];
            var found := Consumers(job.id);
            var jobs := CascadeJobs(found, job);
            Appends(before, stale, inputs, seeds, why, front', back', job, found);
            queue, back' := queue + jobs, back' + jobs;
          } else {
            OneMoreDead(stale, seenBefore, job.id);
            Skips(before, stale, inputs, seeds, why, front, back, job);
          }
        } else {
          Skips(before, stale, inputs, seeds, why, front, back, job);
        }
        front, back := front', back';
      }
      Ends(before, stale, inputs, seeds, why);
    }
  }

  function CascadeJobs(found: seq<ReceiptId>, job: Job): seq<Job> {
    seq(|found|, i requires 0 <= i < |found| => Job(found[i], CascadeReason(job.id, job.why)))
  }

  function RestFront(front: seq<Job>): seq<Job> {
    if front == [] then [] else front[1..]
  }

  function RestBack(front: seq<Job>, back: seq<Job>): seq<Job> {
    if front == [] && back != [] then back[1..] else back
  }

  ghost function LiveSet(stale: Staleness): set<ReceiptId> {
    set r | r in stale && stale[r].None?
  }

  lemma Shrinks(was: Staleness, now: Staleness, r: ReceiptId)
    requires Live(was, r) && now.Keys == was.Keys && now[r].Some?
    requires forall x :: x in was && x != r ==> now[x] == was[x]
    ensures LiveSet(now) < LiveSet(was)
  {
    assert r in LiveSet(was) && r !in LiveSet(now);
  }

  ghost predicate NoneLive(stale: Staleness, seen: set<ReceiptId>) {
    forall r :: r in seen ==> !Live(stale, r)
  }

  lemma OneMoreDead(stale: Staleness, seen: set<ReceiptId>, r: ReceiptId)
    requires NoneLive(stale, seen) && !Live(stale, r)
    ensures NoneLive(stale, seen + {r})
  {
  }

  /** `labels` names each receipt that fell since `before`, once. */
  ghost predicate ListsFallen(before: Staleness, stale: Staleness, labels: seq<ReceiptId>) {
    Distinct(labels) && forall r :: r in labels <==> Live(before, r) && !Live(stale, r)
  }

  lemma FallsOnce(before: Staleness, was: Staleness, now: Staleness, labels: seq<ReceiptId>, seen: set<ReceiptId>, r: ReceiptId)
    requires ListsFallen(before, was, labels) && NoneLive(was, seen) && Live(was, r) && Live(before, r)
    requires now.Keys == was.Keys && now[r].Some? && forall x :: x in was && x != r ==> now[x] == was[x]
    ensures ListsFallen(before, now, labels + [r]) && NoneLive(now, seen + {r})
  {
    assert r !in labels;
  }

  lemma Begins(before: Staleness, inputs: Inputs, seeds: seq<ReceiptId>, why: Reason)
    ensures Working(before, before, inputs, seeds, why, SeedJobs(seeds, why), [], {})
  {
    var jobs := SeedJobs(seeds, why);
    forall s | s in seeds ensures Job(s, why) in jobs {
      var i :| 0 <= i < |seeds| && seeds[i] == s;
      assert jobs[i] == Job(s, why);
    }
  }

  lemma RestMembers(front: seq<Job>, back: seq<Job>)
    requires front + back != []
    ensures forall j :: j in front ==> j == (front + back)[0] || j in RestFront(front)
    ensures forall j :: j in back ==> j == (front + back)[0] || j in RestBack(front, back)
    ensures forall j :: j in RestFront(front) ==> j in front
    ensures forall j :: j in RestBack(front, back) ==> j in back
    ensures front == [] ==> RestFront(front) == [] && (front + back)[0] in back
    ensures front != [] ==> (front + back)[0] in front
  {
    if front != [] {
      assert front == [front[0]] + front[1..];
    } else {
      assert back == [back[0]] + back[1..];
    }
  }

  lemma Skips(before: Staleness, now: Staleness, inputs: Inputs, seeds: seq<ReceiptId>, why: Reason,
              front: seq<Job>, back: seq<Job>, job: Job)
    requires Working(before, now, inputs, seeds, why, front, back, {})
    requires front + back != [] && job == (front + back)[0] && !Live(now, job.id)
    ensures Working(before, now, inputs, seeds, why, RestFront(front), RestBack(front, back), {})
  {
    hide Explained, Caused, Invalidated, RestFront, RestBack;
    RestMembers(front, back);
  }

  /** Marking the head job's receipt: its consumers are then the only debt. */
  lemma Marks(before: Staleness, now: Staleness, inputs: Inputs, seeds: seq<ReceiptId>, why: Reason,
              front: seq<Job>, back: seq<Job>, job: Job)
    requires Working(before, now, inputs, seeds, why, front, back, {})
    requires front + back != [] && job == (front + back)[0] && Live(now, job.id)
    ensures var now' := now[job.id := Some(job.why)];
            Working(before, now', inputs, seeds, why, RestFront(front), RestBack(front, back),
                    LiveConsumers(now', inputs, job.id))
  {
    hide RestFront, RestBack, Reaches, Caused, Explained;
    RestMembers(front, back);
    var now' := now[job.id := Some(job.why)];
    assert now'.Keys == now.Keys;
    if front != [] {
      assert job.id in seeds;
      ReachesSelf(ConsumerGraph(before, inputs), job.id);
    }
    forall j | j in RestBack(front, back) ensures Caused(before, now', inputs, j) {
      CausedStill(before, now, inputs, j, job);
    }
    forall r | Live(before, r) && r !in seeds && now'[r].Some? ensures Explained(before, now', inputs, r) {
      if r == job.id {
        MarkExplained(before, now, inputs, job);
      } else {
        ExplainedStill(before, now, inputs, r, job);
      }
    }
    MarksOwed(before, now, inputs, front, back, job);
    hide Owed;
  }

  /** A mark takes away nobody's reason. */
  lemma CausedStill(before: Staleness, now: Staleness, inputs: Inputs, j: Job, job: Job)
    requires now.Keys == before.Keys && Live(now, job.id) && Caused(before, now, inputs, j)
    ensures now[job.id := Some(job.why)].Keys == before.Keys && Caused(before, now[job.id := Some(job.why)], inputs, j)
  {
    assert now[job.id := Some(job.why)].Keys == now.Keys;
  }

  lemma ExplainedStill(before: Staleness, now: Staleness, inputs: Inputs, r: ReceiptId, job: Job)
    requires now.Keys == before.Keys && r in now && r != job.id && Live(now, job.id) && Explained(before, now, inputs, r)
    ensures now[job.id := Some(job.why)].Keys == before.Keys && Explained(before, now[job.id := Some(job.why)], inputs, r)
  {
    assert now[job.id := Some(job.why)].Keys == now.Keys;
  }

  lemma MarkExplained(before: Staleness, now: Staleness, inputs: Inputs, job: Job)
    requires now.Keys == before.Keys && Live(now, job.id) && Caused(before, now, inputs, job)
    ensures now[job.id := Some(job.why)].Keys == before.Keys && Explained(before, now[job.id := Some(job.why)], inputs, job.id)
  {
    assert now[job.id := Some(job.why)].Keys == now.Keys;
  }

  lemma MarksOwed(before: Staleness, now: Staleness, inputs: Inputs, front: seq<Job>, back: seq<Job>, job: Job)
    requires now.Keys == before.Keys && (forall r :: r in before && !Live(before, r) ==> now[r] == before[r])
    requires Owed(before, now, inputs, front, back, {})
    requires front + back != [] && job == (front + back)[0] && Live(now, job.id)
    ensures var now' := now[job.id := Some(job.why)];
            now'.Keys == now.Keys
            && Owed(before, now', inputs, RestFront(front), RestBack(front, back), LiveConsumers(now', inputs, job.id))
  {
    hide RestFront, RestBack;
    RestMembers(front, back);
    assert now[job.id := Some(job.why)].Keys == now.Keys;
  }

  /** Queueing the consumers pays the debt. */
  lemma Appends(before: Staleness, now: Staleness, inputs: Inputs, seeds: seq<ReceiptId>, why: Reason,
                front: seq<Job>, back: seq<Job>, job: Job, found: seq<ReceiptId>)
    requires Live(before, job.id) && job.id in now && now[job.id] == Some(job.why)
    requires ToSet(found) == LiveConsumers(now, inputs, job.id)
    requires Working(before, now, inputs, seeds, why, front, back, LiveConsumers(now, inputs, job.id))
    ensures Working(before, now, inputs, seeds, why, front, back + CascadeJobs(found, job), {})
  {
    hide Explained;
    var jobs := CascadeJobs(found, job);
    forall j | j in jobs
      ensures Live(before, j.id) && Invalidated(before, inputs, seeds, j.id) && Caused(before, now, inputs, j)
    {
      assert j.id in ToSet(found);
      assert Invalidated(before, inputs, seeds, job.id);
      var s :| s in seeds && Live(before, s) && Reaches(ConsumerGraph(before, inputs), s, job.id);
      ReachesStep(ConsumerGraph(before, inputs), s, job.id, j.id);
    }
    forall c | c in LiveConsumers(now, inputs, job.id) ensures Awaited(jobs, c) {
      assert c in ToSet(found);
      var i :| 0 <= i < |found| && found[i] == c;
      assert jobs[i] in jobs;
    }
    assert forall j :: j in back + jobs <==> j in back || j in jobs;
  }

  lemma Ends(before: Staleness, now: Staleness, inputs: Inputs, seeds: seq<ReceiptId>, why: Reason)
    requires Working(before, now, inputs, seeds, why, [], [], {})
    ensures Cascaded(before, now, inputs, seeds, why)
    ensures forall r :: Live(before, r) && Invalidated(before, inputs, seeds, r) <==> Live(before, r) && !Live(now, r)
  {
    var g := ConsumerGraph(before, inputs);
    var marked := set r | r in before && Live(before, r) && now[r].Some?;
    forall p, c | p in marked && c in Succ(g, p) ensures c in marked {
      assert !Awaited([], c);
    }
    forall r | Live(before, r) && Invalidated(before, inputs, seeds, r) ensures now[r].Some? {
      var s :| s in seeds && Live(before, s) && Reaches(g, s, r);
      assert Job(s, why) !in [];
      var p :| WalkFromTo(g, p, s, r);
      ClosedKeepsWalks(g, marked, p);
    }
  }

  // ---- several cascades in a row ----

  ghost predicate Reached(stale: Staleness, inputs: Inputs, seeds: set<ReceiptId>, r: ReceiptId) {
    exists s :: s in seeds && Live(stale, s) && Reaches(ConsumerGraph(stale, inputs), s, r)
  }

  /** Exactly the live receipts reached from `seeds` went stale, and staleness was
   *  not undone. */
  ghost predicate Fallen(before: Staleness, after: Staleness, inputs: Inputs, seeds: set<ReceiptId>) {
    && after.Keys == before.Keys
    && (forall r :: Live(before, r) ==> (after[r].Some? <==> Reached(before, inputs, seeds, r)))
    && (forall r :: r in before && !Live(before, r) ==> after[r] == before[r])
  }

  lemma NothingFalls(stale: Staleness, inputs: Inputs)
    ensures Fallen(stale, stale, inputs, {})
  {
  }

  lemma CascadedFalls(before: Staleness, after: Staleness, inputs: Inputs, seeds: seq<ReceiptId>, why: Reason)
    requires Cascaded(before, after, inputs, seeds, why)
    ensures Fallen(before, after, inputs, ToSet(seeds))
  {
    hide Reaches;
    forall r ensures Reached(before, inputs, ToSet(seeds), r) <==> Invalidated(before, inputs, seeds, r) {
      if Invalidated(before, inputs, seeds, r) {
        var s :| s in seeds && Live(before, s) && Reaches(ConsumerGraph(before, inputs), s, r);
        assert s in ToSet(seeds);
      }
    }
  }

  /** A walk among receipts live later was one before. */
  lemma EarlierReach(before: Staleness, mid: Staleness, inputs: Inputs, s: ReceiptId, r: ReceiptId)
    requires mid.Keys == before.Keys && forall x :: Live(mid, x) ==> Live(before, x)
    requires Reaches(ConsumerGraph(mid, inputs), s, r)
    ensures Reaches(ConsumerGraph(before, inputs), s, r)
  {
    var g, h := ConsumerGraph(mid, inputs), ConsumerGraph(before, inputs);
    var p :| WalkFromTo(g, p, s, r);
    forall x: ReceiptId ensures Succ(g, x) <= Succ(h, x) {
      forall c | c in Succ(g, x) ensures c in Succ(h, x) {
        assert Live(mid, c) && Live(mid, x);
      }
    }
    assert WalkFromTo(h, p, s, r);
  }

  /** Along a walk, either all of it is still live or its end fell with the part
   *  that did. */
  lemma {:induction false} WalkSplits(before: Staleness, mid: Staleness, inputs: Inputs, seeds: set<ReceiptId>, p: seq<ReceiptId>)
    requires Fallen(before, mid, inputs, seeds)
    requires Walk(ConsumerGraph(before, inputs), p) && Live(before, p[0])
    ensures (Live(mid, p[|p| - 1]) && Walk(ConsumerGraph(mid, inputs), p)) || Reached(before, inputs, seeds, p[|p| - 1])
    decreases |p|
  {
    hide Reaches, Fallen;
    var g, h := ConsumerGraph(before, inputs), ConsumerGraph(mid, inputs);
    if |p| == 1 {
      FallsOrLives(before, mid, inputs, seeds, p[0]);
    } else {
      var q, last := p[..|p| - 1], p[|p| - 1];
      WalkSplits(before, mid, inputs, seeds, q);
      var prev := p[|p| - 2];
      assert prev == q[|q| - 1] && last in Succ(g, prev) by {
        assert p[|p| - 2 + 1] in Succ(g, p[|p| - 2]);
      }
      if Reached(before, inputs, seeds, prev) {
        var s :| s in seeds && Live(before, s) && Reaches(g, s, prev);
        ReachesStep(g, s, prev, last);
      } else {
        FallsOrLives(before, mid, inputs, seeds, last);
        if Live(mid, last) {
          assert last in Succ(h, prev);
        }
      }
    }
  }

  lemma FallsOrLives(before: Staleness, mid: Staleness, inputs: Inputs, seeds: set<ReceiptId>, r: ReceiptId)
    requires Fallen(before, mid, inputs, seeds) && Live(before, r)
    ensures Live(mid, r) <==> !Reached(before, inputs, seeds, r)
  {
  }

  /** Two cascades in a row take down what one from both seeds would. */
  lemma FallenTwice(before: Staleness, mid: Staleness, after: Staleness, inputs: Inputs, a: set<ReceiptId>, b: set<ReceiptId>)
    requires Fallen(before, mid, inputs, a) && Fallen(mid, after, inputs, b)
    ensures Fallen(before, after, inputs, a + b)
  {
    hide Reaches;
    var g := ConsumerGraph(before, inputs);
    forall r | Live(before, r) ensures after[r].Some? <==> Reached(before, inputs, a + b, r) {
      if after[r].Some? {
        if mid[r].Some? {
          var s :| s in a && Live(before, s) && Reaches(g, s, r);
        } else {
          var s :| s in b && Live(mid, s) && Reaches(ConsumerGraph(mid, inputs), s, r);
          EarlierReach(before, mid, inputs, s, r);
        }
      }
      if Reached(before, inputs, a + b, r) {
        var s :| s in a + b && Live(before, s) && Reaches(g, s, r);
        BothSeeds(before, mid, after, inputs, a, b, s, r);
      }
    }
  }

  lemma BothSeeds(before: Staleness, mid: Staleness, after: Staleness, inputs: Inputs, a: set<ReceiptId>, b: set<ReceiptId>,
                  s: ReceiptId, r: ReceiptId)
    requires Fallen(before, mid, inputs, a) && Fallen(mid, after, inputs, b)
    requires s in a + b && Live(before, s) && Live(before, r) && Reaches(ConsumerGraph(before, inputs), s, r)
    ensures after[r].Some?
  {
    var p :| WalkFromTo(ConsumerGraph(before, inputs), p, s, r);
    if s in a {
      assert Reached(before, inputs, a, r);
    } else {
      WalkSplits(before, mid, inputs, a, p);
      if !Reached(before, inputs, a, r) {
        assert WalkFromTo(ConsumerGraph(mid, inputs), p, s, r);
        StartLives(mid, inputs, p);
        assert Reached(mid, inputs, b, r);
      }
    }
  }

  /** A walk that ends at a live receipt starts at one. */
  lemma StartLives(stale: Staleness, inputs: Inputs, p: seq<ReceiptId>)
    requires Walk(ConsumerGraph(stale, inputs), p) && Live(stale, p[|p| - 1])
    ensures Live(stale, p[0])
  {
    if |p| > 1 {
      assert p[0 + 1] in Succ(ConsumerGraph(stale, inputs), p[0]);
    }
  }
}
