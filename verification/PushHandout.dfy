/** Handing pushes to a daemon on its heartbeat (the push part of
 * `heartbeat` in dispatch/items_db.py): acknowledge, give up, hand out.
 *
 * A row's id is its position: rows are appended in id order and `ORDER BY id`
 * is the order of the sequence.
 */
module PushHandout {
  import opened Prelude

  datatype Daemon = Daemon(name: string)

  datatype Push = Push(daemon: Daemon, attempts: nat, deliveredAt: Option<nat>, dropped: bool)

  const MAX_PUSHES_PER_BEAT: nat := 100
  const MAX_PUSH_ATTEMPTS: nat := 10

  /** Not yet delivered (an acknowledged or dropped push counts as delivered). */
  predicate Pending(p: Push, d: Daemon) {
    p.daemon == d && p.deliveredAt.None?
  }

  /** Pending, and the next beat may still hand it out. */
  predicate Live(p: Push, d: Daemon) {
    Pending(p, d) && p.attempts < MAX_PUSH_ATTEMPTS
  }

  /** One row after the acknowledgements and the give-up rule of a beat. */
  function Settled(p: Push, id: nat, d: Daemon, acked: set<nat>, now: nat): Push {
    if !Pending(p, d) then p
    else if id in acked then p.(deliveredAt := Some(now))
    else if p.attempts >= MAX_PUSH_ATTEMPTS then p.(deliveredAt := Some(now), dropped := true)
    else p
  }

  function CountPending(rows: seq<Push>, d: Daemon): nat {
    if rows == [] then 0
    else CountPending(rows[..|rows| - 1], d) + (if Pending(rows[|rows| - 1], d) then 1 else 0)
  }

  function CountLive(rows: seq<Push>, d: Daemon): nat {
    if rows == [] then 0
    else CountLive(rows[..|rows| - 1], d) + (if Live(rows[|rows| - 1], d) then 1 else 0)
  }

  function SettleAll(rows: seq<Push>, d: Daemon, acked: set<nat>, now: nat): (after: seq<Push>)
    ensures |after| == |rows|
    ensures forall i :: 0 <= i < |rows| ==> after[i] == Settled(rows[i], i, d, acked, now)
  {
    seq(|rows|, i requires 0 <= i < |rows| => Settled(rows[i], i, d, acked, now))
  }

  /** The rows a beat hands out: the oldest pending ones, up to the limit. */
  predicate Handed(rows: seq<Push>, d: Daemon, i: nat)
    requires i < |rows|
  {
    Pending(rows[i], d) && CountPending(rows[..i], d) < MAX_PUSHES_PER_BEAT
  }

  /** The ids among the first `n` rows that a beat hands out, in id order. */
  function HandedIds(rows: seq<Push>, d: Daemon, n: nat): (out: seq<nat>)
    requires n <= |rows|
    ensures forall k :: 0 <= k < |out| ==> out[k] < n
    ensures forall i :: 0 <= i < n ==> (i in out <==> Handed(rows, d, i))
    ensures forall k, l :: 0 <= k < l < |out| ==> out[k] < out[l]
    ensures |out| == if CountPending(rows[..n], d) < MAX_PUSHES_PER_BEAT
                     then CountPending(rows[..n], d) else MAX_PUSHES_PER_BEAT
  {
    if n == 0 then []
    else
      var rest := HandedIds(rows, d, n - 1);
      assert rows[..n][..n - 1] == rows[..n - 1];
      if Handed(rows, d, n - 1) then rest + [n - 1] else rest
  }

  function Beat(rows: seq<Push>, d: Daemon, acked: set<nat>, now: nat): (after: seq<Push>)
    ensures |after| == |rows|
  {
    var settled := SettleAll(rows, d, acked, now);
    seq(|rows|, i requires 0 <= i < |rows| =>
      if Handed(settled, d, i) then settled[i].(attempts := settled[i].attempts + 1) else settled[i])
  }

  /** The pushes of every daemon, as one table. */
  class PushTable {
    var rows: seq<Push>

    constructor ()
      ensures rows == []
    {
      rows := [];
    }

    method Enqueue(d: Daemon)
      modifies this
      ensures rows == old(rows) + [Push(d, 0, None, false)]
    {
      rows := rows + [Push(d, 0, None, false)];
    }

    /** Returns the ids handed out, oldest first: at most 100, all pending. */
    method Heartbeat(d: Daemon, acked: set<nat>, now: nat) returns (out: seq<nat>)
      modifies this
      ensures rows == Beat(old(rows), d, acked, now)
      ensures |out| <= MAX_PUSHES_PER_BEAT
      ensures forall k, l :: 0 <= k < l < |out| ==> out[k] < out[l]
      ensures forall i :: 0 <= i < |rows| ==> (i in out <==> rows[i].attempts > old(rows)[i].attempts)
      ensures forall i :: i in out ==> i < |rows| && Live(old(rows)[i], d) && i !in acked
    {
      var settled := SettleAll(rows, d, acked, now);
      out := HandedIds(settled, d, |settled|);
      rows := Beat(rows, d, acked, now);
    }
  }

  /** What happens to the table: new pushes, and beats of any daemon with any
   *  acknowledgements. */
  datatype Event = Enqueued(daemon: Daemon) | Beaten(daemon: Daemon, acked: set<nat>, now: nat)

  function After(rows: seq<Push>, e: Event): (after: seq<Push>)
    ensures |rows| <= |after|
  {
    match e
    case Enqueued(d) => rows + [Push(d, 0, None, false)]
    case Beaten(d, acked, now) => Beat(rows, d, acked, now)
  }

  function Run(rows: seq<Push>, events: seq<Event>): (after: seq<Push>)
    ensures |rows| <= |after|
    decreases |events|
  {
    if events == [] then rows else Run(After(rows, events[0]), events[1..])
  }

  /** How often daemon `d` beat. */
  function Beats(events: seq<Event>, d: Daemon): nat {
    if events == [] then 0
    else (if events[0].Beaten? && events[0].daemon == d then 1 else 0) + Beats(events[1..], d)
  }

  ghost predicate Bounded(rows: seq<Push>) {
    forall i :: 0 <= i < |rows| ==> rows[i].attempts <= MAX_PUSH_ATTEMPTS
  }

  lemma {:induction false} LiveAfterSettling(rows: seq<Push>, d: Daemon, acked: set<nat>, now: nat, i: nat)
    requires i <= |rows|
    ensures CountPending(SettleAll(rows, d, acked, now)[..i], d) <= CountLive(rows[..i], d)
  {
    var settled := SettleAll(rows, d, acked, now);
    if i > 0 {
      LiveAfterSettling(rows, d, acked, now, i - 1);
      assert settled[..i][..i - 1] == settled[..i - 1] && rows[..i][..i - 1] == rows[..i - 1];
    }
  }

  /** One event, seen from one row that was there before it. */
  lemma RowStep(rows: seq<Push>, e: Event, d: Daemon, i: nat)
    requires i < |rows| && Bounded(rows)
    ensures Bounded(After(rows, e))
    ensures var p, q := rows[i], After(rows, e)[i];
            && q.daemon == p.daemon && p.attempts <= q.attempts
            && (Pending(q, d) ==> Pending(p, d))
            && (p.deliveredAt.Some? ==> q == p)
            && (e.Beaten? && e.daemon == d && Pending(q, d) ==> Live(p, d))
            && (e.Beaten? && e.daemon == d && Pending(q, d) && CountLive(rows[..i], d) < MAX_PUSHES_PER_BEAT
                ==> q.attempts == p.attempts + 1)
  {
    if e.Beaten? {
      LiveAfterSettling(rows, e.daemon, e.acked, e.now, i);
    }
  }

  /** No event adds to the live pushes ahead of a row. */
  lemma {:induction false} AheadShrinks(rows: seq<Push>, e: Event, d: Daemon, i: nat)
    requires i <= |rows| && Bounded(rows)
    ensures CountLive(After(rows, e)[..i], d) <= CountLive(rows[..i], d)
  {
    if i > 0 {
      AheadShrinks(rows, e, d, i - 1);
      RowStep(rows, e, d, i - 1);
      assert After(rows, e)[..i][..i - 1] == After(rows, e)[..i - 1] && rows[..i][..i - 1] == rows[..i - 1];
    }
  }

  /** Attempts never exceed the maximum, over every run. */
  lemma {:induction false} AttemptsBounded(rows: seq<Push>, events: seq<Event>)
    requires Bounded(rows)
    ensures Bounded(Run(rows, events))
    decreases |events|
  {
    if events != [] {
      var next := After(rows, events[0]);
      forall i | 0 <= i < |next| ensures next[i].attempts <= MAX_PUSH_ATTEMPTS {
        if i < |rows| {
          RowStep(rows, events[0], next[i].daemon, i);
        }
      }
      AttemptsBounded(next, events[1..]);
    }
  }

  lemma {:induction false} AheadShrinksOverRun(rows: seq<Push>, events: seq<Event>, d: Daemon, i: nat)
    requires i <= |rows| && Bounded(rows)
    ensures CountLive(Run(rows, events)[..i], d) <= CountLive(rows[..i], d)
    decreases |events|
  {
    if events != [] {
      AheadShrinks(rows, events[0], d, i);
      AttemptsBounded(rows, [events[0]]);
      AheadShrinksOverRun(After(rows, events[0]), events[1..], d, i);
    }
  }

  /** A row with fewer than a beat's worth of live rows ahead of it is handed
   *  out on every beat for as long as it stays pending. */
  lemma {:induction false} Ages(rows: seq<Push>, events: seq<Event>, d: Daemon, i: nat)
    requires i < |rows| && Bounded(rows)
    requires CountLive(rows[..i], d) < MAX_PUSHES_PER_BEAT
    ensures var q := Run(rows, events)[i];
            Pending(q, d) ==> Pending(rows[i], d) && q.attempts >= rows[i].attempts + Beats(events, d)
    decreases |events|
  {
    if events != [] {
      var next := After(rows, events[0]);
      RowStep(rows, events[0], d, i);
      AheadShrinks(rows, events[0], d, i);
      AttemptsBounded(rows, [events[0]]);
      Ages(next, events[1..], d, i);
    }
  }

  /** Ten beats clear the oldest hundred live rows. */
  lemma {:induction false} TenBeats(rows: seq<Push>, events: seq<Event>, d: Daemon, i: nat)
    requires i <= |rows| && Bounded(rows) && Beats(events, d) >= MAX_PUSH_ATTEMPTS
    ensures CountLive(Run(rows, events)[..i], d) + MAX_PUSHES_PER_BEAT <= CountLive(rows[..i], d)
            || CountLive(Run(rows, events)[..i], d) == 0
  {
    if i > 0 {
      var end := Run(rows, events);
      TenBeats(rows, events, d, i - 1);
      assert end[..i][..i - 1] == end[..i - 1] && rows[..i][..i - 1] == rows[..i - 1];
      StaysDead(rows, events, d, i - 1);
      if CountLive(rows[..i - 1], d) < MAX_PUSHES_PER_BEAT {
        Ages(rows, events, d, i - 1);
      }
    }
  }

  lemma {:induction false} StaysDead(rows: seq<Push>, events: seq<Event>, d: Daemon, i: nat)
    requires i < |rows| && Bounded(rows)
    ensures Live(Run(rows, events)[i], d) ==> Live(rows[i], d)
    decreases |events|
  {
    if events != [] {
      RowStep(rows, events[0], d, i);
      AttemptsBounded(rows, [events[0]]);
      StaysDead(After(rows, events[0]), events[1..], d, i);
    }
  }

  lemma {:induction false} RunConcat(rows: seq<Push>, a: seq<Event>, b: seq<Event>, d: Daemon)
    ensures Run(rows, a + b) == Run(Run(rows, a), b)
    ensures Beats(a + b, d) == Beats(a, d) + Beats(b, d)
    decreases |a|
  {
    if a == [] {
      assert a + b == b;
    } else {
      assert (a + b)[0] == a[0] && (a + b)[1..] == a[1..] + b;
      RunConcat(After(rows, a[0]), a[1..], b, d);
    }
  }

  /** The events up to and including the beat that makes `m` beats. */
  lemma {:induction false} SplitAtBeat(events: seq<Event>, d: Daemon, m: nat) returns (a: seq<Event>, b: seq<Event>)
    requires m <= Beats(events, d)
    ensures events == a + b && Beats(a, d) == m
    decreases |events|
  {
    if m == 0 {
      a, b := [], events;
    } else {
      var first := if events[0].Beaten? && events[0].daemon == d then 1 else 0;
      a, b := SplitAtBeat(events[1..], d, m - first);
      a := [events[0]] + a;
      assert a[1..] == a[1..];
    }
  }

  lemma {:induction false} Drains(rows: seq<Push>, events: seq<Event>, d: Daemon, i: nat, blocks: nat)
    requires i <= |rows| && Bounded(rows) && Beats(events, d) >= MAX_PUSH_ATTEMPTS * blocks
    ensures CountLive(Run(rows, events)[..i], d) + MAX_PUSHES_PER_BEAT * blocks <= CountLive(rows[..i], d)
            || CountLive(Run(rows, events)[..i], d) == 0
            || blocks == 0
    ensures CountLive(Run(rows, events)[..i], d) <= CountLive(rows[..i], d)
    decreases blocks
  {
    AheadShrinksOverRun(rows, events, d, i);
    if blocks > 0 {
      var a, b := SplitAtBeat(events, d, MAX_PUSH_ATTEMPTS);
      RunConcat(rows, a, b, d);
      TenBeats(rows, a, d, i);
      AttemptsBounded(rows, a);
      Drains(Run(rows, a), b, d, i, blocks - 1);
    }
  }

  lemma {:induction false} LiveArePending(rows: seq<Push>, d: Daemon)
    ensures CountLive(rows, d) <= CountPending(rows, d)
  {
    if rows != [] {
      LiveArePending(rows[..|rows| - 1], d);
    }
  }

  /** No starvation: with `ahead` older undelivered pushes, a push is handed out
   *  or delivered within 10 * (ahead / 100) + 1 beats of its daemon, whatever is
   *  acknowledged, enqueued or handed to other daemons meanwhile. */
  lemma HandedOutInTime(rows: seq<Push>, events: seq<Event>, i: nat, d: Daemon, ahead: nat)
    requires i < |rows| && Bounded(rows) && Pending(rows[i], d)
    requires ahead == CountPending(rows[..i], d)
    requires Beats(events, d) >= MAX_PUSH_ATTEMPTS * (ahead / MAX_PUSHES_PER_BEAT) + 1
    ensures var q := Run(rows, events)[i];
            q.deliveredAt.Some? || q.attempts > rows[i].attempts
  {
    ReachesFront(rows, events, i, d, ahead, 1);
  }

  /** ... and delivered or dropped within ten beats more. */
  lemma DeliveredInTime(rows: seq<Push>, events: seq<Event>, i: nat, d: Daemon, ahead: nat)
    requires i < |rows| && Bounded(rows) && Pending(rows[i], d)
    requires ahead == CountPending(rows[..i], d)
    requires Beats(events, d) >= MAX_PUSH_ATTEMPTS * (ahead / MAX_PUSHES_PER_BEAT) + 1 + MAX_PUSH_ATTEMPTS
    ensures Run(rows, events)[i].deliveredAt.Some?
  {
    ReachesFront(rows, events, i, d, ahead, 1 + MAX_PUSH_ATTEMPTS);
    AttemptsBounded(rows, events);
  }

  lemma ReachesFront(rows: seq<Push>, events: seq<Event>, i: nat, d: Daemon, ahead: nat, more: nat)
    requires i < |rows| && Bounded(rows) && Pending(rows[i], d)
    requires ahead == CountPending(rows[..i], d)
    requires Beats(events, d) >= MAX_PUSH_ATTEMPTS * (ahead / MAX_PUSHES_PER_BEAT) + more
    ensures var q := Run(rows, events)[i];
            q.deliveredAt.Some? || q.attempts >= rows[i].attempts + more
  {
    var blocks := ahead / MAX_PUSHES_PER_BEAT;
    var a, b := SplitAtBeat(events, d, MAX_PUSH_ATTEMPTS * blocks);
    RunConcat(rows, a, b, d);
    LiveArePending(rows[..i], d);
    Drains(rows, a, d, i, blocks);
    AttemptsBounded(rows, a);
    Ages(Run(rows, a), b, d, i);
    Grows(rows, a, d, i);
    Grows(Run(rows, a), b, d, i);
  }

  lemma {:induction false} Grows(rows: seq<Push>, events: seq<Event>, d: Daemon, i: nat)
    requires i < |rows| && Bounded(rows)
    ensures Run(rows, events)[i].attempts >= rows[i].attempts && Run(rows, events)[i].daemon == rows[i].daemon
    decreases |events|
  {
    if events != [] {
      RowStep(rows, events[0], d, i);
      AttemptsBounded(rows, [events[0]]);
      Grows(After(rows, events[0]), events[1..], d, i);
    }
  }
}
