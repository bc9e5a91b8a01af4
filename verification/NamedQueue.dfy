/** Named queues (dispatch/db.py): enqueue, claim, acknowledge, requeue and the
 * once-only recovery of a consumed item.
 *
 * The partial unique index over unconsumed items is the database's; a write that
 * would break it is refused, as there.
 */
module NamedQueue {
  import opened Prelude

  datatype ItemId = ItemId(number: nat)
  datatype QueueName = QueueName(name: string)
  datatype Key = Key(text: string)
  datatype Runner = Runner(name: string)
  datatype Payload = Payload(json: string)

  datatype State = Pending | Claimed | Consumed

  datatype Item = Item(queue: QueueName, payload: Payload, dedupe: Option<Key>, enqueuedAt: nat,
                       state: State, claimedBy: Option<Runner>)

  datatype RecoveryKey = RecoveryKey(queue: QueueName, key: Key)
  datatype Receipt = Receipt(item: ItemId, claimedBy: Runner)

  datatype Db = Db(items: map<ItemId, Item>, receipts: map<RecoveryKey, Receipt>)

  datatype RecoverReply = Recovered(id: ItemId) | AlreadyRecovered(id: ItemId) | Conflict

  /** Another unconsumed item of the queue carries this dedupe key. */
  predicate Taken(items: map<ItemId, Item>, queue: QueueName, dedupe: Option<Key>, except: set<ItemId>) {
    dedupe.Some? && exists i :: i in items && i !in except && items[i].queue == queue
                                && items[i].dedupe == dedupe && items[i].state != Consumed
  }

  function Released(i: Item): Item {
    i.(state := Pending, claimedBy := None)
  }

  function Enqueued(db: Db, id: ItemId, queue: QueueName, payload: Payload, dedupe: Option<Key>, at: nat): Db {
    if Taken(db.items, queue, dedupe, {}) then db
    else db.(items := db.items[id := Item(queue, payload, dedupe, at, Pending, None)])
  }

  /** The rows a claim may take: pending, and not locked by a concurrent claim. */
  function Eligible(db: Db, queue: QueueName, locked: set<ItemId>): set<ItemId> {
    set i | i in db.items && i !in locked && db.items[i].queue == queue && db.items[i].state == Pending
  }

  /** `chosen` are as many eligible items as asked for, none younger than one
   *  left behind. */
  ghost predicate Oldest(db: Db, eligible: set<ItemId>, max: nat, chosen: set<ItemId>) {
    && chosen <= eligible <= db.items.Keys
    && |chosen| == (if |eligible| < max then |eligible| else max)
    && forall c, e :: c in chosen && e in eligible && e !in chosen ==> db.items[c].enqueuedAt <= db.items[e].enqueuedAt
  }

  function ClaimedItems(db: Db, chosen: set<ItemId>, runner: Runner): Db {
    db.(items := map i | i in db.items ::
          if i in chosen then db.items[i].(state := Claimed, claimedBy := Some(runner)) else db.items[i])
  }

  /** A claimed item of the queue, among `ids` if some are named. */
  predicate HeldIn(items: map<ItemId, Item>, queue: QueueName, ids: Option<set<ItemId>>, i: ItemId) {
    i in items && (ids.None? || i in ids.value) && items[i].queue == queue && items[i].state == Claimed
  }

  function HeldAmong(items: map<ItemId, Item>, queue: QueueName, ids: Option<set<ItemId>>): set<ItemId> {
    set i | i in items && HeldIn(items, queue, ids, i)
  }

  function Acked(db: Db, queue: QueueName, ids: set<ItemId>): Db {
    db.(items := map i | i in db.items ::
          if HeldIn(db.items, queue, Some(ids), i) then db.items[i].(state := Consumed) else db.items[i])
  }

  /** `ids` None is the explicit "all"; an empty set requeues nothing. */
  function Requeued(db: Db, queue: QueueName, ids: Option<set<ItemId>>): Db {
    db.(items := map i | i in db.items ::
          if HeldIn(db.items, queue, ids, i) then Released(db.items[i]) else db.items[i])
  }

  function Recover(db: Db, queue: QueueName, id: ItemId, runner: Runner, key: Key): (Db, RecoverReply) {
    var k := RecoveryKey(queue, key);
    if k in db.receipts then
      (db, if db.receipts[k] == Receipt(id, runner) then AlreadyRecovered(id) else Conflict)
    else if id !in db.items || db.items[id].queue != queue || db.items[id].state != Consumed
            || db.items[id].claimedBy != Some(runner) then (db, Conflict)
    else if Taken(db.items, queue, db.items[id].dedupe, {id}) then (db, Conflict)
    else (Db(db.items[id := Released(db.items[id])], db.receipts[k := Receipt(id, runner)]), Recovered(id))
  }

  /** Those of `freed` are released, the others as they were. */
  ghost predicate AllReleased(was: map<ItemId, Item>, now: map<ItemId, Item>, freed: set<ItemId>) {
    now.Keys == was.Keys && forall i :: i in was ==> now[i] == if i in freed then Released(was[i]) else was[i]
  }

  lemma NoneReleased(was: map<ItemId, Item>)
    ensures AllReleased(was, was, {})
  {
  }

  lemma HeldReleased(was: map<ItemId, Item>, now: map<ItemId, Item>, queue: QueueName, ids: Option<set<ItemId>>)
    requires AllReleased(was, now, HeldAmong(was, queue, ids))
    ensures now == map i | i in was :: if HeldIn(was, queue, ids, i) then Released(was[i]) else was[i]
    ensures forall i :: HeldIn(was, queue, ids, i) ==> i in was && Released(was[i]).state == Pending && Released(was[i]).claimedBy.None?
  {
  }

  lemma OneReleased(was: map<ItemId, Item>, now: map<ItemId, Item>, freed: set<ItemId>, i: ItemId)
    requires AllReleased(was, now, freed) && i in was && i !in freed
    ensures i in now && AllReleased(was, now[i := Released(now[i])], freed + {i})
  {
  }

  class QueueStore {
    var db: Db

    constructor ()
      ensures db == Db(map[], map[])
    {
      db := Db(map[], map[]);
    }

    method Enqueue(id: ItemId, queue: QueueName, payload: Payload, dedupe: Option<Key>, at: nat)
      returns (enqueued: bool, depth: nat)
      requires id !in db.items
      modifies this
      ensures db == Enqueued(old(db), id, queue, payload, dedupe, at)
      ensures enqueued <==> id in db.items
      ensures depth == |Eligible(db, queue, {})|
    {
      enqueued := !Taken(db.items, queue, dedupe, {});
      db := Enqueued(db, id, queue, payload, dedupe, at);
      depth := |Eligible(db, queue, {})|;
    }

    /** Claims the oldest pending items, oldest first. */
    method Claim(queue: QueueName, max: nat, runner: Runner, locked: set<ItemId>) returns (out: seq<ItemId>)
      modifies this
      ensures Oldest(old(db), Eligible(old(db), queue, locked), max, ToSet(out))
      ensures Distinct(out) && forall k, l :: 0 <= k < l < |out| ==>
                out[k] in old(db).items && out[l] in old(db).items
                && old(db).items[out[k]].enqueuedAt <= old(db).items[out[l]].enqueuedAt
      ensures db == ClaimedItems(old(db), ToSet(out), runner)
    {
      out := OldestFirst(db.items, Eligible(db, queue, locked), max);
      DistinctSize(out);
      db := ClaimedItems(db, ToSet(out), runner);
    }

    /** Consumes the claimed items of the queue among `ids`; returns how many. */
    method Ack(queue: QueueName, ids: set<ItemId>) returns (flipped: nat)
      modifies this
      ensures db == Acked(old(db), queue, ids)
      ensures db.items.Keys == old(db).items.Keys && db.receipts == old(db).receipts
      ensures forall i :: i in db.items && !HeldIn(old(db).items, queue, Some(ids), i) ==> db.items[i] == old(db).items[i]
      ensures forall i :: HeldIn(old(db).items, queue, Some(ids), i) ==> db.items[i].state == Consumed
      ensures flipped == |HeldAmong(old(db).items, queue, Some(ids))|
    {
      var was, left := db.items, HeldAmong(db.items, queue, Some(ids));
      flipped := 0;
      ghost var held := left;
      while left != {}
        invariant left <= held && flipped + |left| == |held|
        invariant db.receipts == old(db).receipts && db.items.Keys == was.Keys
        invariant forall i :: i in was ==> db.items[i] == if i in held && i !in left then was[i].(state := Consumed) else was[i]
        decreases left
      {
        var i :| i in left;
        left := left - {i};
        db := db.(items := db.items[i := db.items[i].(state := Consumed)]);
        flipped := flipped + 1;
      }
    }

    /** Puts claimed items of the queue back to pending, all or those among `ids`;
     *  an empty set puts none back. */
    method Requeue(queue: QueueName, ids: Option<set<ItemId>>) returns (flipped: nat)
      modifies this
      ensures db == Requeued(old(db), queue, ids)
      ensures db.items.Keys == old(db).items.Keys && db.receipts == old(db).receipts
      ensures forall i :: i in db.items && !HeldIn(old(db).items, queue, ids, i) ==> db.items[i] == old(db).items[i]
      ensures forall i :: HeldIn(old(db).items, queue, ids, i) ==> db.items[i].state == Pending && db.items[i].claimedBy.None?
      ensures flipped == |HeldAmong(old(db).items, queue, ids)|
    {
      hide AllReleased, HeldIn, Released;
      var was, left := db.items, HeldAmong(db.items, queue, ids);
      flipped := 0;
      ghost var held := left;
      NoneReleased(was);
      assert held - left == {};
      while left != {}
        invariant left <= held && flipped + |left| == |held|
        invariant db.receipts == old(db).receipts && AllReleased(was, db.items, held - left)
        decreases left
      {
        var i :| i in left;
        OneReleased(was, db.items, held - left, i);
        assert i in db.items && i !in held - left;
        assert held - (left - {i}) == held - left + {i};
        left := left - {i};
        db := db.(items := db.items[i := Released(db.items[i])]);
        flipped := flipped + 1;
      }
      assert held - left == held;
      HeldReleased(was, db.items, queue, ids);
    }

    /** Restores one consumed item, once for this key. */
    method RecoverItem(queue: QueueName, id: ItemId, runner: Runner, key: Key) returns (reply: RecoverReply)
      modifies this
      ensures (db, reply) == Recover(old(db), queue, id, runner, key)
      ensures reply != Recovered(id) ==> db == old(db)
      ensures reply == Recovered(id) ==>
                && id in old(db).items && old(db).items[id].queue == queue
                && old(db).items[id].state == Consumed && old(db).items[id].claimedBy == Some(runner)
                && db.items == old(db).items[id := Released(old(db).items[id])]
                && RecoveryKey(queue, key) !in old(db).receipts
                && db.receipts == old(db).receipts[RecoveryKey(queue, key) := Receipt(id, runner)]
    {
      var k := RecoveryKey(queue, key);
      if k in db.receipts {
        return if db.receipts[k] == Receipt(id, runner) then AlreadyRecovered(id) else Conflict;
      }
      if id !in db.items || db.items[id].queue != queue {
        return Conflict;
      }
      var row := db.items[id];
      if row.state != Consumed || row.claimedBy != Some(runner) {
        return Conflict;
      }
      if Taken(db.items, queue, row.dedupe, {id}) {
        return Conflict;
      }
      db := db.(items := db.items[id := Released(row)]);
      db := db.(receipts := db.receipts[k := Receipt(id, runner)]);
      reply := Recovered(id);
    }
  }

  method OldestFirst(items: map<ItemId, Item>, eligible: set<ItemId>, max: nat) returns (out: seq<ItemId>)
    requires eligible <= items.Keys
    ensures Distinct(out) && |out| == if |eligible| < max then |eligible| else max
    ensures ToSet(out) <= eligible
    ensures forall k :: 0 <= k < |out| ==> out[k] in items
    ensures forall k, l :: 0 <= k < l < |out| ==> items[out[k]].enqueuedAt <= items[out[l]].enqueuedAt
    ensures forall c, e :: c in ToSet(out) && e in eligible && e !in ToSet(out) ==> items[c].enqueuedAt <= items[e].enqueuedAt
  {
    var left := eligible;
    out := [];
    while left != {} && |out| < max
      invariant left <= eligible && Distinct(out) && |out| <= max
      invariant forall e :: e in eligible <==> e in left || e in out
      invariant forall k :: 0 <= k < |out| ==> out[k] in items && out[k] !in left
      invariant |left| + |out| == |eligible|
      invariant forall c, e :: c in out && e in left ==> items[c].enqueuedAt <= items[e].enqueuedAt
      invariant forall k, l :: 0 <= k < l < |out| ==> items[out[k]].enqueuedAt <= items[out[l]].enqueuedAt
      decreases left
    {
      var next := FindOldest(items, left);
      assert forall k :: 0 <= k < |out| ==> out[k] in out;
      out, left := out + [next], left - {next};
    }
  }

  method FindOldest(items: map<ItemId, Item>, among: set<ItemId>) returns (best: ItemId)
    requires among != {} && among <= items.Keys
    ensures best in among && forall e :: e in among ==> items[best].enqueuedAt <= items[e].enqueuedAt
  {
    best :| best in among;
    var left := among - {best};
    while left != {}
      invariant best in among && left <= among
      invariant forall e :: e in among && e !in left ==> items[best].enqueuedAt <= items[e].enqueuedAt
      decreases left
    {
      var e :| e in left;
      left := left - {e};
      if items[e].enqueuedAt < items[best].enqueuedAt {
        best := e;
      }
    }
  }

  lemma {:induction false} DistinctSize(s: seq<ItemId>)
    requires Distinct(s)
    ensures |ToSet(s)| == |s|
  {
    if s != [] {
      var rest := s[..|s| - 1];
      DistinctSize(rest);
      assert ToSet(s) == ToSet(rest) + {s[|s| - 1]};
    }
  }

  // ---- runs ----

  datatype Event =
    | EnqueueEvent(id: ItemId, queue: QueueName, payload: Payload, dedupe: Option<Key>, at: nat)
    | ClaimEvent(queue: QueueName, max: nat, runner: Runner, locked: set<ItemId>, chosen: set<ItemId>)
    | AckEvent(queue: QueueName, ids: set<ItemId>)
    | RequeueEvent(queue: QueueName, idsOrAll: Option<set<ItemId>>)
    | RecoverEvent(queue: QueueName, id: ItemId, runner: Runner, key: Key)

  /** What the database allows: fresh ids, and claims of the oldest eligible. */
  ghost predicate Allowed(db: Db, e: Event) {
    match e
    case EnqueueEvent(id, _, _, _, _) => id !in db.items
    case ClaimEvent(queue, max, _, locked, chosen) => Oldest(db, Eligible(db, queue, locked), max, chosen)
    case _ => true
  }

  function After(db: Db, e: Event): Db {
    match e
    case EnqueueEvent(id, queue, payload, dedupe, at) => Enqueued(db, id, queue, payload, dedupe, at)
    case ClaimEvent(_, _, runner, _, chosen) => ClaimedItems(db, chosen, runner)
    case AckEvent(queue, ids) => Acked(db, queue, ids)
    case RequeueEvent(queue, ids) => Requeued(db, queue, ids)
    case RecoverEvent(queue, id, runner, key) => Recover(db, queue, id, runner, key).0
  }

  ghost predicate Allows(db: Db, events: seq<Event>)
    decreases |events|
  {
    events == [] || (Allowed(db, events[0]) && Allows(After(db, events[0]), events[1..]))
  }

  function Run(db: Db, events: seq<Event>): Db
    decreases |events|
  {
    if events == [] then db else Run(After(db, events[0]), events[1..])
  }

  ghost predicate UniqueKeys(db: Db) {
    forall i, j :: i in db.items && j in db.items && i != j
      && db.items[i].state != Consumed && db.items[j].state != Consumed
      && db.items[i].queue == db.items[j].queue && db.items[i].dedupe.Some?
      ==> db.items[i].dedupe != db.items[j].dedupe
  }

  /** Nothing of an item but its state and claimant ever changes. */
  predicate SameItem(a: Item, b: Item) {
    a.queue == b.queue && a.payload == b.payload && a.dedupe == b.dedupe && a.enqueuedAt == b.enqueuedAt
  }

  /** No item comes back from being consumed. */
  lemma NoneBack(db: Db, db': Db)
    requires UniqueKeys(db) && db'.items.Keys == db.items.Keys
    requires forall i :: i in db.items ==>
               SameItem(db.items[i], db'.items[i]) && (db.items[i].state == Consumed ==> db'.items[i].state == Consumed)
    ensures UniqueKeys(db')
  {
  }

  /** One item is added or comes back, and its key was free. */
  lemma OneMore(db: Db, db': Db, id: ItemId, it: Item)
    requires UniqueKeys(db) && db'.items == db.items[id := it] && !Taken(db.items, it.queue, it.dedupe, {id})
    ensures UniqueKeys(db')
  {
  }

  lemma KeysStayUnique(db: Db, e: Event)
    requires Allowed(db, e) && UniqueKeys(db)
    ensures UniqueKeys(After(db, e))
  {
    hide UniqueKeys, Taken, Oldest, Eligible;
    match e
    case EnqueueEvent(id, queue, payload, dedupe, at) =>
      if !Taken(db.items, queue, dedupe, {}) {
        FreeStill(db.items, queue, dedupe, id);
        OneMore(db, After(db, e), id, Item(queue, payload, dedupe, at, Pending, None));
      }
    case RecoverEvent(queue, id, runner, key) =>
      if Recover(db, queue, id, runner, key).1 == Recovered(id) {
        OneMore(db, After(db, e), id, Released(db.items[id]));
      }
    case ClaimEvent(_, _, _, _, _) =>
      PendingChosen(db, e);
      NoneBack(db, After(db, e));
    case _ => NoneBack(db, After(db, e));
  }

  lemma FreeStill(items: map<ItemId, Item>, queue: QueueName, dedupe: Option<Key>, id: ItemId)
    requires !Taken(items, queue, dedupe, {})
    ensures !Taken(items, queue, dedupe, {id})
  {
  }

  lemma PendingChosen(db: Db, e: Event)
    requires Allowed(db, e) && e.ClaimEvent?
    ensures forall i :: i in e.chosen ==> i in db.items && db.items[i].state == Pending
  {
  }

  lemma StepKeeps(db: Db, e: Event)
    requires Allowed(db, e) && UniqueKeys(db)
    ensures UniqueKeys(After(db, e))
    ensures forall i :: i in db.items ==> i in After(db, e).items && SameItem(db.items[i], After(db, e).items[i])
    ensures forall k :: k in db.receipts ==> k in After(db, e).receipts && After(db, e).receipts[k] == db.receipts[k]
  {
    KeysStayUnique(db, e);
    hide UniqueKeys, Taken, Oldest, Eligible;
    forall i | i in db.items ensures i in After(db, e).items && SameItem(db.items[i], After(db, e).items[i]) {
      ItemStays(db, e, i);
    }
    hide SameItem;
  }

  lemma ItemStays(db: Db, e: Event, i: ItemId)
    requires Allowed(db, e) && i in db.items
    ensures i in After(db, e).items && SameItem(db.items[i], After(db, e).items[i])
  {
    hide Taken, Oldest, Eligible;
  }

  /** Over every run: one unconsumed item per queue and dedupe key; no item is
   *  lost or altered in payload, key or order; no recovery receipt changes. */
  lemma {:induction false} RunKeeps(db: Db, events: seq<Event>)
    requires Allows(db, events) && UniqueKeys(db)
    ensures UniqueKeys(Run(db, events))
    ensures forall i :: i in db.items ==> i in Run(db, events).items && SameItem(db.items[i], Run(db, events).items[i])
    ensures forall k :: k in db.receipts ==> k in Run(db, events).receipts && Run(db, events).receipts[k] == db.receipts[k]
    decreases |events|
  {
    if events != [] {
      StepKeeps(db, events[0]);
      RunKeeps(After(db, events[0]), events[1..]);
    }
  }

  /** A requeue covering a claimed `id`, or a recovery that restores it. */
  predicate Releases(db: Db, e: Event, id: ItemId) {
    || (e.RequeueEvent? && HeldIn(db.items, e.queue, e.idsOrAll, id))
    || (e.RecoverEvent? && Recover(db, e.queue, e.id, e.runner, e.key).1 == Recovered(id))
  }

  /** These are exactly the events that put `id` back to pending. */
  lemma ReleasesExactly(db: Db, e: Event, id: ItemId)
    requires Allowed(db, e) && id in db.items && db.items[id].state != Pending
    ensures id in After(db, e).items
    ensures After(db, e).items[id].state == Pending <==> Releases(db, e, id)
  {
  }

  ghost predicate ReleasedIn(db: Db, events: seq<Event>, id: ItemId)
    decreases |events|
  {
    events != [] && (Releases(db, events[0], id) || ReleasedIn(After(db, events[0]), events[1..], id))
  }

  /** Claimed once, an item is claimed again only if a requeue or a recovery
   *  released it in between. */
  lemma ClaimedOnce(db: Db, first: Event, between: seq<Event>, again: Event, id: ItemId)
    requires first.ClaimEvent? && id in first.chosen && again.ClaimEvent? && id in again.chosen
    requires Allows(db, [first] + between + [again])
    ensures ReleasedIn(After(db, first), between, id)
  {
    var all := [first] + between + [again];
    assert all[1..] == between + [again];
    assert id in Eligible(db, first.queue, first.locked);
    if !ReleasedIn(After(db, first), between, id) {
      StaysOut(After(db, first), between, again, id);
    }
  }

  lemma {:induction false} StaysOut(db: Db, events: seq<Event>, last: Event, id: ItemId)
    requires Allows(db, events + [last]) && id in db.items && db.items[id].state != Pending
    requires !ReleasedIn(db, events, id)
    ensures last.ClaimEvent? ==> id !in last.chosen
    decreases |events|
  {
    var all := events + [last];
    if events == [] {
      assert all[0] == last;
      assert last.ClaimEvent? ==> id !in Eligible(db, last.queue, last.locked);
    } else {
      assert all[0] == events[0] && all[1..] == events[1..] + [last];
      ReleasesExactly(db, events[0], id);
      StaysOut(After(db, events[0]), events[1..], last, id);
    }
  }

  /** A recovery key restores one item, once: after it succeeded, and after any
   *  run since, the same request is answered with the same id and changes
   *  nothing, and any other request under the key is refused. */
  lemma RecoveredOnce(db: Db, queue: QueueName, id: ItemId, runner: Runner, key: Key, since: seq<Event>)
    requires UniqueKeys(db) && Recover(db, queue, id, runner, key).1 == Recovered(id)
    requires Allows(Recover(db, queue, id, runner, key).0, since)
    ensures var now := Run(Recover(db, queue, id, runner, key).0, since);
            && Recover(now, queue, id, runner, key) == (now, AlreadyRecovered(id))
            && forall id', runner' :: (id', runner') != (id, runner) ==> Recover(now, queue, id', runner', key) == (now, Conflict)
  {
    StepKeeps(db, RecoverEvent(queue, id, runner, key));
    var after := Recover(db, queue, id, runner, key).0;
    RunKeeps(after, since);
    assert RecoveryKey(queue, key) in after.receipts;
  }
}
