/** Writing a transaction back (`_apply` in dispatch/items_db.py): only what it
 * recorded reaches the rows, and of its flags first the resolutions, then the new
 * details, then the raises.
 */
module BoardWriteBack {
  import opened Prelude
  import opened BoardRules
  import opened BoardSpec

  datatype Board = Board(items: Items, next: nat)

  function Lookup(flags: map<FlagKind, Detail>, k: FlagKind): Option<Detail> {
    if k in flags then Some(flags[k]) else None
  }

  function RowFlag(rows: Items, key: FlagKey): Option<Detail> {
    if key.n in rows then Lookup(rows[key.n].flags, key.kind) else None
  }

  /** A stored flag after the resolutions and the detail updates. */
  function Revised(rows: Items, tx: Tx, key: FlagKey): Option<Detail> {
    if RowFlag(rows, key).None? || key in tx.resolved then None
    else if key in tx.details then Some(tx.details[key])
    else RowFlag(rows, key)
  }

  /** ... and after the inserts, which yield to a flag still open. */
  function Stored(rows: Items, tx: Tx, key: FlagKey): Option<Detail> {
    if Revised(rows, tx, key).None? && key in tx.raised then Some(tx.raised[key]) else Revised(rows, tx, key)
  }

  function StoredFlags(rows: Items, tx: Tx, n: ItemNo): map<FlagKind, Detail> {
    var kinds := (if n in rows then rows[n].flags.Keys else {}) + set key | key in tx.raised && key.n == n :: key.kind;
    map k | k in kinds && Stored(rows, tx, FlagKey(n, k)).Some? :: Stored(rows, tx, FlagKey(n, k)).value
  }

  /** One item row after the write-back. */
  function StoredItem(rows: Items, tx: Tx, n: ItemNo): Item
    requires n in tx.items && (n in rows || n in tx.created)
  {
    var now := tx.items[n];
    var row := if n in rows then rows[n] else NewItem(now.touchedAt);
    var fields := if n in tx.dirty || n in tx.created
                  then now.(gateHead := row.gateHead, dismissed := row.dismissed + now.dismissed) else row;
    fields.(holders := if n in tx.holdersChanged then now.holders else row.holders,
            blockedBy := if n in tx.depsChanged then now.blockedBy else row.blockedBy,
            flags := StoredFlags(rows, tx, n))
  }

  function WriteBack(board: Board, tx: Tx): Board {
    Board(map n | n in tx.items && (n in board.items || n in tx.created) :: StoredItem(board.items, tx, n),
          if tx.created != {} then tx.next else board.next)
  }

  // ---- what a transaction has recorded of what it changed ----

  ghost predicate KeyRecorded(rows: Items, tx: Tx, key: FlagKey)
    requires key.n in tx.items
  {
    if key in tx.raised then RowFlag(rows, key).Some? ==> key in tx.resolved
    else Lookup(tx.items[key.n].flags, key.kind) == Revised(rows, tx, key)
  }

  /** Outside the record, the item is as it was stored. */
  ghost predicate ItemRecorded(rows: Items, tx: Tx, n: ItemNo)
    requires n in tx.items && (n in rows || n in tx.created)
  {
    var now := tx.items[n];
    var row := if n in rows then rows[n] else NewItem(now.touchedAt);
    && now.gateHead == row.gateHead && row.dismissed.Keys <= now.dismissed.Keys
    && (n in tx.holdersChanged || now.holders == row.holders)
    && (n in tx.depsChanged || now.blockedBy == row.blockedBy)
    && (n in tx.dirty || n in tx.created || now == row.(holders := now.holders, blockedBy := now.blockedBy, flags := now.flags))
  }

  ghost predicate Recorded(board: Board, tx: Tx) {
    && tx.items.Keys == board.items.Keys + tx.created
    && (tx.created == {} ==> tx.next == board.next)
    && (forall n :: n in tx.items ==> ItemRecorded(board.items, tx, n))
    && (forall key: FlagKey :: key.n in tx.items ==> KeyRecorded(board.items, tx, key))
    && (forall key :: key in tx.raised ==> key.n in tx.items)
  }

  /** Every flag raised in the transaction is still open, as it was raised. */
  ghost predicate Clean(tx: Tx) {
    forall key :: key in tx.raised && key.n in tx.items ==> Lookup(tx.items[key.n].flags, key.kind) == Some(tx.raised[key])
  }

  /** ... or at least still open. */
  ghost predicate KindsClean(tx: Tx) {
    forall key :: key in tx.raised && key.n in tx.items ==> key.kind in tx.items[key.n].flags
  }

  lemma StoredLookup(rows: Items, tx: Tx, key: FlagKey)
    ensures Lookup(StoredFlags(rows, tx, key.n), key.kind) == Stored(rows, tx, key)
  {
    assert key == FlagKey(key.n, key.kind);
    if Stored(rows, tx, key).Some? && RowFlag(rows, key).None? {
      assert key in tx.raised && key.n == key.n;
    }
  }

  /** Flags aside, every item comes back from the rows as the transaction left it. */
  lemma RowsExact(board: Board, tx: Tx, n: ItemNo)
    requires Recorded(board, tx) && n in tx.items
    ensures WriteBack(board, tx).items[n] == tx.items[n].(flags := StoredFlags(board.items, tx, n))
  {
    assert ItemRecorded(board.items, tx, n);
    hide StoredFlags;
    var row := if n in board.items then board.items[n] else NewItem(tx.items[n].touchedAt);
    assert row.dismissed + tx.items[n].dismissed == tx.items[n].dismissed;
  }

  lemma FlagExact(board: Board, tx: Tx, key: FlagKey)
    requires Recorded(board, tx) && key.n in tx.items
    ensures Lookup(StoredFlags(board.items, tx, key.n), key.kind)
            == if key in tx.raised then Some(tx.raised[key]) else Lookup(tx.items[key.n].flags, key.kind)
  {
    assert KeyRecorded(board.items, tx, key);
    StoredLookup(board.items, tx, key);
  }

  lemma SameFlags(a: map<FlagKind, Detail>, b: map<FlagKind, Detail>)
    requires forall k :: Lookup(a, k) == Lookup(b, k)
    ensures a == b
  {
    assert forall k :: (k in a <==> Lookup(a, k).Some?) && (k in b <==> Lookup(b, k).Some?);
    assert a.Keys == b.Keys;
    assert forall k :: k in a ==> Lookup(a, k) == Lookup(b, k);
  }

  /** The write-back stores exactly the transaction's items if and only if every
   *  flag it raised is still open as raised when it ends: a flag raised and then
   *  resolved in the same transaction is resolved first and inserted after, and a
   *  detail updated after its raise is updated before the insert. */
  lemma WriteBackExact(board: Board, tx: Tx)
    requires Recorded(board, tx)
    ensures WriteBack(board, tx).items == tx.items <==> Clean(tx)
  {
    hide StoredFlags, StoredItem, ItemRecorded, KeyRecorded;
    var after := WriteBack(board, tx).items;
    forall n | n in tx.items ensures after[n] == tx.items[n].(flags := StoredFlags(board.items, tx, n)) {
      RowsExact(board, tx, n);
    }
    if Clean(tx) {
      forall n | n in tx.items ensures after[n] == tx.items[n] {
        forall k ensures Lookup(StoredFlags(board.items, tx, n), k) == Lookup(tx.items[n].flags, k) {
          FlagExact(board, tx, FlagKey(n, k));
        }
        SameFlags(StoredFlags(board.items, tx, n), tx.items[n].flags);
      }
    }
    if after == tx.items {
      forall key | key in tx.raised ensures Lookup(tx.items[key.n].flags, key.kind) == Some(tx.raised[key]) {
        FlagExact(board, tx, key);
      }
    }
  }

  /** Up to the wording of details, likewise, if and only if every flag raised is
   *  still open. */
  lemma WriteBackKinds(board: Board, tx: Tx)
    requires Recorded(board, tx)
    ensures (forall n :: n in tx.items ==>
               WriteBack(board, tx).items[n] == tx.items[n].(flags := WriteBack(board, tx).items[n].flags))
    ensures (forall n :: n in tx.items ==> WriteBack(board, tx).items[n].flags.Keys == tx.items[n].flags.Keys)
            <==> KindsClean(tx)
  {
    hide StoredFlags, StoredItem, ItemRecorded, KeyRecorded;
    var after := WriteBack(board, tx).items;
    forall n | n in tx.items ensures after[n] == tx.items[n].(flags := StoredFlags(board.items, tx, n)) {
      RowsExact(board, tx, n);
    }
    if KindsClean(tx) {
      forall n | n in tx.items ensures after[n].flags.Keys == tx.items[n].flags.Keys {
        forall k ensures k in after[n].flags <==> k in tx.items[n].flags {
          FlagExact(board, tx, FlagKey(n, k));
          if FlagKey(n, k) in tx.raised {
            assert k in tx.items[n].flags;
          }
        }
      }
    }
    if forall n :: n in tx.items ==> after[n].flags.Keys == tx.items[n].flags.Keys {
      forall key | key in tx.raised ensures key.kind in tx.items[key.n].flags {
        FlagExact(board, tx, key);
        assert key.kind in after[key.n].flags.Keys;
      }
    }
  }
}
