/** The stored receipts of a board over time (dispatch/gate_db.py): what posting,
 * granting, revoking, rebinding and profile edits do to them, and what every such
 * run keeps true of the live ones. Waiver grantors are fixed.
 */
module GateState {
  import opened Prelude
  import opened Graphs
  import opened GateRules
  import opened GateRevocation
  import opened StaleCascade

  datatype ItemId = ItemId(n: nat)

  /** What an item says its work is at. */
  datatype Binding = Binding(head: Option<Sha>, mf: Option<Sha>, ruling: Option<Text>)
  datatype ItemGate = ItemGate(klass: Option<Name>, binding: Binding)

  /** `bound` pairs the key of each bound input with its content. */
  datatype Row = Row(item: ItemId, receipt: Receipt, klass: Option<Name>, version: Option<nat>, verdict: Verdict,
                     bound: set<(Text, Text)>)

  datatype Gate = Gate(
    profiles: map<Name, Profile>, defaultClass: Option<Name>, items: map<ItemId, ItemGate>, grants: map<ItemId, seq<Grant>>,
    rows: map<ReceiptId, Row>, stale: Staleness, inputs: Inputs, next: nat)

  // ---- the rules in force ----

  function Effective(g: Gate, item: ItemId): Option<Name>
    requires item in g.items
  {
    if g.items[item].klass.Some? then g.items[item].klass else g.defaultClass
  }

  function ProfileFor(g: Gate, klass: Option<Name>): Option<Profile> {
    if klass.Some? && klass.value in g.profiles then Some(g.profiles[klass.value]) else None
  }

  function VersionOf(p: Option<Profile>): Option<nat> {
    if p.None? then None else Some(p.value.version)
  }

  function GradedFor(g: Gate, who: set<Who>, item: ItemId): seq<Graded>
    requires item in g.items && item in g.grants
  {
    Grade(g.grants[item], ProfileFor(g, Effective(g, item)), who)
  }

  function Judged(g: Gate, who: set<Who>, item: ItemId, r: Receipt, klass: Option<Name>): Verdict
    requires item in g.items && item in g.grants
  {
    Evaluate(r, ProfileFor(g, klass), GradedFor(g, who, item))
  }

  // ---- staleness of one receipt ----

  /** The item moved past this receipt before it arrived. */
  function ArrivalStale(r: Receipt, b: Binding): Option<Cause> {
    if b.head.Some? && b.head.value != r.head then Some(HeadMoved)
    else if b.mf.Some? && r.mf.Some? && b.mf != r.mf then Some(MfMoved)
    else if b.ruling.Some? && b.ruling != r.ruling then Some(RulingSuperseded)
    else None
  }

  /** A newer receipt of the gate is about another head or MF. */
  function SupersededBy(old_: Receipt, r: Receipt): Option<Cause> {
    if old_.head != r.head then Some(HeadMoved)
    else if old_.mf.Some? && r.mf.Some? && old_.mf != r.mf then Some(MfMoved)
    else None
  }

  datatype Field = Head | Mf | Ruling

  /** The item's binding moved away from the receipt. */
  function BindingStale(r: Receipt, b: Binding, changed: set<Field>): Option<Cause> {
    if Head in changed && b.head.Some? && b.head.value != r.head then Some(HeadMoved)
    else if Mf in changed && b.mf.Some? && b.mf != r.mf then Some(MfMoved)
    else if Ruling in changed && b.ruling.Some? && b.ruling != r.ruling then Some(RulingSuperseded)
    else None
  }

  // ---- what holds of every live receipt ----

  /** The item binds nothing else than what the receipt is about. */
  ghost predicate MatchesBinding(r: Receipt, b: Binding) {
    && (b.head.Some? ==> r.head == b.head.value)
    && (b.mf.Some? ==> r.mf == b.mf || r.mf.None?)
    && (b.ruling.Some? ==> r.ruling == b.ruling)
  }

  /** Two receipts are about the same head and, when both name one, the same MF. */
  ghost predicate Agree(a: Receipt, b: Receipt) {
    a.head == b.head && (a.mf.Some? && b.mf.Some? ==> a.mf == b.mf)
  }

  ghost predicate DistinctTags(grants: seq<Grant>) {
    forall i, j :: 0 <= i < j < |grants| ==> grants[i].tag != grants[j].tag
  }

  ghost predicate Shaped(g: Gate) {
    && g.stale.Keys == g.rows.Keys && g.grants.Keys == g.items.Keys
    && (forall id :: id in g.rows ==> g.rows[id].item in g.items && id.number < g.next)
    && (forall item :: item in g.grants ==> DistinctTags(g.grants[item]))
    && (forall edge :: edge in g.inputs ==> edge.0 in g.rows && edge.1 in g.rows)
  }

  /** A live receipt is judged under the class, the profile version and the grants
   *  in force now, and is about what its item binds. */
  ghost predicate RowCurrent(g: Gate, who: set<Who>, id: ReceiptId)
    requires Shaped(g) && id in g.rows
  {
    var row := g.rows[id];
    && row.klass == Effective(g, row.item)
    && row.version == VersionOf(ProfileFor(g, row.klass))
    && SameVerdict(row.verdict, Judged(g, who, row.item, row.receipt, row.klass))
    && MatchesBinding(row.receipt, g.items[row.item].binding)
  }

  ghost predicate SameGate(a: Row, b: Row) {
    a.item == b.item && a.receipt.gate == b.receipt.gate
  }

  ghost predicate Current(g: Gate, who: set<Who>) {
    && Shaped(g)
    && (forall id :: Live(g.stale, id) ==> RowCurrent(g, who, id))
    && (forall i, j :: Live(g.stale, i) && Live(g.stale, j) && SameGate(g.rows[i], g.rows[j]) ==>
          Agree(g.rows[i].receipt, g.rows[j].receipt))
  }

  // ---- commands ----

  datatype Command =
    | Post(item: ItemId, receipt: Receipt, claimed: Option<Name>, bound: set<(Text, Text)>, consumed: set<ReceiptId>)
    | Attach(grantee: ItemId, by_: Who, draft: Grant)
    | Revoke(revokee: ItemId, revoker: Who, tag: Label, mentions: set<ReceiptId>)
    | Recheck(rechecked: ItemId, checkedTag: Label, check: MessageCheck)
    | SetProfile(klass: Name, profile: Option<Profile>, makeDefault: bool)
    | SetDefault(defaultClass: Option<Name>)
    | Bind(bindee: ItemId, head: Option<Option<Sha>>, mf: Option<Option<Sha>>, ruling: Option<Option<Text>>, newClass: Option<Option<Name>>)
    | Observe(observed: ReceiptId, moved: bool)

  // posting

  predicate MayPost(g: Gate, item: ItemId, claimed: Option<Name>, consumed: set<ReceiptId>) {
    item in g.items && item in g.grants && consumed <= g.rows.Keys && (claimed.Some? ==> claimed == Effective(g, item))
  }

  function NewRow(g: Gate, who: set<Who>, item: ItemId, r: Receipt, bound: set<(Text, Text)>): Row
    requires item in g.items && item in g.grants
  {
    var klass := Effective(g, item);
    Row(item, r, klass, VersionOf(ProfileFor(g, klass)), Judged(g, who, item, r, klass), bound)
  }

  function Superseded(g: Gate, id: ReceiptId): set<ReceiptId>
    requires id in g.rows
  {
    set o | o in g.rows && o != id && g.rows[o].item == g.rows[id].item && g.rows[o].receipt.gate == g.rows[id].receipt.gate
            && SupersededBy(g.rows[o].receipt, g.rows[id].receipt).Some?
  }

  /** Receipts that give an input of `id` a different content. */
  function InputChangers(g: Gate, id: ReceiptId): set<ReceiptId>
    requires id in g.rows
  {
    set o | o in g.rows && o != id && exists x, y :: x in g.rows[id].bound && y in g.rows[o].bound && x.0 == y.0 && x.1 != y.1
  }

  function Arrived(g: Gate, id: ReceiptId): set<ReceiptId>
    requires id in g.rows && g.rows[id].item in g.items
  {
    if ArrivalStale(g.rows[id].receipt, g.items[g.rows[id].item].binding).Some? then {id}
    else if g.rows[id].verdict.word == FailWord || g.rows[id].verdict.word == VoidWord
      then set c | c in g.rows && (c, id) in g.inputs
    else {}
  }

  /** The board with the receipt stored, before it makes any stale. */
  function WithReceipt(a: Gate, who: set<Who>, item: ItemId, r: Receipt, bound: set<(Text, Text)>, consumed: set<ReceiptId>): Gate
    requires item in a.items && item in a.grants
  {
    var id := ReceiptId(a.next);
    a.(rows := a.rows[id := NewRow(a, who, item, r, bound)], stale := a.stale[id := None], next := a.next + 1,
       inputs := a.inputs + set p | p in consumed :: (id, p))
  }

  function PostSeeds(mid: Gate, id: ReceiptId): set<ReceiptId>
    requires id in mid.rows && mid.rows[id].item in mid.items
  {
    Superseded(mid, id) + InputChangers(mid, id) + Arrived(mid, id)
  }

  ghost predicate Posted(a: Gate, b: Gate, who: set<Who>, item: ItemId, r: Receipt, bound: set<(Text, Text)>, consumed: set<ReceiptId>)
    requires item in a.items && item in a.grants
  {
    var mid := WithReceipt(a, who, item, r, bound, consumed);
    b == mid.(stale := b.stale) && Fallen(mid.stale, b.stale, mid.inputs, PostSeeds(mid, ReceiptId(a.next)))
  }

  // grants

  /** The grants of an item are `grants` now, and its live receipts judged anew. */
  ghost predicate Regranted(a: Gate, b: Gate, who: set<Who>, item: ItemId, grants: seq<Grant>)
    requires Shaped(a) && item in a.items
  {
    && b == a.(grants := a.grants[item := grants], rows := b.rows)
    && b.rows.Keys == a.rows.Keys
    && forall id :: id in a.rows ==>
         b.rows[id] == if a.rows[id].item == item && Live(a.stale, id)
                       then a.rows[id].(verdict := Evaluate(a.rows[id].receipt, ProfileFor(a, a.rows[id].klass),
                                                            Grade(grants, ProfileFor(a, Effective(a, item)), who)))
                       else a.rows[id]
  }

  /** The grant as stored: numbered, by its grantor, in force. */
  function Completed(g: Gate, item: ItemId, by_: Who, draft: Grant): Grant
    requires item in g.grants
  {
    draft.(tag := Label(item.n, |g.grants[item]| + 1), grantor := by_, revoked := false)
  }

  predicate MayAttach(g: Gate, who: set<Who>, item: ItemId, by_: Who, draft: Grant) {
    && draft.reason != "" && draft.risk != "" && (draft.kind == Variance ==> draft.digest.Some?)
    && item in g.items && item in g.grants && by_ in who
    && ShapeProblems(Completed(g, item, by_, draft), ProfileFor(g, Effective(g, item))) == {}
  }

  /** The live receipts that cite the grant, or whose reasons name it. */
  function Users(g: Gate, item: ItemId, tag: Label, mentions: set<ReceiptId>): set<ReceiptId> {
    set id | id in g.rows && g.rows[id].item == item
             && (tag in g.rows[id].receipt.waivers || id in mentions
                 || exists x :: x in g.rows[id].verdict.reasons && tag in Names(x.why))
  }

  function WithRevoked(grants: seq<Grant>, tag: Label): (out: seq<Grant>)
    ensures |out| == |grants|
  {
    if grants == [] then []
    else [if grants[0].tag == tag then grants[0].(revoked := true) else grants[0]] + WithRevoked(grants[1..], tag)
  }

  function WithCheck(grants: seq<Grant>, tag: Label, check: MessageCheck): (out: seq<Grant>)
    ensures |out| == |grants|
  {
    if grants == [] then []
    else [if grants[0].tag == tag then grants[0].(check := check) else grants[0]] + WithCheck(grants[1..], tag, check)
  }

  function FindGrant(grants: seq<Grant>, tag: Label): Option<Grant> {
    if grants == [] then None else if grants[0].tag == tag then Some(grants[0]) else FindGrant(grants[1..], tag)
  }

  function GrantOf(g: Gate, item: ItemId, tag: Label): Option<Grant> {
    if item in g.items && item in g.grants then FindGrant(g.grants[item], tag) else None
  }

  ghost predicate RevokedIn(a: Gate, b: Gate, item: ItemId, tag: Label, mentions: set<ReceiptId>)
    requires Shaped(a) && item in a.items
  {
    && b == a.(grants := a.grants[item := WithRevoked(a.grants[item], tag)], stale := b.stale)
    && Fallen(a.stale, b.stale, a.inputs, Users(a, item, tag, mentions))
  }

  // profiles

  function WithProfile(g: Gate, klass: Name, profile: Option<Profile>, makeDefault: bool): Gate {
    var version := if klass in g.profiles then g.profiles[klass].version + 1 else 1;
    var defaultClass := if profile.Some? && makeDefault then Some(klass)
                        else if profile.None? && g.defaultClass == Some(klass) then None
                        else g.defaultClass;
    g.(profiles := if profile.Some? then g.profiles[klass := profile.value.(version := version)] else g.profiles - {klass},
       defaultClass := defaultClass)
  }

  function OfClass(g: Gate, klass: Name): set<ReceiptId> {
    set id | id in g.rows && g.rows[id].klass == Some(klass)
  }

  function Inheriting(g: Gate): set<ReceiptId> {
    set id | id in g.rows && g.rows[id].item in g.items && g.items[g.rows[id].item].klass.None?
  }

  ghost predicate Reprofiled(a: Gate, b: Gate, klass: Name, profile: Option<Profile>, makeDefault: bool) {
    var mid := WithProfile(a, klass, profile, makeDefault);
    && b == mid.(stale := b.stale)
    && Fallen(a.stale, b.stale, a.inputs, OfClass(a, klass) + if mid.defaultClass != a.defaultClass then Inheriting(a) else {})
  }

  ghost predicate Redefaulted(a: Gate, b: Gate, defaultClass: Option<Name>) {
    && b == a.(defaultClass := defaultClass, stale := b.stale)
    && Fallen(a.stale, b.stale, a.inputs, if defaultClass != a.defaultClass then Inheriting(a) else {})
  }

  // bindings

  function Moved<T(==)>(was: Option<T>, now: Option<Option<T>>): bool {
    now.Some? && now.value != was
  }

  function MovedTo<T>(was: Option<T>, now: Option<Option<T>>): Option<T> {
    if now.Some? then now.value else was
  }

  function Rebound(b: Binding, c: Command): Binding
    requires c.Bind?
  {
    Binding(MovedTo(b.head, c.head), MovedTo(b.mf, c.mf), MovedTo(b.ruling, c.ruling))
  }

  function ChangedFields(b: Binding, c: Command): set<Field>
    requires c.Bind?
  {
    (if Moved(b.head, c.head) then {Head} else {}) + (if Moved(b.mf, c.mf) then {Mf} else {})
    + (if Moved(b.ruling, c.ruling) then {Ruling} else {})
  }

  function LeftBehind(g: Gate, c: Command): set<ReceiptId>
    requires c.Bind? && c.bindee in g.items
  {
    var was := g.items[c.bindee];
    set id | id in g.rows && g.rows[id].item == c.bindee
             && (BindingStale(g.rows[id].receipt, Rebound(was.binding, c), ChangedFields(was.binding, c)).Some?
                 || Moved(was.klass, c.newClass))
  }

  ghost predicate BoundTo(a: Gate, b: Gate, c: Command)
    requires c.Bind? && c.bindee in a.items
  {
    var was := a.items[c.bindee];
    && b == a.(items := a.items[c.bindee := ItemGate(MovedTo(was.klass, c.newClass), Rebound(was.binding, c))], stale := b.stale)
    && Fallen(a.stale, b.stale, a.inputs, LeftBehind(a, c))
  }

  /** One command: what it did, or nothing when it was refused. */
  ghost predicate Step(a: Gate, b: Gate, who: set<Who>, c: Command)
    requires Shaped(a)
  {
    match c
    case Post(item, r, claimed, bound, consumed) =>
      if MayPost(a, item, claimed, consumed) then Posted(a, b, who, item, r, bound, consumed) else b == a
    case Attach(item, by_, draft) =>
      if MayAttach(a, who, item, by_, draft) then Regranted(a, b, who, item, a.grants[item] + [Completed(a, item, by_, draft)])
      else b == a
    case Revoke(item, by_, tag, mentions) =>
      var grant := GrantOf(a, item, tag);
      if grant.Some? && (by_ == grant.value.grantor || by_ == Owner) && !grant.value.revoked then RevokedIn(a, b, item, tag, mentions)
      else b == a
    case Recheck(item, tag, check) =>
      var grant := GrantOf(a, item, tag);
      if grant.Some? && check != grant.value.check then Regranted(a, b, who, item, WithCheck(a.grants[item], tag, check)) else b == a
    case SetProfile(klass, profile, makeDefault) => Reprofiled(a, b, klass, profile, makeDefault)
    case SetDefault(defaultClass) => Redefaulted(a, b, defaultClass)
    case Bind(_, _, _, _, _) => if c.bindee in a.items then BoundTo(a, b, c) else b == a
    case Observe(id, moved) => b == a.(stale := b.stale) && Fallen(a.stale, b.stale, a.inputs, if moved then {id} else {})
  }
}
