/** Work items of a board and the rules that look at one item
 * (dispatch/items_rules.py).
 *
 * Texts are already reduced to one line and checked for length, and times are
 * already parsed: `Words` and `Time` stand for the results.
 */
module BoardRules {
  import opened Prelude

  datatype ItemNo = ItemNo(n: nat)
  datatype Pid = Owner | Session(name: string) | System(name: string)
  type Time = nat
  type Text = string

  datatype Status = Open | Active | Waiting | Blocked | BlockedOnOwner | Done | Dropped

  /** `CoHolder` is the role multi-holder items were migrated with. */
  datatype Role = OwnerRole | Contributor | Reviewer | Approver | CoHolder

  datatype Holder = Holder(pid: Pid, role: Option<Role>)

  datatype FlagKind = BlockerDropped | Suggested | PickOwner | OtherFlag(name: string)

  datatype Detail = NoDetail | DroppedBlockers(ns: set<ItemNo>) | Suggestion(to: Status, keyword: Text, poster: Pid)
                  | OtherDetail(text: Text)

  /** What a dismissed suggestion remembers: the item's status and head then. */
  datatype Dismissal = Dismissal(status: Status, head: Option<Text>)

  datatype Item = Item(
    status: Status,
    holders: seq<Holder>,
    blockedBy: set<ItemNo>,
    blockedOn: Option<Text>,
    checkBackAt: Option<Time>,
    etaAt: Option<Time>,
    waitingSetAt: Option<Time>,
    job: Option<Text>,
    actionableAt: Option<Time>,
    launchedAt: Option<Time>,
    touchedAt: Time,
    clockResetAt: Option<Time>,
    closedAt: Option<Time>,
    archivedAt: Option<Time>,
    linkArchivedAt: Option<Time>,
    gateHead: Option<Text>,
    dismissed: map<Status, Dismissal>,
    flags: map<FlagKind, Detail>)

  type Items = map<ItemNo, Item>

  datatype Settings = Settings(strict: bool, checkBackMax: nat)
  datatype Actor = Actor(pid: Pid, hasSession: bool)
  datatype Context = Context(settings: Settings, actor: Actor, now: Time)

  datatype Error =
    | NotFound | LinkArchived | InvalidField | InvalidStatus | StatusChanged
    | CheckBackTooFar | SelfBlocker | NoSuchBlocker(b: ItemNo) | ClosedBlocker(b: ItemNo)
    | WaitingNotAllowed | HolderRequired | TriggerRequired | CheckBackRequired
    | ReopenRequired | OwnerOnly | DecisionRequired
    | BlockersNeedBlocked | TextNeedsBlocked | EtaRequired | EtaNeedsStatus | JobNeedsActive | JobNeedsEta
    | OwnerRequired | OneOwner | CycleRefused
    | ItemClosed | NoHolders | NoSuggestion | SuggestionChanged | HasDependencies | StillOpen

  /** A text argument: explicit null, blank, or words. */
  datatype TextArg = Null | Blank | Words(text: Text)

  function Clean(a: TextArg): Option<Text> {
    match a
    case Words(t) => Some(t)
    case _ => None
  }

  /** A field of a write: left out, or set (possibly to nothing). */
  datatype Patch<+T> = Keep | Set(value: T)

  datatype Fields = Fields(
    status: Patch<Option<Status>>,        // Set(None): not one of the statuses
    blockedOn: Patch<TextArg>,
    checkBack: Patch<Option<Time>>,
    eta: Patch<Option<Time>>,
    job: Patch<TextArg>,
    blockedBy: Patch<seq<ItemNo>>)

  const NO_FIELDS := Fields(Keep, Keep, Keep, Keep, Keep, Keep)

  datatype Write = Write(
    fields: Fields,
    holders: Option<seq<Holder>>,         // Some: replaces the list
    add: seq<Holder>,
    remove: set<Pid>,
    owner: Option<Holder>,
    reopen: bool)

  function FieldWrite(fields: Fields): Write {
    Write(fields, None, [], {}, None, false)
  }

  datatype Mode = Creating | Editing | Answering

  predicate Closed(s: Status) {
    s == Done || s == Dropped
  }

  predicate Owned(s: Status) {
    s == Active || s == Waiting || s == Blocked
  }

  function Pids(holders: seq<Holder>): seq<Pid> {
    seq(|holders|, i requires 0 <= i < |holders| => holders[i].pid)
  }

  predicate Holds(holders: seq<Holder>, pid: Pid) {
    exists h :: h in holders && h.pid == pid
  }

  predicate HasOwner(holders: seq<Holder>) {
    exists h :: h in holders && h.role == Some(OwnerRole)
  }

  /** The first holder with the owner role. */
  function OwnerOf(holders: seq<Holder>): Option<Pid> {
    if holders == [] then None
    else if holders[0].role == Some(OwnerRole) then Some(holders[0].pid)
    else OwnerOf(holders[1..])
  }

  function Owners(holders: seq<Holder>): nat {
    if holders == [] then 0
    else (if holders[0].role == Some(OwnerRole) then 1 else 0) + Owners(holders[1..])
  }

  /** Some holder predates roles. */
  predicate Legacy(holders: seq<Holder>) {
    exists h :: h in holders && (h.role == None || h.role == Some(CoHolder))
  }

  predicate HasDroppedBlocker(items: Items, blockedBy: set<ItemNo>) {
    exists b :: b in blockedBy && b in items && items[b].status == Dropped
  }

  function DroppedAmong(items: Items, blockedBy: set<ItemNo>): set<ItemNo> {
    set b | b in blockedBy && b in items && items[b].status == Dropped
  }

  // ---- strict boards ----

  datatype Triage = WaitingItem | OpenItem | NoTrigger | NoCheckBack | CheckBackFar | JobWithoutEta

  /** The first way in which `it` misses what a strict board asks; None for a conforming
   *  or closed item. */
  function StrictViolation(it: Item, s: Settings, now: Time): Option<Triage> {
    if Closed(it.status) then None
    else if it.status == Waiting then Some(WaitingItem)
    else if it.status == Open then Some(OpenItem)
    else if it.status == Blocked && it.blockedBy == {} && it.blockedOn.None? then Some(NoTrigger)
    else if it.status == Blocked && it.blockedBy == {} && it.checkBackAt.None? then Some(NoCheckBack)
    else if it.status == Blocked && it.blockedBy == {} && it.checkBackAt.value > now + s.checkBackMax then Some(CheckBackFar)
    else if it.status == Active && it.job.Some? && it.etaAt.None? then Some(JobWithoutEta)
    else None
  }

  // ---- holders ----

  /** The first holder of each pid, in order. */
  function Dedupe(holders: seq<Holder>): seq<Holder> {
    if holders == [] then []
    else
      var before := Dedupe(holders[..|holders| - 1]);
      var last := holders[|holders| - 1];
      if Holds(before, last.pid) then before else before + [last]
  }

  function Without(holders: seq<Holder>, gone: set<Pid>): seq<Holder> {
    if holders == [] then []
    else (if holders[0].pid in gone then [] else [holders[0]]) + Without(holders[1..], gone)
  }

  /** A transfer leaves every other owner, and every migrated co-owner, a
   *  contributor. */
  function Demoted(holders: seq<Holder>): seq<Holder> {
    seq(|holders|, i requires 0 <= i < |holders| =>
      if holders[i].role in {Some(OwnerRole), Some(CoHolder), None}
      then holders[i].(role := Some(Contributor)) else holders[i])
  }

  /** The list with every gap in the roles filled, from left to right: `hasOwner` says
   *  whether ownership is still to be given away. A holder of `prev` may stay without a
   *  role, unless the whole list was `replaced`. */
  function WithRoles(holders: seq<Holder>, prev: seq<Holder>, replaced: bool, hasOwner: bool): seq<Holder> {
    if holders == [] then []
    else
      var h := holders[0];
      if h.role.Some? || (Holds(prev, h.pid) && !replaced)
      then [h] + WithRoles(holders[1..], prev, replaced, hasOwner)
      else [h.(role := Some(if hasOwner then Contributor else OwnerRole))]
           + WithRoles(holders[1..], prev, replaced, true)
  }

  /** Ownership passes to the last holder standing, when its owner has gone. */
  function WithSuccessor(holders: seq<Holder>, prevOwner: Option<Pid>): seq<Holder> {
    if prevOwner.Some? && |holders| == 1 && !HasOwner(holders) && !Legacy(holders)
    then [holders[0].(role := Some(OwnerRole))] else holders
  }

  function NextHolders(prev: seq<Holder>, w: Write, creating: bool): seq<Holder> {
    var merged := Without(Dedupe((if w.holders.Some? then w.holders.value else prev) + w.add), w.remove);
    var transferred :=
      if w.owner.None? then merged
      else [Holder(w.owner.value.pid, Some(OwnerRole))] + Demoted(Without(merged, {w.owner.value.pid}));
    WithSuccessor(
      WithRoles(transferred, if creating then [] else prev, w.holders.Some?, HasOwner(transferred)),
      OwnerOf(prev))
  }

  /** The refusal of a holder list whose owners are too few or too many for `status`;
   *  None while some holder on it predates roles. */
  function OwnerError(status: Status, holders: seq<Holder>): Option<Error> {
    if !Owned(status) || holders == [] || Legacy(holders) then None
    else if Owners(holders) == 0 then Some(OwnerRequired)
    else if Owners(holders) > 1 then Some(OneOwner)
    else None
  }

  // ---- fields ----

  function Patched(ctx: Context, it: Item, f: Fields): Result<Item, Error> {
    if f.status == Set(None) then Err(InvalidStatus)
    else if ctx.settings.strict && f.checkBack.Set? && f.checkBack.value.Some?
            && f.checkBack.value.value > ctx.now + ctx.settings.checkBackMax then Err(CheckBackTooFar)
    else Ok(it.(
      blockedOn := if f.blockedOn.Set? then Clean(f.blockedOn.value) else it.blockedOn,
      checkBackAt := if f.checkBack.Set? then f.checkBack.value else it.checkBackAt,
      job := if f.job.Set? then Clean(f.job.value) else it.job,
      etaAt := if f.eta.Set? then f.eta.value else it.etaAt,
      waitingSetAt := if !f.eta.Set? then it.waitingSetAt else if f.eta.value.Some? then Some(ctx.now) else None))
  }

  /** Blockers are other, live, open items of the board; the first that is not
   *  refuses the write. */
  function BlockerError(items: Items, n: ItemNo, wanted: seq<ItemNo>): Option<Error> {
    if wanted == [] then None
    else
      var b := wanted[0];
      if b == n then Some(SelfBlocker)
      else if b !in items || items[b].archivedAt.Some? then Some(NoSuchBlocker(b))
      else if Closed(items[b].status) then Some(ClosedBlocker(b))
      else BlockerError(items, n, wanted[1..])
  }

  predicate EtaGiven(f: Fields) {
    f.eta.Set? && f.eta.value.Some?
  }

  predicate JobGiven(f: Fields) {
    f.job.Set? && f.job.value != Null
  }

  function Explicit(f: Fields): Option<Status> {
    if f.status.Set? then f.status.value else None
  }

  /** The status a write without an explicit one leads to (`it` carries the new
   *  blockers and texts). */
  function DerivedStatus(strict: bool, it: Item, f: Fields, creating: bool, holdersChanged: bool, held: bool): Status {
    var s :=
      if creating then (if held then Active else Open)
      else if !holdersChanged || Closed(it.status) then it.status
      else if !held && it.status == Active then (if strict then Active else Open)
      else if held && it.status == Open then Active
      else it.status;
    if Closed(s) then s
    else if f.blockedBy.Set? && it.blockedBy != {} then Blocked
    else if f.blockedOn.Set? && it.blockedOn.Some? && s != BlockedOnOwner then Blocked
    else if EtaGiven(f) then (if strict then Active else Waiting)
    else if f.blockedBy.Set? && it.blockedBy == {} && s == Blocked && it.blockedOn.None?
      then (if held || strict then Active else Open)
    else s
  }

  function NextStatus(ctx: Context, it: Item, f: Fields, creating: bool, holdersChanged: bool, held: bool): Status {
    var s := if Explicit(f).Some? then Explicit(f).value
             else DerivedStatus(ctx.settings.strict, it, f, creating, holdersChanged, held);
    // What Owner adds without a holder would be open, which a strict board has no place for.
    if ctx.settings.strict && creating && s == Open && !held && ctx.actor.pid == Owner then Active else s
  }

  /** The refusal of a write that takes an item somewhere `StrictViolation` would object
   *  to; one that leaves it there already is let through. */
  function StrictError(ctx: Context, it: Item, f: Fields, status: Status, prev: Option<Status>, creating: bool,
                       held: bool): Option<Error>
  {
    var entering := creating || Some(status) != prev;
    var unheld := status == Open || (creating && status == Active && !held && ctx.actor.pid != Owner);
    var touchesBlock := f.blockedBy.Set? || f.blockedOn.Set? || f.checkBack.Set?;
    if status == Waiting && (entering || Explicit(f) == Some(Waiting)) then Some(WaitingNotAllowed)
    else if unheld && (entering || Explicit(f) == Some(Open)) then Some(HolderRequired)
    else if status == Blocked && (entering || touchesBlock) && it.blockedBy == {} then
      if it.blockedOn.None? then Some(TriggerRequired)
      else if it.checkBackAt.None? then Some(CheckBackRequired)
      else None
    else None
  }

  /** Who may reopen done work, and who may enter and leave blocked_on_owner. */
  function AuthorityError(ctx: Context, it: Item, prev: Option<Status>, wasHeldBy: seq<Holder>, status: Status,
                          reopen: bool, answered: bool): Option<Error>
  {
    var isOwner := ctx.actor.pid == Owner;
    if prev == Some(Done) && status != Done && !reopen && !isOwner then Some(ReopenRequired)
    else if status == BlockedOnOwner && prev != Some(BlockedOnOwner) && !isOwner
            && !Holds(wasHeldBy, ctx.actor.pid) && !Holds(it.holders, ctx.actor.pid) then Some(OwnerOnly)
    else if status == BlockedOnOwner && prev != Some(BlockedOnOwner) && !isOwner && it.blockedOn.None?
      then Some(DecisionRequired)
    else if prev == Some(BlockedOnOwner) && status != BlockedOnOwner && !isOwner && !answered then Some(OwnerOnly)
    else None
  }

  /** Blockers, text and check-back under the new status: kept, cleared, or the refusal
   *  when this very write set them. */
  function SettledBlock(it: Item, f: Fields, status: Status): Result<Item, Error> {
    if status == Blocked then Ok(it)
    else if f.blockedBy.Set? && it.blockedBy != {} then Err(BlockersNeedBlocked)
    else if f.blockedOn.Set? && it.blockedOn.Some? && status != BlockedOnOwner then Err(TextNeedsBlocked)
    else Ok(it.(blockedBy := {}, checkBackAt := None,
                blockedOn := if status == BlockedOnOwner then it.blockedOn else None))
  }

  /** Likewise the ETA and the time it was set. */
  function SettledEta(it: Item, f: Fields, status: Status, prev: Option<Status>): Result<Item, Error> {
    if status == Waiting then
      if !EtaGiven(f) && (prev != Some(Waiting) || it.etaAt.None?) then Err(EtaRequired) else Ok(it)
    else if status == Active && it.etaAt.Some? && (EtaGiven(f) || prev == Some(Active)) then Ok(it)
    else if it.etaAt.Some? || it.waitingSetAt.Some? then
      if EtaGiven(f) then Err(EtaNeedsStatus) else Ok(it.(etaAt := None, waitingSetAt := None))
    else Ok(it)
  }

  /** Likewise the job, which a strict board takes only together with an ETA. */
  function SettledJob(strict: bool, it: Item, f: Fields, status: Status): Result<Item, Error> {
    if status != Active then
      if JobGiven(f) then Err(JobNeedsActive) else Ok(it.(job := None))
    else if strict && it.job.Some? && it.etaAt.None? then Err(JobNeedsEta)
    else Ok(it)
  }

  /** The clocks a write moves, and the close and reopen marks. */
  function Stamped(ctx: Context, it: Item, status: Status, prev: Option<Status>, holdersChanged: bool): Item {
    var wasClosed := prev.Some? && Closed(prev.value);
    it.(
      status := status,
      actionableAt := if status == Active && (prev != Some(Active) || holdersChanged) then Some(ctx.now) else it.actionableAt,
      launchedAt := if Holds(it.holders, ctx.actor.pid) then Some(ctx.now) else it.launchedAt,
      touchedAt := ctx.now,
      closedAt := if Closed(status) && !wasClosed then Some(ctx.now)
                  else if !Closed(status) && wasClosed then None else it.closedAt,
      archivedAt := if !Closed(status) && wasClosed then None else it.archivedAt)
  }

  function Settled(strict: bool, it: Item, f: Fields, status: Status, prev: Option<Status>): Result<Item, Error> {
    var it1 :- SettledBlock(it, f, status);
    var it2 :- SettledEta(it1, f, status, prev);
    SettledJob(strict, it2, f, status)
  }

  /** The item after a write, before anything that concerns its flags or other
   *  items. `holdersChanged` and `depsChanged` are what the write records. */
  datatype Draft = Draft(it: Item, holdersChanged: bool, depsChanged: bool)

  /** The written fields, holders and blockers, before the rules look at them. */
  function Proposed(ctx: Context, items: Items, n: ItemNo, w: Write, creating: bool): Result<Item, Error>
    requires n in items
  {
    var patched :- Patched(ctx, items[n], w.fields);
    var error := if w.fields.blockedBy.Set? then BlockerError(items, n, w.fields.blockedBy.value) else None;
    if error.Some? then Err(error.value)
    else Ok(patched.(
      holders := NextHolders(items[n].holders, w, creating),
      blockedBy := if w.fields.blockedBy.Set? then ToSet(w.fields.blockedBy.value) else items[n].blockedBy))
  }

  /** What refuses a proposed item before it is settled. */
  function Refusal(ctx: Context, it: Item, was: Item, f: Fields, status: Status, prev: Option<Status>, mode: Mode,
                   reopen: bool): Option<Error>
  {
    var strict := if ctx.settings.strict then StrictError(ctx, it, f, status, prev, mode.Creating?, it.holders != []) else None;
    if strict.Some? then strict
    else AuthorityError(ctx, it, prev, if mode.Creating? then [] else was.holders, status, reopen, mode.Answering?)
  }

  function Drafted(ctx: Context, items: Items, n: ItemNo, w: Write, mode: Mode): Result<Draft, Error>
    requires n in items
  {
    var was := items[n];
    var prev := if mode.Creating? then None else Some(was.status);
    if was.linkArchivedAt.Some? && !mode.Creating? then Err(LinkArchived)
    else
      var it :- Proposed(ctx, items, n, w, mode.Creating?);
      var holdersChanged := mode.Creating? || it.holders != was.holders;
      var status := NextStatus(ctx, it, w.fields, mode.Creating?, holdersChanged, it.holders != []);
      var refusal := Refusal(ctx, it, was, w.fields, status, prev, mode, w.reopen);
      if refusal.Some? then Err(refusal.value)
      else
        var settled :- Settled(ctx.settings.strict, it, w.fields, status, prev);
        if OwnerError(status, it.holders).Some? then Err(OwnerError(status, it.holders).value)
        else Ok(Draft(Stamped(ctx, settled, status, prev, holdersChanged), holdersChanged,
                      it.blockedBy != was.blockedBy || settled.blockedBy != was.blockedBy))
  }
}
