/** A grant that a receipt neither cites nor names has no part in its verdict, so
 * revoking it changes nothing but notes.
 */
module GateRevocation {
  import opened Prelude
  import opened GateRules
  import opened GateVerdicts

  /** The reasons other than notes. */
  function Loud(reasons: seq<Reason>): seq<Reason> {
    if reasons == [] then [] else (if reasons[0].level == Note then [] else [reasons[0]]) + Loud(reasons[1..])
  }

  /** The same word, and the same reasons apart from notes. */
  ghost predicate SameVerdict(a: Verdict, b: Verdict) {
    a.word == b.word && Loud(a.reasons) == Loud(b.reasons)
  }

  ghost predicate Unnamed(reasons: seq<Reason>, tag: Label) {
    forall x :: x in Loud(reasons) ==> tag !in Names(x.why)
  }

  lemma {:induction false} LoudTwo(a: seq<Reason>, b: seq<Reason>)
    ensures Loud(a + b) == Loud(a) + Loud(b)
  {
    if a == [] {
      assert a + b == b;
    } else {
      assert (a + b)[0] == a[0] && (a + b)[1..] == a[1..] + b;
      LoudTwo(a[1..], b);
    }
  }

  lemma {:induction false} NotesAreQuiet(reasons: seq<Reason>)
    requires forall x :: x in reasons ==> x.level == Note
    ensures Loud(reasons) == []
  {
    if reasons != [] {
      NotesAreQuiet(reasons[1..]);
    }
  }

  lemma {:induction false} LoudMember(reasons: seq<Reason>, x: Reason)
    ensures x in Loud(reasons) <==> x in reasons && x.level != Note
  {
    if reasons != [] {
      LoudMember(reasons[1..], x);
      assert x in reasons <==> x == reasons[0] || x in reasons[1..];
    }
  }

  lemma {:induction false} LoudLevel(reasons: seq<Reason>, level: Level)
    requires level != Note
    ensures OfLevel(Loud(reasons), level) == OfLevel(reasons, level)
  {
    if reasons != [] {
      LoudLevel(reasons[1..], level);
      var rest := Loud(reasons[1..]);
      assert ([reasons[0]] + rest)[0] == reasons[0] && ([reasons[0]] + rest)[1..] == rest;
      assert [] + rest == rest;
    }
  }

  lemma {:induction false} OneLevel(reasons: seq<Reason>, level: Level)
    ensures forall x :: x in OfLevel(reasons, level) ==> x.level == level
  {
    if reasons != [] {
      OneLevel(reasons[1..], level);
    }
  }

  lemma {:induction false} LevelIsLoud(reasons: seq<Reason>, level: Level)
    requires level != Note
    ensures Loud(OfLevel(reasons, level)) == OfLevel(reasons, level)
  {
    if reasons != [] {
      LevelIsLoud(reasons[1..], level);
      LoudTwo(if reasons[0].level == level then [reasons[0]] else [], OfLevel(reasons[1..], level));
      assert Loud([reasons[0]]) == if reasons[0].level == Note then [] else [reasons[0]];
    }
  }

  /** A verdict without its notes is made of the loud reasons alone. */
  lemma LoudSorted(reasons: seq<Reason>)
    ensures Loud(Sorted(reasons)) == OfLevel(Loud(reasons), Fail) + OfLevel(Loud(reasons), Void) + OfLevel(Loud(reasons), Incomplete)
                                     + OfLevel(Loud(reasons), Waived)
  {
    hide OfLevel, Loud;
    var a, b, c, d, e := OfLevel(reasons, Fail), OfLevel(reasons, Void), OfLevel(reasons, Incomplete), OfLevel(reasons, Waived),
                         OfLevel(reasons, Note);
    LoudTwo(a, b);
    LoudTwo(a + b, c);
    LoudTwo(a + b + c, d);
    LoudTwo(a + b + c + d, e);
    LevelIsLoud(reasons, Fail);
    LevelIsLoud(reasons, Void);
    LevelIsLoud(reasons, Incomplete);
    LevelIsLoud(reasons, Waived);
    OneLevel(reasons, Note);
    NotesAreQuiet(e);
    LoudLevel(reasons, Fail);
    LoudLevel(reasons, Void);
    LoudLevel(reasons, Incomplete);
    LoudLevel(reasons, Waived);
  }

  lemma LoudHasLevel(reasons: seq<Reason>, level: Level)
    requires level != Note
    ensures HasLevel(Loud(reasons), level) <==> HasLevel(reasons, level)
  {
    forall x ensures x in Loud(reasons) <==> x in reasons && x.level != Note {
      LoudMember(reasons, x);
    }
  }

  lemma SameLoudSameVerdict(a: seq<Reason>, b: seq<Reason>)
    requires Loud(a) == Loud(b)
    ensures SameVerdict(Combine(a), Combine(b))
  {
    hide Loud, OfLevel, Sorted;
    LoudSorted(a);
    LoudSorted(b);
    forall level: Level | level != Note ensures HasLevel(a, level) <==> HasLevel(b, level) {
      LoudHasLevel(a, level);
      LoudHasLevel(b, level);
    }
  }

  /** Sorting drops no reason. */
  lemma {:induction false} SortedKeeps(reasons: seq<Reason>, x: Reason)
    ensures x in Sorted(reasons) <==> x in reasons
  {
    forall level: Level ensures x in OfLevel(reasons, level) <==> x in reasons && x.level == level {
      OfLevelMember(reasons, level, x);
    }
    hide OfLevel;
  }

  lemma {:induction false} OfLevelMember(reasons: seq<Reason>, level: Level, x: Reason)
    ensures x in OfLevel(reasons, level) <==> x in reasons && x.level == level
  {
    if reasons != [] {
      OfLevelMember(reasons[1..], level, x);
      assert x in reasons <==> x == reasons[0] || x in reasons[1..];
    }
  }

  lemma UnnamedSorted(reasons: seq<Reason>, tag: Label)
    requires Unnamed(Sorted(reasons), tag)
    ensures Unnamed(reasons, tag)
  {
    hide Loud, Sorted;
    forall x | x in Loud(reasons) ensures tag !in Names(x.why) {
      LoudMember(reasons, x);
      SortedKeeps(reasons, x);
      LoudMember(Sorted(reasons), x);
    }
  }

  lemma UnnamedParts(a: seq<Reason>, b: seq<Reason>, tag: Label)
    requires Unnamed(a + b, tag)
    ensures Unnamed(a, tag) && Unnamed(b, tag)
  {
    LoudTwo(a, b);
    assert forall x :: x in Loud(a) || x in Loud(b) ==> x in Loud(a) + Loud(b);
  }

  // ---- revoking one grant ----

  /** `after` is `before` revoked; a verified selection names its nodes. */
  ghost predicate RevokedFrom(before: Graded, after: Graded) {
    && after.g == before.g.(revoked := true) && Revoked in after.problems
    && (before.problems == {} && before.g.kind == Selection ==> before.g.nodes != [])
  }

  lemma RevokedCoversNothing(x: Graded, r: Receipt, step: Name, kind: GrantKind)
    requires Revoked in x.problems
    ensures Covering([x], r, step, kind) == []
  {
    assert [x][1..] == [];
    assert Revoked in Against(x, r);
  }

  lemma CoveringOne(x: Graded, r: Receipt, step: Name, kind: GrantKind)
    ensures Covering([x], r, step, kind) == if Concerns(x.g, r, step, kind) && Against(x, r) == {} then [x.g] else []
  {
    assert [x][1..] == [];
  }

  /** The covering grants before and after: the revoked one is gone. */
  lemma CoveringRevoked(a: seq<Graded>, x: Graded, x': Graded, b: seq<Graded>, r: Receipt, step: Name, kind: GrantKind)
    requires Revoked in x'.problems
    ensures Covering(a + [x'] + b, r, step, kind) == Covering(a, r, step, kind) + Covering(b, r, step, kind)
    ensures Covering(a + [x] + b, r, step, kind)
         == Covering(a, r, step, kind) + (if Concerns(x.g, r, step, kind) && Against(x, r) == {} then [x.g] else [])
            + Covering(b, r, step, kind)
  {
    hide Covering, Concerns, Against;
    CoveringThree(a, x, b, r, step, kind);
    CoveringThree(a, x', b, r, step, kind);
    CoveringOne(x, r, step, kind);
    RevokedCoversNothing(x', r, step, kind);
  }

  lemma {:induction false} MatchingTwo(a: seq<Grant>, b: seq<Grant>, digest: Digest)
    ensures MatchingVariance(a + b, digest) == if MatchingVariance(a, digest).Some? then MatchingVariance(a, digest)
                                               else MatchingVariance(b, digest)
  {
    if a == [] {
      assert a + b == b;
    } else {
      assert (a + b)[0] == a[0] && (a + b)[1..] == a[1..] + b;
      MatchingTwo(a[1..], b, digest);
    }
  }

  lemma MatchingWithout(a: seq<Grant>, g: Grant, b: seq<Grant>, digest: Digest)
    requires MatchingVariance(a + [g] + b, digest) != Some(g)
    ensures MatchingVariance(a + b, digest) == MatchingVariance(a + [g] + b, digest)
  {
    MatchingTwo(a + [g], b, digest);
    MatchingTwo(a, [g], digest);
    MatchingTwo(a, b, digest);
    assert [g][1..] == [];
  }

  /** An uncited grant is no waiver of the receipt. */
  lemma UncitedWaivers(a: seq<Graded>, x: Graded, x': Graded, b: seq<Graded>, r: Receipt, step: Name)
    requires Revoked in x'.problems && x.g.tag !in r.waivers
    ensures Covering(a + [x'] + b, r, step, Waiver) == Covering(a + [x] + b, r, step, Waiver)
  {
    CoveringRevoked(a, x, x', b, r, step, Waiver);
    hide Covering;
    assert Covering(a, r, step, Waiver) + [] + Covering(b, r, step, Waiver) == Covering(a, r, step, Waiver) + Covering(b, r, step, Waiver);
  }

  /** The variance a step relies on is named by it. */
  lemma UnnamedVariance(sp: StepProfile, st: StepRun, a: seq<Graded>, x: Graded, x': Graded, b: seq<Graded>, r: Receipt, p: Profile)
    requires Revoked in x'.problems && Unnamed(GrantReasons(sp, st, r, p, a + [x] + b), x.g.tag)
    requires Weakenings(sp, st, r, p) != {}
    ensures MatchingVariance(Covering(a + [x'] + b, r, sp.name, Variance), DigestOf(st.cmd))
         == MatchingVariance(Covering(a + [x] + b, r, sp.name, Variance), DigestOf(st.cmd))
  {
    hide Covering, Concerns, Against, Weakenings, DigestOf;
    var digest := DigestOf(st.cmd);
    var all := Covering(a + [x] + b, r, sp.name, Variance);
    var m := MatchingVariance(all, digest);
    CoveringRevoked(a, x, x', b, r, sp.name, Variance);
    var ca, cb := Covering(a, r, sp.name, Variance), Covering(b, r, sp.name, Variance);
    if m == Some(x.g) {
      VarianceIsNamed(sp, st, r, p, a + [x] + b);
      assert false;
    }
    if Concerns(x.g, r, sp.name, Variance) && Against(x, r) == {} {
      MatchingWithout(ca, x.g, cb, digest);
    } else {
      assert ca + [] + cb == ca + cb;
    }
  }

  lemma VarianceIsNamed(sp: StepProfile, st: StepRun, r: Receipt, p: Profile, grants: seq<Graded>)
    requires Weakenings(sp, st, r, p) != {}
    requires MatchingVariance(Covering(grants, r, sp.name, Variance), DigestOf(st.cmd)).Some?
    ensures var tag := MatchingVariance(Covering(grants, r, sp.name, Variance), DigestOf(st.cmd)).value.tag;
            Reason(Waived, VarianceBy(sp.name, tag)) in Loud(GrantReasons(sp, st, r, p, grants))
  {
    hide Covering, Weakenings, DigestOf;
    var tag := MatchingVariance(Covering(grants, r, sp.name, Variance), DigestOf(st.cmd)).value.tag;
    assert Reason(Waived, VarianceBy(sp.name, tag)) in GrantReasons(sp, st, r, p, grants);
    LoudMember(GrantReasons(sp, st, r, p, grants), Reason(Waived, VarianceBy(sp.name, tag)));
  }

  lemma {:induction false} LabelsMember(grants: seq<Grant>, g: Grant)
    requires g in grants
    ensures g.tag in Labels(grants)
  {
    if grants[0] != g {
      LabelsMember(grants[1..], g);
    }
  }

  /** A selection a pytest step uses is named by it. */
  lemma UnnamedSelection(sp: StepProfile, st: StepRun, a: seq<Graded>, x: Graded, x': Graded, b: seq<Graded>, r: Receipt, p: Profile)
    requires RevokedFrom(x, x') && sp.kind == Pytest && Unnamed(GrantReasons(sp, st, r, p, a + [x] + b), x.g.tag)
    ensures Covering(a + [x'] + b, r, sp.name, Selection) == Covering(a + [x] + b, r, sp.name, Selection)
  {
    hide Covering, Weakenings, DigestOf;
    var all := Covering(a + [x] + b, r, sp.name, Selection);
    CoveringRevoked(a, x, x', b, r, sp.name, Selection);
    if Concerns(x.g, r, sp.name, Selection) && Against(x, r) == {} {
      assert x.g in all;
      LabelsMember(all, x.g);
      assert x.problems == {};
      NodesOfMember(all, x.g.nodes[0]);
      var named := Reason(Waived, NodesBy(sp.name, Labels(all)));
      assert named in GrantReasons(sp, st, r, p, a + [x] + b);
      LoudMember(GrantReasons(sp, st, r, p, a + [x] + b), named);
      assert false;
    }
    assert Covering(a, r, sp.name, Selection) + [] + Covering(b, r, sp.name, Selection)
        == Covering(a, r, sp.name, Selection) + Covering(b, r, sp.name, Selection);
  }

  lemma GrantReasonsSame(sp: StepProfile, st: StepRun, a: seq<Graded>, x: Graded, x': Graded, b: seq<Graded>, r: Receipt, p: Profile)
    requires RevokedFrom(x, x') && Unnamed(GrantReasons(sp, st, r, p, a + [x] + b), x.g.tag)
    ensures GrantReasons(sp, st, r, p, a + [x'] + b) == GrantReasons(sp, st, r, p, a + [x] + b)
  {
    hide Covering, Weakenings, DigestOf, MatchingVariance, Unnamed, RevokedFrom, NodesOf;
    assert Revoked in x'.problems by {
      RevokedHeld(x, x');
    }
    if sp.kind == Pytest {
      UnnamedSelection(sp, st, a, x, x', b, r, p);
    }
    if Weakenings(sp, st, r, p) != {} {
      UnnamedVariance(sp, st, a, x, x', b, r, p);
    }
  }

  lemma RevokedHeld(x: Graded, x': Graded)
    requires RevokedFrom(x, x')
    ensures Revoked in x'.problems
  {
  }

  lemma CommandReasonsSame(sp: StepProfile, st: StepRun, a: seq<Graded>, x: Graded, x': Graded, b: seq<Graded>, r: Receipt, p: Profile)
    requires Revoked in x'.problems && Unnamed(GrantReasons(sp, st, r, p, a + [x] + b), x.g.tag)
    ensures Loud(CommandReasons(sp, st, r, p, a + [x'] + b)) == Loud(CommandReasons(sp, st, r, p, a + [x] + b))
  {
    hide Covering, Weakenings, DigestOf, MatchingVariance, Unnamed, CoverNotes, Loud;
    var weak := Weakenings(sp, st, r, p);
    if weak != {} {
      UnnamedVariance(sp, st, a, x, x', b, r, p);
      var notes, notes' := Noting(CoverNotes(a + [x] + b, r, sp.name, Variance)), Noting(CoverNotes(a + [x'] + b, r, sp.name, Variance));
      NotingQuiet(CoverNotes(a + [x] + b, r, sp.name, Variance));
      NotingQuiet(CoverNotes(a + [x'] + b, r, sp.name, Variance));
      NotesAreQuiet(notes);
      NotesAreQuiet(notes');
      LoudTwo(One(Fail, Weakened(sp.name, weak)), notes);
      LoudTwo(One(Fail, Weakened(sp.name, weak)), notes');
    }
  }

  lemma RunReasonsSame(sp: StepProfile, st: StepRun, a: seq<Graded>, x: Graded, x': Graded, b: seq<Graded>, r: Receipt, p: Profile,
                       covered: set<NodeId>)
    requires RevokedFrom(x, x') && Unnamed(GrantReasons(sp, st, r, p, a + [x] + b), x.g.tag)
    ensures Loud(RunReasons(sp, st, r, p, a + [x'] + b, covered)) == Loud(RunReasons(sp, st, r, p, a + [x] + b, covered))
  {
    hide Covering, CommandReasons, Unnamed, Loud, NodeReasons, PytestReasons, SimpleReasons, GrantReasons, NodesOf, RevokedFrom;
    RevokedHeld(x, x');
    CommandReasonsSame(sp, st, a, x, x', b, r, p);
    var c, c' := CommandReasons(sp, st, r, p, a + [x] + b), CommandReasons(sp, st, r, p, a + [x'] + b);
    var u, d, e: seq<Reason> := [], [], SimpleReasons(sp, st);
    if sp.kind == Pytest {
      UnnamedSelection(sp, st, a, x, x', b, r, p);
      var selected := NodesOf(Covering(a + [x] + b, r, sp.name, Selection));
      u, d, e := NodeReasons(sp, st, selected, covered).0, NodeReasons(sp, st, selected, covered).1, PytestReasons(sp, st, r, covered);
    }
    FourLoud(u, c, d, e);
    FourLoud(u, c', d, e);
  }

  lemma FourLoud(a: seq<Reason>, b: seq<Reason>, c: seq<Reason>, d: seq<Reason>)
    ensures Loud(a + b + c + d) == Loud(a) + Loud(b) + Loud(c) + Loud(d)
  {
    hide Loud;
    LoudTwo(a, b);
    LoudTwo(a + b, c);
    LoudTwo(a + b + c, d);
  }

  lemma EvidenceSame(sp: StepProfile, st: Option<StepRun>, a: seq<Graded>, x: Graded, x': Graded, b: seq<Graded>, r: Receipt, p: Profile,
                     covered: set<NodeId>)
    requires RevokedFrom(x, x')
    requires st.Some? && st.value.state == Ran ==> Unnamed(GrantReasons(sp, st.value, r, p, a + [x] + b), x.g.tag)
    ensures Loud(EvidenceReasons(sp, st, r, p, a + [x'] + b, covered)) == Loud(EvidenceReasons(sp, st, r, p, a + [x] + b, covered))
  {
    hide RunReasons, Loud, RevokedFrom, Unnamed, GrantReasons;
    if st.Some? && st.value.state == Ran {
      RunReasonsSame(sp, st.value, a, x, x', b, r, p, covered);
    }
  }

  lemma StepSame(sp: StepProfile, a: seq<Graded>, x: Graded, x': Graded, b: seq<Graded>, r: Receipt, p: Profile)
    requires RevokedFrom(x, x') && x.g.tag !in r.waivers && Unnamed(StepReasons(sp, r, p, a + [x] + b), x.g.tag)
    ensures Loud(StepReasons(sp, r, p, a + [x'] + b)) == Loud(StepReasons(sp, r, p, a + [x] + b))
  {
    hide EvidenceReasons, GrantReasons, Loud, Unnamed, Covering, CoverNotes, RunNamed, NodesOf, WholeWaiver, RevokedFrom;
    RevokedHeld(x, x');
    UncitedWaivers(a, x, x', b, r, sp.name);
    var g, g' := a + [x] + b, a + [x'] + b;
    var waivers := Covering(g, r, sp.name, Waiver);
    if WholeWaiver(waivers).None? {
      var st := RunNamed(r.steps, sp.name);
      var none: seq<Reason> := [];
      var ran := st.Some? && st.value.state == Ran;
      var said := if ran then GrantReasons(sp, st.value, r, p, g) else none;
      var said' := if ran then GrantReasons(sp, st.value, r, p, g') else none;
      var e, e' := EvidenceReasons(sp, st, r, p, g, NodesOf(waivers)), EvidenceReasons(sp, st, r, p, g', NodesOf(waivers));
      var rest := if !sp.required then AsNotes(e) else e + (if e == [] then none else Noting(CoverNotes(g, r, sp.name, Waiver)));
      var rest' := if !sp.required then AsNotes(e') else e' + (if e' == [] then none else Noting(CoverNotes(g', r, sp.name, Waiver)));
      assert StepReasons(sp, r, p, g) == said + rest && StepReasons(sp, r, p, g') == said' + rest';
      UnnamedParts(said, rest, x.g.tag);
      if ran {
        GrantReasonsSame(sp, st.value, a, x, x', b, r, p);
      }
      EvidenceSame(sp, st, a, x, x', b, r, p, NodesOf(waivers));
      QuietTail(sp.required, e, CoverNotes(g, r, sp.name, Waiver));
      QuietTail(sp.required, e', CoverNotes(g', r, sp.name, Waiver));
      LoudTwo(said, rest);
      LoudTwo(said', rest');
    }
  }

  lemma QuietTail(required: bool, e: seq<Reason>, notes: seq<Why>)
    ensures var none: seq<Reason> := [];
            Loud(if !required then AsNotes(e) else e + (if e == [] then none else Noting(notes))) == if required then Loud(e) else none
  {
    AsNotesQuiet(e);
    NotesAreQuiet(AsNotes(e));
    NotingQuiet(notes);
    NotesAreQuiet(Noting(notes));
    LoudTwo(e, Noting(notes));
    assert e + [] == e;
  }

  lemma {:induction false} StepsSame(steps: seq<StepProfile>, a: seq<Graded>, x: Graded, x': Graded, b: seq<Graded>, r: Receipt, p: Profile)
    requires RevokedFrom(x, x') && x.g.tag !in r.waivers && Unnamed(AllStepReasons(steps, r, p, a + [x] + b), x.g.tag)
    ensures Loud(AllStepReasons(steps, r, p, a + [x'] + b)) == Loud(AllStepReasons(steps, r, p, a + [x] + b))
  {
    hide StepReasons, Loud, Unnamed, RevokedFrom;
    if steps != [] {
      var g, g' := a + [x] + b, a + [x'] + b;
      UnnamedParts(StepReasons(steps[0], r, p, g), AllStepReasons(steps[1..], r, p, g), x.g.tag);
      StepSame(steps[0], a, x, x', b, r, p);
      StepsSame(steps[1..], a, x, x', b, r, p);
      LoudTwo(StepReasons(steps[0], r, p, g), AllStepReasons(steps[1..], r, p, g));
      LoudTwo(StepReasons(steps[0], r, p, g'), AllStepReasons(steps[1..], r, p, g'));
    }
  }

  /** Revoking a grant that the receipt does not cite and that no reason (but for
   *  notes) of its verdict names leaves the verdict as it is, notes aside. */
  lemma UnnamedGrantIrrelevant(r: Receipt, p: Option<Profile>, a: seq<Graded>, x: Graded, x': Graded, b: seq<Graded>)
    requires RevokedFrom(x, x') && x.g.tag !in r.waivers
    requires Unnamed(Evaluate(r, p, a + [x] + b).reasons, x.g.tag)
    ensures SameVerdict(Evaluate(r, p, a + [x'] + b), Evaluate(r, p, a + [x] + b))
  {
    hide Loud, Unnamed, RevokedFrom, AllStepReasons, IdentityReasons, InputReasons, SameVerdict, Sorted;
    if p.Some? {
      var g, g' := a + [x] + b, a + [x'] + b;
      var head, tail := IdentityReasons(r, p.value), InputReasons(p.value.inputs, r, p.value);
      var s, s' := AllStepReasons(p.value.steps, r, p.value, g), AllStepReasons(p.value.steps, r, p.value, g');
      UnnamedSorted(head + s + tail, x.g.tag);
      UnnamedParts(head + s, tail, x.g.tag);
      UnnamedParts(head, s, x.g.tag);
      StepsSame(p.value.steps, a, x, x', b, r, p.value);
      LoudTwo(head + s, tail);
      LoudTwo(head + s', tail);
      LoudTwo(head, s);
      LoudTwo(head, s');
      SameLoudSameVerdict(head + s' + tail, head + s + tail);
    } else {
      SameLoudSameVerdict(One(Incomplete, NoProfile), One(Incomplete, NoProfile));
    }
  }
}
