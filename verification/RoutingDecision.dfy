/** A routing decision and the validator that re-checks it (packages/router/src/routing-decision.ts). */
module RoutingDecision {
  import opened Prelude
  import opened CandidateId
  import opened Ordering
  import opened RoutingModel
  import opened Scoring

  /** `RoutingCandidateIdentity`. */
  datatype Who = Who(id: string, identity: Identity)

  datatype Eligible = Eligible(who: Who, score: Breakdown, reasons: seq<Reason>, selected: bool)

  datatype Rejected = Rejected(who: Who, reasons: seq<Reason>)

  datatype Snapshot = Snapshot(id: string, health: Health)

  datatype Decision = Decision(
    meta: string,
    hasWinner: bool,
    selected: Option<Who>,
    eligible: seq<Eligible>,
    rejected: seq<Rejected>,
    reasons: seq<Reason>,
    snapshots: seq<Snapshot>,
    fallbackAllowed: bool,
    maxFallbacks: nat)

  function EligibleID(e: Eligible): string { e.who.id }

  function RejectedID(r: Rejected): string { r.who.id }

  function SnapshotID(s: Snapshot): string { s.id }

  /** The IDs of all candidates of a decision, eligible first. */
  function DecisionIDs(d: Decision): seq<string> {
    Map(EligibleID, d.eligible) + Map(RejectedID, d.rejected)
  }

  function SnapshotIDs(d: Decision): seq<string> {
    Map(SnapshotID, d.snapshots)
  }

  // ---------------------------------------------------------------------------------------------
  // What the schema demands of the parts

  ghost predicate ValidWho(w: Who) {
    ValidIdentity(w.identity) && w.id == CandidateID(w.identity)
  }

  ghost predicate ValidReasons(rs: seq<Reason>) {
    rs != [] && Unique(rs)
  }

  ghost predicate ValidParts(d: Decision) {
    && (forall i :: 0 <= i < |d.eligible| ==>
          ValidWho(d.eligible[i].who) && ValidBreakdown(d.eligible[i].score) && ValidReasons(d.eligible[i].reasons))
    && (forall i :: 0 <= i < |d.rejected| ==> ValidWho(d.rejected[i].who) && ValidReasons(d.rejected[i].reasons))
    && (d.selected.Some? ==> ValidWho(d.selected.value))
    && ValidReasons(d.reasons)
    && |d.eligible| <= 64 && |d.rejected| <= 64 && 1 <= |d.snapshots| <= 64
    && d.maxFallbacks <= 1 && d.fallbackAllowed == (d.maxFallbacks == 1)
  }

  // ---------------------------------------------------------------------------------------------
  // What it demands across fields

  ghost predicate UniqueIDs(ids: seq<string>) {
    forall id :: multiset(ids)[id] <= 1
  }

  predicate EligibleBefore(a: Eligible, b: Eligible) {
    Outranks(a.who.id, a.score, b.who.id, b.score)
  }

  predicate TopTie(es: seq<Eligible>) {
    |es| > 1 && ExactTie(es[0].score, es[1].score)
  }

  /** The one verdict on its rank that the explanation of position `i` must give. */
  function Verdict(es: seq<Eligible>, i: nat): Reason
    requires i < |es|
  {
    if i == 0 then (if TopTie(es) then StableTieBreak else SelectedHighestScore)
    else if TopTie(es) && ExactTie(es[0].score, es[i].score) then StableTieBreak
    else LowerScore
  }

  function RankReasons(rs: seq<Reason>): seq<Reason> {
    if rs == [] then [] else (if RankReason(rs[0]) then [rs[0]] else []) + RankReasons(rs[1..])
  }

  predicate Explained(es: seq<Eligible>, i: nat)
    requires i < |es|
  {
    RankReasons(es[i].reasons) == [Verdict(es, i)]
  }

  ghost predicate HealthMatches(d: Decision) {
    && UniqueIDs(SnapshotIDs(d)) && |SnapshotIDs(d)| == |DecisionIDs(d)|
    && (forall id :: id in SnapshotIDs(d) ==> id in DecisionIDs(d))
  }

  ghost predicate RankingMatches(d: Decision) {
    var expected := Map(EligibleID, Sort(EligibleBefore, d.eligible));
    Map(EligibleID, d.eligible) == expected
  }

  /** The winner is the first eligible candidate and the only selected one, and the decision is about it. */
  ghost predicate WinnerMatches(d: Decision) {
    if d.hasWinner then
      && d.selected.Some? && d.eligible != [] && d.eligible[0].selected
      && (forall i :: 0 < i < |d.eligible| ==> !d.eligible[i].selected)
      && d.selected.value.id == d.eligible[0].who.id && d.reasons == d.eligible[0].reasons
    else
      d.selected.None? && d.eligible == [] && d.reasons == [NoCompatibleRuntime]
  }

  ghost predicate CrossFieldsValid(d: Decision) {
    && UniqueIDs(DecisionIDs(d))
    && HealthMatches(d)
    && RankingMatches(d)
    && (forall i :: 0 <= i < |d.eligible| ==> Explained(d.eligible, i))
    && WinnerMatches(d)
  }

  // ---------------------------------------------------------------------------------------------
  // The cross-field validator

  datatype Issue =
    | RepeatedCandidate | HealthMismatch | WrongRanking | WrongExplanation(index: nat)
    | NoSingleWinner | WrongWinner | WinnerNotFirst | WrongReasons | UnexpectedWinner | WrongEmptyReason

  ghost function Elements(ids: seq<string>): set<string> {
    set id | id in ids
  }

  /** A set of the elements is as large as the sequence exactly when nothing repeats. */
  lemma {:induction false} SizeTellsUnique(ids: seq<string>)
    ensures |Elements(ids)| <= |ids| && (|Elements(ids)| == |ids| <==> UniqueIDs(ids))
  {
    if ids != [] {
      var rest := ids[1..];
      SizeTellsUnique(rest);
      assert ids == [ids[0]] + rest;
      assert forall id :: multiset(ids)[id] == multiset(rest)[id] + if id == ids[0] then 1 else 0;
      if ids[0] in rest {
        assert Elements(ids) == Elements(rest);
        assert multiset(ids)[ids[0]] >= 2;
      } else {
        assert Elements(ids) == Elements(rest) + {ids[0]};
        assert multiset(rest)[ids[0]] == 0;
        assert UniqueIDs(ids) ==> UniqueIDs(rest) by {
          assert forall id :: multiset(rest)[id] <= multiset(ids)[id];
        }
      }
    }
  }

  ghost predicate Increasing(positions: seq<nat>, n: nat) {
    && (forall i :: 0 <= i < |positions| ==> positions[i] < n)
    && (forall i, j :: 0 <= i < j < |positions| ==> positions[i] < positions[j])
  }

  /** Positions of the selected records. */
  method SelectedRecords(es: seq<Eligible>) returns (positions: seq<nat>)
    ensures Increasing(positions, |es|) && (forall i: nat :: i in positions <==> i < |es| && es[i].selected)
  {
    positions := [];
    for k := 0 to |es|
      invariant Increasing(positions, k) && (forall i: nat :: i in positions <==> i < k && es[i].selected)
    {
      if es[k].selected {
        positions := positions + [k];
      }
    }
  }

  lemma OnlyFirst(es: seq<Eligible>, positions: seq<nat>)
    requires Increasing(positions, |es|) && (forall i: nat :: i in positions <==> i < |es| && es[i].selected)
    ensures positions == [0] <==> (es != [] && es[0].selected && forall i :: 0 < i < |es| ==> !es[i].selected)
  {
    assert forall i: nat :: i in [0] <==> i == 0;
    assert forall i :: 0 < i < |positions| ==> positions[0] < positions[i];
    if es != [] && es[0].selected && forall i :: 0 < i < |es| ==> !es[i].selected {
      assert 0 in positions;
      forall i | 0 <= i < |positions| ensures positions[i] == 0 && i == 0 {
        var p := positions[i];
        assert p in positions && es[p].selected;
      }
      assert positions[|positions| - 1] == 0;
    }
  }

  /** The loop over explanations. */
  method CheckExplanations(es: seq<Eligible>) returns (issues: seq<Issue>)
    ensures issues == [] <==> forall i :: 0 <= i < |es| ==> Explained(es, i)
  {
    issues := [];
    for i := 0 to |es|
      invariant issues == [] <==> forall k :: 0 <= k < i ==> Explained(es, k)
    {
      if !Explained(es, i) {
        issues := issues + [WrongExplanation(i)];
      }
    }
  }

  method CheckWinner(d: Decision) returns (issues: seq<Issue>)
    ensures issues == [] <==> WinnerMatches(d)
  {
    var positions := SelectedRecords(d.eligible);
    OnlyFirst(d.eligible, positions);
    assert |positions| == 1 && positions[0] == 0 ==> positions == [0];
    if d.hasWinner {
      if d.selected.None? || |positions| != 1 {
        return [NoSingleWinner];
      }
      var record := d.eligible[positions[0]];
      if record.who.id != d.selected.value.id {
        return [WrongWinner];
      }
      if positions[0] != 0 {
        return [WinnerNotFirst];
      }
      return if record.reasons != d.reasons then [WrongReasons] else [];
    }
    if d.selected.Some? || positions != [] || d.eligible != [] {
      return [UnexpectedWinner];
    }
    return if d.reasons != [NoCompatibleRuntime] then [WrongEmptyReason] else [];
  }

  /** The refinement of `RoutingDecisionSchema`: no issue exactly when the fields agree. */
  method CrossCheck(d: Decision) returns (issues: seq<Issue>)
    ensures issues == [] <==> CrossFieldsValid(d)
  {
    issues := [];
    var ids, health := DecisionIDs(d), SnapshotIDs(d);
    SizeTellsUnique(ids);
    SizeTellsUnique(health);
    if |set id | id in ids| != |ids| {
      issues := issues + [RepeatedCandidate];
    }
    if |set id | id in health| != |health| || |health| != |ids| || exists id :: id in health && id !in ids {
      issues := issues + [HealthMismatch];
    }
    if Map(EligibleID, d.eligible) != Map(EligibleID, Sort(EligibleBefore, d.eligible)) {
      issues := issues + [WrongRanking];
    }
    var explanations := CheckExplanations(d.eligible);
    var winner := CheckWinner(d);
    issues := issues + explanations + winner;
  }
}
