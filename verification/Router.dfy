/** `routeBrowserRuntime` (packages/router/src/router.ts). */
module Router {
  import opened Prelude
  import opened Ordering
  import opened RoutingModel
  import opened Eligibility
  import opened Scoring
  import opened RoutingDecision

  function WhoIs(c: Candidate): Who {
    Who(c.id, c.identity)
  }

  predicate IsEligible(c: Candidate, q: Request) {
    Eligibility.Rejections(c, q) == []
  }

  /** What becomes of one candidate. */
  datatype Judged = Out(rejected: Rejected) | In(scored: Scored) | Broken

  function Judge(c: Candidate, q: Request, s: Signals): Judged {
    if !IsEligible(c, q) then Out(Rejected(WhoIs(c), Eligibility.Rejections(c, q)))
    else if Scorable(c, s) then In(Scored(c, ScoreOf(c, q, s), ScoreReasons(c, q, s)))
    else Broken
  }

  function Judges(q: Request, s: Signals): Candidate -> Judged {
    c => Judge(c, q, s)
  }

  function RejectedOf(js: seq<Judged>): seq<Rejected> {
    if js == [] then []
    else
      var last := js[|js| - 1];
      RejectedOf(js[..|js| - 1]) + if last.Out? then [last.rejected] else []
  }

  function ScoredOf(js: seq<Judged>): seq<Scored> {
    if js == [] then []
    else
      var last := js[|js| - 1];
      ScoredOf(js[..|js| - 1]) + if last.In? then [last.scored] else []
  }

  predicate ScoredTie(ranked: seq<Scored>) {
    |ranked| > 1 && ExactTie(ranked[0].score, ranked[1].score)
  }

  function RankReasonOf(ranked: seq<Scored>, i: nat): Reason
    requires i < |ranked|
  {
    if i == 0 then (if ScoredTie(ranked) then StableTieBreak else SelectedHighestScore)
    else if ScoredTie(ranked) && ExactTie(ranked[0].score, ranked[i].score) then StableTieBreak
    else LowerScore
  }

  /** How position `i` of the ranking is reported. */
  function Report(ranked: seq<Scored>, i: nat): Eligible
    requires i < |ranked|
  {
    Eligible(WhoIs(ranked[i].candidate), ranked[i].score, Add(ranked[i].reasons, RankReasonOf(ranked, i)), i == 0)
  }

  function ReportUpTo(ranked: seq<Scored>, n: nat): seq<Eligible>
    requires n <= |ranked|
  {
    if n == 0 then [] else ReportUpTo(ranked, n - 1) + [Report(ranked, n - 1)]
  }

  function TakeSnapshot(c: Candidate): Snapshot {
    Snapshot(c.id, c.health)
  }

  function Assemble(q: Request, cs: seq<Candidate>, rejected: seq<Rejected>, ranked: seq<Scored>): Decision {
    var eligible := ReportUpTo(ranked, |ranked|);
    var fallback := ranked != [] && q.allowFallback && q.policy.allowFallback;
    Decision(
      q.meta,
      ranked != [],
      if ranked == [] then None else Some(WhoIs(ranked[0].candidate)),
      eligible,
      rejected,
      if eligible == [] then [NoCompatibleRuntime] else eligible[0].reasons,
      Map(TakeSnapshot, cs),
      fallback,
      if fallback then 1 else 0)
  }

  function Judgements(i: Input): seq<Judged> {
    Map(Judges(i.request, i.signals), Candidates(i.sources))
  }

  function Ranked(i: Input): seq<Scored> {
    Sort(RankedBefore, ScoredOf(Judgements(i)))
  }

  /** The decision, if scoring throws for no candidate. */
  function Decided(i: Input): Decision {
    Assemble(i.request, Candidates(i.sources), RejectedOf(Judgements(i)), Ranked(i))
  }

  /** `None` is the error that scoring a candidate throws. */
  function Route(i: Input): Option<Decision> {
    if Broken in Judgements(i) then None else Some(Decided(i))
  }

  lemma JudgeNext(cs: seq<Candidate>, q: Request, s: Signals, n: nat)
    requires n < |cs|
    ensures Map(Judges(q, s), cs[..n + 1]) == Map(Judges(q, s), cs[..n]) + [Judge(cs[n], q, s)]
  {
    assert cs[..n + 1] == cs[..n] + [cs[n]];
    MapAppend(Judges(q, s), cs[..n], cs[n]);
  }

  lemma {:induction false} OneMore(js: seq<Judged>, j: Judged)
    ensures RejectedOf(js + [j]) == RejectedOf(js) + if j.Out? then [j.rejected] else []
    ensures ScoredOf(js + [j]) == ScoredOf(js) + if j.In? then [j.scored] else []
  {
    assert (js + [j])[..|js|] == js;
  }

  lemma {:induction false} BrokenStays(cs: seq<Candidate>, q: Request, s: Signals, n: nat)
    requires n < |cs| && Judge(cs[n], q, s) == Broken
    ensures Broken in Map(Judges(q, s), cs)
  {
    MapAt(Judges(q, s), cs, n);
  }

  method RouteBrowserRuntime(i: Input) returns (d: Option<Decision>)
    ensures d == Route(i)
  {
    var q, candidates := i.request, Candidates(i.sources);
    var thrown, rejected, scored := JudgeAll(candidates, q, i.signals);
    if thrown {
      return None;
    }
    var ranked := Sort(RankedBefore, scored);
    var eligible := [];
    for n := 0 to |ranked|
      invariant eligible == ReportUpTo(ranked, n)
    {
      eligible := eligible + [Report(ranked, n)];
    }
    var fallback := ranked != [] && q.allowFallback && q.policy.allowFallback;
    d := Some(Decision(q.meta, ranked != [], if ranked == [] then None else Some(WhoIs(ranked[0].candidate)), eligible, rejected,
                  if eligible == [] then [NoCompatibleRuntime] else eligible[0].reasons, Map(TakeSnapshot, candidates),
                  fallback, if fallback then 1 else 0));
  }

  /** The loop over candidates, up to the first that throws. */
  method JudgeAll(candidates: seq<Candidate>, q: Request, s: Signals)
    returns (thrown: bool, rejected: seq<Rejected>, scored: seq<Scored>)
    ensures thrown <==> Broken in Map(Judges(q, s), candidates)
    ensures !thrown ==>
              rejected == RejectedOf(Map(Judges(q, s), candidates)) && scored == ScoredOf(Map(Judges(q, s), candidates))
  {
    rejected, scored := [], [];
    for n := 0 to |candidates|
      invariant Broken !in Map(Judges(q, s), candidates[..n])
      invariant rejected == RejectedOf(Map(Judges(q, s), candidates[..n]))
      invariant scored == ScoredOf(Map(Judges(q, s), candidates[..n]))
    {
      JudgeNext(candidates, q, s, n);
      OneMore(Map(Judges(q, s), candidates[..n]), Judge(candidates[n], q, s));
      var eligible, reasons := Evaluate(candidates[n], q);
      if !eligible {
        rejected := rejected + [Rejected(WhoIs(candidates[n]), reasons)];
        continue;
      }
      var score := ScoreEligible(candidates[n], reasons, q, s);
      if score.None? {
        BrokenStays(candidates, q, s, n);
        return true, [], [];
      }
      scored := scored + [score.value];
    }
    assert candidates[..|candidates|] == candidates;
    thrown := false;
  }
}
