/** Per-board and global KPI counts: how many solutions carry each exact tier string. */
module Kpi {
  import opened Wrappers
  import opened RiskTier
  import opened Solutions

  /** The two independent classification paths a solution carries. */
  datatype RiskPath = AiAnalysis | SurveyPath

  function RiskOf(s: SolutionRecord, p: RiskPath): Option<string> {
    match p
    case AiAnalysis => s.riskAi
    case SurveyPath => s.riskSurvey
  }

  /** The solution's risk string on path `p` is exactly one of the four tier names. */
  predicate Classified(s: SolutionRecord, p: RiskPath) {
    RiskOf(s, p).Some? && Parse(RiskOf(s, p).value).Some?
  }

  /** How many solutions carry exactly the tier's name on path `p`. */
  function CountTier(sols: seq<SolutionRecord>, p: RiskPath, t: Tier): (n: nat)
    ensures n <= |sols|
  {
    if sols == [] then 0
    else CountTier(sols[..|sols| - 1], p, t) + (if RiskOf(sols[|sols| - 1], p) == Some(Name(t)) then 1 else 0)
  }

  /** Number of solutions that are in some bucket on path `p`. */
  function CountClassified(sols: seq<SolutionRecord>, p: RiskPath): (n: nat)
    ensures n <= |sols|
    ensures n == |sols| <==> forall i :: 0 <= i < |sols| ==> Classified(sols[i], p)
  {
    if sols == [] then 0
    else
      var init := sols[..|sols| - 1];
      assert forall i :: 0 <= i < |init| ==> init[i] == sols[i];
      CountClassified(init, p) + (if Classified(sols[|sols| - 1], p) then 1 else 0)
  }

  /** One bucket per tier. */
  datatype Counts = Counts(high: nat, unacceptable: nat, limited: nat, minimal: nat)

  function Sum(c: Counts): nat {
    c.high + c.unacceptable + c.limited + c.minimal
  }

  function Add(a: Counts, b: Counts): Counts {
    Counts(a.high + b.high, a.unacceptable + b.unacceptable, a.limited + b.limited, a.minimal + b.minimal)
  }

  function CountsFor(sols: seq<SolutionRecord>, p: RiskPath): Counts {
    Counts(CountTier(sols, p, High), CountTier(sols, p, Unacceptable), CountTier(sols, p, Limited), CountTier(sols, p, Minimal))
  }

  /** A bucket is non-empty exactly when some solution carries that tier's exact name. */
  lemma {:induction false} CountTierPositive(sols: seq<SolutionRecord>, p: RiskPath, t: Tier)
    ensures CountTier(sols, p, t) > 0 <==> exists i :: 0 <= i < |sols| && RiskOf(sols[i], p) == Some(Name(t))
  {
    if sols != [] {
      var init := sols[..|sols| - 1];
      CountTierPositive(init, p, t);
      if exists i :: 0 <= i < |init| && RiskOf(init[i], p) == Some(Name(t)) {
        var i :| 0 <= i < |init| && RiskOf(init[i], p) == Some(Name(t));
        assert init[i] == sols[i];
      }
      if exists i :: 0 <= i < |sols| && RiskOf(sols[i], p) == Some(Name(t)) {
        var i :| 0 <= i < |sols| && RiskOf(sols[i], p) == Some(Name(t));
        if i < |init| {
          assert init[i] == sols[i];
        }
      }
    }
  }

  /** The four buckets together hold exactly the classified solutions: each of those in one
      bucket, and "Pending", "Error", NULL or any other string in none. */
  lemma {:induction false} BucketsHoldClassified(sols: seq<SolutionRecord>, p: RiskPath)
    ensures Sum(CountsFor(sols, p)) == CountClassified(sols, p)
  {
    if sols != [] {
      BucketsHoldClassified(sols[..|sols| - 1], p);
      var r := RiskOf(sols[|sols| - 1], p);
      if r.Some? && Parse(r.value).Some? {
        ParseName(Parse(r.value).value);
      }
    }
  }

  /** The buckets never exceed the solution count, and reach it only once every solution is classified. */
  lemma BucketsBounded(sols: seq<SolutionRecord>, p: RiskPath)
    ensures Sum(CountsFor(sols, p)) <= |sols|
    ensures Sum(CountsFor(sols, p)) == |sols| <==> forall i :: 0 <= i < |sols| ==> Classified(sols[i], p)
  {
    BucketsHoldClassified(sols, p);
  }

  /** The default "Pending" and the failure marker "Error" are no tier. */
  lemma MarkersAreNoTier()
    ensures Parse(Pending) == None && Parse("Error") == None
  {
  }

  /** A path's counts depend on that path's column only. */
  lemma {:induction false} PathIndependent(a: seq<SolutionRecord>, b: seq<SolutionRecord>, p: RiskPath)
    requires |a| == |b| && forall i :: 0 <= i < |a| ==> RiskOf(a[i], p) == RiskOf(b[i], p)
    ensures CountsFor(a, p) == CountsFor(b, p)
  {
    if a != [] {
      var n := |a|;
      assert forall i :: 0 <= i < n - 1 ==> a[..n - 1][i] == a[i] && b[..n - 1][i] == b[i];
      PathIndependent(a[..n - 1], b[..n - 1], p);
    }
  }

  /** Counting over two runs of solutions adds up. */
  lemma {:induction false} CountTierAppend(a: seq<SolutionRecord>, b: seq<SolutionRecord>, p: RiskPath, t: Tier)
    ensures CountTier(a + b, p, t) == CountTier(a, p, t) + CountTier(b, p, t)
  {
    if b == [] {
      assert a + b == a;
    } else {
      assert (a + b)[..|a + b| - 1] == a + b[..|b| - 1];
      assert (a + b)[|a + b| - 1] == b[|b| - 1];
      CountTierAppend(a, b[..|b| - 1], p, t);
    }
  }

  lemma CountsAppend(a: seq<SolutionRecord>, b: seq<SolutionRecord>, p: RiskPath)
    ensures CountsFor(a + b, p) == Add(CountsFor(a, p), CountsFor(b, p))
  {
    CountTierAppend(a, b, p, High);
    CountTierAppend(a, b, p, Unacceptable);
    CountTierAppend(a, b, p, Limited);
    CountTierAppend(a, b, p, Minimal);
  }

  /** A board and the solutions that belong to it. */
  datatype Board = Board(name: string, solutions: seq<SolutionRecord>)

  datatype BoardKpi = BoardKpi(boardName: string, totalSolutions: nat, aiAnalysis: Counts, survey: Counts)

  /** The per-board KPI endpoint. */
  function GetBoardKpis(board: Board): (k: BoardKpi)
    ensures k.totalSolutions == |board.solutions|
    ensures Sum(k.aiAnalysis) <= k.totalSolutions && Sum(k.survey) <= k.totalSolutions
  {
    BucketsBounded(board.solutions, AiAnalysis);
    BucketsBounded(board.solutions, SurveyPath);
    BoardKpi(board.name, |board.solutions|, CountsFor(board.solutions, AiAnalysis), CountsFor(board.solutions, SurveyPath))
  }

  /** Every solution row; each belongs to exactly one board. */
  function AllSolutions(boards: seq<Board>): seq<SolutionRecord> {
    if boards == [] then []
    else AllSolutions(boards[..|boards| - 1]) + boards[|boards| - 1].solutions
  }

  datatype GlobalKpi = GlobalKpi(totalSolutions: nat, totalBoards: nat, aiAnalysis: Counts, survey: Counts)

  /** The global KPI endpoint: the same exact-match counts over every solution row. */
  function GetKpis(boards: seq<Board>): (k: GlobalKpi)
    ensures k.totalBoards == |boards| && k.totalSolutions == |AllSolutions(boards)|
    ensures Sum(k.aiAnalysis) <= k.totalSolutions && Sum(k.survey) <= k.totalSolutions
  {
    var all := AllSolutions(boards);
    BucketsBounded(all, AiAnalysis);
    BucketsBounded(all, SurveyPath);
    GlobalKpi(|all|, |boards|, CountsFor(all, AiAnalysis), CountsFor(all, SurveyPath))
  }

  /** Adding up the boards' KPIs. */
  function SumOfBoards(boards: seq<Board>): BoardKpi {
    if boards == [] then BoardKpi("", 0, Counts(0, 0, 0, 0), Counts(0, 0, 0, 0))
    else
      var rest, last := SumOfBoards(boards[..|boards| - 1]), GetBoardKpis(boards[|boards| - 1]);
      BoardKpi("", rest.totalSolutions + last.totalSolutions, Add(rest.aiAnalysis, last.aiAnalysis), Add(rest.survey, last.survey))
  }

  /** The global KPI is the sum of the per-board KPIs. */
  lemma {:induction false} GlobalIsSumOfBoards(boards: seq<Board>)
    ensures GetKpis(boards).totalSolutions == SumOfBoards(boards).totalSolutions
    ensures GetKpis(boards).aiAnalysis == SumOfBoards(boards).aiAnalysis
    ensures GetKpis(boards).survey == SumOfBoards(boards).survey
  {
    if boards != [] {
      var init := boards[..|boards| - 1];
      GlobalIsSumOfBoards(init);
      CountsAppend(AllSolutions(init), boards[|boards| - 1].solutions, AiAnalysis);
      CountsAppend(AllSolutions(init), boards[|boards| - 1].solutions, SurveyPath);
    }
  }

  /** A freshly created solution is counted in no bucket on either path. */
  lemma NewSolutionNotCounted(sols: seq<SolutionRecord>, name: string, description: string, role: Option<string>)
    ensures CountsFor(sols + [NewSolution(name, description, role)], AiAnalysis) == CountsFor(sols, AiAnalysis)
    ensures CountsFor(sols + [NewSolution(name, description, role)], SurveyPath) == CountsFor(sols, SurveyPath)
  {
    var s := sols + [NewSolution(name, description, role)];
    assert s[..|s| - 1] == sols;
  }
}
