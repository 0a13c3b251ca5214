/**
 * `run_live_analysis`: construct the analyzer and the rule engine, open
 * the camera, then capture, analyze, decide and report until a capture
 * fails, the operator interrupts, or analysis raises; the camera is
 * released on every exit from the loop.
 */
module LiveAnalysis {
  import opened Wrappers
  import opened DosageRules
  import opened FrameAnalysis

  /**
   * One event of the camera trace: a frame (given by the probability
   * vector the classifier returns for it), a failed read, or an operator
   * interrupt arriving before the next report is complete.
   */
  datatype Capture = Frame(probabilities: seq<real>) | NoFrame | Interrupt

  /** The fields of one printed report (the timestamp is left out). */
  datatype Report = Report(analysis: AnalysisResult, recommendation: Recommendation)

  datatype StopReason =
    | ModelUnavailable(initError: InitError)
    | CameraNotOpened
    | CaptureFailed
    | OperatorInterrupt
    | AnalysisFailed(analysisError: AnalysisError)

  /** The loop's two states; Stopped is terminal. */
  datatype LoopState = Running | Stopped(reason: StopReason)

  datatype Outcome = Outcome(state: LoopState, reports: seq<Report>)

  /** What one run is seen to do. */
  datatype Run = Run(
    state: LoopState,
    reports: seq<Report>,
    cameraConstructed: bool,
    cameraOpened: bool,
    releases: nat)

  /** The report one frame produces, or the error analysis raises. */
  function Cycle(analyzer: Analyzer, engine: RuleEngine, probabilities: seq<real>): (r: Result<Report, AnalysisError>)
    ensures r.Success? <==> AnalyzeFrame(analyzer, probabilities).Success?
    ensures r.Success? ==>
      r.value.analysis.confidence in probabilities
      && r.value.recommendation == engine.CalculateDosage(r.value.analysis, 1000.0)
  {
    match AnalyzeFrame(analyzer, probabilities)
    case Failure(e) => Failure(e)
    case Success(res) => Success(Report(res, engine.CalculateDosage(res, DefaultFieldAreaSqm)))
  }

  /** Reference semantics of the loop over a capture trace. */
  function Cycles(analyzer: Analyzer, engine: RuleEngine, captures: seq<Capture>): Outcome {
    if captures == [] then Outcome(Running, [])
    else match captures[0]
      case NoFrame => Outcome(Stopped(CaptureFailed), [])
      case Interrupt => Outcome(Stopped(OperatorInterrupt), [])
      case Frame(p) =>
        match Cycle(analyzer, engine, p)
        case Failure(e) => Outcome(Stopped(AnalysisFailed(e)), [])
        case Success(report) =>
          var rest := Cycles(analyzer, engine, captures[1..]);
          Outcome(rest.state, [report] + rest.reports)
  }

  /** The number of successful captures before the first failure or interrupt. */
  function LeadingFrames(captures: seq<Capture>): (n: nat)
    ensures n <= |captures|
    ensures forall i :: 0 <= i < n ==> captures[i].Frame?
    ensures n < |captures| ==> !captures[n].Frame?
  {
    if captures == [] || !captures[0].Frame? then 0
    else 1 + LeadingFrames(captures[1..])
  }

  /** A capture whose analysis, if it is a frame, raises nothing. */
  predicate Analyzable(analyzer: Analyzer, c: Capture) {
    c.Frame? ==> AnalyzeFrame(analyzer, c.probabilities).Success?
  }

  /**
   * Whatever the frames hold, a run reports at most once per capture before
   * the first failure or interrupt, and it is still running only when the
   * whole trace was frames, each reported.
   */
  lemma {:induction false} ReportsBoundedByLeadingFrames(analyzer: Analyzer, engine: RuleEngine, captures: seq<Capture>)
    ensures |Cycles(analyzer, engine, captures).reports| <= LeadingFrames(captures)
    ensures Cycles(analyzer, engine, captures).state.Running? ==>
      |Cycles(analyzer, engine, captures).reports| == |captures| == LeadingFrames(captures)
  {
    if captures != [] && captures[0].Frame? {
      ReportsBoundedByLeadingFrames(analyzer, engine, captures[1..]);
    }
  }

  /**
   * When every frame is analyzable there is one report per successful
   * capture before the first failure or interrupt, the loop stops exactly
   * when the trace holds a failure or interrupt, and it stops for that one.
   */
  lemma {:induction false} ReportsMatchLeadingFrames(analyzer: Analyzer, engine: RuleEngine, captures: seq<Capture>)
    requires forall i :: 0 <= i < LeadingFrames(captures) ==> Analyzable(analyzer, captures[i])
    ensures |Cycles(analyzer, engine, captures).reports| == LeadingFrames(captures)
    ensures Cycles(analyzer, engine, captures).state.Running? <==> LeadingFrames(captures) == |captures|
    ensures LeadingFrames(captures) < |captures| ==>
      Cycles(analyzer, engine, captures).state
        == Stopped(if captures[LeadingFrames(captures)].NoFrame? then CaptureFailed else OperatorInterrupt)
  {
    if captures != [] && captures[0].Frame? {
      assert Analyzable(analyzer, captures[0]);
      ReportsMatchLeadingFrames(analyzer, engine, captures[1..]);
    }
  }

  /**
   * Report k is the analysis of the k-th capture and the rule engine's
   * decision on it for the default 1000 sqm.
   */
  lemma {:induction false} ReportsAreDecisions(analyzer: Analyzer, engine: RuleEngine, captures: seq<Capture>, k: nat)
    requires k < |Cycles(analyzer, engine, captures).reports|
    ensures k < |captures| && captures[k].Frame?
    ensures AnalyzeFrame(analyzer, captures[k].probabilities).Success?
    ensures var r := Cycles(analyzer, engine, captures).reports[k];
      r.analysis == AnalyzeFrame(analyzer, captures[k].probabilities).value
      && r.recommendation == engine.CalculateDosage(r.analysis, 1000.0)
  {
    if k > 0 {
      ReportsAreDecisions(analyzer, engine, captures[1..], k - 1);
    }
  }

  /** Two good frames, then a failed read: two reports, then Stopped for the capture failure. */
  lemma ScenarioTwoFramesThenFailure(analyzer: Analyzer, engine: RuleEngine, p1: seq<real>, p2: seq<real>, later: seq<Capture>)
    requires 0 < |p1| <= |analyzer.classNames| && 0 < |p2| <= |analyzer.classNames|
    ensures var out := Cycles(analyzer, engine, [Frame(p1), Frame(p2), NoFrame] + later);
      out.state == Stopped(CaptureFailed) && |out.reports| == 2
  {
    var trace := [Frame(p1), Frame(p2), NoFrame] + later;
    assert trace[0] == Frame(p1) && trace[1..] == [Frame(p2), NoFrame] + later;
    assert trace[1..][0] == Frame(p2) && trace[1..][1..] == [NoFrame] + later;
    assert trace[1..][1..][0] == NoFrame;
    assert Cycle(analyzer, engine, p1).Success? && Cycle(analyzer, engine, p2).Success?;
    assert Cycles(analyzer, engine, trace[1..][1..]) == Outcome(Stopped(CaptureFailed), []);
    assert |Cycles(analyzer, engine, trace[1..]).reports| == 1;
  }

  /** The camera handle: a trace of what reads deliver, and a release counter. */
  class Camera {
    const opens: bool
    const captures: seq<Capture>
    var position: nat
    var releases: nat

    constructor (opens: bool, captures: seq<Capture>)
      ensures this.opens == opens && this.captures == captures
      ensures position == 0 && releases == 0
    {
      this.opens := opens;
      this.captures := captures;
      position := 0;
      releases := 0;
    }

    predicate IsOpened() {
      opens
    }

    /** The finite trace still has an event; past it the run is not observed. */
    predicate HasNext()
      reads this
    {
      position < |captures|
    }

    method Read() returns (c: Capture)
      requires HasNext()
      modifies this
      ensures c == captures[old(position)]
      ensures position == old(position) + 1 && releases == old(releases)
    {
      c := captures[position];
      position := position + 1;
    }

    method Release()
      modifies this
      ensures releases == old(releases) + 1 && position == old(position)
    {
      releases := releases + 1;
    }
  }

  /** A failed read at position `at` stops the rest of the run for CaptureFailed. */
  lemma CyclesAtNoFrame(analyzer: Analyzer, engine: RuleEngine, captures: seq<Capture>, at: nat)
    requires at < |captures| && captures[at].NoFrame?
    ensures Cycles(analyzer, engine, captures[at..]) == Outcome(Stopped(CaptureFailed), [])
  {
    assert captures[at..][0] == captures[at];
  }

  /** An interrupt at position `at` stops the rest of the run for OperatorInterrupt. */
  lemma CyclesAtInterrupt(analyzer: Analyzer, engine: RuleEngine, captures: seq<Capture>, at: nat)
    requires at < |captures| && captures[at].Interrupt?
    ensures Cycles(analyzer, engine, captures[at..]) == Outcome(Stopped(OperatorInterrupt), [])
  {
    assert captures[at..][0] == captures[at];
  }

  /** A frame analysis cannot reduce stops the rest of the run with that error. */
  lemma CyclesAtFailure(analyzer: Analyzer, engine: RuleEngine, captures: seq<Capture>, at: nat)
    requires at < |captures| && captures[at].Frame?
    requires AnalyzeFrame(analyzer, captures[at].probabilities).Failure?
    ensures Cycles(analyzer, engine, captures[at..])
         == Outcome(Stopped(AnalysisFailed(AnalyzeFrame(analyzer, captures[at].probabilities).error)), [])
  {
    assert captures[at..][0] == captures[at];
  }

  /** An analyzable frame at position `at` contributes its report and the run goes on. */
  lemma CyclesAtReport(analyzer: Analyzer, engine: RuleEngine, captures: seq<Capture>, at: nat)
    requires at < |captures| && captures[at].Frame?
    requires AnalyzeFrame(analyzer, captures[at].probabilities).Success?
    ensures var res := AnalyzeFrame(analyzer, captures[at].probabilities).value;
      Cycles(analyzer, engine, captures[at..])
        == Continue([Report(res, engine.CalculateDosage(res, DefaultFieldAreaSqm))], Cycles(analyzer, engine, captures[at + 1..]))
  {
    assert captures[at..][0] == captures[at];
    assert captures[at..][1..] == captures[at + 1..];
  }

  /** The reports gathered so far followed by what the rest of the run reports. */
  function Continue(reports: seq<Report>, rest: Outcome): Outcome {
    Outcome(rest.state, reports + rest.reports)
  }

  /**
   * The try/finally block: read, analyze, decide and report until the
   * loop stops, then release the camera.
   */
  method AnalysisLoop(cap: Camera, analyzer: Analyzer, ruleEngine: RuleEngine) returns (state: LoopState, reports: seq<Report>)
    requires cap.position == 0 && cap.releases == 0
    modifies cap
    ensures Outcome(state, reports) == Cycles(analyzer, ruleEngine, cap.captures)
    ensures cap.releases == if state.Stopped? then 1 else 0
  {
    ghost var trace := cap.captures;
    reports := [];
    state := Running;
    assert trace[0..] == trace;
    while true
      invariant cap.position <= |trace| && cap.releases == 0
      invariant state.Running? ==>
        Cycles(analyzer, ruleEngine, trace) == Continue(reports, Cycles(analyzer, ruleEngine, trace[cap.position..]))
      invariant state.Stopped? ==> Cycles(analyzer, ruleEngine, trace) == Outcome(state, reports)
      decreases |trace| - cap.position, state.Running?
    {
      if !state.Running? || !cap.HasNext() {
        break;
      }
      ghost var at := cap.position;
      var c := cap.Read();
      if c.NoFrame? {
        CyclesAtNoFrame(analyzer, ruleEngine, trace, at);
        state := Stopped(CaptureFailed);
        break;
      } else if c.Interrupt? {
        CyclesAtInterrupt(analyzer, ruleEngine, trace, at);
        state := Stopped(OperatorInterrupt);
        break;
      }
      var analysis := AnalyzeFrame(analyzer, c.probabilities);
      if analysis.Failure? {
        CyclesAtFailure(analyzer, ruleEngine, trace, at);
        state := Stopped(AnalysisFailed(analysis.error));
        break;
      }
      var recommendation := ruleEngine.CalculateDosage(analysis.value, DefaultFieldAreaSqm);
      CyclesAtReport(analyzer, ruleEngine, trace, at);
      reports := reports + [Report(analysis.value, recommendation)];
    }
    if state.Running? {
      assert trace[cap.position..] == [];
    }

    if state.Stopped? {
      cap.Release();
    }
  }

  /**
   * The whole run. The checkpoint's presence, the training-directory
   * listing, whether the camera opens and the trace of captures are the
   * environment's answers.
   */
  method RunLiveAnalysis(modelExists: bool, dataDirListing: Option<seq<string>>, cameraOpens: bool, captures: seq<Capture>)
    returns (run: Run)
    ensures NewAnalyzer(modelExists, dataDirListing).Failure? ==>
      run == Run(Stopped(ModelUnavailable(NewAnalyzer(modelExists, dataDirListing).error)), [], false, false, 0)
    ensures NewAnalyzer(modelExists, dataDirListing).Success? && !cameraOpens ==>
      run == Run(Stopped(CameraNotOpened), [], true, false, 0)
    ensures NewAnalyzer(modelExists, dataDirListing).Success? && cameraOpens ==>
      run.cameraConstructed && run.cameraOpened
      && Outcome(run.state, run.reports) == Cycles(NewAnalyzer(modelExists, dataDirListing).value, DefaultEngine, captures)
    ensures run.cameraOpened ==> (run.releases == 1 <==> run.state.Stopped?)
    ensures run.releases <= 1
    ensures !run.cameraConstructed ==> !run.cameraOpened
  {
    var created := NewAnalyzer(modelExists, dataDirListing);
    if created.Failure? {
      return Run(Stopped(ModelUnavailable(created.error)), [], false, false, 0);
    }
    var analyzer := created.value;
    var ruleEngine := DefaultEngine;

    var cap := new Camera(cameraOpens, captures);
    var isOpen := cap.IsOpened();
    if !isOpen {
      return Run(Stopped(CameraNotOpened), [], true, isOpen, cap.releases);
    }

    var state, reports := AnalysisLoop(cap, analyzer, ruleEngine);
    return Run(state, reports, true, isOpen, cap.releases);
  }
}
