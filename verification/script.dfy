/** The script from start to finish: normalise the credential, trigger the
    run, poll it, and write the report. The outside world is an environment
    value; the run is the list of HTTP requests the script issues, the report
    it writes (if any), its exit code and the fatal error that stopped it. */
module Script {
  import opened Base
  import Credentials
  import Trigger
  import Polling
  import Report

  /** The fixed endpoint that starts the monitoring run. */
  const TriggerUrl := "https://api.runscope.com/radar/b06d52bf-15b0-472d-a9a5-cb9fe8d630f2/trigger?runscope_environment=a1adcdc6-5a43-413a-b8ec-f4e90f0e2a01"

  /** An HTTP request the script issues, with its `Authorization` header. */
  datatype Request = Post(url: string, authorization: string) | Get(url: string, authorization: string)

  /** Everything the script reads from outside: the credential variable, the
      trigger's response, the poll responses in order, and the elapsed time. */
  datatype Environment = Environment(
    credential: Option<string>,
    trigger: Trigger.TriggerResponse,
    polls: seq<Polling.PollResponse>,
    duration: real)

  /** What one execution does. */
  datatype Run = Run(
    requests: seq<Request>,
    report: Option<Report.TestSuite>,
    exitCode: nat,
    error: Option<Fatal>)

  /** A fatal stop after the given requests: no report, exit code 1. */
  function Stop(requests: seq<Request>, error: Fatal): Run {
    Run(requests, None, ExitFailure, Some(error))
  }

  /** The number of GETs in a list of requests. */
  function CountGets(requests: seq<Request>): nat {
    if requests == [] then 0
    else (if requests[0].Get? then 1 else 0) + CountGets(requests[1..])
  }

  /** One execution of the script. */
  function RunScript(env: Environment): (r: Run)
    ensures r.exitCode == ExitSuccess || r.exitCode == ExitFailure
    ensures r.exitCode == ExitSuccess <==> r.report.Some?
    ensures r.exitCode == ExitSuccess <==> r.error.None?
    ensures Credentials.AuthHeader(env.credential).Err? ==>
      r.requests == [] && r.error == Some(MissingCredential)
    ensures Credentials.AuthHeader(env.credential).Ok? ==>
      && |r.requests| >= 1
      && r.requests[0] == Post(TriggerUrl, Credentials.AuthHeader(env.credential).value)
    ensures r.report.Some? ==> Report.WellFormed(r.report.value)
    ensures r.error.None? <==> Triggered(env) && Polling.Poll(env.polls).Completed?
    ensures Triggered(env) && Polling.Poll(env.polls).Aborted? ==>
      r.error == Some(Polling.Poll(env.polls).error)
    ensures r.report.Some? ==> r.report.value.time == env.duration && r.report.value.testcase.time == env.duration
  {
    match Credentials.AuthHeader(env.credential)
    case Err(e) => Stop([], e)
    case Ok(auth) =>
      var post := [Post(TriggerUrl, auth)];
      match Trigger.TriggerTest(env.trigger)
      case Err(e) => Stop(post, e)
      case Ok(run) =>
        var outcome := Polling.Poll(env.polls);
        var requests := post + seq(outcome.gets, _ => Get(run.pollUrl, auth));
        match outcome
        case Aborted(e, _) => Stop(requests, e)
        case Completed(body, _) =>
          // The result is read again from the last body, as the loop did.
          var finalResult := Polling.StatusOf(body);
          var suite := Report.GenerateReport(run.testName, finalResult, run.reportUrl, env.duration);
          Run(requests, Some(suite), ExitSuccess, None)
  }

  /** The script got past the credential and the trigger, reaching the poll URL. */
  predicate Triggered(env: Environment) {
    Credentials.AuthHeader(env.credential).Ok? && Trigger.TriggerTest(env.trigger).Ok?
  }

  /** Every request carries the normalised credential, and every GET goes to
      the poll URL the trigger returned. */
  lemma RequestsCarryHeader(env: Environment)
    requires Triggered(env)
    ensures var r := RunScript(env);
      var auth := Credentials.AuthHeader(env.credential).value;
      var pollUrl := Trigger.TriggerTest(env.trigger).value.pollUrl;
      && r.requests[0] == Post(TriggerUrl, auth)
      && forall i :: 1 <= i < |r.requests| ==> r.requests[i] == Get(pollUrl, auth)
  {
  }

  /** A missing or empty credential stops the script before any request, and
      no report is written. */
  lemma MissingCredentialStopsEverything(env: Environment)
    requires env.credential == None || env.credential == Some("")
    ensures RunScript(env) == Run([], None, ExitFailure, Some(MissingCredential))
  {
  }

  /** A failed or unparsable trigger stops the script after the one POST. */
  lemma TriggerFailureStopsAfterPost(env: Environment)
    requires Credentials.AuthHeader(env.credential).Ok?
    requires Trigger.TriggerTest(env.trigger).Err?
    ensures var r := RunScript(env);
      |r.requests| == 1 && r.report == None && r.exitCode == ExitFailure
      && r.error == Some(Trigger.TriggerTest(env.trigger).error)
  {
  }

  /** Sixty in-progress statuses time the script out: one POST and exactly 60
      GETs are made, and no report is written. */
  lemma TimeoutWritesNoReport(env: Environment)
    requires Triggered(env)
    requires Polling.InProgressThrough(env.polls, Polling.MaxAttempts)
    ensures var r := RunScript(env);
      && r.error == Some(PollTimeout)
      && r.report == None
      && r.exitCode == ExitFailure
      && |r.requests| == 1 + Polling.MaxAttempts
      && CountGets(r.requests) == Polling.MaxAttempts
  {
    Polling.PollTimesOut(env.polls);
    CountGetsOfRun(env);
  }

  /** A failed poll GET stops the script at once: one POST and `k + 1` GETs
      are made, no report is written and the exit code is 1. */
  lemma PollFailureWritesNoReport(env: Environment, k: nat)
    requires Triggered(env)
    requires k < Polling.MaxAttempts
    requires Polling.InProgressThrough(env.polls, k)
    requires Polling.ResponseAt(env.polls, k) == Polling.PollTransportError
    ensures var r := RunScript(env);
      && r.error == Some(PollRequestFailed)
      && r.report == None
      && r.exitCode == ExitFailure
      && |r.requests| == k + 2
      && CountGets(r.requests) == k + 1
  {
    Polling.PollFailsOnTransportError(env.polls, k);
    CountGetsOfRun(env);
  }

  /** The requests of a triggered run are one POST followed only by GETs. */
  lemma {:induction false} CountGetsAfterPost(post: Request, gets: seq<Request>)
    requires post.Post?
    requires forall i :: 0 <= i < |gets| ==> gets[i].Get?
    ensures CountGets([post] + gets) == |gets|
  {
    assert ([post] + gets)[1..] == gets;
    CountAllGets(gets);
  }

  /** A list of GETs counts every element. */
  lemma {:induction false} CountAllGets(gets: seq<Request>)
    requires forall i :: 0 <= i < |gets| ==> gets[i].Get?
    ensures CountGets(gets) == |gets|
  {
    if gets != [] {
      CountAllGets(gets[1..]);
    }
  }

  /** In a triggered run, the GETs counted in the requests are the GETs the
      poll loop made. */
  lemma CountGetsOfRun(env: Environment)
    requires Triggered(env)
    ensures CountGets(RunScript(env).requests) == Polling.Poll(env.polls).gets
    ensures |RunScript(env).requests| == 1 + Polling.Poll(env.polls).gets
  {
    var r := RunScript(env);
    CountGetsAfterPost(r.requests[0], r.requests[1..]);
    assert [r.requests[0]] + r.requests[1..] == r.requests;
  }

  /** When the `k`-th poll (from 0) is the first to leave `init`/`working`,
      the script makes `k + 1` GETs and reports exactly that status, for the
      test the trigger named, linking the report URL it returned. */
  lemma ReportCarriesTerminalStatus(env: Environment, k: nat)
    requires Triggered(env)
    requires k < Polling.MaxAttempts
    requires Polling.InProgressThrough(env.polls, k)
    requires Polling.ResponseAt(env.polls, k).PollOk?
    requires !Polling.InProgress(Polling.StatusOf(Polling.ResponseAt(env.polls, k).body))
    ensures var r := RunScript(env);
      var status := Polling.StatusOf(Polling.ResponseAt(env.polls, k).body);
      var run := Trigger.TriggerTest(env.trigger).value;
      && r.exitCode == ExitSuccess
      && CountGets(r.requests) == k + 1
      && r.report.Some?
      && Report.ResultOf(r.report.value) == Some(status)
      && Report.ReportUrlOf(r.report.value) == Some(run.reportUrl)
      && r.report.value.testcase.name == run.testName
      && (Report.Passed(r.report.value) <==> status == Report.PassToken)
  {
    Polling.PollStopsAtFirstTerminal(env.polls, k);
    CountGetsOfRun(env);
    var status := Polling.StatusOf(Polling.ResponseAt(env.polls, k).body);
    var run := Trigger.TriggerTest(env.trigger).value;
    Report.ReportRoundTrip(run.testName, status, run.reportUrl, env.duration);
  }

  /** Whatever the environment, a written report never records `init` or
      `working`: the reported result is always a terminal status. */
  lemma ReportedResultIsTerminal(env: Environment)
    requires RunScript(env).report.Some?
    ensures var result := Report.ResultOf(RunScript(env).report.value);
      result.Some? && !Polling.InProgress(result.value)
  {
    var o := Polling.Poll(env.polls);
    var run := Trigger.TriggerTest(env.trigger).value;
    Report.ReportRoundTrip(run.testName, Polling.StatusOf(o.body), run.reportUrl, env.duration);
  }

  /** Example: statuses `working`, `working`, `pass` give three
      GETs and a passing report; the script exits 0. */
  lemma ExampleRun(env: Environment)
    requires Triggered(env)
    requires env.polls == [
      Polling.PollOk(Polling.PollBody(Some(Polling.StatusData(Some(Polling.Text("working")))))),
      Polling.PollOk(Polling.PollBody(Some(Polling.StatusData(Some(Polling.Text("working")))))),
      Polling.PollOk(Polling.PollBody(Some(Polling.StatusData(Some(Polling.Text("pass"))))))]
    ensures var r := RunScript(env);
      r.exitCode == ExitSuccess && CountGets(r.requests) == 3
      && r.report.Some? && Report.Passed(r.report.value) && r.report.value.failures == "0"
  {
    var pass := Polling.PollBody(Some(Polling.StatusData(Some(Polling.Text("pass")))));
    assert Polling.ResponseAt(env.polls, 2) == Polling.PollOk(pass);
    assert Polling.StatusOf(pass) == Report.PassToken;
    assert Polling.InProgressThrough(env.polls, 2) by {
      assert Polling.KeepsPolling(env.polls, 0) && Polling.KeepsPolling(env.polls, 1);
    }
    ReportCarriesTerminalStatus(env, 2);
  }
}
