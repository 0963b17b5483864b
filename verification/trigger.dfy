/** The trigger step: the response of the POST that starts a monitoring run,
    and the three values the script takes from its first run. */
module Trigger {
  import opened Base

  /** One entry of `data.runs`; each field is `None` when its key is absent. */
  datatype RunInfo = RunInfo(
    apiTestRunUrl: Option<string>,
    testName: Option<string>,
    testId: Option<string>,
    testRunUrl: Option<string>)

  /** The `data` object of the trigger body. */
  datatype TriggerData = TriggerData(runs: Option<seq<RunInfo>>)

  /** The decoded trigger body. */
  datatype TriggerBody = TriggerBody(data: Option<TriggerData>)

  /** What the POST produced: a transport failure or an error status
      (4xx/5xx), or a body. */
  datatype TriggerResponse = TriggerTransportError | TriggerOk(body: TriggerBody)

  /** What the trigger step hands on: the URL to poll, the display name of the
      test and the human-facing report URL. */
  datatype TriggeredRun = TriggeredRun(pollUrl: string, testName: string, reportUrl: string)

  /** The body holds a first run with all four keys the script reads. */
  predicate HasRunFields(body: TriggerBody) {
    && body.data.Some?
    && body.data.value.runs.Some?
    && |body.data.value.runs.value| > 0
    && body.data.value.runs.value[0].apiTestRunUrl.Some?
    && body.data.value.runs.value[0].testName.Some?
    && body.data.value.runs.value[0].testId.Some?
    && body.data.value.runs.value[0].testRunUrl.Some?
  }

  /** The first run of a body that has one. */
  function FirstRun(body: TriggerBody): RunInfo
    requires HasRunFields(body)
  {
    body.data.value.runs.value[0]
  }

  /** The field extraction of the trigger step: a missing key or an empty
      `runs` list is a parse failure, checked before the empty poll URL. */
  function ExtractRun(body: TriggerBody): (r: Result<TriggeredRun>)
    ensures r.Ok? <==> HasRunFields(body) && FirstRun(body).apiTestRunUrl.value != ""
    ensures !HasRunFields(body) ==> r == Err(TriggerParseFailed)
    ensures HasRunFields(body) && FirstRun(body).apiTestRunUrl.value == "" ==> r == Err(NoRunUrl)
    ensures r.Ok? ==>
      && r.value.pollUrl == FirstRun(body).apiTestRunUrl.value
      && r.value.testName == FirstRun(body).testName.value
      && r.value.reportUrl == FirstRun(body).testRunUrl.value
  {
    match body.data
    case None => Err(TriggerParseFailed)
    case Some(data) =>
      match data.runs
      case None => Err(TriggerParseFailed)
      case Some(runs) =>
        if |runs| == 0 then Err(TriggerParseFailed)
        else
          var run := runs[0];
          if run.apiTestRunUrl.None? || run.testName.None? || run.testId.None? || run.testRunUrl.None?
          then Err(TriggerParseFailed)
          else if run.apiTestRunUrl.value == "" then Err(NoRunUrl)
          else Ok(TriggeredRun(run.apiTestRunUrl.value, run.testName.value, run.testRunUrl.value))
  }

  /** The whole trigger step: a failed request is fatal before any parsing. */
  function TriggerTest(response: TriggerResponse): (r: Result<TriggeredRun>)
    ensures r == Err(TriggerRequestFailed) <==> response.TriggerTransportError?
    ensures r.Ok? <==>
      && response.TriggerOk?
      && HasRunFields(response.body)
      && FirstRun(response.body).apiTestRunUrl.value != ""
    ensures r.Err? ==> r.error in {TriggerRequestFailed, TriggerParseFailed, NoRunUrl}
    ensures r.Ok? ==>
      && r.value.pollUrl != ""
      && r.value.pollUrl == FirstRun(response.body).apiTestRunUrl.value
      && r.value.testName == FirstRun(response.body).testName.value
      && r.value.reportUrl == FirstRun(response.body).testRunUrl.value
  {
    match response
    case TriggerTransportError => Err(TriggerRequestFailed)
    case TriggerOk(body) => ExtractRun(body)
  }

  /** The body the service sends for a run: the run first, then any others. */
  function BodyFor(run: TriggeredRun, testId: string, others: seq<RunInfo>): TriggerBody {
    var info := RunInfo(Some(run.pollUrl), Some(run.testName), Some(testId), Some(run.reportUrl));
    TriggerBody(Some(TriggerData(Some([info] + others))))
  }

  /** Extraction recovers exactly the run the service reported first, whatever
      its test id and whatever runs follow it. */
  lemma ExtractRoundTrip(run: TriggeredRun, testId: string, others: seq<RunInfo>)
    requires run.pollUrl != ""
    ensures ExtractRun(BodyFor(run, testId, others)) == Ok(run)
  {
  }

  /** Only the first run is read: runs after it never change the outcome. */
  lemma ExtractReadsFirstRunOnly(first: RunInfo, others: seq<RunInfo>, others': seq<RunInfo>)
    ensures ExtractRun(TriggerBody(Some(TriggerData(Some([first] + others)))))
         == ExtractRun(TriggerBody(Some(TriggerData(Some([first] + others')))))
  {
  }

  /** A body whose first run lacks `api_test_run_url` is fatal, as is one with
      no runs at all. */
  lemma ExtractMissingFieldIsFatal(run: RunInfo, others: seq<RunInfo>)
    requires run.apiTestRunUrl.None?
    ensures ExtractRun(TriggerBody(Some(TriggerData(Some([run] + others))))) == Err(TriggerParseFailed)
    ensures ExtractRun(TriggerBody(Some(TriggerData(Some([]))))) == Err(TriggerParseFailed)
  {
  }
}
