/** The JUnit report as a record: one `testsuite` holding one `testcase`,
    which has an optional `failure` child and a `system-out` text. Attribute
    values are the strings the script writes; the elapsed time is kept as a
    number and appears in both `time` attributes. */
module Report {
  import opened Base

  /** The result string that marks the remote test as passed. */
  const PassToken := "pass"

  /** The `name` attribute of the suite. */
  const SuiteName := "Runscope Test Suite"

  /** The `classname` attribute of the test case. */
  const ClassName := "Runscope"

  /** What the `failure` message puts before the result. */
  const FailurePrefix := "API Monitoring test result: "

  /** What the `system-out` text puts before the report URL. */
  const ReportUrlPrefix := "Test Report URL: "

  /** The `failure` child of a test case. */
  datatype FailureElement = FailureElement(message: string)

  /** The `testcase` element. */
  datatype TestCase = TestCase(
    classname: string,
    name: string,
    time: real,
    failure: Option<FailureElement>,
    systemOut: string)

  /** The `testsuite` element, the root of the report. */
  datatype TestSuite = TestSuite(
    name: string,
    tests: string,
    failures: string,
    errors: string,
    skipped: string,
    time: real,
    testcase: TestCase)

  /** The suite is a consistent JUnit record for one test: one test, no
      errors or skips, a `failures` count that matches the number of `failure`
      children, and one duration for suite and case. */
  predicate WellFormed(s: TestSuite) {
    && s.name == SuiteName
    && s.tests == "1"
    && s.errors == "0"
    && s.skipped == "0"
    && s.failures == (if s.testcase.failure.Some? then "1" else "0")
    && s.testcase.classname == ClassName
    && s.testcase.time == s.time
  }

  /** The report records a passing test. */
  predicate Passed(s: TestSuite) {
    s.testcase.failure.None?
  }

  /** The report for one finished run. */
  function GenerateReport(testName: string, finalResult: string, testRunUrl: string, duration: real): (s: TestSuite)
    ensures WellFormed(s)
    ensures Passed(s) <==> finalResult == PassToken
    ensures s.failures == "0" <==> finalResult == PassToken
    ensures s.testcase.name == testName
    ensures s.time == duration
    ensures finalResult != PassToken ==> s.testcase.failure == Some(FailureElement(FailurePrefix + finalResult))
    ensures s.testcase.systemOut == ReportUrlPrefix + testRunUrl
  {
    var failure := if finalResult != PassToken then Some(FailureElement(FailurePrefix + finalResult)) else None;
    var testcase := TestCase(ClassName, testName, duration, failure, ReportUrlPrefix + testRunUrl);
    TestSuite(SuiteName, "1", if finalResult == PassToken then "0" else "1", "0", "0", duration, testcase)
  }

  /** The result a reader of the report recovers: `pass` when there is no
      failure child, otherwise what follows the failure message's prefix. */
  function ResultOf(s: TestSuite): Option<string> {
    match s.testcase.failure
    case None => Some(PassToken)
    case Some(f) =>
      if StartsWith(f.message, FailurePrefix) then Some(f.message[|FailurePrefix|..]) else None
  }

  /** The report URL a reader recovers from the `system-out` text. */
  function ReportUrlOf(s: TestSuite): Option<string> {
    if StartsWith(s.testcase.systemOut, ReportUrlPrefix)
    then Some(s.testcase.systemOut[|ReportUrlPrefix|..])
    else None
  }

  /** The report loses nothing: the final result, the report URL, the test
      name and the duration can all be read back from it. */
  lemma ReportRoundTrip(testName: string, finalResult: string, testRunUrl: string, duration: real)
    ensures var s := GenerateReport(testName, finalResult, testRunUrl, duration);
      && ResultOf(s) == Some(finalResult)
      && ReportUrlOf(s) == Some(testRunUrl)
      && s.testcase.name == testName
      && s.testcase.time == duration
  {
    var s := GenerateReport(testName, finalResult, testRunUrl, duration);
    if finalResult != PassToken {
      assert (FailurePrefix + finalResult)[|FailurePrefix|..] == finalResult;
    }
    assert (ReportUrlPrefix + testRunUrl)[|ReportUrlPrefix|..] == testRunUrl;
  }

  /** Different results give different reports: no two outcomes of the run
      are recorded the same way. */
  lemma ReportDistinguishesResults(testName: string, r1: string, r2: string, testRunUrl: string, duration: real)
    requires r1 != r2
    ensures GenerateReport(testName, r1, testRunUrl, duration) != GenerateReport(testName, r2, testRunUrl, duration)
  {
    ReportRoundTrip(testName, r1, testRunUrl, duration);
    ReportRoundTrip(testName, r2, testRunUrl, duration);
  }

  /** Examples: `fail` gives one failure with its message,
      `pass` gives none. */
  lemma ReportExamples(testName: string, testRunUrl: string, duration: real)
    ensures var s := GenerateReport(testName, "fail", testRunUrl, duration);
      s.failures == "1" && s.testcase.failure == Some(FailureElement("API Monitoring test result: fail"))
    ensures var s := GenerateReport(testName, "pass", testRunUrl, duration);
      s.failures == "0" && s.testcase.failure.None?
  {
    assert FailurePrefix + "fail" == "API Monitoring test result: fail";
  }
}
