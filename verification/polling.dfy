/** The poll loop: GET the run's status until it leaves `init`/`working`,
    checking a ceiling of 60 attempts before each GET. The remote service is
    a sequence of responses, one per GET in order; a GET past its end finds
    the service unreachable and fails like any other request. */
module Polling {
  import opened Base

  /** The attempt ceiling, checked before each GET. */
  const MaxAttempts: nat := 60

  /** The status the loop starts from, before any GET. */
  const InitialStatus := "working"

  /** The status read from a body without `data` or without `data.result`. */
  const UnknownStatus := "unknown"

  /** A JSON scalar found at `data.result`. The service sends a string; any
      other scalar is carried through the script as it stands. */
  datatype ResultValue = Text(text: string) | Null | Boolean(flag: bool) | Number(n: int)

  /** The `data` object of a poll body. */
  datatype StatusData = StatusData(result: Option<ResultValue>)

  /** A decoded poll body. */
  datatype PollBody = PollBody(data: Option<StatusData>)

  /** What one GET produced: a transport failure or an error status
      (4xx/5xx), or a body. */
  datatype PollResponse = PollTransportError | PollOk(body: PollBody)

  /** How the loop ends: with the last body read and the number of GETs made,
      or fatally, with the number of GETs made before the script exits. */
  datatype PollOutcome =
    | Completed(body: PollBody, gets: nat)
    | Aborted(error: Fatal, gets: nat)

  /** The two statuses that keep the loop going. */
  predicate InProgress(status: string) {
    status == "init" || status == "working"
  }

  /** The number a string of decimal digits denotes, most significant first. */
  function DigitsValue(s: string): nat
    requires forall i :: 0 <= i < |s| ==> '0' <= s[i] <= '9'
  {
    if s == [] then 0 else DigitsValue(s[..|s| - 1]) * 10 + (s[|s| - 1] as int - '0' as int)
  }

  /** The decimal digits of a natural number, as Python's `str` writes them:
      digits only, no leading zero, and denoting `n`. */
  function NatToString(n: nat): (s: string)
    ensures |s| > 0
    ensures forall i :: 0 <= i < |s| ==> '0' <= s[i] <= '9'
    ensures |s| > 1 ==> s[0] != '0'
    ensures DigitsValue(s) == n
    decreases n
  {
    var last := [('0' as int + n % 10) as char];
    if n < 10 then last else NatToString(n / 10) + last
  }

  /** Python's `str(v)` of a decoded JSON scalar, which is also what an
      f-string writes for it. */
  function Render(v: ResultValue): string {
    match v
    case Text(s) => s
    case Null => "None"
    case Boolean(b) => if b then "True" else "False"
    case Number(n) => if n < 0 then "-" + NatToString(-n) else NatToString(n)
  }

  /** The status the script works with: `data.get("data", {}).get("result",
      "unknown")`, written as a string. */
  function StatusOf(body: PollBody): string {
    match body.data
    case None => UnknownStatus
    case Some(d) => Render(d.result.GetOr(Text(UnknownStatus)))
  }

  /** Comparing the written status with a string decides exactly as the
      script's comparisons on the raw JSON value do: only a JSON string can be
      `init`, `working` or `pass`, since no other scalar equals a string. */
  lemma RenderKeepsComparisons(v: ResultValue)
    ensures InProgress(Render(v)) <==> v.Text? && InProgress(v.text)
    ensures Render(v) == "pass" <==> v == Text("pass")
  {
    match v
    case Number(n) =>
      var s := Render(v);
      assert s[0] == '-' || '0' <= s[0] <= '9';
      assert "init"[0] == 'i' && "working"[0] == 'w' && "pass"[0] == 'p';
    case _ =>
  }

  /** A `null`, boolean or number at `data.result` ends the loop, and it is
      never the passing result. */
  lemma NonTextResultEndsLoop(body: PollBody, v: ResultValue)
    requires body.data == Some(StatusData(Some(v)))
    requires !v.Text?
    ensures !InProgress(StatusOf(body))
    ensures StatusOf(body) != "pass"
    ensures v == Null ==> StatusOf(body) == "None"
  {
    RenderKeepsComparisons(v);
  }

  /** The response to the GET numbered `i` (from 0). */
  function ResponseAt(responses: seq<PollResponse>, i: nat): PollResponse {
    if i < |responses| then responses[i] else PollTransportError
  }

  /** The GET numbered `i` succeeded and reported a status that keeps the loop going. */
  predicate KeepsPolling(responses: seq<PollResponse>, i: nat) {
    ResponseAt(responses, i).PollOk? && InProgress(StatusOf(ResponseAt(responses, i).body))
  }

  /** The first `n` GETs all kept the loop going. */
  predicate InProgressThrough(responses: seq<PollResponse>, n: nat) {
    forall j :: 0 <= j < n ==> KeepsPolling(responses, j)
  }

  /** The loop from the point where `attempts` GETs have been made and every
      one of them reported an in-progress status. The outcome is pinned down
      by the first GET that fails or reports anything else. */
  function PollFrom(responses: seq<PollResponse>, attempts: nat): (o: PollOutcome)
    requires attempts <= MaxAttempts
    requires InProgressThrough(responses, attempts)
    ensures attempts <= o.gets <= MaxAttempts
    ensures o.Completed? ==>
      && attempts < o.gets
      && InProgressThrough(responses, o.gets - 1)
      && ResponseAt(responses, o.gets - 1) == PollOk(o.body)
      && !InProgress(StatusOf(o.body))
    ensures o.Aborted? ==> o.error == PollTimeout || o.error == PollRequestFailed
    ensures o.Aborted? && o.error == PollTimeout ==>
      o.gets == MaxAttempts && InProgressThrough(responses, MaxAttempts)
    ensures o.Aborted? && o.error == PollRequestFailed ==>
      && attempts < o.gets
      && InProgressThrough(responses, o.gets - 1)
      && ResponseAt(responses, o.gets - 1) == PollTransportError
    decreases MaxAttempts - attempts
  {
    if attempts >= MaxAttempts then Aborted(PollTimeout, attempts)
    else
      match ResponseAt(responses, attempts)
      case PollTransportError => Aborted(PollRequestFailed, attempts + 1)
      case PollOk(body) =>
        if InProgress(StatusOf(body)) then PollFrom(responses, attempts + 1)
        else Completed(body, attempts + 1)
  }

  /** The whole loop, from no GETs made. */
  function Poll(responses: seq<PollResponse>): (o: PollOutcome)
    ensures 1 <= o.gets <= MaxAttempts
  {
    PollFrom(responses, 0)
  }

  /** The final status of a completed loop: the status of its last body. */
  function FinalStatus(o: PollOutcome): string
    requires o.Completed?
  {
    StatusOf(o.body)
  }

  /** The loop as the script writes it: a status variable that starts as
      `working`, the ceiling checked before each GET, the counter bumped after. */
  method PollUntilComplete(responses: seq<PollResponse>) returns (o: PollOutcome)
    ensures o == Poll(responses)
    ensures o.Completed? ==> !InProgress(FinalStatus(o))
  {
    var status := InitialStatus;
    var attempts: nat := 0;
    // Unread before the first GET; the loop always makes one.
    var data := PollBody(None);
    while InProgress(status)
      invariant attempts <= MaxAttempts
      invariant attempts == 0 ==> status == InitialStatus
      invariant attempts > 0 ==> ResponseAt(responses, attempts - 1) == PollOk(data) && status == StatusOf(data)
      invariant InProgress(status) ==> InProgressThrough(responses, attempts)
      invariant InProgress(status) ==> Poll(responses) == PollFrom(responses, attempts)
      invariant !InProgress(status) ==> Poll(responses) == Completed(data, attempts)
      decreases MaxAttempts - attempts
    {
      if attempts >= MaxAttempts {
        return Aborted(PollTimeout, attempts);
      }
      var response := ResponseAt(responses, attempts);
      match response {
        case PollTransportError =>
          return Aborted(PollRequestFailed, attempts + 1);
        case PollOk(body) =>
          data := body;
          status := StatusOf(body);
      }
      attempts := attempts + 1;
    }
    return Completed(data, attempts);
  }

  /** From any point before GET number `k`, the loop runs through to `k`
      while every GET before `k` keeps it going. */
  lemma {:induction false} PollFromReaches(responses: seq<PollResponse>, i: nat, k: nat)
    requires i <= k <= MaxAttempts
    requires InProgressThrough(responses, k)
    ensures PollFrom(responses, i) == PollFrom(responses, k)
    decreases k - i
  {
    if i < k {
      assert KeepsPolling(responses, i);
      PollFromReaches(responses, i + 1, k);
    }
  }

  /** If the first GET whose status leaves `init`/`working` is GET number `k`
      (from 0) and `k` is below the ceiling, the loop makes exactly `k + 1`
      GETs and ends with that GET's body. */
  lemma PollStopsAtFirstTerminal(responses: seq<PollResponse>, k: nat)
    requires k < MaxAttempts
    requires InProgressThrough(responses, k)
    requires ResponseAt(responses, k).PollOk?
    requires !InProgress(StatusOf(ResponseAt(responses, k).body))
    ensures Poll(responses) == Completed(ResponseAt(responses, k).body, k + 1)
  {
    PollFromReaches(responses, 0, k);
  }

  /** If the first 60 GETs all report `init`/`working`, the loop times out
      after exactly 60 GETs: a 61st is never made. */
  lemma PollTimesOut(responses: seq<PollResponse>)
    requires InProgressThrough(responses, MaxAttempts)
    ensures Poll(responses) == Aborted(PollTimeout, MaxAttempts)
  {
    PollFromReaches(responses, 0, MaxAttempts);
  }

  /** A failed GET ends the loop at once, with no retry. */
  lemma PollFailsOnTransportError(responses: seq<PollResponse>, k: nat)
    requires k < MaxAttempts
    requires InProgressThrough(responses, k)
    requires ResponseAt(responses, k) == PollTransportError
    ensures Poll(responses) == Aborted(PollRequestFailed, k + 1)
  {
    PollFromReaches(responses, 0, k);
  }

  /** A body with no `data.result` reads as `unknown`, which ends the loop. */
  lemma MissingResultEndsLoop(body: PollBody)
    requires body.data.None? || body.data.value.result.None?
    ensures StatusOf(body) == UnknownStatus
    ensures !InProgress(StatusOf(body))
  {
  }

  /** Example: `working`, `working`, `pass` takes three GETs and ends with
      `pass`. */
  lemma PollExample()
    ensures var o := Poll([PollOk(PollBody(Some(StatusData(Some(Text("working")))))),
                           PollOk(PollBody(Some(StatusData(Some(Text("working")))))),
                           PollOk(PollBody(Some(StatusData(Some(Text("pass"))))))]);
      o.Completed? && o.gets == 3 && FinalStatus(o) == "pass"
  {
    var working := PollOk(PollBody(Some(StatusData(Some(Text("working"))))));
    var pass := PollOk(PollBody(Some(StatusData(Some(Text("pass"))))));
    var rs := [working, working, pass];
    assert KeepsPolling(rs, 0) && KeepsPolling(rs, 1);
    PollStopsAtFirstTerminal(rs, 2);
  }
}
