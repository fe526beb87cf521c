/**
  The debug-session route (`debug_code`). It keeps no session: each request names an
  action and, for `step`, the line the client is on, and the reply is computed from
  those two alone with mock variables.
*/
module DebugRoute {
  import opened Results
  import opened PyText

  /** A mock variable value: an `int`, or `None`. */
  type MockValue = Option<int>

  /** The fields of `DebugResponse`. */
  datatype DebugResponse = DebugResponse(
    success: bool,
    currentLine: Option<int>,
    variables: map<string, MockValue>,
    output: string,
    finished: bool)

  /** `current_line or 1`: Python treats both `None` and `0` as false. */
  function LineOrOne(currentLine: Option<int>): int
  {
    if currentLine.None? || currentLine.value == 0 then 1 else currentLine.value
  }

  /** The mock variables reported at `nextLine`. */
  function MockVariables(nextLine: int): map<string, MockValue>
  {
    map["n" := Some(5), "result" := if nextLine > 3 then Some(1) else None]
  }

  /** The reply to `step` from `currentLine`. */
  function StepResponse(currentLine: Option<int>): DebugResponse
  {
    var nextLine := LineOrOne(currentLine) + 1;
    DebugResponse(true, Some(nextLine), MockVariables(nextLine), "Executing line " + IntToString(nextLine), nextLine > 10)
  }

  /** The detail of the 400 error raised for an action the route does not know. */
  function UnknownAction(action: string): HttpError
  {
    HttpError(400, "Unknown debug action: " + action)
  }

  /** `str(e)` of an `HTTPException`: its status code, a colon and its detail. */
  function ErrorText(e: HttpError): string
  {
    IntToString(e.status) + ": " + e.detail
  }

  /**
    `debug_code`. Each of the three known actions succeeds with `success` set; any other
    fails, and the 400 raised for it is itself caught by the handler's `except Exception`
    and re-raised as a 500 whose detail carries the 400's text.
  */
  function DebugCode(action: string, currentLine: Option<int>): (r: Result<DebugResponse, HttpError>)
    ensures r.Failure? <==> action !in {"start", "step", "stop"}
    ensures r.Success? ==> r.value.success
    ensures r.Failure? ==> r.error.status == 500
  {
    if action == "start" then
      Success(DebugResponse(true, Some(1), map[], "Debug session started", false))
    else if action == "step" then
      Success(StepResponse(currentLine))
    else if action == "stop" then
      Success(DebugResponse(true, None, map[], "Debug session stopped", true))
    else
      Failure(HttpError(500, "Debug error: " + ErrorText(UnknownAction(action))))
  }

  // ---------------------------------------------------------------- lemmas

  /** `start` opens at line 1 with no variables, not finished, whatever line was sent. */
  lemma StartResets(currentLine: Option<int>)
    ensures var r := DebugCode("start", currentLine);
      r.Success? && r.value.success && r.value.currentLine == Some(1) && r.value.variables == map[] && !r.value.finished
  {
  }

  /**
    `step` moves to the next line: one past the line sent, and to line 2 when no line or
    line 0 is sent. It finishes exactly past line 10, and reports `result` as 1 exactly
    past line 3.
  */
  lemma StepRule(currentLine: Option<int>)
    ensures var r := DebugCode("step", currentLine);
      var expected := if currentLine == None || currentLine == Some(0) then 2 else currentLine.value + 1;
      && r.Success? && r.value.success
      && r.value.currentLine == Some(expected)
      && (r.value.finished <==> expected > 10)
      && r.value.variables.Keys == {"n", "result"}
      && r.value.variables["n"] == Some(5)
      && (r.value.variables["result"] == Some(1) <==> expected > 3)
      && (r.value.variables["result"] == None <==> expected <= 3)
  {
  }

  /** `stop` clears the line and finishes. */
  lemma StopFinishes(currentLine: Option<int>)
    ensures var r := DebugCode("stop", currentLine);
      r.Success? && r.value.currentLine == None && r.value.finished && r.value.variables == map[]
  {
  }

  /** The route fails exactly on an action other than the three it knows, and then always with status 500, never 400. */
  lemma UnknownActionIs500(action: string, currentLine: Option<int>)
    ensures DebugCode(action, currentLine).Failure? <==> action !in {"start", "step", "stop"}
    ensures DebugCode(action, currentLine).Failure? ==>
      && DebugCode(action, currentLine).error.status == 500
      && DebugCode(action, currentLine).error.detail ==
        "Debug error: " + "400: " + "Unknown debug action: " + action
  {
    if action !in {"start", "step", "stop"} {
      assert IntToString(400) == "400";
    }
  }

  /**
    `debug_code` with the `except HTTPException: raise` clause the other routes put before
    their `except Exception`: an unknown action is answered with the 400 itself.
  */
  function DebugCodeCorrected(action: string, currentLine: Option<int>): (r: Result<DebugResponse, HttpError>)
    ensures r.Failure? <==> action !in {"start", "step", "stop"}
    ensures r.Failure? ==> r.error == HttpError(400, "Unknown debug action: " + action)
    ensures r.Success? ==> r == DebugCode(action, currentLine)
  {
    if action in {"start", "step", "stop"} then DebugCode(action, currentLine)
    else Failure(UnknownAction(action))
  }

  /** The line a client reaches by sending `step` `k` times, each time with the line it was given. */
  function LineAfterSteps(start: int, k: nat): int
  {
    if k == 0 then start else StepResponse(Some(LineAfterSteps(start, k - 1))).currentLine.value
  }

  /**
    A session that starts at line 1 and keeps stepping is on line `1 + k` after `k` steps,
    so the first finished reply is the tenth step's.
  */
  lemma {:induction false} SessionFromStart(k: nat)
    ensures LineAfterSteps(1, k) == 1 + k
    ensures k >= 1 ==> (StepResponse(Some(LineAfterSteps(1, k - 1))).finished <==> k >= 10)
  {
    if k >= 1 {
      SessionFromStart(k - 1);
    }
  }
}
