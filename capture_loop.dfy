/** The per-display capture loop of `Core::runLoop` as a state machine over
    the answers of its encoder. The encoder's Capture, Init and Preproc calls
    are opaque: each answers with the next HRESULT of a script, in the order
    the loop issues them. Cleanup answers nothing. */
module CaptureLoop {
  import opened HResults

  /** One call the loop makes on its encoder, with the HRESULT it returned. */
  datatype Call =
    | Capture(result: HRESULT)
    | Cleanup(force: bool)
    | EncoderInit(result: HRESULT)
    | Preproc(result: HRESULT)

  /** How the loop ended: it returned a code, or the script ran out while a
      call was still waiting for its answer (the loop itself had not ended). */
  datatype Exit = Returned(code: int) | Pending

  datatype Status = Running | Done(exit: Exit)

  /** The effect of one pass through the loop body: whether the loop goes on
      to its test, the new `capturedFrames` and `hr`, how many scripted
      answers the pass consumed, and the calls it made. */
  datatype Tick = Tick(status: Status, captured: int, hr: HRESULT, used: nat, calls: seq<Call>)

  /** The effect of a whole run of the loop. */
  datatype Run = Run(exit: Exit, captured: int, hr: HRESULT, calls: seq<Call>)

  /** A call whose failure makes the loop return -1. */
  predicate Fatal(c: Call) {
    (c.EncoderInit? || c.Preproc?) && Failed(c.result)
  }

  /** A successful Preproc: one more captured frame. */
  predicate Processes(c: Call) {
    c.Preproc? && !Failed(c.result)
  }

  /** The number of successful Preproc calls in a call log. */
  function Processed(calls: seq<Call>): nat
  {
    if calls == [] then 0 else (if Processes(calls[0]) then 1 else 0) + Processed(calls[1..])
  }

  /** Every Preproc is issued right after a Capture, and that Capture either
      succeeded or is the extra one issued right after a successful
      re-initialisation (whose answer the loop ignores). A timed-out or failed
      capture of a pass therefore never reaches Preproc. */
  ghost predicate PreprocGuarded(calls: seq<Call>) {
    forall i {:trigger calls[i]} :: 0 <= i < |calls| && calls[i].Preproc? ==>
      1 <= i && calls[i - 1].Capture? &&
      (!Failed(calls[i - 1].result) || (2 <= i && calls[i - 2].EncoderInit? && !Failed(calls[i - 2].result)))
  }

  /** A successful Capture is followed by Preproc, and a successful Preproc by
      the Capture of the next pass, whenever the log goes on. */
  ghost predicate SuccessesContinue(calls: seq<Call>) {
    && (forall i {:trigger calls[i]} :: 0 <= i < |calls| - 1 && calls[i].Capture? && !Failed(calls[i].result) ==>
          calls[i + 1].Preproc?)
    && (forall i {:trigger calls[i]} :: 0 <= i < |calls| - 1 && Processes(calls[i]) ==> calls[i + 1].Capture?)
  }

  /** The number of calls in a log that consumed an answer of the script:
      all but Cleanup. */
  function Answered(calls: seq<Call>): nat
  {
    if calls == [] then 0 else (if calls[0].Cleanup? then 0 else 1) + Answered(calls[1..])
  }

  /** A fatal call can only be the last call of a log. */
  ghost predicate FatalOnlyLast(calls: seq<Call>) {
    forall i :: 0 <= i < |calls| - 1 ==> !Fatal(calls[i])
  }

  /** Where a pass through the loop body stands: the encoder call it makes
      next. A failed capture leads to re-initialisation; a successful
      re-initialisation to one extra capture; then comes Preproc. */
  datatype Phase = Capturing | Reinitialising | Recapturing | Preprocessing

  /** The rest of a pass that stands at `phase`, on the answers still in the
      script, having consumed `used` answers and made `calls` so far. */
  function Pass(phase: Phase, results: seq<HRESULT>, captured: int, hr: HRESULT, used: nat, calls: seq<Call>): (t: Tick)
    decreases |results|
    ensures used <= t.used <= used + |results|
    ensures t.status == Running ==> used < t.used
    ensures calls <= t.calls
    ensures 0 < |results| && (phase == Capturing || phase == Recapturing) ==>
      |calls| < |t.calls| && t.calls[|calls|] == Capture(results[0])
    // only a successful Preproc moves the counter, and a pass makes at most one
    ensures t.captured + Processed(calls) == captured + Processed(t.calls)
    ensures Processed(t.calls) <= Processed(calls) + 1
    ensures t.status == Running ==>
      Processed(t.calls) == Processed(calls) + 1 ||
      (phase == Capturing && t.calls == calls + [Capture(DXGI_ERROR_WAIT_TIMEOUT)])
    ensures t.status.Done? && t.status.exit.Returned? ==> t.status.exit.code == -1
    ensures t.status == Running ==> t.hr == DXGI_ERROR_WAIT_TIMEOUT || !Failed(t.hr)
  {
    if |results| == 0 then Tick(Done(Pending), captured, hr, used, calls)
    else
      var answer, rest := results[0], results[1..];
      match phase
      case Capturing =>
        ProcessedAppend(calls, [Capture(answer)]);
        if answer == DXGI_ERROR_WAIT_TIMEOUT then Tick(Running, captured, answer, used + 1, calls + [Capture(answer)])
        else if Failed(answer) then
          ProcessedAppend(calls + [Capture(answer)], [Cleanup(true)]);
          Pass(Reinitialising, rest, captured, answer, used + 1, calls + [Capture(answer)] + [Cleanup(true)])
        else Pass(Preprocessing, rest, captured, answer, used + 1, calls + [Capture(answer)])
      case Reinitialising =>
        ProcessedAppend(calls, [EncoderInit(answer)]);
        if Failed(answer) then Tick(Done(Returned(-1)), captured, answer, used + 1, calls + [EncoderInit(answer)])
        else Pass(Recapturing, rest, captured, answer, used + 1, calls + [EncoderInit(answer)])
      case Recapturing =>
        // the extra capture's answer is not assigned to hr
        ProcessedAppend(calls, [Capture(answer)]);
        Pass(Preprocessing, rest, captured, hr, used + 1, calls + [Capture(answer)])
      case Preprocessing =>
        ProcessedAppend(calls, [Preproc(answer)]);
        if Failed(answer) then Tick(Done(Returned(-1)), captured, answer, used + 1, calls + [Preproc(answer)])
        else Tick(Running, captured + 1, answer, used + 1, calls + [Preproc(answer)])
  }

  /** One pass through the body of the `do ... while` loop. */
  function Body(results: seq<HRESULT>, captured: int, hr: HRESULT): (t: Tick)
    ensures t.used <= |results|
    ensures t.status == Running ==> 1 <= t.used
    ensures t.status == Done(Pending) ==> t.used == |results|
    // the do-while body always starts with a capture
    ensures 0 < |results| ==> 0 < |t.calls| && t.calls[0] == Capture(results[0])
    // the counter moves by exactly the successful Preproc calls, at most one
    ensures t.captured == captured + Processed(t.calls) && Processed(t.calls) <= 1
    ensures t.status == Running ==> Processed(t.calls) == 1 || t.calls == [Capture(DXGI_ERROR_WAIT_TIMEOUT)]
    ensures t.status.Done? && t.status.exit.Returned? ==> t.status.exit.code == -1
    ensures t.status == Running ==> t.hr == DXGI_ERROR_WAIT_TIMEOUT || !Failed(t.hr)
  {
    assert Processed([]) == 0;
    assert [] + [Capture(DXGI_ERROR_WAIT_TIMEOUT)] == [Capture(DXGI_ERROR_WAIT_TIMEOUT)];
    PassPendsAtEnd(Capturing, results, captured, hr, 0, []);
    Pass(Capturing, results, captured, hr, 0, [])
  }

  /** A pass whose capture succeeded goes on to Preproc. */
  lemma CapturedPass(results: seq<HRESULT>, captured: int, hr: HRESULT)
    requires 0 < |results| && !Failed(results[0])
    ensures Body(results, captured, hr) == Pass(Preprocessing, results[1..], captured, results[0], 1, [Capture(results[0])])
  {
    assert [] + [Capture(results[0])] == [Capture(results[0])];
  }

  /** A pass whose capture failed without timing out cleans up, then
      re-initialises the encoder. */
  lemma FailedCapturePass(results: seq<HRESULT>, captured: int, hr: HRESULT)
    requires 0 < |results| && results[0] != DXGI_ERROR_WAIT_TIMEOUT && Failed(results[0])
    ensures Body(results, captured, hr) ==
      Pass(Reinitialising, results[1..], captured, results[0], 1, [Capture(results[0]), Cleanup(true)])
  {
    assert [] + [Capture(results[0])] + [Cleanup(true)] == [Capture(results[0]), Cleanup(true)];
  }

  /** After a successful re-initialisation the pass captures once more. */
  lemma RecoveredPass(results: seq<HRESULT>, captured: int, hr: HRESULT)
    requires 2 <= |results| && results[0] != DXGI_ERROR_WAIT_TIMEOUT && Failed(results[0]) && !Failed(results[1])
    ensures Body(results, captured, hr) ==
      Pass(Recapturing, results[2..], captured, results[1], 2, [Capture(results[0]), Cleanup(true), EncoderInit(results[1])])
  {
    FailedCapturePass(results, captured, hr);
    assert results[1..][0] == results[1] && results[1..][1..] == results[2..];
    assert [Capture(results[0]), Cleanup(true)] + [EncoderInit(results[1])] ==
      [Capture(results[0]), Cleanup(true), EncoderInit(results[1])];
  }

  /** How one pass's calls depend on its capture's answer. */
  lemma BodyBranches(results: seq<HRESULT>, captured: int, hr: HRESULT)
    // a timeout skips straight to the loop test
    ensures var t := Body(results, captured, hr);
      0 < |results| && results[0] == DXGI_ERROR_WAIT_TIMEOUT ==>
        t.status == Running && t.calls == [Capture(results[0])] && t.captured == captured
    // any other failed capture cleans up and re-initialises the encoder
    ensures var t := Body(results, captured, hr);
      0 < |results| && results[0] != DXGI_ERROR_WAIT_TIMEOUT && Failed(results[0]) ==>
        2 <= |t.calls| && t.calls[1] == Cleanup(true) &&
        (2 <= |results| ==> 3 <= |t.calls| && t.calls[2] == EncoderInit(results[1]))
    // a failed re-initialisation ends the loop with -1 and nothing after it
    ensures var t := Body(results, captured, hr);
      2 <= |results| && results[0] != DXGI_ERROR_WAIT_TIMEOUT && Failed(results[0]) && Failed(results[1]) ==>
        t.status == Done(Returned(-1)) && t.calls == [Capture(results[0]), Cleanup(true), EncoderInit(results[1])]
    // a successful capture goes on to Preproc: a failed Preproc ends the loop
    // with -1, a successful one counts the frame and reaches the loop test
    ensures var t := Body(results, captured, hr);
      2 <= |results| && !Failed(results[0]) ==>
        t.calls == [Capture(results[0]), Preproc(results[1])] && t.used == 2 &&
        (Failed(results[1]) ==> t.status == Done(Returned(-1)) && t.captured == captured) &&
        (!Failed(results[1]) ==> t.status == Running && t.captured == captured + 1 && t.hr == results[1])
  {
    if 0 < |results| && results[0] == DXGI_ERROR_WAIT_TIMEOUT {
      assert [] + [Capture(results[0])] == [Capture(results[0])];
    } else if 2 <= |results| && !Failed(results[0]) {
      CapturedPass(results, captured, hr);
      assert results[1..][0] == results[1];
    } else if 0 < |results| && Failed(results[0]) {
      FailedCapturePass(results, captured, hr);
      if 2 <= |results| {
        assert results[1..][0] == results[1];
        assert [Capture(results[0]), Cleanup(true)] + [EncoderInit(results[1])] ==
          [Capture(results[0]), Cleanup(true), EncoderInit(results[1])];
      }
    }
  }

  /** A pass the script cuts short is left pending after the calls whose
      answers it had; the last of them, when any, is not a failure. */
  lemma BodyRunsOut(results: seq<HRESULT>, captured: int, hr: HRESULT)
    ensures |results| == 0 ==> Body(results, captured, hr) == Tick(Done(Pending), captured, hr, 0, [])
    ensures |results| == 1 && results[0] != DXGI_ERROR_WAIT_TIMEOUT ==>
      var t := Body(results, captured, hr);
      t.status == Done(Pending) &&
      t.calls == (if Failed(results[0]) then [Capture(results[0]), Cleanup(true)] else [Capture(results[0])])
    ensures 2 <= |results| <= 3 && results[0] != DXGI_ERROR_WAIT_TIMEOUT && Failed(results[0]) && !Failed(results[1]) ==>
      var t := Body(results, captured, hr);
      var reinit := [Capture(results[0]), Cleanup(true), EncoderInit(results[1])];
      t.status == Done(Pending) &&
      t.calls == (if |results| == 2 then reinit else reinit + [Capture(results[2])])
  {
    if |results| == 1 && results[0] != DXGI_ERROR_WAIT_TIMEOUT {
      if Failed(results[0]) {
        FailedCapturePass(results, captured, hr);
      } else {
        CapturedPass(results, captured, hr);
      }
    } else if 2 <= |results| <= 3 && results[0] != DXGI_ERROR_WAIT_TIMEOUT && Failed(results[0]) && !Failed(results[1]) {
      RecoveredPass(results, captured, hr);
      if |results| == 3 {
        assert results[2..][0] == results[2] && results[2..][1..] == results[3..];
      }
    }
  }

  /** A pass is left pending only when the script has no answer left. */
  lemma {:induction false} PassPendsAtEnd(phase: Phase, results: seq<HRESULT>, captured: int, hr: HRESULT, used: nat, calls: seq<Call>)
    decreases |results|
    ensures var t := Pass(phase, results, captured, hr, used, calls);
      t.status == Done(Pending) ==> t.used == used + |results|
  {
    if |results| > 0 {
      var answer, rest := results[0], results[1..];
      match phase
      case Capturing =>
        if answer == DXGI_ERROR_WAIT_TIMEOUT {
        } else if Failed(answer) {
          PassPendsAtEnd(Reinitialising, rest, captured, answer, used + 1, calls + [Capture(answer)] + [Cleanup(true)]);
        } else {
          PassPendsAtEnd(Preprocessing, rest, captured, answer, used + 1, calls + [Capture(answer)]);
        }
      case Reinitialising =>
        if !Failed(answer) {
          PassPendsAtEnd(Recapturing, rest, captured, answer, used + 1, calls + [EncoderInit(answer)]);
        }
      case Recapturing =>
        PassPendsAtEnd(Preprocessing, rest, captured, hr, used + 1, calls + [Capture(answer)]);
      case Preprocessing =>
    }
  }

  /** Each answer a pass consumes belongs to exactly one of its calls. */
  lemma {:induction false} PassAnswers(phase: Phase, results: seq<HRESULT>, captured: int, hr: HRESULT, used: nat, calls: seq<Call>)
    decreases |results|
    ensures var t := Pass(phase, results, captured, hr, used, calls);
      Answered(t.calls) == Answered(calls) + (t.used - used)
  {
    if |results| > 0 {
      var t := Pass(phase, results, captured, hr, used, calls);
      var answer, rest := results[0], results[1..];
      match phase
      case Capturing =>
        var logged := calls + [Capture(answer)];
        AnsweredOne(calls, Capture(answer));
        if answer == DXGI_ERROR_WAIT_TIMEOUT {
          assert t == Tick(Running, captured, answer, used + 1, logged);
        } else if Failed(answer) {
          AnsweredOne(logged, Cleanup(true));
          PassAnswers(Reinitialising, rest, captured, answer, used + 1, logged + [Cleanup(true)]);
          assert t == Pass(Reinitialising, rest, captured, answer, used + 1, logged + [Cleanup(true)]);
        } else {
          PassAnswers(Preprocessing, rest, captured, answer, used + 1, logged);
          assert t == Pass(Preprocessing, rest, captured, answer, used + 1, logged);
        }
      case Reinitialising =>
        AnsweredOne(calls, EncoderInit(answer));
        if !Failed(answer) {
          PassAnswers(Recapturing, rest, captured, answer, used + 1, calls + [EncoderInit(answer)]);
        }
      case Recapturing =>
        AnsweredOne(calls, Capture(answer));
        PassAnswers(Preprocessing, rest, captured, hr, used + 1, calls + [Capture(answer)]);
      case Preprocessing =>
        AnsweredOne(calls, Preproc(answer));
    }
  }

  /** A pass's successful Capture goes on to Preproc, and a pass that reaches
      the loop test ends with a counted frame or a timed-out capture. */
  lemma BodySuccessesContinue(results: seq<HRESULT>, captured: int, hr: HRESULT)
    ensures SuccessesContinue(Body(results, captured, hr).calls)
    ensures var t := Body(results, captured, hr);
      t.status == Running ==>
        0 < |t.calls| && (Processes(t.calls[|t.calls| - 1]) || t.calls[|t.calls| - 1] == Capture(DXGI_ERROR_WAIT_TIMEOUT))
  {
    BodyBranches(results, captured, hr);
    BodyRunsOut(results, captured, hr);
    if 4 <= |results| && results[0] != DXGI_ERROR_WAIT_TIMEOUT && Failed(results[0]) && !Failed(results[1]) {
      ExtraCaptureIgnored(results, captured, hr, results[2]);
    }
  }

  /** The loop body returns only from a fatal call, which is its last call,
      and it preprocesses only after a capture that may be used. */
  lemma BodyCallsWellFormed(results: seq<HRESULT>, captured: int, hr: HRESULT)
    ensures var t := Body(results, captured, hr);
      t.status.Done? && t.status.exit.Returned? <==> 0 < |t.calls| && Fatal(t.calls[|t.calls| - 1])
    ensures FatalOnlyLast(Body(results, captured, hr).calls)
    ensures PreprocGuarded(Body(results, captured, hr).calls)
  {
    BodyBranches(results, captured, hr);
    BodyRunsOut(results, captured, hr);
    if 4 <= |results| && results[0] != DXGI_ERROR_WAIT_TIMEOUT && Failed(results[0]) && !Failed(results[1]) {
      ExtraCaptureIgnored(results, captured, hr, results[2]);
    }
  }

  /** After a successful re-initialisation the pass issues exactly one extra
      Capture and then Preproc, whatever that Capture answered: changing its
      answer changes nothing but the logged answer. */
  lemma ExtraCaptureIgnored(results: seq<HRESULT>, captured: int, hr: HRESULT, other: HRESULT)
    requires 4 <= |results| && results[0] != DXGI_ERROR_WAIT_TIMEOUT && Failed(results[0]) && !Failed(results[1])
    ensures Body(results, captured, hr).calls ==
      [Capture(results[0]), Cleanup(true), EncoderInit(results[1]), Capture(results[2]), Preproc(results[3])]
    // the Preproc after recovery decides the pass as after a good capture
    ensures var t := Body(results, captured, hr);
      t.used == 4 &&
      (Failed(results[3]) ==> t.status == Done(Returned(-1)) && t.captured == captured) &&
      (!Failed(results[3]) ==> t.status == Running && t.captured == captured + 1 && t.hr == results[3])
    ensures var t, u := Body(results, captured, hr), Body(results[2 := other], captured, hr);
      t.status == u.status && t.captured == u.captured && t.hr == u.hr && t.used == u.used &&
      u.calls == t.calls[3 := Capture(other)]
  {
    var changed := results[2 := other];
    RecoveredPass(results, captured, hr);
    RecoveredPass(changed, captured, hr);
    var reinit := [Capture(results[0]), Cleanup(true), EncoderInit(results[1])];
    assert changed[0] == results[0] && changed[1] == results[1];
    assert results[2..][0] == results[2] && results[2..][1..] == results[3..];
    assert changed[2..][0] == other && changed[2..][1..] == results[3..];
    assert results[3..][0] == results[3];
    var t := Pass(Preprocessing, results[3..], captured, results[1], 3, reinit + [Capture(results[2])]);
    var u := Pass(Preprocessing, results[3..], captured, results[1], 3, reinit + [Capture(other)]);
    assert Body(results, captured, hr) == t && Body(changed, captured, hr) == u;
    assert u.calls == t.calls[3 := Capture(other)];
  }

  /** A run preceded by the calls of the passes before it. */
  function Prepend(calls: seq<Call>, r: Run): Run {
    Run(r.exit, r.captured, r.hr, calls + r.calls)
  }

  /** One pass of the loop over the answers from `next` on, seen from the
      whole run: it finishes the run, or leaves the rest of the run to the
      answers after the ones it used. */
  lemma RunFromStep(results: seq<HRESULT>, next: nat, before: seq<Call>, captured: int, hr: HRESULT, nFrames: int,
                    status: Status, used: nat, calls: seq<Call>, captured': int, hr': HRESULT)
    requires next <= |results|
    requires Tick(status, captured', hr', used, calls) == Body(results[next..], captured, hr)
    ensures var run := Prepend(before, RunFrom(results[next..], captured, hr, nFrames));
      && (status.Done? ==> run == Run(status.exit, captured', hr', before + calls))
      && (status.Running? && captured' > nFrames ==> run == Run(Returned(0), captured', hr', before + calls))
      && (status.Running? && captured' <= nFrames ==>
            0 < used && next + used <= |results| &&
            run == Prepend(before + calls, RunFrom(results[next + used..], captured', hr', nFrames)))
  {
    var rest := results[next..];
    if status.Running? && captured' <= nFrames {
      assert rest[used..] == results[next + used..];
      var after := RunFrom(rest[used..], captured', hr', nFrames);
      assert RunFrom(rest, captured, hr, nFrames) == Prepend(calls, after);
      assert before + (calls + after.calls) == (before + calls) + after.calls;
    }
  }

  /** The whole loop from a given counter and hr: run a pass, then continue
      while `capturedFrames <= nFrames`. */
  function RunFrom(results: seq<HRESULT>, captured: int, hr: HRESULT, nFrames: int): (r: Run)
    decreases |results|
    ensures r.exit == Pending || r.exit == Returned(0) || r.exit == Returned(-1)
    ensures r.exit == Returned(0) ==> r.captured > nFrames
    ensures 0 < |results| ==> 0 < |r.calls| && r.calls[0] == Capture(results[0])
  {
    var t := Body(results, captured, hr);
    match t.status
    case Done(exit) => Run(exit, t.captured, t.hr, t.calls)
    case Running =>
      if t.captured <= nFrames then Prepend(t.calls, RunFrom(results[t.used..], t.captured, t.hr, nFrames))
      else Run(Returned(0), t.captured, t.hr, t.calls)
  }

  lemma {:induction false} ProcessedAppend(a: seq<Call>, b: seq<Call>)
    ensures Processed(a + b) == Processed(a) + Processed(b)
  {
    if a == [] {
      assert a + b == b;
    } else {
      assert (a + b)[0] == a[0];
      assert (a + b)[1..] == a[1..] + b;
      ProcessedAppend(a[1..], b);
    }
  }

  /** Logging one more call adds one answer, unless the call is Cleanup. */
  lemma AnsweredOne(calls: seq<Call>, c: Call)
    ensures Answered(calls + [c]) == Answered(calls) + (if c.Cleanup? then 0 else 1)
  {
    AnsweredAppend(calls, [c]);
    assert [c][1..] == [];
  }

  lemma {:induction false} AnsweredAppend(a: seq<Call>, b: seq<Call>)
    ensures Answered(a + b) == Answered(a) + Answered(b)
  {
    if a == [] {
      assert a + b == b;
    } else {
      assert (a + b)[0] == a[0];
      assert (a + b)[1..] == a[1..] + b;
      AnsweredAppend(a[1..], b);
    }
  }

  /** A run answers its calls from the script and no further, and it is left
      pending only once every answer of the script has been consumed: while
      answers remain, the loop goes on or returns. */
  lemma {:induction false} RunPendingOnlyWhenAnswersRunOut(results: seq<HRESULT>, captured: int, hr: HRESULT, nFrames: int)
    ensures Answered(RunFrom(results, captured, hr, nFrames).calls) <= |results|
    ensures RunFrom(results, captured, hr, nFrames).exit == Pending ==>
      Answered(RunFrom(results, captured, hr, nFrames).calls) == |results|
    decreases |results|
  {
    var t := Body(results, captured, hr);
    PassAnswers(Capturing, results, captured, hr, 0, []);
    if t.status == Running && t.captured <= nFrames {
      var rest := RunFrom(results[t.used..], t.captured, t.hr, nFrames);
      RunPendingOnlyWhenAnswersRunOut(results[t.used..], t.captured, t.hr, nFrames);
      AnsweredAppend(t.calls, rest.calls);
    }
  }

  /** `capturedFrames` grows by exactly one per successful Preproc over the
      whole run, and by nothing else. */
  lemma {:induction false} RunCountsProcessedFrames(results: seq<HRESULT>, captured: int, hr: HRESULT, nFrames: int)
    ensures RunFrom(results, captured, hr, nFrames).captured == captured + Processed(RunFrom(results, captured, hr, nFrames).calls)
    decreases |results|
  {
    var t := Body(results, captured, hr);
    if t.status == Running && t.captured <= nFrames {
      var rest := RunFrom(results[t.used..], t.captured, t.hr, nFrames);
      RunCountsProcessedFrames(results[t.used..], t.captured, t.hr, nFrames);
      ProcessedAppend(t.calls, rest.calls);
    }
  }

  /** Started at or below the limit, the loop can only return 0 with the
      counter exactly one past the limit: the do-while runs until
      `capturedFrames > nFrames`, one frame at a time. */
  lemma {:induction false} RunExitsOnePastLimit(results: seq<HRESULT>, captured: int, hr: HRESULT, nFrames: int)
    requires captured <= nFrames
    ensures RunFrom(results, captured, hr, nFrames).exit == Returned(0) ==>
      RunFrom(results, captured, hr, nFrames).captured == nFrames + 1
    decreases |results|
  {
    var t := Body(results, captured, hr);
    if t.status == Running && t.captured <= nFrames {
      RunExitsOnePastLimit(results[t.used..], t.captured, t.hr, nFrames);
    }
  }

  /** Started at or below the limit, the loop never counts past one frame
      over it: a pass that reaches the test with `capturedFrames > nFrames`
      ends the run. */
  lemma {:induction false} RunStopsAtLimit(results: seq<HRESULT>, captured: int, hr: HRESULT, nFrames: int)
    requires captured <= nFrames
    ensures RunFrom(results, captured, hr, nFrames).captured <= nFrames + 1
    decreases |results|
  {
    var t := Body(results, captured, hr);
    if t.status == Running && t.captured <= nFrames {
      RunStopsAtLimit(results[t.used..], t.captured, t.hr, nFrames);
    }
  }

  lemma PreprocGuardedAppend(a: seq<Call>, b: seq<Call>)
    requires PreprocGuarded(a) && PreprocGuarded(b)
    requires 0 < |b| ==> b[0].Capture?
    ensures PreprocGuarded(a + b)
  {
    var c := a + b;
    forall i | 0 <= i < |c| && c[i].Preproc?
      ensures 1 <= i && c[i - 1].Capture? &&
        (!Failed(c[i - 1].result) || (2 <= i && c[i - 2].EncoderInit? && !Failed(c[i - 2].result)))
    {
      if i >= |a| {
        var j := i - |a|;
        assert c[i] == b[j];
        assert b[j].Preproc?;
        assert 1 <= j && b[j - 1].Capture?;
        assert c[i - 1] == b[j - 1];
        if 2 <= j {
          assert c[i - 2] == b[j - 2];
        } else {
          assert !Failed(b[j - 1].result);
        }
      } else {
        assert c[i] == a[i];
        assert a[i].Preproc?;
        assert 1 <= i && a[i - 1].Capture?;
        assert c[i - 1] == a[i - 1];
        if 2 <= i {
          assert c[i - 2] == a[i - 2];
        }
      }
    }
  }

  lemma FatalOnlyLastAppend(a: seq<Call>, b: seq<Call>)
    requires FatalOnlyLast(a) && FatalOnlyLast(b)
    requires 0 < |a| && !Fatal(a[|a| - 1])
    ensures FatalOnlyLast(a + b)
    ensures 0 < |b| ==> (a + b)[|a + b| - 1] == b[|b| - 1]
  {
    var c := a + b;
    forall i | 0 <= i < |c| - 1 ensures !Fatal(c[i]) {
      if i >= |a| {
        assert c[i] == b[i - |a|];
      } else {
        assert c[i] == a[i];
      }
    }
  }

  /** Over the whole run, every Preproc follows a successful Capture or the
      extra capture of a successful recovery. */
  lemma {:induction false} RunPreprocGuarded(results: seq<HRESULT>, captured: int, hr: HRESULT, nFrames: int)
    ensures PreprocGuarded(RunFrom(results, captured, hr, nFrames).calls)
    decreases |results|
  {
    var t := Body(results, captured, hr);
    BodyCallsWellFormed(results, captured, hr);
    if t.status == Running && t.captured <= nFrames {
      var rest := RunFrom(results[t.used..], t.captured, t.hr, nFrames);
      RunPreprocGuarded(results[t.used..], t.captured, t.hr, nFrames);
      PreprocGuardedAppend(t.calls, rest.calls);
    }
  }

  lemma SuccessesContinueAppend(a: seq<Call>, b: seq<Call>)
    requires SuccessesContinue(a) && SuccessesContinue(b)
    requires 0 < |a| && (Processes(a[|a| - 1]) || a[|a| - 1] == Capture(DXGI_ERROR_WAIT_TIMEOUT))
    requires 0 < |b| ==> b[0].Capture?
    ensures SuccessesContinue(a + b)
  {
    var c := a + b;
    forall i | 0 <= i < |c| - 1
      ensures c[i].Capture? && !Failed(c[i].result) ==> c[i + 1].Preproc?
      ensures Processes(c[i]) ==> c[i + 1].Capture?
    {
      if i >= |a| {
        assert c[i] == b[i - |a|] && c[i + 1] == b[i + 1 - |a|];
      } else if i == |a| - 1 {
        assert c[i] == a[i] && c[i + 1] == b[0];
      } else {
        assert c[i] == a[i] && c[i + 1] == a[i + 1];
      }
    }
  }

  /** Over the whole run, a successful Capture is always followed by Preproc,
      and a successful Preproc that does not end the run by the next pass's
      Capture: the loop never stalls on a good answer. */
  lemma {:induction false} RunSuccessesContinue(results: seq<HRESULT>, captured: int, hr: HRESULT, nFrames: int)
    ensures SuccessesContinue(RunFrom(results, captured, hr, nFrames).calls)
    decreases |results|
  {
    var t := Body(results, captured, hr);
    BodySuccessesContinue(results, captured, hr);
    if t.status == Running && t.captured <= nFrames {
      var rest := RunFrom(results[t.used..], t.captured, t.hr, nFrames);
      RunSuccessesContinue(results[t.used..], t.captured, t.hr, nFrames);
      SuccessesContinueAppend(t.calls, rest.calls);
    }
  }

  /** A failed Init or Preproc is the last call the loop makes, and the loop
      returns -1 exactly when its last call was such a failure. */
  lemma {:induction false} RunStopsAtFatal(results: seq<HRESULT>, captured: int, hr: HRESULT, nFrames: int)
    ensures FatalOnlyLast(RunFrom(results, captured, hr, nFrames).calls)
    ensures var r := RunFrom(results, captured, hr, nFrames);
      r.exit == Returned(-1) <==> 0 < |r.calls| && Fatal(r.calls[|r.calls| - 1])
    decreases |results|
  {
    var t := Body(results, captured, hr);
    BodyCallsWellFormed(results, captured, hr);
    if t.status == Running && t.captured <= nFrames {
      var rest := RunFrom(results[t.used..], t.captured, t.hr, nFrames);
      RunStopsAtFatal(results[t.used..], t.captured, t.hr, nFrames);
      assert 0 < |t.calls| && !Fatal(t.calls[|t.calls| - 1]);
      FatalOnlyLastAppend(t.calls, rest.calls);
      var r := RunFrom(results, captured, hr, nFrames);
      assert r == Prepend(t.calls, rest);
      if rest.calls == [] {
        assert r.calls == t.calls;
      }
    } else if t.status == Running {
      assert RunFrom(results, captured, hr, nFrames) == Run(Returned(0), t.captured, t.hr, t.calls);
    } else {
      assert RunFrom(results, captured, hr, nFrames) == Run(t.status.exit, t.captured, t.hr, t.calls);
    }
  }
}
