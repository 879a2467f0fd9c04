# DXGIDuplicationCudaEnc capture core, modelled in Dafny

The repository captures the Windows desktop with DXGI Desktop Duplication and
hands each frame to a CUDA H.264 encoder, one encoder and one capture loop per
display. This project models the control logic around those calls:

- `Core` (`core.dfy`): counting displays over all adapters (`DetectDisplays`),
  building one encoder per display (`Init`), the constructor that chains the
  two, the frame pacing of `resetWaitTime`, and the per-display capture loop
  `runLoop` as an imperative method.
- The capture loop's specification (`capture_loop.dfy`): one pass through the
  `do ... while` body as a small state machine over the encoder's answers
  (capture, on failure clean up and re-initialise, capture once more, then
  preprocess), and the whole loop as a recursive function over a script of
  answers. The encoder's Capture, Init and Preproc calls answer, in the order
  the loop makes them, from a sequence of HRESULTs; Cleanup answers nothing.
- The pacing arithmetic (`pacing.dfy`): the wait for the next capture, as
  written and as evidently intended (see Findings).
- Display enumeration (`display_enum.dfy`): what DXGI's adapter and output
  enumerators answer, as data, and the number of outputs counted.
- `DDAImpl` (`dda_impl.dfy`): setting up one duplication per output of the
  device's adapter (`Init`), acquiring a frame (`GetCapturedFrame`) with its
  release/acquire discipline and frame counter, and the mode-size accessors.
- HRESULT (`hresult.dfy`): a signed 32-bit code, failed when negative, with
  the winerror.h values the core uses.

Every COM/DXGI/encoder call is an input: its HRESULT (and whatever it
reports, such as a mode size or a frame's present time) is a parameter or an
element of a script. The clock is an input too: `resetWaitTime`'s two counter
reads are parameters, and `MICROSEC_TIME` is a function parameter of
`GetCapturedFrame`.

The loop is commonly described as capturing `nFrames` frames. As written, its
test `capturedFrames <= nFrames` runs until the counter is one past the
limit, so a run started at 0 returns 0 after `nFrames + 1` preprocessed
frames. The model follows the code (`CaptureLoop.RunExitsOnePastLimit`).

## Model

| member | source | states |
|---|---|---|
| Pacing.WaitFor | src/Core.cpp:14-17 | the wait is the budget of 17 minus the interval's whole thousands of counter ticks (which the source treats as milliseconds), never negative; it is zero exactly when the interval reaches 17 000 ticks |
| Pacing.WaitForAntitone | src/Core.cpp:15-17 | a longer measured interval never yields a longer wait |
| Pacing.WaitForIsLargestFit | src/Core.cpp:15-17 | the wait is the largest non-negative value that, added to the elapsed whole thousands of ticks, stays within the budget |
| CoreEngine.Core.ResetWaitTime | src/Core.cpp:10-18 | as written: the stored wait depends only on the gap between its own two counter reads; its four parameters are by-value copies and do not matter |
| Pacing.BackToBackReadsIgnoreCaptureTime | src/Core.cpp:10-18 | as written: two reads fewer than 1000 ticks apart store the full budget of 17 even after a capture that overran the frame, where the paced wait is 0 |
| Pacing.PacedWait | src/main.cpp:39-44 | corrected: with the interval measured from the capture's start, capture time plus wait add up to the frame budget, or the wait is 0 once the capture overran |
| CoreEngine.Core.ResetWaitTimeFromStart | src/main.cpp:39-44 | corrected: measures from the member `start` read before the capture to now, keeps `end` and `interval`, and stores the paced wait |
| Pacing.PacedWaitShrinksWithCaptureTime | src/main.cpp:39-44 | corrected: a capture that took longer leaves a shorter or equal wait |
| CaptureLoop.Pass | src/main.cpp:41-83 | a pass from any phase consumes at most the answers left and at least one when it reaches the loop test, only appends calls, is left pending only with every answer consumed (`CaptureLoop.PassPendsAtEnd`), moves the counter by exactly its successful Preproc (at most one), returns only -1 from inside the body, and reaches the test only with a timeout or a successful hr |
| CaptureLoop.Body | src/main.cpp:41-83 | one pass starts with a capture, consumes no more answers than exist and stops short only when they are all used, increments `capturedFrames` exactly when Preproc succeeded, and goes on to the loop test only after a timeout or a counted frame |
| CaptureLoop.BodyBranches | src/main.cpp:47-67 | a timeout skips straight to the loop test with nothing else called; any other failed capture calls Cleanup(true) then Init; a failed Init ends the loop with -1 after exactly those three calls; a successful capture is followed by Preproc, whose failure ends the loop with -1 and whose success counts one frame and reaches the loop test with that hr |
| CaptureLoop.BodyCallsWellFormed | src/main.cpp:56-82 | a pass returns -1 exactly when its last call was a failed Init or Preproc, no such call is followed by another, and every Preproc follows a successful capture or the extra capture after a successful re-initialisation |
| CaptureLoop.ExtraCaptureIgnored | src/main.cpp:68-83 | after a successful re-initialisation the pass makes exactly Capture, Cleanup(true), Init, the extra Capture and Preproc; the extra capture's answer changes nothing but the logged answer; the Preproc ends the loop with -1 on failure and otherwise counts one frame and reaches the loop test |
| CaptureLoop.BodyRunsOut | src/main.cpp:41-74 | a pass whose answers run out before the loop test is left pending after exactly the calls it could make, never after a fatal one |
| CaptureLoop.BodySuccessesContinue | src/main.cpp:56-83 | within a pass a successful capture is always followed by Preproc, and a pass reaching the loop test ends with a counted frame or a timed-out capture |
| CaptureLoop.RunFrom | src/main.cpp:37-88 | the loop ends only by returning 0 or -1, or pending, which `RunPendingOnlyWhenAnswersRunOut` shows happens only once the script is used up; it returns 0 only with the counter past `nFrames`; its first call is a capture |
| CaptureLoop.RunPendingOnlyWhenAnswersRunOut | src/main.cpp:37-88 | a run never answers more calls than the script holds, and it is left pending only once every answer has been consumed, so with answers left the loop either continues or returns 0 or -1 |
| CaptureLoop.RunSuccessesContinue | src/main.cpp:41-88 | over a whole run a successful capture is always followed by Preproc, and a successful Preproc that does not end the run is followed by the next pass's capture |
| CaptureLoop.RunCountsProcessedFrames | src/main.cpp:74-83 | over a whole run the counter grows by exactly the number of successful Preproc calls |
| CaptureLoop.RunExitsOnePastLimit | src/main.cpp:83-88 | started at or below the limit, the loop returns 0 only with `capturedFrames == nFrames + 1` |
| CaptureLoop.RunStopsAtLimit | src/main.cpp:83-86 | started at or below the limit, no run ever leaves `capturedFrames` above `nFrames + 1`: a pass that reaches the test past the limit ends the loop |
| CaptureLoop.RunPreprocGuarded | src/main.cpp:47-74 | over a whole run, no timed-out or failed capture of a pass is ever followed by Preproc |
| CaptureLoop.RunStopsAtFatal | src/main.cpp:62-82 | over a whole run, a failed Init or Preproc is the last call, and the loop returns -1 exactly when its last call was one |
| CoreEngine.Core.RunPass | src/main.cpp:41-83 | the imperative loop body leaves `capturedFrames` and `hr`, and reports the answers used and calls made, exactly as `CaptureLoop.Body` specifies |
| CoreEngine.Core.RunLoop | src/main.cpp:33-89 | the imperative `runLoop` returns, makes the calls, and leaves `capturedFrames` and `hr` exactly as `CaptureLoop.RunFrom` specifies |
| DisplayEnum.Listed | src/Core.cpp:66-79 | an output enumeration counts every index before the first DXGI_ERROR_NOT_FOUND, failures included, and stops there |
| DisplayEnum.DisplayCount | src/Core.cpp:59-83 | the display count never exceeds the outputs the adapters hold, and equals it when no adapter or output enumeration answers DXGI_ERROR_NOT_FOUND before its end |
| DisplayEnum.DisplayCountStopsAtNotFound | src/Core.cpp:59-83 | adapters after the first one that answers DXGI_ERROR_NOT_FOUND are never counted, whatever they hold |
| CoreEngine.Core.DetectDisplays | src/Core.cpp:46-88 | returns -1 when the factory cannot be created, otherwise the total of listed outputs over the listed adapters |
| CoreEngine.InitializedCount | src/Core.cpp:95-103 | the encoders kept are those of the displays before the first whose Init does not answer exactly S_OK |
| CoreEngine.UnsignedShort | include/Core.hpp:30 | storing an int in `unsigned short` keeps it modulo 2^16, so -1 becomes 65535 |
| CoreEngine.Core.Init | src/Core.cpp:90-106 | records the counter frequency; appends encoders 0 .. k-1 in order; returns 0 when every display got one and -1 otherwise |
| CoreEngine.Core.constructor | src/Core.cpp:4-8 | fields start at their declared values; `displayNb` is the narrowed display count; encoders are built, and Init's result is ignored |
| DDA.Classify | src/DDAImpl.cpp:119-163 | a failed acquisition passes its error through; a cursor-only update reads as DXGI_ERROR_WAIT_TIMEOUT; a missing resource is E_UNEXPECTED; otherwise the texture QueryInterface's answer, failure included, is returned as it is; the result is a success exactly when a frame was delivered |
| DDA.CursorOnlyReadsAsTimeout | src/DDAImpl.cpp:136-141 | an update with no accumulated frame or no present time is reported exactly as a real timeout and never delivered |
| DDA.ScanOutputs | src/DDAImpl.cpp:68-97 | Init's output loop appends at most one entry per output, stops only at an output that does not duplicate, and any success it returns is S_OK |
| DDA.ScanOutputsStopsAtFirstFailure | src/DDAImpl.cpp:68-97 | Init's output loop appends one entry per output in order up to the first failing call, returns that call's error, and succeeds (with S_OK) exactly when it stopped at DXGI_ERROR_NOT_FOUND |
| DDA.DDAImpl.constructor | src/DDAImpl.cpp:33-40 | no displays, frame counter and last present time zero, counter frequency recorded |
| DDA.DDAImpl.Init | src/DDAImpl.cpp:53-98 | fails early with the device's QueryInterface or GetParent error and changes nothing; otherwise appends exactly the entries of the output loop and returns its result |
| DDA.DDAImpl.ReleaseFrame | src/DDAImpl.cpp:118 | afterwards the display holds no frame; nothing else changes |
| DDA.DDAImpl.AcquireNextFrame | src/DDAImpl.cpp:119 | only called with no frame held; afterwards the display holds a frame exactly when the acquisition succeeded |
| DDA.DDAImpl.GetCapturedFrame | src/DDAImpl.cpp:100-164 | an index outside `displays` is E_INVALIDARG with nothing changed; otherwise the previous frame is released before acquiring, the result is `Classify`'s, and only a delivered frame advances `frameno` by its accumulated updates and records its present time in microseconds |
| DDA.DDAImpl.GetWidth | src/DDAImpl.cpp:166-172 | the display's mode width, or 0 for an index outside `displays` |
| DDA.DDAImpl.GetHeight | src/DDAImpl.cpp:174-180 | the display's mode height, or 0 for an index outside `displays` |

## Left out

- `Core::runThreads` and the threads it starts are not modelled. The loops of all displays share `capturedFrames`, `hr` and `wait` without synchronisation; the model runs one loop on its own.
- CoreEngine.Core.RunLoop: does not track `wait` or `start`, and neither does CoreEngine.Core.RunPass; both leave the two members unchanged. The source reads the counter into `start` at the top of each pass and again after a successful re-initialisation (src/main.cpp:41,69), and recomputes `wait` from it. The Capture answers are script inputs, so neither the wait handed to Capture nor the counter reading can change them. `ResetWaitTime` and `ResetWaitTimeFromStart` model how `wait` is computed.
- CoreEngine.Core.RunLoop: requires `displayIndex < |encoders|`. The source indexes the encoder vector without a check; when Init stopped early, `runThreads` would still start loops for displays that have no encoder.
- CaptureLoop.RunFrom: `Pending` (the script ran out while a call waited for its answer) is an artefact of the finite script, not an exit of the source loop.
- Pacing.WaitFor: the `(int)` narrowing of the 64-bit interval is not modelled; intervals that large are far beyond a frame.
- Pacing.WaitFor: `freq` is passed to `resetWaitTime` but never used, so the interval is divided by 1000 whatever the counter frequency; the budget is 17 000 counter ticks, which is 17 ms only for a 1 MHz counter. The model keeps the source's unit and does not convert ticks to time.
- The 32-bit wrap-around of `outputCounts` (UINT), `capturedFrames` and `frameno` is not modelled; counts are unbounded integers.
- CudaH264 (its Capture, Init, Cleanup and Preproc internals, CUDA and NVENC) is not part of this model; only the HRESULTs its calls return are.
- COM reference counting (`AddRef`, `Release`, `ComPtr`), the release of the factory at the end of DetectDisplays, and the interface pointers passed to each encoder's Init are not modelled.
- DetectDisplays: an adapter or output enumeration that fails with anything other than DXGI_ERROR_NOT_FOUND is counted like a success, as the loops' test does; the source's later use of the unset interface pointer is not modelled.
- The texture handed back through `ppTex2D`, the mode descriptions beyond width and height, and the mouse update time are not modelled.
- Console output, the `ofstream` log, the diagnostic `interval` printouts and the unused `START`/`END`/`INTERVAL`/`wait2` members are left out; they affect no decision.
- `main`, command-line arguments and the destructors are left out.
- QueryPerformanceCounter, QueryPerformanceFrequency and MICROSEC_TIME are inputs (parameters), not modelled clocks.

## Findings

| source | as written | input that shows it | evidently intended | confidence | as-written member | corrected member |
|---|---|---|---|---|---|---|
| src/Core.cpp:10-18 | `resetWaitTime` takes its counters by value and reads the counter twice in a row, so the interval is the gap between two consecutive reads; its copy of the caller's `start` (read before Capture) is overwritten | a capture that took 20 000 ticks, then two back-to-back counter reads a few ticks apart: the stored wait is 17 | the wait shrinks by the time the capture took (here to 0), so that capture plus wait stay within one frame budget, as the comment at src/main.cpp:39-40 says | high, not executed | CoreEngine.Core.ResetWaitTime, Pacing.BackToBackReadsIgnoreCaptureTime | CoreEngine.Core.ResetWaitTimeFromStart, Pacing.PacedWait, Pacing.PacedWaitShrinksWithCaptureTime |
