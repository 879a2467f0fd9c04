/** The `Core` object: one encoder per display, the pacing state and the
    capture loop. Every DXGI, encoder and clock call is a parameter. */
module CoreEngine {
  import opened HResults
  import opened Pacing
  import opened CaptureLoop
  import opened DisplayEnum

  /** A `CudaH264` encoder, known by the display index it was built for. */
  datatype Encoder = Encoder(displayIndex: nat)

  /** The encoders for displays 0 .. count-1, in order. */
  function EncodersUpTo(count: nat): (es: seq<Encoder>)
    ensures |es| == count && forall i :: 0 <= i < count ==> es[i] == Encoder(i)
  {
    seq(count, i requires 0 <= i => Encoder(i))
  }

  /** How many encoders `Core::Init` keeps: the displays before the first one
      whose encoder Init does not answer exactly S_OK. */
  function InitializedCount(displayNb: nat, encoderInit: nat -> HRESULT): (k: nat)
    ensures k <= displayNb
    ensures forall i :: 0 <= i < k ==> encoderInit(i) == S_OK
    ensures k < displayNb ==> encoderInit(k) != S_OK
  {
    CountFrom(0, displayNb, encoderInit)
  }

  function CountFrom(from: nat, displayNb: nat, encoderInit: nat -> HRESULT): (k: nat)
    requires from <= displayNb
    ensures from <= k <= displayNb
    ensures forall i :: from <= i < k ==> encoderInit(i) == S_OK
    ensures k < displayNb ==> encoderInit(k) != S_OK
    decreases displayNb - from
  {
    if from == displayNb || encoderInit(from) != S_OK then from
    else CountFrom(from + 1, displayNb, encoderInit)
  }

  /** Conversion of an int to `unsigned short`, as C++ does it: modulo 2^16. */
  function UnsignedShort(n: int): (u: nat)
    ensures u < 0x1_0000
    ensures 0 <= n < 0x1_0000 ==> u == n
    ensures n == -1 ==> u == 0xFFFF
  {
    n % 0x1_0000
  }

  class Core {
    var hr: HRESULT
    var capturedFrames: int
    var start: int
    var end: int
    var interval: int
    var freq: int
    var wait: int
    var nFrames: int
    var displayNb: nat
    var encoders: seq<Encoder>

    /** Fields start at their declared values; then displays are counted, the
        count is stored as an `unsigned short`, and encoders are initialised.
        Init's result is not looked at. */
    constructor (frames: int, factoryHr: HRESULT, adapters: seq<AdapterProbe>,
                 encoderInit: nat -> HRESULT, qpcFrequency: int)
      ensures nFrames == frames && hr == S_OK && capturedFrames == 0 && wait == WAIT_BASE
      ensures start == 0 && end == 0 && interval == 0
      ensures displayNb == UnsignedShort(if Failed(factoryHr) then -1 else DisplayCount(adapters))
      ensures freq == qpcFrequency
      ensures encoders == EncodersUpTo(InitializedCount(displayNb, encoderInit))
    {
      hr, capturedFrames := S_OK, 0;
      start, end, interval, freq := 0, 0, 0, 0;
      wait := WAIT_BASE;
      nFrames := frames;
      encoders := [];
      new;
      var detected := DetectDisplays(factoryHr, adapters);
      displayNb := UnsignedShort(detected);
      var _ := Init(qpcFrequency, encoderInit);
    }

    /** `resetWaitTime` as written: its four parameters are copies that it
        overwrites or ignores, the interval is measured between its own two
        consecutive counter reads, and only `wait` is stored. */
    method ResetWaitTime(start: int, end: int, interval: int, freq: int, firstRead: int, secondRead: int)
      requires firstRead <= secondRead
      modifies this`wait
      ensures wait == WaitFor(secondRead - firstRead)
    {
      var localStart, localEnd := firstRead, secondRead;
      var localInterval := localEnd - localStart;
      wait := WAIT_BASE - localInterval / 1000;
      if wait < 0 {
        wait := 0;
      }
    }

    /** `resetWaitTime` as its caller intends: the interval runs from the
        counter read taken before the capture (`start`) to the read `now`, and
        is kept in the members `end` and `interval`. */
    method ResetWaitTimeFromStart(now: int)
      requires start <= now
      modifies this`end, this`interval, this`wait
      ensures end == now && interval == now - start
      ensures wait == PacedWait(start, now)
    {
      end := now;
      interval := end - start;
      wait := WAIT_BASE - interval / 1000;
      if wait < 0 {
        wait := 0;
      }
    }

    /** Counts the outputs of every adapter: -1 when no DXGI factory can be
        created; otherwise each enumeration runs until DXGI_ERROR_NOT_FOUND. */
    method DetectDisplays(factoryHr: HRESULT, adapters: seq<AdapterProbe>) returns (count: int)
      ensures Failed(factoryHr) ==> count == -1
      ensures !Failed(factoryHr) ==> count == DisplayCount(adapters)
    {
      if Failed(factoryHr) {
        return -1;
      }
      var adapterIndex: nat := 0;
      var outputCounts: nat := 0;
      while AdapterAt(adapters, adapterIndex) != DXGI_ERROR_NOT_FOUND
        invariant adapterIndex <= |adapters|
        invariant outputCounts + DisplayCount(adapters[adapterIndex..]) == DisplayCount(adapters)
        decreases |adapters| - adapterIndex
      {
        var outputs := adapters[adapterIndex].outputs;
        assert adapters[adapterIndex..][1..] == adapters[adapterIndex + 1..];
        var outputIndex: nat := 0;
        while EnumAt(outputs, outputIndex) != DXGI_ERROR_NOT_FOUND
          invariant outputIndex <= |outputs|
          invariant outputIndex + Listed(outputs[outputIndex..]) == Listed(outputs)
          invariant outputCounts + Listed(outputs[outputIndex..]) + DisplayCount(adapters[adapterIndex + 1..])
                    == DisplayCount(adapters)
          decreases |outputs| - outputIndex
        {
          assert outputs[outputIndex..][1..] == outputs[outputIndex + 1..];
          outputIndex := outputIndex + 1;
          outputCounts := outputCounts + 1;
        }
        adapterIndex := adapterIndex + 1;
      }
      count := outputCounts;
    }

    /** Builds one encoder per display in index order and keeps it; at the
        first encoder whose Init does not answer S_OK, returns -1 and keeps the
        encoders already built. */
    method Init(qpcFrequency: int, encoderInit: nat -> HRESULT) returns (r: int)
      modifies this`encoders, this`freq
      ensures freq == qpcFrequency
      ensures var k := InitializedCount(displayNb, encoderInit);
        encoders == old(encoders) + EncodersUpTo(k) && (r == 0 <==> k == displayNb) && (r == -1 <==> k < displayNb)
    {
      freq := qpcFrequency;
      var displayIndex: nat := 0;
      while displayIndex < displayNb
        invariant displayIndex <= displayNb && freq == qpcFrequency
        invariant forall i :: 0 <= i < displayIndex ==> encoderInit(i) == S_OK
        invariant encoders == old(encoders) + EncodersUpTo(displayIndex)
      {
        var encoder := Encoder(displayIndex);
        var initHr := encoderInit(displayIndex);
        if initHr != S_OK {
          return -1;
        }
        encoders := encoders + [encoder];
        displayIndex := displayIndex + 1;
      }
      return 0;
    }

    /** One pass through the body of `runLoop`'s do-while loop, on the
        answers still left in the script: capture; on a timeout, nothing more;
        on any other failure, clean up, re-initialise (returning -1 if that
        fails) and capture once more, ignoring the answer; then preprocess
        (returning -1 if that fails) and count the frame. */
    method RunPass(results: seq<HRESULT>) returns (status: Status, used: nat, calls: seq<Call>)
      modifies this`capturedFrames, this`hr
      ensures Tick(status, capturedFrames, hr, used, calls) == Body(results, old(capturedFrames), old(hr))
    {
      if |results| == 0 {
        return Done(Pending), 0, [];
      }
      hr := results[0];
      used := 1;
      calls := [Capture(hr)];
      if hr == DXGI_ERROR_WAIT_TIMEOUT {
        return Running, used, calls;
      }
      if Failed(hr) {
        FailedCapturePass(results, old(capturedFrames), old(hr));
        calls := calls + [Cleanup(true)];
        if used == |results| {
          return Done(Pending), used, calls;
        }
        hr := results[used];
        used := used + 1;
        calls := calls + [EncoderInit(hr)];
        if Failed(hr) {
          return Done(Returned(-1)), used, calls;
        }
        RecoveredPass(results, old(capturedFrames), old(hr));
        if used == |results| {
          return Done(Pending), used, calls;
        }
        var ignored := results[used];
        used := used + 1;
        calls := calls + [Capture(ignored)];
      } else {
        CapturedPass(results, old(capturedFrames), old(hr));
      }
      if used == |results| {
        return Done(Pending), used, calls;
      }
      hr := results[used];
      used := used + 1;
      calls := calls + [Preproc(hr)];
      if Failed(hr) {
        return Done(Returned(-1)), used, calls;
      }
      capturedFrames := capturedFrames + 1;
      status := Running;
    }

    /** `runLoop` for one display: the encoder's Capture, Init and Preproc
        answer from `results` in call order. Returns how the loop ended and the
        calls it made, and leaves `capturedFrames` and `hr` as the run left them. */
    method RunLoop(nFrames: int, displayIndex: nat, results: seq<HRESULT>) returns (exit: Exit, calls: seq<Call>)
      requires displayIndex < |encoders|
      modifies this`capturedFrames, this`hr
      ensures var r := RunFrom(results, old(capturedFrames), old(hr), nFrames);
        exit == r.exit && capturedFrames == r.captured && hr == r.hr && calls == r.calls
    {
      var encoder := encoders[displayIndex];
      ghost var run := RunFrom(results, capturedFrames, hr, nFrames);
      var next := 0;
      calls := [];
      while true
        invariant 0 <= next <= |results|
        invariant run == Prepend(calls, RunFrom(results[next..], capturedFrames, hr, nFrames))
        decreases |results| - next
      {
        ghost var c0, h0 := capturedFrames, hr;
        var status, used, passCalls := RunPass(results[next..]);
        RunFromStep(results, next, calls, c0, h0, nFrames, status, used, passCalls, capturedFrames, hr);
        calls := calls + passCalls;
        if status.Done? {
          return status.exit, calls;
        }
        if capturedFrames > nFrames {
          return Returned(0), calls;
        }
        next := next + used;
      }
    }
  }
}
