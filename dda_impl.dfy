/** `DDAImpl`: the Desktop Duplication session over all outputs of one
    adapter. DXGI's answers are parameters; each display entry records its
    mode size and whether its duplication interface holds an acquired frame. */
module DDA {
  import opened HResults

  /** One entry of `displays`. */
  datatype DisplayDuplication = DisplayDuplication(width: nat, height: nat, frameHeld: bool)

  /** What the calls of one pass of Init's output loop answer: EnumOutputs,
      QueryInterface for IDXGIOutput1, DuplicateOutput, and the mode size
      GetDesc reports. */
  datatype OutputProbe = OutputProbe(enumHr: HRESULT, queryHr: HRESULT, duplicateHr: HRESULT, width: nat, height: nat)

  /** What one acquisition reports: AcquireNextFrame's HRESULT, the frame
      info's AccumulatedFrames and raw LastPresentTime, whether a desktop
      resource came back, and QueryInterface's answer for the texture. */
  datatype FrameProbe = FrameProbe(acquireHr: HRESULT, accumulatedFrames: nat, lastPresentTime: int,
                                   hasResource: bool, queryHr: HRESULT)

  /** The update carried no new image, only pointer movement. */
  predicate CursorOnly(p: FrameProbe) {
    p.accumulatedFrames == 0 || p.lastPresentTime == 0
  }

  /** A frame was acquired, carries an image, and its texture was obtained. */
  predicate Delivered(p: FrameProbe) {
    !Failed(p.acquireHr) && !CursorOnly(p) && p.hasResource && !Failed(p.queryHr)
  }

  /** The HRESULT `GetCapturedFrame` returns for an acquisition on a valid
      display index. */
  function Classify(p: FrameProbe): (hr: HRESULT)
    ensures Failed(p.acquireHr) ==> hr == p.acquireHr
    ensures !Failed(p.acquireHr) && CursorOnly(p) ==> hr == DXGI_ERROR_WAIT_TIMEOUT
    ensures !Failed(p.acquireHr) && !CursorOnly(p) && !p.hasResource ==> hr == E_UNEXPECTED
    // the texture's QueryInterface answer is returned as it is, success or failure
    ensures !Failed(p.acquireHr) && !CursorOnly(p) && p.hasResource ==> hr == p.queryHr
    ensures !Failed(hr) <==> Delivered(p)
    ensures Delivered(p) ==> p.accumulatedFrames >= 1
  {
    if Failed(p.acquireHr) then p.acquireHr
    else if CursorOnly(p) then DXGI_ERROR_WAIT_TIMEOUT
    else if !p.hasResource then E_UNEXPECTED
    else p.queryHr
  }

  /** A cursor-only update is reported exactly like a timeout, so a caller
      that skips timeouts never treats it as a frame. */
  lemma CursorOnlyReadsAsTimeout(p: FrameProbe)
    requires !Failed(p.acquireHr) && CursorOnly(p)
    ensures Classify(p) == Classify(p.(acquireHr := DXGI_ERROR_WAIT_TIMEOUT))
    ensures !Delivered(p)
  {
  }

  /** The output loop's pass went all the way to a new duplication. */
  predicate Duplicated(o: OutputProbe) {
    !Failed(o.enumHr) && !Failed(o.queryHr) && !Failed(o.duplicateHr)
  }

  /** What Init returns when the output loop stops at `o`. */
  function StopCode(o: OutputProbe): HRESULT
    requires !Duplicated(o)
  {
    if Failed(o.enumHr) then (if o.enumHr == DXGI_ERROR_NOT_FOUND then S_OK else o.enumHr)
    else if Failed(o.queryHr) then o.queryHr
    else o.duplicateHr
  }

  function Entry(o: OutputProbe): DisplayDuplication {
    DisplayDuplication(o.width, o.height, false)
  }

  /** The outcome of Init's output loop: its HRESULT and the entries it appends. */
  datatype Scan = Scan(hr: HRESULT, found: seq<DisplayDuplication>)

  /** Init's output loop over `outputs` (EnumOutputs answers
      DXGI_ERROR_NOT_FOUND past their end). */
  function ScanOutputs(outputs: seq<OutputProbe>): (s: Scan)
    ensures |s.found| <= |outputs|
    ensures |s.found| < |outputs| ==> !Duplicated(outputs[|s.found|])
    ensures !Failed(s.hr) ==> s.hr == S_OK
  {
    if outputs == [] then Scan(S_OK, [])
    else if !Duplicated(outputs[0]) then Scan(StopCode(outputs[0]), [])
    else
      var rest := ScanOutputs(outputs[1..]);
      Scan(rest.hr, [Entry(outputs[0])] + rest.found)
  }

  /** Init's output loop appends one entry per output, in enumeration order,
      up to the first output that does not duplicate, and returns that
      output's stop code; it succeeds, with S_OK, exactly when it stopped at
      DXGI_ERROR_NOT_FOUND. */
  lemma {:induction false} ScanOutputsStopsAtFirstFailure(outputs: seq<OutputProbe>)
    ensures var s := ScanOutputs(outputs);
      && |s.found| <= |outputs|
      && (forall j :: 0 <= j < |s.found| ==> Duplicated(outputs[j]) && s.found[j] == Entry(outputs[j]))
      && (|s.found| < |outputs| ==> !Duplicated(outputs[|s.found|]) && s.hr == StopCode(outputs[|s.found|]))
      && (!Failed(s.hr) <==> |s.found| == |outputs| || outputs[|s.found|].enumHr == DXGI_ERROR_NOT_FOUND)
      && (!Failed(s.hr) ==> s.hr == S_OK)
  {
    if outputs != [] && Duplicated(outputs[0]) {
      var rest := ScanOutputs(outputs[1..]);
      ScanOutputsStopsAtFirstFailure(outputs[1..]);
      var s := ScanOutputs(outputs);
      forall j | 0 <= j < |s.found| ensures Duplicated(outputs[j]) && s.found[j] == Entry(outputs[j]) {
        if j > 0 {
          assert s.found[j] == rest.found[j - 1];
          assert outputs[j] == outputs[1..][j - 1];
        }
      }
      if |s.found| < |outputs| {
        assert outputs[|s.found|] == outputs[1..][|rest.found|];
      }
    }
  }

  /** One pass of Init's output loop at index i, stated on ScanOutputs. */
  lemma ScanStep(outputs: seq<OutputProbe>, i: nat)
    requires i <= |outputs|
    ensures i == |outputs| ==> ScanOutputs(outputs[i..]) == Scan(S_OK, [])
    ensures i < |outputs| && !Duplicated(outputs[i]) ==> ScanOutputs(outputs[i..]) == Scan(StopCode(outputs[i]), [])
    ensures i < |outputs| && Duplicated(outputs[i]) ==>
      ScanOutputs(outputs[i..]) ==
        Scan(ScanOutputs(outputs[i + 1..]).hr, [Entry(outputs[i])] + ScanOutputs(outputs[i + 1..]).found)
  {
    if i < |outputs| {
      assert outputs[i..][0] == outputs[i];
      assert outputs[i..][1..] == outputs[i + 1..];
    }
  }

  class DDAImpl {
    var displays: seq<DisplayDuplication>
    /** Running count of accumulated desktop updates, over all displays. */
    var frameno: int
    /** Present time, in microseconds, of the last delivered frame of any display. */
    var lastPTS: int
    var qpcFreq: int

    constructor (qpcFrequency: int)
      ensures displays == [] && frameno == 0 && lastPTS == 0 && qpcFreq == qpcFrequency
    {
      displays, frameno, lastPTS, qpcFreq := [], 0, 0, qpcFrequency;
    }

    /** Appends one display entry per output of the adapter, in enumeration
        order. Fails early with the device's QueryInterface or GetParent error;
        stops with S_OK at DXGI_ERROR_NOT_FOUND, and with the error of any
        other failing call, keeping the entries already appended. */
    method Init(deviceQueryHr: HRESULT, getParentHr: HRESULT, outputs: seq<OutputProbe>) returns (hr: HRESULT)
      modifies this`displays
      ensures Failed(deviceQueryHr) ==> hr == deviceQueryHr && displays == old(displays)
      ensures !Failed(deviceQueryHr) && Failed(getParentHr) ==> hr == getParentHr && displays == old(displays)
      ensures !Failed(deviceQueryHr) && !Failed(getParentHr) ==>
        hr == ScanOutputs(outputs).hr && displays == old(displays) + ScanOutputs(outputs).found
    {
      hr := deviceQueryHr;
      if Failed(hr) {
        return;
      }
      hr := getParentHr;
      if Failed(hr) {
        return;
      }
      var i := 0;
      ghost var added: seq<DisplayDuplication> := [];
      assert outputs[0..] == outputs;
      while true
        invariant 0 <= i <= |outputs|
        invariant displays == old(displays) + added && |added| == i
        invariant forall k :: 0 <= k < i ==> added[k] == Entry(outputs[k])
        invariant ScanOutputs(outputs) == Scan(ScanOutputs(outputs[i..]).hr, added + ScanOutputs(outputs[i..]).found)
        decreases |outputs| - i
      {
        ScanStep(outputs, i);
        var probe := if i < |outputs| then outputs[i] else OutputProbe(DXGI_ERROR_NOT_FOUND, S_OK, S_OK, 0, 0);
        hr := probe.enumHr;
        if Failed(hr) {
          if hr == DXGI_ERROR_NOT_FOUND {
            hr := S_OK;
            break;
          }
          return;
        }
        hr := probe.queryHr;
        if Failed(hr) {
          return;
        }
        hr := probe.duplicateHr;
        if Failed(hr) {
          return;
        }
        ghost var rest := ScanOutputs(outputs[i + 1..]);
        assert probe == outputs[i] && Duplicated(probe);
        assert (added + [Entry(probe)]) + rest.found == added + ([Entry(probe)] + rest.found);
        displays := displays + [DisplayDuplication(probe.width, probe.height, false)];
        added := added + [Entry(probe)];
        i := i + 1;
      }
    }

    /** ReleaseFrame on a display's duplication: afterwards it holds no frame. */
    method ReleaseFrame(displayIndex: nat)
      requires displayIndex < |displays|
      modifies this`displays
      ensures displays == old(displays)[displayIndex := old(displays)[displayIndex].(frameHeld := false)]
    {
      displays := displays[displayIndex := displays[displayIndex].(frameHeld := false)];
    }

    /** AcquireNextFrame on a display's duplication, which DXGI only allows
        when the previous frame has been released; a successful acquisition
        holds the new frame. */
    method AcquireNextFrame(displayIndex: nat, wait: int, probe: FrameProbe)
      requires displayIndex < |displays| && !displays[displayIndex].frameHeld
      modifies this`displays
      ensures displays == old(displays)[displayIndex := old(displays)[displayIndex].(frameHeld := !Failed(probe.acquireHr))]
    {
      displays := displays[displayIndex := displays[displayIndex].(frameHeld := !Failed(probe.acquireHr))];
    }

    /** Acquires the next frame of one display, releasing its previous frame
        first. The returned HRESULT classifies the outcome; only a delivered
        frame advances `frameno` by its accumulated updates and records its
        present time, converted to microseconds by `microsec`. */
    method GetCapturedFrame(wait: int, displayIndex: int, probe: FrameProbe, microsec: (int, int) -> int)
      returns (hr: HRESULT)
      modifies this`displays, this`frameno, this`lastPTS
      ensures !(0 <= displayIndex < |old(displays)|) ==>
        hr == E_INVALIDARG && displays == old(displays) && frameno == old(frameno) && lastPTS == old(lastPTS)
      ensures 0 <= displayIndex < |old(displays)| ==>
        hr == Classify(probe) &&
        displays == old(displays)[displayIndex := old(displays)[displayIndex].(frameHeld := !Failed(probe.acquireHr))]
      ensures 0 <= displayIndex < |old(displays)| && Delivered(probe) ==>
        frameno == old(frameno) + probe.accumulatedFrames && lastPTS == microsec(probe.lastPresentTime, qpcFreq)
      ensures !(0 <= displayIndex < |old(displays)| && Delivered(probe)) ==>
        frameno == old(frameno) && lastPTS == old(lastPTS)
      ensures frameno >= old(frameno)
    {
      if displayIndex < 0 || displayIndex >= |displays| {
        return E_INVALIDARG;
      }
      ReleaseFrame(displayIndex);
      AcquireNextFrame(displayIndex, wait, probe);
      hr := probe.acquireHr;
      if Failed(hr) {
        return;
      }
      if probe.accumulatedFrames == 0 || probe.lastPresentTime == 0 {
        return DXGI_ERROR_WAIT_TIMEOUT;
      }
      if !probe.hasResource {
        return E_UNEXPECTED;
      }
      hr := probe.queryHr;
      if Failed(hr) {
        return;
      }
      var pts := microsec(probe.lastPresentTime, qpcFreq);
      lastPTS := pts;
      frameno := frameno + probe.accumulatedFrames;
    }

    /** Width of a display's mode, 0 for an index outside `displays`. */
    function GetWidth(displayIndex: int): (w: nat)
      reads this
      ensures 0 <= displayIndex < |displays| ==> w == displays[displayIndex].width
      ensures !(0 <= displayIndex < |displays|) ==> w == 0
    {
      if displayIndex < 0 || displayIndex >= |displays| then 0 else displays[displayIndex].width
    }

    /** Height of a display's mode, 0 for an index outside `displays`. */
    function GetHeight(displayIndex: int): (h: nat)
      reads this
      ensures 0 <= displayIndex < |displays| ==> h == displays[displayIndex].height
      ensures !(0 <= displayIndex < |displays|) ==> h == 0
    {
      if displayIndex < 0 || displayIndex >= |displays| then 0 else displays[displayIndex].height
    }
  }
}
