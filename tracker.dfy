/**
 * The standalone tracker object of eventTracker.js: click and key counters
 * bumped by handlers, a visibility flag, and a buffer that every aggregation
 * tick extends with a snapshot of the counters before zeroing them.
 */
module Tracker {

  /** One aggregated window; `timestamp` is the clock reading of the tick. */
  datatype Snapshot = Snapshot(clicks: nat, keys: nat, timestamp: string)

  class EventTracker {
    var clickCount: nat
    var keyPressCount: nat
    var isActive: bool
    var dataBuffer: seq<Snapshot>

    /** The object literal's initial field values. */
    constructor ()
      ensures clickCount == 0 && keyPressCount == 0 && isActive && dataBuffer == []
    {
      clickCount, keyPressCount := 0, 0;
      isActive := true;
      dataBuffer := [];
    }

    /** The `click` listener installed by trackMouse. */
    method OnClick()
      modifies this`clickCount
      ensures clickCount == old(clickCount) + 1
      ensures keyPressCount == old(keyPressCount) && isActive == old(isActive) && dataBuffer == old(dataBuffer)
    {
      clickCount := clickCount + 1;
    }

    /** The `keydown` listener installed by trackKeyboard. */
    method OnKeyDown()
      modifies this`keyPressCount
      ensures keyPressCount == old(keyPressCount) + 1
      ensures clickCount == old(clickCount) && isActive == old(isActive) && dataBuffer == old(dataBuffer)
    {
      keyPressCount := keyPressCount + 1;
    }

    /** The `visibilitychange` listener installed by trackFocus; `hidden` is `document.hidden`. */
    method OnVisibilityChange(hidden: bool)
      modifies this`isActive
      ensures isActive == !hidden
      ensures clickCount == old(clickCount) && keyPressCount == old(keyPressCount) && dataBuffer == old(dataBuffer)
    {
      if hidden {
        isActive := false;
      } else {
        isActive := true;
      }
    }

    /** The interval callback of startAggregationCycle. */
    method AggregationTick(now: string)
      modifies this`clickCount, this`keyPressCount, this`dataBuffer
      ensures dataBuffer == old(dataBuffer) + [Snapshot(old(clickCount), old(keyPressCount), now)]
      ensures clickCount == 0 && keyPressCount == 0
      ensures isActive == old(isActive)
    {
      var snapshot := Snapshot(clickCount, keyPressCount, now);
      dataBuffer := dataBuffer + [snapshot];
      clickCount := 0;
      keyPressCount := 0;
    }

    /**
     * The interval firing once per reading in `stamps` with no input in
     * between: the buffer grows by one snapshot per firing, the first holding
     * the counters as they were and every later one zeros.
     */
    method RunCycles(stamps: seq<string>)
      modifies this`clickCount, this`keyPressCount, this`dataBuffer
      ensures |dataBuffer| == |old(dataBuffer)| + |stamps|
      ensures dataBuffer[..|old(dataBuffer)|] == old(dataBuffer)
      ensures stamps != [] ==>
                dataBuffer[|old(dataBuffer)|] == Snapshot(old(clickCount), old(keyPressCount), stamps[0]) &&
                clickCount == 0 && keyPressCount == 0
      ensures forall j :: 1 <= j < |stamps| ==> dataBuffer[|old(dataBuffer)| + j] == Snapshot(0, 0, stamps[j])
      ensures stamps == [] ==> clickCount == old(clickCount) && keyPressCount == old(keyPressCount)
      ensures isActive == old(isActive)
    {
      var k := 0;
      while k < |stamps|
        invariant 0 <= k <= |stamps|
        invariant |dataBuffer| == |old(dataBuffer)| + k
        invariant dataBuffer[..|old(dataBuffer)|] == old(dataBuffer)
        invariant k > 0 ==> dataBuffer[|old(dataBuffer)|] == Snapshot(old(clickCount), old(keyPressCount), stamps[0])
        invariant k > 0 ==> clickCount == 0 && keyPressCount == 0
        invariant k == 0 ==> clickCount == old(clickCount) && keyPressCount == old(keyPressCount)
        invariant forall j :: 1 <= j < k ==> dataBuffer[|old(dataBuffer)| + j] == Snapshot(0, 0, stamps[j])
        invariant isActive == old(isActive)
      {
        AggregationTick(stamps[k]);
        k := k + 1;
      }
    }
  }
}
