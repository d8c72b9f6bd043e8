/** The per-session state behind the viewer: the scenario on screen, the
    cursor into its frames, and two counters that only grow. The session store
    is a key-to-value store in which a key may be missing; reading a missing
    key is an error, writing one creates it. */
module StateManager {
  import opened Models

  /** A key of the session store: absent until something writes it. */
  datatype Slot<T> = Absent | Present(value: T)

  /** The four keys the session uses. */
  datatype Key = TotalFramesGenerated | TotalScenariosRun | CurrentScenario | CurrentFrameIndex

  /** How an operation ended: normally, or by reading a key that is not there
      (the store raises an attribute error; whatever was written before the
      failing read stays written). */
  datatype Outcome = Ok | MissingKey(key: Key)

  /** The last cursor position of a scenario: the index of its last frame, or 0
      when it has none. */
  function LastFrame(s: WargameScenario): nat {
    if |s.frames| > 0 then |s.frames| - 1 else 0
  }

  class Session {
    var totalFramesGenerated: Slot<int>
    var totalScenariosRun: Slot<int>
    var currentScenario: Slot<Option<WargameScenario>>
    var currentFrameIndex: Slot<int>

    /** The cursor is never negative and, while a scenario is loaded, never
        past its last frame. */
    predicate Valid()
      reads this
    {
      (currentFrameIndex.Present? ==> currentFrameIndex.value >= 0) &&
      (currentScenario.Present? && currentScenario.value.Some? && currentFrameIndex.Present? ==>
        currentFrameIndex.value <= LastFrame(currentScenario.value.value))
    }

    /** A fresh session store holds no keys. */
    constructor ()
      ensures totalFramesGenerated == Absent && totalScenariosRun == Absent
      ensures currentScenario == Absent && currentFrameIndex == Absent
      ensures Valid()
    {
      totalFramesGenerated := Absent;
      totalScenariosRun := Absent;
      currentScenario := Absent;
      currentFrameIndex := Absent;
    }

    /** Writes the default of each key that is missing (both counters 0, no
        scenario, cursor 0) and keeps every key that is already there, so a
        second call changes nothing. */
    method InitializeState()
      requires Valid()
      modifies this
      ensures totalFramesGenerated == (if old(totalFramesGenerated).Absent? then Present(0) else old(totalFramesGenerated))
      ensures totalScenariosRun == (if old(totalScenariosRun).Absent? then Present(0) else old(totalScenariosRun))
      ensures currentScenario == (if old(currentScenario).Absent? then Present(None) else old(currentScenario))
      ensures currentFrameIndex == (if old(currentFrameIndex).Absent? then Present(0) else old(currentFrameIndex))
      ensures totalFramesGenerated.Present? && totalScenariosRun.Present?
      ensures currentScenario.Present? && currentFrameIndex.Present?
      ensures Valid()
    {
      if totalFramesGenerated.Absent? {
        totalFramesGenerated := Present(0);
      }
      if totalScenariosRun.Absent? {
        totalScenariosRun := Present(0);
      }
      if currentScenario.Absent? {
        currentScenario := Present(None);
      }
      if currentFrameIndex.Absent? {
        currentFrameIndex := Present(0);
      }
    }

    /** One more scenario run and numFrames more frames generated. The
        scenario counter is read and written first, so when only the frame
        counter is missing the scenario counter has already grown. */
    method UpdateMetrics(numFrames: int) returns (r: Outcome)
      requires Valid()
      modifies this
      ensures old(totalScenariosRun).Absent? ==>
        r == MissingKey(TotalScenariosRun) && totalScenariosRun == Absent &&
        totalFramesGenerated == old(totalFramesGenerated)
      ensures old(totalScenariosRun).Present? ==>
        totalScenariosRun == Present(old(totalScenariosRun).value + 1)
      ensures old(totalScenariosRun).Present? && old(totalFramesGenerated).Absent? ==>
        r == MissingKey(TotalFramesGenerated) && totalFramesGenerated == Absent
      ensures old(totalScenariosRun).Present? && old(totalFramesGenerated).Present? ==>
        r == Ok && totalFramesGenerated == Present(old(totalFramesGenerated).value + numFrames)
      ensures currentScenario == old(currentScenario) && currentFrameIndex == old(currentFrameIndex)
      ensures Valid()
    {
      if totalScenariosRun.Absent? {
        return MissingKey(TotalScenariosRun);
      }
      totalScenariosRun := Present(totalScenariosRun.value + 1);
      if totalFramesGenerated.Absent? {
        return MissingKey(TotalFramesGenerated);
      }
      totalFramesGenerated := Present(totalFramesGenerated.value + numFrames);
      r := Ok;
    }

    /** Shows a newly generated scenario from its first frame and counts it:
        one more run, and as many more frames as it has. */
    method SetScenario(s: WargameScenario) returns (r: Outcome)
      requires Valid()
      modifies this
      ensures currentScenario == Present(Some(s)) && currentFrameIndex == Present(0)
      ensures old(totalScenariosRun).Absent? ==>
        r == MissingKey(TotalScenariosRun) && totalScenariosRun == Absent &&
        totalFramesGenerated == old(totalFramesGenerated)
      ensures old(totalScenariosRun).Present? ==>
        totalScenariosRun == Present(old(totalScenariosRun).value + 1)
      ensures old(totalScenariosRun).Present? && old(totalFramesGenerated).Absent? ==>
        r == MissingKey(TotalFramesGenerated) && totalFramesGenerated == Absent
      ensures old(totalScenariosRun).Present? && old(totalFramesGenerated).Present? ==>
        r == Ok && totalFramesGenerated == Present(old(totalFramesGenerated).value + |s.frames|)
      ensures Valid()
    {
      currentScenario := Present(Some(s));
      currentFrameIndex := Present(0);
      r := UpdateMetrics(|s.frames|);
    }

    /** Shows a scenario from its first frame without counting it. */
    method LoadExistingScenario(s: WargameScenario)
      requires Valid()
      modifies this
      ensures currentScenario == Present(Some(s)) && currentFrameIndex == Present(0)
      ensures totalScenariosRun == old(totalScenariosRun) && totalFramesGenerated == old(totalFramesGenerated)
      ensures Valid()
    {
      currentScenario := Present(Some(s));
      currentFrameIndex := Present(0);
    }

    /** Moves the cursor one frame on when a scenario is shown and the cursor
        is before its last frame; otherwise changes nothing. */
    method NextFrame() returns (r: Outcome)
      requires Valid()
      modifies this
      ensures old(currentScenario).Absent? ==> r == MissingKey(CurrentScenario)
      ensures old(currentScenario) == Present(None) ==> r == Ok
      ensures old(currentScenario).Present? && old(currentScenario).value.Some? && old(currentFrameIndex).Absent? ==>
        r == MissingKey(CurrentFrameIndex)
      ensures old(currentScenario).Present? && old(currentScenario).value.Some? && old(currentFrameIndex).Present? ==>
        r == Ok &&
        currentFrameIndex == Present(
          if old(currentFrameIndex).value < |old(currentScenario).value.value.frames| - 1
          then old(currentFrameIndex).value + 1 else old(currentFrameIndex).value)
      ensures !(old(currentScenario).Present? && old(currentScenario).value.Some? && old(currentFrameIndex).Present?) ==>
        currentFrameIndex == old(currentFrameIndex)
      ensures currentScenario == old(currentScenario)
      ensures totalScenariosRun == old(totalScenariosRun) && totalFramesGenerated == old(totalFramesGenerated)
      ensures Valid()
    {
      if currentScenario.Absent? {
        return MissingKey(CurrentScenario);
      }
      if currentScenario.value.Some? {
        if currentFrameIndex.Absent? {
          return MissingKey(CurrentFrameIndex);
        }
        if currentFrameIndex.value < |currentScenario.value.value.frames| - 1 {
          currentFrameIndex := Present(currentFrameIndex.value + 1);
        }
      }
      r := Ok;
    }

    /** Moves the cursor one frame back when a scenario is shown and the
        cursor is past the first frame; otherwise changes nothing. */
    method PrevFrame() returns (r: Outcome)
      requires Valid()
      modifies this
      ensures old(currentScenario).Absent? ==> r == MissingKey(CurrentScenario)
      ensures old(currentScenario) == Present(None) ==> r == Ok
      ensures old(currentScenario).Present? && old(currentScenario).value.Some? && old(currentFrameIndex).Absent? ==>
        r == MissingKey(CurrentFrameIndex)
      ensures old(currentScenario).Present? && old(currentScenario).value.Some? && old(currentFrameIndex).Present? ==>
        r == Ok &&
        currentFrameIndex == Present(
          if old(currentFrameIndex).value > 0 then old(currentFrameIndex).value - 1 else old(currentFrameIndex).value)
      ensures !(old(currentScenario).Present? && old(currentScenario).value.Some? && old(currentFrameIndex).Present?) ==>
        currentFrameIndex == old(currentFrameIndex)
      ensures currentScenario == old(currentScenario)
      ensures totalScenariosRun == old(totalScenariosRun) && totalFramesGenerated == old(totalFramesGenerated)
      ensures Valid()
    {
      if currentScenario.Absent? {
        return MissingKey(CurrentScenario);
      }
      if currentScenario.value.Some? {
        if currentFrameIndex.Absent? {
          return MissingKey(CurrentFrameIndex);
        }
        if currentFrameIndex.value > 0 {
          currentFrameIndex := Present(currentFrameIndex.value - 1);
        }
      }
      r := Ok;
    }
  }

  /** A new session, initialized, shown a two-frame scenario and then stepped
      next, next, prev, prev: the cursor reads 0, 1, 1, 0, 0, and the session
      has counted one run of two frames. */
  method NavigationTrace(s: WargameScenario) returns (trace: seq<int>, runs: int, generated: int)
    requires |s.frames| == 2
    ensures trace == [0, 1, 1, 0, 0]
    ensures runs == 1 && generated == 2
  {
    var session := new Session();
    session.InitializeState();
    var r := session.SetScenario(s);
    trace := [session.currentFrameIndex.value];
    r := session.NextFrame();
    trace := trace + [session.currentFrameIndex.value];
    r := session.NextFrame();
    trace := trace + [session.currentFrameIndex.value];
    r := session.PrevFrame();
    trace := trace + [session.currentFrameIndex.value];
    r := session.PrevFrame();
    trace := trace + [session.currentFrameIndex.value];
    runs := session.totalScenariosRun.value;
    generated := session.totalFramesGenerated.value;
  }
}
