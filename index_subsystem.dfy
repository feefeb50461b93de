/**
  The index mechanism: the note sensor, the edge-triggered latch that tells the LEDs when a note
  arrives or leaves, and the fixed duty-cycle commands of the index motor.
 */
module Indexer {
  import opened Wrappers
  import opened Constants

  /** The LED base states the index subsystem requests. */
  datatype BaseState = Note | Empty

  function BaseStateFor(haveNote: bool): BaseState {
    if haveNote then Note else Empty
  }

  /** `haveNote()`: the sensor is active-low, so a note is present when it reads false. */
  function HaveNote(sensorRaw: bool): (r: bool)
    ensures r != sensorRaw
  {
    !sensorRaw
  }

  /** One `periodic` step of the latch: the new latched value and the LED request it sends, if any. */
  datatype LatchStep = LatchStep(latched: bool, request: Option<BaseState>)

  function Step(latched: bool, sensorRaw: bool): (r: LatchStep)
    ensures r.latched == HaveNote(sensorRaw)
    ensures r.request.Some? <==> HaveNote(sensorRaw) != latched
    ensures r.request.Some? ==> r.request.value == BaseStateFor(HaveNote(sensorRaw))
  {
    var current := HaveNote(sensorRaw);
    if current != latched then LatchStep(current, Some(BaseStateFor(current))) else LatchStep(latched, None)
  }

  /** Repeating a step with an unchanged sensor reading changes nothing and requests nothing. */
  lemma StepIdempotent(latched: bool, sensorRaw: bool)
    ensures Step(Step(latched, sensorRaw).latched, sensorRaw) == LatchStep(Step(latched, sensorRaw).latched, None)
  {
  }

  /** The latched value after a run of `periodic` calls over the readings `raws`. */
  function LatchedAfter(latched: bool, raws: seq<bool>): bool
    decreases |raws|
  {
    if raws == [] then latched else LatchedAfter(Step(latched, raws[0]).latched, raws[1..])
  }

  /** The LED requests a run of `periodic` calls sends, in order. */
  function RequestsAfter(latched: bool, raws: seq<bool>): seq<BaseState>
    decreases |raws|
  {
    if raws == [] then []
    else
      var s := Step(latched, raws[0]);
      (if s.request.Some? then [s.request.value] else []) + RequestsAfter(s.latched, raws[1..])
  }

  /** After a non-empty run the latch holds the last reading's note state. */
  lemma {:induction false} LatchedFollowsLastReading(latched: bool, raws: seq<bool>)
    requires raws != []
    ensures LatchedAfter(latched, raws) == HaveNote(raws[|raws| - 1])
    decreases |raws|
  {
    if |raws| > 1 {
      LatchedFollowsLastReading(Step(latched, raws[0]).latched, raws[1..]);
      assert raws[1..][|raws[1..]| - 1] == raws[|raws| - 1];
    }
  }

  /**
    Over any run the LED requests alternate between Note and Empty, the first differs from the
    state latched at the start, the last reports the final latched state, and there is at most
    one request per step.
   */
  lemma {:induction false} RequestsAlternate(latched: bool, raws: seq<bool>)
    ensures |RequestsAfter(latched, raws)| <= |raws|
    ensures forall i :: 0 <= i < |RequestsAfter(latched, raws)| - 1 ==>
      RequestsAfter(latched, raws)[i] != RequestsAfter(latched, raws)[i + 1]
    ensures RequestsAfter(latched, raws) != [] ==> RequestsAfter(latched, raws)[0] != BaseStateFor(latched)
    ensures RequestsAfter(latched, raws) != [] ==>
      RequestsAfter(latched, raws)[|RequestsAfter(latched, raws)| - 1] == BaseStateFor(LatchedAfter(latched, raws))
    ensures RequestsAfter(latched, raws) == [] ==> LatchedAfter(latched, raws) == latched
    decreases |raws|
  {
    if raws != [] {
      var s := Step(latched, raws[0]);
      RequestsAlternate(s.latched, raws[1..]);
      var rest := RequestsAfter(s.latched, raws[1..]);
      if s.request.Some? {
        assert RequestsAfter(latched, raws) == [s.request.value] + rest;
        assert s.request.value == BaseStateFor(s.latched);
      } else {
        assert RequestsAfter(latched, raws) == rest;
        assert s.latched == latched;
      }
    }
  }

  /** A run whose readings never change after the first step sends at most one request. */
  lemma {:induction false} SteadyReadingRequestsOnce(latched: bool, raw: bool, n: nat)
    ensures |RequestsAfter(latched, seq(n, _ => raw))| <= 1
    ensures |RequestsAfter(latched, seq(n, _ => raw))| == 1 <==> n > 0 && HaveNote(raw) != latched
    decreases n
  {
    if n > 0 {
      var s := Step(latched, raw);
      var raws := seq(n, _ => raw);
      assert raws[0] == raw && raws[1..] == seq(n - 1, _ => raw);
      SteadyAfterFirst(s.latched, raw, n - 1);
    }
  }

  /** Once the latch agrees with a steady reading, further steps request nothing. */
  lemma {:induction false} SteadyAfterFirst(latched: bool, raw: bool, n: nat)
    requires latched == HaveNote(raw)
    ensures RequestsAfter(latched, seq(n, _ => raw)) == []
    decreases n
  {
    if n > 0 {
      var raws := seq(n, _ => raw);
      assert raws[0] == raw && raws[1..] == seq(n - 1, _ => raw);
      SteadyAfterFirst(latched, raw, n - 1);
    }
  }

  class IndexSubsystem {
    /** The latched note state, initially false. */
    var haveNote: bool
    /** The output held by the motor's duty-cycle request. */
    var dutyCycle: real
    /** Base states requested from the LED subsystem, in order. */
    var ledRequests: seq<BaseState>

    ghost predicate Valid()
      reads this
    {
      DutyCycle(dutyCycle)
    }

    constructor ()
      ensures Valid()
      ensures !haveNote && dutyCycle == 0.0 && ledRequests == []
    {
      haveNote := false;
      dutyCycle := 0.0;
      ledRequests := [];
    }

    /** `periodic()`: latch the sensor and tell the LEDs only when the reading has changed. */
    method Periodic(sensorRaw: bool)
      modifies this`haveNote, this`ledRequests
      ensures haveNote == Step(old(haveNote), sensorRaw).latched
      ensures ledRequests == old(ledRequests) + (if Step(old(haveNote), sensorRaw).request.Some?
                                                  then [Step(old(haveNote), sensorRaw).request.value] else [])
    {
      var currentVal := HaveNote(sensorRaw);
      if currentVal != haveNote {
        haveNote := currentVal;
        ledRequests := ledRequests + [BaseStateFor(haveNote)];
      }
    }

    /** `index()`. */
    method Index()
      modifies this`dutyCycle
      ensures Valid() && dutyCycle == IndexSpeed
    {
      dutyCycle := IndexSpeed;
      DutyCyclesInRange();
    }

    /** `feed()`. */
    method Feed()
      modifies this`dutyCycle
      ensures Valid() && dutyCycle == FeedSpeed
    {
      dutyCycle := FeedSpeed;
      DutyCyclesInRange();
    }

    /** `softfeed()`. */
    method SoftFeed()
      modifies this`dutyCycle
      ensures Valid() && dutyCycle == SoftFeedSpeed
    {
      dutyCycle := SoftFeedSpeed;
      DutyCyclesInRange();
    }

    /** `stop()`. */
    method Stop()
      modifies this`dutyCycle
      ensures Valid() && dutyCycle == IndexStopSpeed
    {
      dutyCycle := IndexStopSpeed;
      DutyCyclesInRange();
    }

    /** `eject()`. */
    method Eject()
      modifies this`dutyCycle
      ensures Valid() && dutyCycle == EjectSpeed
    {
      dutyCycle := EjectSpeed;
      DutyCyclesInRange();
    }
  }

  /** A run of `periodic` calls on the subsystem sends exactly the requests `RequestsAfter` predicts. */
  method RunPeriodic(idx: IndexSubsystem, raws: seq<bool>)
    modifies idx
    ensures idx.haveNote == LatchedAfter(old(idx.haveNote), raws)
    ensures idx.ledRequests == old(idx.ledRequests) + RequestsAfter(old(idx.haveNote), raws)
    ensures idx.dutyCycle == old(idx.dutyCycle)
  {
    var i := 0;
    while i < |raws|
      invariant 0 <= i <= |raws|
      invariant LatchedAfter(idx.haveNote, raws[i..]) == LatchedAfter(old(idx.haveNote), raws)
      invariant idx.ledRequests + RequestsAfter(idx.haveNote, raws[i..])
             == old(idx.ledRequests) + RequestsAfter(old(idx.haveNote), raws)
      invariant idx.dutyCycle == old(idx.dutyCycle)
    {
      assert raws[i..][0] == raws[i] && raws[i..][1..] == raws[i + 1..];
      idx.Periodic(raws[i]);
      i := i + 1;
    }
  }
}
