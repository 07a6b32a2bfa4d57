/** Concrete runs of the component: a whole session from selection to the
    end of its animation, and the runs behind the findings in README.md,
    each next to the same run through the guarded gate. */
module Scenarios {
  import opened Types
  import LabelKey
  import Frame
  import opened WorldMapComponent

  /** A track of n samples, all at one plottable place. */
  function Steady(name: string, n: nat): SatTrack
  {
    SatTrack(SatInfo(name), Some(seq(n, _ => Sample(Num(-74.0), Num(40.7)))))
  }

  /** A steady track whose name has a digit draws without throwing at any of its indices. */
  lemma SteadyIsDrawable(name: string, n: nat, i: nat, at: nat)
    requires i < n && at < |name| && LabelKey.IsDigit(name[at])
    ensures Frame.Drawable(Steady(name, n), i) && Frame.Plottable(Steady(name, n), i)
  {
    LabelKey.KeyFailsIffNoDigit(name);
  }

  /** A frame of two satellites that are both drawable draws without throwing. */
  lemma TwoTracksDraw(a: SatTrack, b: SatTrack, i: nat, domain: seq<string>)
    requires Frame.Drawable(a, i) && Frame.Drawable(b, i)
    ensures Frame.DrawFrame([a, b], i, domain).fault.None?
  {
    var data := [a, b];
    assert forall k :: 0 <= k < 2 ==> Frame.Drawable(data[k], i);
    Frame.NoFaultIff(data, 2, i, domain);
  }

  function Manhattan(): Observer
  {
    Observer(40.7, -74.0, 10.0, 0.0, 10)
  }

  /** Selecting satellites 25544 and 20580 for a ten-minute window issues two
      requests for 600 seconds; with 120 samples per track the animation
      draws frames 0 and 60, finishes on the third tick (lowering isDrawing
      and emptying the hint) and never ticks again. */
  method EndToEndSession() returns (requests: seq<Request>, outcomes: seq<TickOutcome>,
                                    loading: bool, drawing: bool, hint: string)
    ensures |requests| == 2 && requests[0].satid == 25544 && requests[1].satid == 20580
    ensures requests[0].endTime == 600 && requests[1].endTime == 600
    ensures outcomes == [DrewFrame(0), DrewFrame(60), Finished, Idle]
    ensures !loading && !drawing && hint == ""
  {
    var m := new WorldMap();
    m.GenerateMap();
    var selected := Selection(1, [SatRef(25544), SatRef(20580)]);
    var fetch := m.DidUpdate(Props(Selection(0, []), Manhattan()), Props(selected, Manhattan()));
    requests := fetch.value.requests;
    var iss, noaa := Steady("STARLINK-1007", 120), Steady("NOAA 15", 120);
    var anim := m.PositionsLoaded(fetch.value, Loaded([iss, noaa]), 0);
    assert anim != null && anim.running && anim.i == 0 && anim.len == 120 && anim.data == [iss, noaa];
    outcomes := PlayToEnd(anim, iss, noaa);
    loading, drawing, hint := m.isLoading, m.isDrawing, m.hint;
  }

  /** The four ticks of a fresh animator over two drawable 120-sample tracks. */
  method PlayToEnd(anim: TrackAnimator, iss: SatTrack, noaa: SatTrack) returns (outcomes: seq<TickOutcome>)
    requires anim.Valid() && anim.owner.Valid() && anim.running && anim.i == 0 && anim.len == 120
    requires anim.data == [iss, noaa] && iss == Steady("STARLINK-1007", 120) && noaa == Steady("NOAA 15", 120)
    modifies anim, anim.owner`overlay, anim.owner`isDrawing, anim.owner`hint, anim.owner.color
    ensures outcomes == [DrewFrame(0), DrewFrame(60), Finished, Idle]
    ensures !anim.owner.isDrawing && anim.owner.hint == ""
  {
    var first := DrawOneFrame(anim, iss, noaa, 1000);
    var second := DrawOneFrame(anim, iss, noaa, 2000);
    var third := anim.Tick(3000);
    assert third == Finished && !anim.running;
    var fourth := anim.Tick(4000);
    outcomes := [first, second, third, fourth];
  }

  /** A tick of a running animator over the two steady tracks below their end. */
  method DrawOneFrame(anim: TrackAnimator, iss: SatTrack, noaa: SatTrack, now: int) returns (outcome: TickOutcome)
    requires anim.Valid() && anim.owner.Valid() && anim.running && anim.i < 120 && anim.len == 120
    requires anim.data == [iss, noaa] && iss == Steady("STARLINK-1007", 120) && noaa == Steady("NOAA 15", 120)
    modifies anim, anim.owner`overlay, anim.owner`isDrawing, anim.owner`hint, anim.owner.color
    ensures anim.Valid() && anim.owner.Valid() && anim.running
    ensures outcome == DrewFrame(old(anim.i)) && anim.i == old(anim.i) + 60
  {
    SteadyIsDrawable("STARLINK-1007", 120, anim.i, 9);
    SteadyIsDrawable("NOAA 15", 120, anim.i, 5);
    TwoTracksDraw(iss, noaa, anim.i, anim.owner.color.domain);
    outcome := anim.Tick(now);
  }

  /** A one-satellite frame whose satellite is plotted but whose name has no
      digit throws the missing-key fault. */
  lemma DigitlessFrameThrows(t: SatTrack, i: nat, domain: seq<string>)
    requires SampleAt(t, i).Some?
    requires !Falsy(SampleAt(t, i).value.satlongitude) && !Falsy(SampleAt(t, i).value.satlatitude)
    requires LabelKey.Key(t.info.satname).None?
    ensures Frame.DrawFrame([t], i, domain).fault == Some(NameWithoutDigits)
  {
    assert Frame.DrawPrefix([t], 0, i, domain).fault.None?;
  }

  /** A satellite whose name has no digit makes every drawing tick throw before
      the index moves: the same frame is retried at every tick and the timer
      is never cleared. */
  method DigitlessNameStalls() returns (outcomes: seq<TickOutcome>, index: nat, running: bool, drawing: bool)
    ensures outcomes == [Threw(NameWithoutDigits), Threw(NameWithoutDigits)]
    ensures index == 0 && running && drawing
  {
    var m := new WorldMap();
    m.GenerateMap();
    var fetch := m.DidUpdate(Props(Selection(0, []), Manhattan()), Props(Selection(1, [SatRef(20580)]), Manhattan()));
    var hst := Steady("HST", 120);
    var anim := m.PositionsLoaded(fetch.value, Loaded([hst]), 0);
    assert anim != null && anim.running && anim.i == 0 && anim.len == 120 && anim.data == [hst];
    outcomes := RetryTwice(anim, hst);
    index, running, drawing := anim.i, anim.running, m.isDrawing;
  }

  /** Two ticks of a fresh animator over the one track `HST`. */
  method RetryTwice(anim: TrackAnimator, hst: SatTrack) returns (outcomes: seq<TickOutcome>)
    requires anim.Valid() && anim.owner.Valid() && anim.running && anim.i == 0 && anim.len == 120
    requires anim.data == [hst] && hst == Steady("HST", 120) && anim.owner.isDrawing
    modifies anim, anim.owner`overlay, anim.owner`isDrawing, anim.owner`hint, anim.owner.color
    ensures outcomes == [Threw(NameWithoutDigits), Threw(NameWithoutDigits)]
    ensures anim.i == 0 && anim.running && anim.owner.isDrawing
  {
    LabelKey.KeyFailsIffNoDigit("HST");
    DigitlessFrameThrows(hst, 0, anim.owner.color.domain);
    var first := anim.Tick(1000);
    DigitlessFrameThrows(hst, 0, anim.owner.color.domain);
    var second := anim.Tick(2000);
    outcomes := [first, second];
  }

  /** Two selections whose requests are both in flight capture the same false
      `prevState.isDrawing`, so both answers start an animator: two timers
      then paint the one overlay. */
  method OverlappingSelections() returns (first: TrackAnimator?, second: TrackAnimator?)
    ensures first != null && second != null && first != second
    ensures first.running && second.running && first.owner == second.owner
  {
    var m := new WorldMap();
    m.GenerateMap();
    var a := Selection(1, [SatRef(25544)]);
    var b := Selection(2, [SatRef(20580)]);
    var fa := m.DidUpdate(Props(Selection(0, []), Manhattan()), Props(a, Manhattan()));
    var fb := m.DidUpdate(Props(a, Manhattan()), Props(b, Manhattan()));
    first := m.PositionsLoaded(fa.value, Loaded([Steady("STARLINK-1007", 120)]), 0);
    second := m.PositionsLoaded(fb.value, Loaded([Steady("NOAA 15", 120)]), 500);
  }

  /** The same two answers through the guarded gate: the second is refused
      with the wait hint and only one animator runs. */
  method OverlappingSelectionsGuarded() returns (first: TrackAnimator?, second: TrackAnimator?, hint: string)
    ensures first != null && first.running && second == null && hint == WaitHint
  {
    var m := new WorldMap();
    m.GenerateMap();
    first := m.PositionsLoadedGuarded(Loaded([Steady("STARLINK-1007", 120)]), 0);
    second := m.PositionsLoadedGuarded(Loaded([Steady("NOAA 15", 120)]), 500);
    hint := m.hint;
  }

  /** An answer whose first track lacks `positions` makes `track` throw after
      `isDrawing` was raised; nothing will ever lower it, so every later
      selection is refused with the wait hint although nothing is animated. */
  method MissingPositionsBlocksLaterSelections() returns (later: TrackAnimator?, drawing: bool, hint: string, log: seq<Fault>)
    ensures later == null && drawing && hint == WaitHint && log == [NoPositionData]
  {
    var m := new WorldMap();
    m.GenerateMap();
    var a := Selection(1, [SatRef(25544)]);
    var b := Selection(2, [SatRef(20580)]);
    var fa := m.DidUpdate(Props(Selection(0, []), Manhattan()), Props(a, Manhattan()));
    var broken := m.PositionsLoaded(fa.value, Loaded([SatTrack(SatInfo("STARLINK-1007"), None)]), 0);
    var fb := m.DidUpdate(Props(a, Manhattan()), Props(b, Manhattan()));
    later := m.PositionsLoaded(fb.value, Loaded([Steady("NOAA 15", 120)]), 5000);
    drawing, hint, log := m.isDrawing, m.hint, m.log;
  }

  /** The same answers through the guarded gate: the failed start leaves
      isDrawing low and the later selection is animated. */
  method MissingPositionsGuarded() returns (later: TrackAnimator?, log: seq<Fault>)
    ensures later != null && later.running && log == [NoPositionData]
  {
    var m := new WorldMap();
    m.GenerateMap();
    var broken := m.PositionsLoadedGuarded(Loaded([SatTrack(SatInfo("STARLINK-1007"), None)]), 0);
    later := m.PositionsLoadedGuarded(Loaded([Steady("NOAA 15", 120)]), 5000);
    log := m.log;
  }

  /** A rejected request only logs: isLoading stays raised and the spinner
      keeps turning. */
  method RejectedFetchKeepsSpinner() returns (loading: bool, log: seq<Fault>)
    ensures loading && log == [FetchFailed("Network Error")]
  {
    var m := new WorldMap();
    var a := Selection(1, [SatRef(25544)]);
    var fa := m.DidUpdate(Props(Selection(0, []), Manhattan()), Props(a, Manhattan()));
    var none := m.PositionsLoaded(fa.value, Rejected("Network Error"), 0);
    loading, log := m.isLoading, m.log;
  }

  /** The same rejection through the guarded gate lowers isLoading. */
  method RejectedFetchGuarded() returns (loading: bool)
    ensures !loading
  {
    var m := new WorldMap();
    var a := Selection(1, [SatRef(25544)]);
    var fa := m.DidUpdate(Props(Selection(0, []), Manhattan()), Props(a, Manhattan()));
    var none := m.PositionsLoadedGuarded(Rejected("Network Error"), 0);
    loading := m.isLoading;
  }
}
