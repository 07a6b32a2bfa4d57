/** The world-map component's state machine: the session gate that reacts to
    a new satellite selection, the per-satellite draw, and the track animator
    whose timer ticks once a second.  Canvas drawing, the projection, the
    network and the clock are inputs or paints; see README.md. */
module WorldMapComponent {
  import opened Types
  import Colour
  import LabelKey
  import Clock
  import Frame
  import Animation

  /** The hint shown when a selection arrives while an animation runs. */
  const WaitHint: string :=
    "Please wait for these satellite animation to finish before selection new ones!"

  /** Seconds per minute: the observation window is given in minutes. */
  const SecondsPerMinute: int := 60

  datatype Observer = Observer(latitude: real, longitude: real, elevation: real, altitude: real, duration: int)

  datatype SatRef = SatRef(satid: int)

  /** `props.satData`; `ref` stands for the array's identity, which is all `!==` compares. */
  datatype Selection = Selection(ref: nat, sats: seq<SatRef>)

  datatype Props = Props(satData: Selection, observerData: Observer)

  /** The parameters of one position request (the URL and API key are left out). */
  datatype Request = Request(satid: int, latitude: real, longitude: real, elevation: real, endTime: int)

  /** A batch of requests in flight, with the `prevState.isDrawing` its callback captured. */
  datatype Fetch = Fetch(requests: seq<Request>, prevDrawing: bool)

  /** How the joined requests settle: every answer, or the first rejection. */
  datatype FetchOutcome = Loaded(tracks: seq<SatTrack>) | Rejected(message: string)

  datatype TickOutcome = Idle | Finished | DrewFrame(frame: nat) | Threw(fault: Fault)

  /** One request per selected satellite, in selection order, each for the
      observer's place and a window of `duration * 60` seconds. */
  function Requests(sats: seq<SatRef>, o: Observer): (r: seq<Request>)
    ensures |r| == |sats|
    ensures forall k :: 0 <= k < |r| ==>
      r[k] == Request(sats[k].satid, o.latitude, o.longitude, o.elevation, o.duration * SecondsPerMinute)
  {
    if sats == [] then []
    else
      var first := Request(sats[0].satid, o.latitude, o.longitude, o.elevation, o.duration * SecondsPerMinute);
      [first] + Requests(sats[1..], o)
  }

  /** The checks `track(data)` makes before its timer starts, in its order:
      the first track must exist and carry `positions`, and the base map must
      have been generated; the run's length is the first track's alone. */
  function StartLength(data: seq<SatTrack>, mapReady: bool): (r: Result<nat>)
    ensures r.Ok? <==> |data| > 0 && data[0].positions.Some? && mapReady
    ensures r.Ok? ==> r.value == |data[0].positions.value|
    ensures |data| == 0 ==> r == Err(NoTracks)
    ensures |data| > 0 && data[0].positions.None? ==> r == Err(NoPositionData)
    ensures |data| > 0 && data[0].positions.Some? && !mapReady ==> r == Err(MapNotReady)
  {
    if |data| == 0 then Err(NoTracks)
    else if data[0].positions.None? then Err(NoPositionData)
    else if !mapReady then Err(MapNotReady)
    else Ok(|data[0].positions.value|)
  }

  /** Only the first track is looked at when the animator starts: the other
      tracks may lack samples or be of any length. */
  lemma OnlyFirstTrackChecked(data: seq<SatTrack>, other: seq<SatTrack>, mapReady: bool)
    requires |data| > 0 && |other| > 0 && data[0] == other[0]
    ensures StartLength(data, mapReady) == StartLength(other, mapReady)
  {
  }

  class WorldMap {
    var isLoading: bool
    var isDrawing: bool
    var hint: string
    /** `this.map` has been set by `generateMap`. */
    var mapReady: bool
    /** Everything painted on the overlay canvas, oldest first. */
    var overlay: seq<Paint>
    /** What the component reported with `console.log`. */
    var log: seq<Fault>
    /** The one colour scale, built by the constructor and never replaced. */
    const color: Colour.ColorScale
    /** Every animator this component has started. */
    ghost var animators: set<TrackAnimator>

    ghost predicate Valid()
      reads this, color
    {
      && color.Valid()
      && (forall a :: a in animators ==> a.owner == this)
    }

    /** At most one animator runs, and `isDrawing` says whether one does. */
    ghost predicate SingleAnimation()
      reads this, animators
    {
      && (forall a, b :: a in animators && b in animators && a.running && b.running ==> a == b)
      && (isDrawing <==> exists a :: a in animators && a.running)
    }

    constructor ()
      ensures Valid() && fresh(color) && SingleAnimation()
      ensures !isLoading && !isDrawing && hint == "" && !mapReady
      ensures overlay == [] && log == [] && color.domain == [] && animators == {}
    {
      isLoading, isDrawing, hint, mapReady := false, false, "", false;
      overlay, log := [], [];
      color := new Colour.ColorScale();
      animators := {};
    }

    /** The part of `generateMap` the animator depends on: `this.map` is set. */
    method GenerateMap()
      modifies this`mapReady
      ensures mapReady
    {
      mapReady := true;
    }

    /** `componentDidUpdate`: a new `satData` array raises `isLoading` and
        issues one request per satellite; the callback keeps `prevState.isDrawing`. */
    method DidUpdate(prevProps: Props, props: Props) returns (fetch: Option<Fetch>)
      modifies this`isLoading
      ensures prevProps.satData.ref == props.satData.ref ==> fetch == None && isLoading == old(isLoading)
      ensures prevProps.satData.ref != props.satData.ref ==>
        && isLoading
        && fetch == Some(Fetch(Requests(props.satData.sats, props.observerData), isDrawing))
    {
      if prevProps.satData.ref == props.satData.ref {
        return None;
      }
      var prevDrawing := isDrawing;
      isLoading := true;
      var requests := Requests(props.satData.sats, props.observerData);
      fetch := Some(Fetch(requests, prevDrawing));
    }

    /** `track(data)` up to the start of its timer: the checks of StartLength,
        then a running animator at frame 0. */
    method Track(data: seq<SatTrack>, now: int) returns (anim: TrackAnimator?, fault: Option<Fault>)
      requires Valid()
      modifies this`animators
      ensures Valid()
      ensures StartLength(data, mapReady).Err? ==>
        anim == null && fault == Some(StartLength(data, mapReady).error) && animators == old(animators)
      ensures StartLength(data, mapReady).Ok? ==>
        && fault.None? && anim != null && fresh(anim) && anim.Valid()
        && anim.owner == this && anim.data == data && anim.start == now
        && anim.len == StartLength(data, mapReady).value
        && anim.running && anim.i == 0
        && animators == old(animators) + {anim}
    {
      if |data| == 0 {
        return null, Some(NoTracks);
      }
      if data[0].positions.None? {
        return null, Some(NoPositionData);
      }
      if !mapReady {
        return null, Some(MapNotReady);
      }
      anim := new TrackAnimator(this, data, now);
      animators := animators + {anim};
      fault := None;
    }

    /** The `.then` and `.catch` of the joined position requests, as written:
        success lowers `isLoading`, raises `isDrawing`, then starts the
        animator if the captured `prevState.isDrawing` was false and shows the
        wait hint otherwise; an exception from `track` and a rejected request
        both land in the same `.catch`, which only logs. */
    method PositionsLoaded(fetch: Fetch, outcome: FetchOutcome, now: int) returns (anim: TrackAnimator?)
      requires Valid()
      modifies this`isLoading, this`isDrawing, this`hint, this`log, this`animators
      ensures Valid()
      ensures outcome.Rejected? ==>
        && anim == null && log == old(log) + [FetchFailed(outcome.message)]
        && isLoading == old(isLoading) && isDrawing == old(isDrawing) && hint == old(hint)
        && animators == old(animators)
      ensures outcome.Loaded? ==> !isLoading && isDrawing
      ensures outcome.Loaded? && fetch.prevDrawing ==>
        anim == null && hint == WaitHint && log == old(log) && animators == old(animators)
      ensures outcome.Loaded? && !fetch.prevDrawing ==>
        var s := StartLength(outcome.tracks, mapReady);
        && hint == old(hint)
        && (s.Err? ==> anim == null && log == old(log) + [s.error] && animators == old(animators))
        && (s.Ok? ==>
              && anim != null && fresh(anim) && anim.Valid() && anim.owner == this
              && anim.data == outcome.tracks && anim.start == now && anim.running && anim.i == 0
              && log == old(log) && animators == old(animators) + {anim})
    {
      anim := null;
      match outcome
      case Rejected(message) =>
        log := log + [FetchFailed(message)];
      case Loaded(tracks) =>
        isLoading, isDrawing := false, true;
        if !fetch.prevDrawing {
          var fault;
          anim, fault := Track(tracks, now);
          if fault.Some? {
            log := log + [fault.value];
          }
        } else {
          hint := WaitHint;
        }
    }

    /** The gate as it is evidently meant to work: it decides on the current
        `isDrawing` rather than a copy taken when the request was issued, it
        raises `isDrawing` only when an animator really starts, and it lowers
        `isLoading` whichever way the requests settle. */
    method PositionsLoadedGuarded(outcome: FetchOutcome, now: int) returns (anim: TrackAnimator?)
      requires Valid()
      modifies this`isLoading, this`isDrawing, this`hint, this`log, this`animators
      ensures Valid() && !isLoading
      ensures old(SingleAnimation()) ==> SingleAnimation()
      ensures outcome.Rejected? ==>
        && anim == null && log == old(log) + [FetchFailed(outcome.message)]
        && isDrawing == old(isDrawing) && hint == old(hint) && animators == old(animators)
      ensures outcome.Loaded? && old(isDrawing) ==>
        anim == null && isDrawing && hint == WaitHint && log == old(log) && animators == old(animators)
      ensures outcome.Loaded? && !old(isDrawing) ==>
        var s := StartLength(outcome.tracks, mapReady);
        && hint == old(hint)
        && (s.Err? ==> anim == null && !isDrawing && log == old(log) + [s.error] && animators == old(animators))
        && (s.Ok? ==>
              && anim != null && fresh(anim) && anim.Valid() && anim.owner == this && isDrawing
              && anim.data == outcome.tracks && anim.start == now && anim.running && anim.i == 0
              && log == old(log) && animators == old(animators) + {anim})
    {
      anim := null;
      isLoading := false;
      match outcome
      case Rejected(message) =>
        log := log + [FetchFailed(message)];
      case Loaded(tracks) =>
        if isDrawing {
          hint := WaitHint;
        } else {
          var fault;
          anim, fault := Track(tracks, now);
          if fault.Some? {
            log := log + [fault.value];
          } else {
            isDrawing := true;
          }
        }
    }

    /** `drawSat(info, positions[i])` for the satellite at position k of the batch. */
    method DrawSat(t: SatTrack, k: nat, i: nat) returns (fault: Option<Fault>)
      requires Valid()
      modifies this`overlay, color
      ensures Valid()
      ensures Frame.FrameDraw(overlay, color.domain, fault) ==
        Frame.Then(Frame.FrameDraw(old(overlay), old(color.domain), None), Frame.DrawSatSpec(t, k, i, old(color.domain)))
    {
      var pos := SampleAt(t, i);
      if pos.None? {
        return Some(SampleMissing);
      }
      var p := pos.value;
      if Falsy(p.satlongitude) || Falsy(p.satlatitude) {
        return None;
      }
      var key := LabelKey.Key(t.info.satname);
      if key.None? {
        return Some(NameWithoutDigits);
      }
      var slot := color.Apply(key.value);
      overlay := overlay + [Marker(i, k, p.satlongitude.deg, p.satlatitude.deg, key.value, slot)];
      fault := None;
    }
  }

  /** The closure `track` sets up: the batch, the first track's length, the
      start time, the frame index and the interval timer. */
  class TrackAnimator {
    const owner: WorldMap
    const data: seq<SatTrack>
    const len: nat
    const start: int
    var i: nat
    /** The interval timer has not been cleared. */
    var running: bool
    /** Ticks that did not throw, the clock of the pure phase machine. */
    ghost var steps: nat

    function Phase(): Animation.Phase
      reads this
    {
      if running then Animation.Running(i) else Animation.Stopped(i)
    }

    ghost predicate Valid()
      reads this
    {
      && |data| > 0 && data[0].positions.Some? && len == |data[0].positions.value|
      && Phase() == Animation.Run(len, steps)
    }

    constructor (owner: WorldMap, data: seq<SatTrack>, start: int)
      requires |data| > 0 && data[0].positions.Some?
      ensures Valid() && this.owner == owner && this.data == data && this.start == start
      ensures len == |data[0].positions.value| && i == 0 && running && steps == 0
    {
      this.owner, this.data, this.start := owner, data, start;
      len := |data[0].positions.value|;
      i, running, steps := 0, true, 0;
    }

    /** One firing of the interval timer at wall-clock time `now` (ms).  A
        running timer clears the overlay and prints the clock; then it either
        finishes (index at or past the length: the timer is cleared,
        `isDrawing` is lowered and the hint emptied) or draws every satellite
        at the index and advances it by 60.  An exception while drawing ends
        the tick there and leaves the index, so the next tick retries the
        frame.  A cleared timer never fires: such a tick changes nothing. */
    method Tick(now: int) returns (outcome: TickOutcome)
      requires Valid() && owner.Valid()
      modifies this, owner`overlay, owner`isDrawing, owner`hint, owner.color
      ensures Valid() && owner.Valid()
      ensures this in owner.animators && old(owner.SingleAnimation()) ==> owner.SingleAnimation()
      ensures !old(running) ==>
        && outcome == Idle && !running && i == old(i) && steps == old(steps)
        && owner.overlay == old(owner.overlay) && owner.color.domain == old(owner.color.domain)
        && owner.isDrawing == old(owner.isDrawing) && owner.hint == old(owner.hint)
      ensures old(running) && old(i) >= len ==>
        && outcome == Finished && !running && i == old(i) && steps == old(steps) + 1
        && owner.overlay == old(owner.overlay) + [ClearOverlay, ClockLabel(Clock.DisplayedTime(start, now, old(i)))]
        && owner.color.domain == old(owner.color.domain)
        && !owner.isDrawing && owner.hint == ""
      ensures old(running) && old(i) < len ==>
        var f := Frame.DrawFrame(data, old(i), old(owner.color.domain));
        && running
        && owner.overlay == old(owner.overlay) + [ClearOverlay, ClockLabel(Clock.DisplayedTime(start, now, old(i)))] + f.paints
        && owner.color.domain == f.domain
        && owner.isDrawing == old(owner.isDrawing) && owner.hint == old(owner.hint)
        && (f.fault.None? ==> outcome == DrewFrame(old(i)) && i == old(i) + Animation.Stride && steps == old(steps) + 1)
        && (f.fault.Some? ==> outcome == Threw(f.fault.value) && i == old(i) && steps == old(steps))
      ensures !outcome.Threw? ==> Phase() == Animation.Step(old(Phase()), len)
    {
      if !running {
        return Idle;
      }
      owner.overlay := owner.overlay + [ClearOverlay, ClockLabel(Clock.DisplayedTime(start, now, i))];
      if i >= len {
        running := false;
        owner.isDrawing := false;
        owner.hint := "";
        steps := steps + 1;
        return Finished;
      }
      var fault := DrawSatellites();
      if fault.Some? {
        return Threw(fault.value);
      }
      outcome := DrewFrame(i);
      i := i + Animation.Stride;
      steps := steps + 1;
    }

    /** `data.forEach(sat => this.drawSat(sat.info, sat.positions[i]))`: every
        satellite at the current index, in batch order, until one throws. */
    method DrawSatellites() returns (fault: Option<Fault>)
      requires owner.Valid()
      modifies owner`overlay, owner.color
      ensures owner.Valid()
      ensures var f := Frame.DrawFrame(data, i, old(owner.color.domain));
        owner.overlay == old(owner.overlay) + f.paints && owner.color.domain == f.domain && fault == f.fault
    {
      ghost var base := owner.overlay;
      ghost var d0 := owner.color.domain;
      var k := 0;
      fault := None;
      while k < |data| && fault.None?
        invariant 0 <= k <= |data|
        invariant owner.Valid()
        invariant Frame.FrameDraw(owner.overlay, owner.color.domain, fault) ==
          Frame.After(base, Frame.DrawPrefix(data, k, i, d0))
      {
        ghost var f := Frame.DrawPrefix(data, k, i, d0);
        fault := owner.DrawSat(data[k], k, i);
        Frame.ThenAfter(base, f, Frame.DrawSatSpec(data[k], k, i, f.domain));
        k := k + 1;
      }
      if fault.Some? {
        Frame.FaultSticks(data, k, |data|, i, d0);
      }
    }
  }
}
