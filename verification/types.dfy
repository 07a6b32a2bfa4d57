/** Values shared by the world-map component's model: what the position
    service returns, what the overlay canvas receives, and how a call fails. */
module Types {

  datatype Option<+T> = None | Some(value: T)

  datatype Result<+T> = Ok(value: T) | Err(error: Fault)

  /** Why a step of the component stops.  Every kind but FetchFailed is a
      JavaScript exception thrown by the component's own code. */
  datatype Fault =
    | NoTracks            // `data[0]` is undefined: no satellite in the batch
    | NoPositionData      // `data[0]` has no `positions` field
    | MapNotReady         // `this.map` is still null: the base map was never generated
    | SampleMissing       // `positions[i]` is undefined (no positions, or too short)
    | NameWithoutDigits   // `satname.match(/\d+/g)` is null
    | FetchFailed(message: string)  // a position request was rejected

  /** A coordinate as the service sends it: absent (null or undefined) or a number. */
  datatype Coord = Absent | Num(deg: real)

  /** One sample of a ground track. */
  datatype Sample = Sample(satlongitude: Coord, satlatitude: Coord)

  datatype SatInfo = SatInfo(satname: string)

  /** One satellite's answer: its info and, when present, its samples. */
  datatype SatTrack = SatTrack(info: SatInfo, positions: Option<seq<Sample>>)

  /** What the animator paints on the overlay canvas.  A marker stands for the
      filled circle and the label under it; the projected pixel position is
      left to the projection, so the marker keeps the sample's coordinates. */
  datatype Paint =
    | ClearOverlay
    | ClockLabel(time: int)
    | Marker(frame: nat, sat: nat, lon: real, lat: real, text: string, slot: nat)

  /** JavaScript truthiness of a coordinate: null, undefined and 0 are falsy. */
  predicate Falsy(c: Coord)
  {
    c.Absent? || c.deg == 0.0
  }

  /** `positions[i]` of a track, None where JavaScript yields undefined. */
  function SampleAt(t: SatTrack, i: nat): (r: Option<Sample>)
    ensures r.Some? <==> t.positions.Some? && i < |t.positions.value|
    ensures r.Some? ==> r.value == t.positions.value[i]
  {
    match t.positions
    case None => None
    case Some(ps) => if i < |ps| then Some(ps[i]) else None
  }
}
