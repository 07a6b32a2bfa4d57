/** The animator's frame index as a machine of its own.  A run starts at
    frame 0; a tick that finds the index below the track length draws that
    frame and moves on by the stride, the first tick that finds it at or past
    the length stops the timer, and a stopped timer never fires again.
    (Ticks that throw leave the index where it was; the class model says so.) */
module Animation {
  import opened Types

  /** Samples consumed per tick: one simulated minute of one-second samples. */
  const Stride: nat := 60

  datatype Phase = Running(i: nat) | Stopped(i: nat)

  /** One firing of the timer. */
  function Step(p: Phase, len: nat): Phase
  {
    match p
    case Running(i) => if i >= len then Stopped(i) else Running(i + Stride)
    case Stopped(_) => p
  }

  /** The frame a tick from phase p draws, if any. */
  function FrameOf(p: Phase, len: nat): Option<nat>
  {
    if p.Running? && p.i < len then Some(p.i) else None
  }

  /** The phase after n ticks of a fresh run. */
  function Run(len: nat, n: nat): Phase
  {
    if n == 0 then Running(0) else Step(Run(len, n - 1), len)
  }

  /** The frames drawn by the first n ticks, in order. */
  function Drawn(len: nat, n: nat): seq<nat>
  {
    if n == 0 then []
    else
      Drawn(len, n - 1) +
      match FrameOf(Run(len, n - 1), len)
      case Some(f) => [f]
      case None => []
  }

  /** Number of drawing ticks of a run over `len` samples: len / 60 rounded up. */
  function DrawingTicks(len: nat): nat
  {
    (len + Stride - 1) / Stride
  }

  lemma DrawingTicksBounds(len: nat)
    ensures len <= Stride * DrawingTicks(len)
    ensures DrawingTicks(len) > 0 ==> Stride * (DrawingTicks(len) - 1) < len
  {
  }

  /** The run draws with index 0, 60, 120, ... for DrawingTicks(len) ticks and
      then sits stopped at the first multiple of 60 that is >= len. */
  lemma {:induction false} RunShape(len: nat, n: nat)
    ensures Run(len, n) ==
      if n <= DrawingTicks(len) then Running(Stride * n) else Stopped(Stride * DrawingTicks(len))
  {
    DrawingTicksBounds(len);
    if n > 0 {
      RunShape(len, n - 1);
    }
  }

  /** The frames drawn so far are 0, 60, 120, ..., one per drawing tick. */
  lemma {:induction false} DrawnShape(len: nat, n: nat)
    ensures |Drawn(len, n)| == if n <= DrawingTicks(len) then n else DrawingTicks(len)
    ensures forall j :: 0 <= j < |Drawn(len, n)| ==> Drawn(len, n)[j] == Stride * j
  {
    if n > 0 {
      DrawnShape(len, n - 1);
      RunShape(len, n - 1);
      DrawingTicksBounds(len);
    }
  }

  /** Every drawn frame is a multiple of 60 below the track length, and every
      such multiple is drawn once the run has stopped. */
  lemma DrawnFramesInRange(len: nat, n: nat)
    ensures forall f :: f in Drawn(len, n) ==> f % Stride == 0 && f < len
    ensures n > DrawingTicks(len) ==>
      forall f: nat :: f % Stride == 0 && f < len ==> f in Drawn(len, n)
  {
    DrawnShape(len, n);
    DrawingTicksBounds(len);
    if n > DrawingTicks(len) {
      forall f: nat | f % Stride == 0 && f < len
        ensures f in Drawn(len, n)
      {
        assert Drawn(len, n)[f / Stride] == f;
      }
    }
  }

  /** The finishing tick is the tick after the last drawing one, it draws
      nothing, and no later tick changes the phase or draws anything. */
  lemma FinishIsTerminal(len: nat, n: nat)
    requires n > DrawingTicks(len)
    ensures Run(len, n) == Stopped(Stride * DrawingTicks(len)) && Stride * DrawingTicks(len) >= len
    ensures FrameOf(Run(len, n), len).None?
    ensures Step(Run(len, n), len) == Run(len, n)
    ensures Drawn(len, n) == Drawn(len, DrawingTicks(len) + 1)
  {
    DrawingTicksBounds(len);
    RunShape(len, n);
    DrawnShape(len, n);
    DrawnShape(len, DrawingTicks(len) + 1);
  }

  /** With 120 samples per track the run draws frames 0 and 60 and stops on the third tick. */
  lemma HundredTwentySamples()
    ensures Drawn(120, 2) == [0, 60] && Run(120, 2) == Running(120)
    ensures Run(120, 3) == Stopped(120) && Drawn(120, 3) == [0, 60]
  {
    RunShape(120, 2);
    RunShape(120, 3);
    DrawnShape(120, 3);
    DrawnShape(120, 2);
  }

  /** With empty tracks the first tick stops the timer and nothing is drawn. */
  lemma EmptyTracks(n: nat)
    requires n > 0
    ensures Run(0, n) == Stopped(0) && Drawn(0, n) == []
  {
    RunShape(0, n);
    DrawnShape(0, n);
  }
}
