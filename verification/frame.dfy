/** One drawing tick's work on the satellites: `data.forEach(sat =>
    this.drawSat(sat.info, sat.positions[i]))`.  Each satellite is drawn at
    the same index i, in the order of the batch, as a marker coloured by the
    shared scale and labelled with its key.  A satellite whose sample has a
    falsy coordinate is skipped; an exception ends the tick's remaining
    draws. */
module Frame {
  import opened Types
  import LabelKey
  import Colour

  /** The effect of drawing one satellite. */
  datatype SatDraw = Skip | Mark(paint: Paint, domain: seq<string>) | Throw(fault: Fault)

  /** `drawSat(info, positions[i])` for the satellite at position k of the
      batch, with the scale's domain as it stands. */
  function DrawSatSpec(t: SatTrack, k: nat, i: nat, domain: seq<string>): (r: SatDraw)
    ensures r.Mark? ==>
      && domain <= r.domain
      && r.paint.Marker? && r.paint.frame == i && r.paint.sat == k
      && r.paint.text in r.domain
      && r.paint.slot == Colour.IndexOf(r.domain, r.paint.text) % Colour.PaletteSize
    ensures r.Mark? ==>
      && LabelKey.Key(t.info.satname).Some?
      && r.paint.text == LabelKey.Key(t.info.satname).value
      && SampleAt(t, i).Some?
      && !Falsy(SampleAt(t, i).value.satlongitude) && !Falsy(SampleAt(t, i).value.satlatitude)
      && r.paint.lon == SampleAt(t, i).value.satlongitude.deg
      && r.paint.lat == SampleAt(t, i).value.satlatitude.deg
      && r.domain == Colour.Observe(domain, r.paint.text).domain
    ensures !r.Mark? ==> r.Skip? || r.Throw?
  {
    match SampleAt(t, i)
    case None => Throw(SampleMissing)
    case Some(p) =>
      if Falsy(p.satlongitude) || Falsy(p.satlatitude) then Skip
      else
        match LabelKey.Key(t.info.satname)
        case None => Throw(NameWithoutDigits)
        case Some(key) =>
          var look := Colour.Observe(domain, key);
          Mark(Marker(i, k, p.satlongitude.deg, p.satlatitude.deg, key, look.slot), look.domain)
  }

  /** The sample at i exists, both coordinates are truthy and the name has a digit. */
  predicate Plottable(t: SatTrack, i: nat)
  {
    && SampleAt(t, i).Some?
    && !Falsy(SampleAt(t, i).value.satlongitude)
    && !Falsy(SampleAt(t, i).value.satlatitude)
    && LabelKey.Key(t.info.satname).Some?
  }

  /** Drawing the satellite does not throw: the sample exists, and either it is
      skipped or the name has a digit. */
  predicate Drawable(t: SatTrack, i: nat)
  {
    && SampleAt(t, i).Some?
    && (|| Falsy(SampleAt(t, i).value.satlongitude)
        || Falsy(SampleAt(t, i).value.satlatitude)
        || LabelKey.Key(t.info.satname).Some?)
  }

  /** Which of the three effects a satellite has depends on its own track
      alone, never on the scale: a marker exactly when it is plottable, a
      throw exactly when it is not drawable, and a skip otherwise. */
  lemma DrawSatCases(t: SatTrack, k: nat, i: nat, domain: seq<string>)
    ensures DrawSatSpec(t, k, i, domain).Mark? <==> Plottable(t, i)
    ensures DrawSatSpec(t, k, i, domain).Throw? <==> !Drawable(t, i)
  {
  }

  /** The overlay paints, the scale's domain and the exception after the
      first n satellites of a tick. */
  datatype FrameDraw = FrameDraw(paints: seq<Paint>, domain: seq<string>, fault: Option<Fault>)

  /** The state after one more satellite's draw. */
  function Then(f: FrameDraw, s: SatDraw): FrameDraw
  {
    match s
    case Skip => f
    case Mark(p, d) => FrameDraw(f.paints + [p], d, f.fault)
    case Throw(e) => FrameDraw(f.paints, f.domain, Some(e))
  }

  /** f with `before` painted ahead of its paints. */
  function After(before: seq<Paint>, f: FrameDraw): FrameDraw
  {
    FrameDraw(before + f.paints, f.domain, f.fault)
  }

  lemma ThenAfter(before: seq<Paint>, f: FrameDraw, s: SatDraw)
    ensures Then(After(before, f), s) == After(before, Then(f, s))
  {
    if s.Mark? {
      assert before + (f.paints + [s.paint]) == (before + f.paints) + [s.paint];
    }
  }

  /** The first n satellites of a tick at index i, starting from the scale's domain. */
  function DrawPrefix(data: seq<SatTrack>, n: nat, i: nat, domain: seq<string>): FrameDraw
    requires n <= |data|
  {
    if n == 0 then FrameDraw([], domain, None)
    else
      var f := DrawPrefix(data, n - 1, i, domain);
      if f.fault.Some? then f
      else Then(f, DrawSatSpec(data[n - 1], n - 1, i, f.domain))
  }

  /** ps holds markers only, all of frame i, of satellites below n, in
      strictly increasing satellite order. */
  predicate InBatchOrder(ps: seq<Paint>, i: nat, n: nat)
  {
    && (forall j :: 0 <= j < |ps| ==> ps[j].Marker? && ps[j].frame == i && ps[j].sat < n)
    && (forall a, b :: 0 <= a < b < |ps| ==> ps[a].sat < ps[b].sat)
  }

  lemma AppendInBatchOrder(ps: seq<Paint>, p: Paint, i: nat, n: nat)
    requires InBatchOrder(ps, i, n) && p.Marker? && p.frame == i && p.sat == n
    ensures InBatchOrder(ps + [p], i, n + 1)
  {
  }

  /** A tick only paints markers, all at its own index, at most one per
      satellite and in batch order. */
  lemma {:induction false} PrefixInBatchOrder(data: seq<SatTrack>, n: nat, i: nat, domain: seq<string>)
    requires n <= |data|
    ensures InBatchOrder(DrawPrefix(data, n, i, domain).paints, i, n)
  {
    if n > 0 {
      PrefixInBatchOrder(data, n - 1, i, domain);
      var f := DrawPrefix(data, n - 1, i, domain);
      var r := DrawPrefix(data, n, i, domain);
      if f.fault.None? {
        match DrawSatSpec(data[n - 1], n - 1, i, f.domain)
        case Mark(p, _) =>
          assert r.paints == f.paints + [p];
          AppendInBatchOrder(f.paints, p, i, n - 1);
        case Skip =>
          assert r.paints == f.paints;
        case Throw(_) =>
          assert r.paints == f.paints;
      } else {
        assert r.paints == f.paints;
      }
    }
  }

  /** A tick's draws only add keys to the end of the scale's domain. */
  lemma {:induction false} PrefixDomainGrows(data: seq<SatTrack>, n: nat, i: nat, domain: seq<string>)
    requires n <= |data|
    ensures domain <= DrawPrefix(data, n, i, domain).domain
  {
    if n > 0 {
      PrefixDomainGrows(data, n - 1, i, domain);
      var f := DrawPrefix(data, n - 1, i, domain);
      var r := DrawPrefix(data, n, i, domain);
      if f.fault.None? {
        match DrawSatSpec(data[n - 1], n - 1, i, f.domain)
        case Mark(_, d) =>
          assert r.domain == d && f.domain <= d;
        case Skip =>
          assert r.domain == f.domain;
        case Throw(_) =>
          assert r.domain == f.domain;
      }
    }
  }

  /** All satellites of a tick at index i. */
  function DrawFrame(data: seq<SatTrack>, i: nat, domain: seq<string>): FrameDraw
  {
    DrawPrefix(data, |data|, i, domain)
  }

  /** A prefix that has thrown is not extended by the next satellite. */
  lemma FaultStep(data: seq<SatTrack>, m: nat, i: nat, domain: seq<string>)
    requires 0 < m <= |data| && DrawPrefix(data, m - 1, i, domain).fault.Some?
    ensures DrawPrefix(data, m, i, domain) == DrawPrefix(data, m - 1, i, domain)
  {
  }

  /** Once a satellite has thrown, the rest of the batch is not drawn. */
  lemma {:induction false} FaultSticks(data: seq<SatTrack>, n: nat, m: nat, i: nat, domain: seq<string>)
    requires n <= m <= |data|
    requires DrawPrefix(data, n, i, domain).fault.Some?
    ensures DrawPrefix(data, m, i, domain) == DrawPrefix(data, n, i, domain)
    decreases m
  {
    if m > n {
      FaultSticks(data, n, m - 1, i, domain);
      FaultStep(data, m, i, domain);
    }
  }

  /** Skip rule: a satellite whose sample has a falsy coordinate adds no paint
      and leaves the scale as it was. */
  lemma SkipLeavesFrameAlone(data: seq<SatTrack>, k: nat, i: nat, domain: seq<string>)
    requires k < |data| && SampleAt(data[k], i).Some?
    requires Falsy(SampleAt(data[k], i).value.satlongitude) || Falsy(SampleAt(data[k], i).value.satlatitude)
    ensures DrawPrefix(data, k + 1, i, domain) == DrawPrefix(data, k, i, domain)
  {
  }

  /** Some marker in ps belongs to satellite k. */
  predicate MarksSat(ps: seq<Paint>, k: nat)
  {
    exists j :: 0 <= j < |ps| && ps[j].Marker? && ps[j].sat == k
  }

  /** Satellite n - 1's own draw is the only one that can add its marker. */
  lemma OwnDrawMarks(data: seq<SatTrack>, n: nat, i: nat, domain: seq<string>)
    requires 0 < n <= |data|
    ensures MarksSat(DrawPrefix(data, n, i, domain).paints, n - 1) <==>
      (DrawPrefix(data, n - 1, i, domain).fault.None? && Plottable(data[n - 1], i))
  {
    var k := n - 1;
    var f := DrawPrefix(data, k, i, domain);
    var ps := DrawPrefix(data, n, i, domain).paints;
    PrefixInBatchOrder(data, k, i, domain);
    assert !MarksSat(f.paints, k);
    if f.fault.Some? {
      assert ps == f.paints;
    } else {
      DrawSatCases(data[k], k, i, f.domain);
      match DrawSatSpec(data[k], k, i, f.domain)
      case Skip =>
        assert ps == f.paints;
      case Throw(_) =>
        assert ps == f.paints;
      case Mark(p, d) =>
        assert ps == f.paints + [p];
        assert ps[|ps| - 1].sat == k;
    }
  }

  /** Drawing a later satellite (the one at n - 1) neither adds nor removes satellite k's marker. */
  lemma LaterDrawKeepsMarks(data: seq<SatTrack>, n: nat, i: nat, domain: seq<string>, k: nat)
    requires k < n - 1 && n <= |data|
    ensures MarksSat(DrawPrefix(data, n, i, domain).paints, k) <==>
      MarksSat(DrawPrefix(data, n - 1, i, domain).paints, k)
  {
    var f := DrawPrefix(data, n - 1, i, domain);
    var ps := DrawPrefix(data, n, i, domain).paints;
    if f.fault.None? {
      match DrawSatSpec(data[n - 1], n - 1, i, f.domain)
      case Skip =>
        assert ps == f.paints;
      case Throw(_) =>
        assert ps == f.paints;
      case Mark(p, d) =>
        assert ps == f.paints + [p];
        if MarksSat(ps, k) {
          var j :| 0 <= j < |ps| && ps[j].Marker? && ps[j].sat == k;
          assert j < |f.paints| && f.paints[j] == ps[j];
        }
        if MarksSat(f.paints, k) {
          var j :| 0 <= j < |f.paints| && f.paints[j].Marker? && f.paints[j].sat == k;
          assert ps[j] == f.paints[j];
        }
    }
  }

  /** A tick paints a marker for satellite k exactly when no earlier satellite
      of the batch threw and k is plottable at index i; what the other
      satellites' samples hold does not matter beyond that. */
  lemma {:induction false} MarkerIff(data: seq<SatTrack>, n: nat, i: nat, domain: seq<string>, k: nat)
    requires k < n <= |data|
    ensures MarksSat(DrawPrefix(data, n, i, domain).paints, k) <==>
      (DrawPrefix(data, k, i, domain).fault.None? && Plottable(data[k], i))
    decreases n
  {
    if n - 1 == k {
      OwnDrawMarks(data, n, i, domain);
    } else {
      MarkerIff(data, n - 1, i, domain, k);
      LaterDrawKeepsMarks(data, n, i, domain, k);
    }
  }

  /** A tick's draws throw nowhere exactly when every satellite is drawable at i. */
  lemma {:induction false} NoFaultIff(data: seq<SatTrack>, n: nat, i: nat, domain: seq<string>)
    requires n <= |data|
    ensures DrawPrefix(data, n, i, domain).fault.None? <==> forall k :: 0 <= k < n ==> Drawable(data[k], i)
  {
    if n > 0 {
      NoFaultIff(data, n - 1, i, domain);
      DrawSatCases(data[n - 1], n - 1, i, DrawPrefix(data, n - 1, i, domain).domain);
    }
  }

  /** A track shorter than the first one (or without samples) makes the tick
      that reaches past its end throw, unless an earlier satellite already did. */
  lemma ShortTrackThrows(data: seq<SatTrack>, i: nat, domain: seq<string>, k: nat)
    requires k < |data| && SampleAt(data[k], i).None?
    requires DrawPrefix(data, k, i, domain).fault.None?
    ensures DrawFrame(data, i, domain).fault == Some(SampleMissing)
  {
    FaultSticks(data, k + 1, |data|, i, domain);
  }

  /** A plotted satellite whose name has no digit makes the tick throw the
      missing-key fault, unless an earlier satellite already threw. */
  lemma DigitlessNameThrows(data: seq<SatTrack>, i: nat, domain: seq<string>, k: nat)
    requires k < |data| && SampleAt(data[k], i).Some?
    requires !Falsy(SampleAt(data[k], i).value.satlongitude) && !Falsy(SampleAt(data[k], i).value.satlatitude)
    requires LabelKey.Key(data[k].info.satname).None?
    requires DrawPrefix(data, k, i, domain).fault.None?
    ensures DrawFrame(data, i, domain).fault == Some(NameWithoutDigits)
  {
    FaultSticks(data, k + 1, |data|, i, domain);
  }

  /** Every marker in r carries the colour the scale with r's domain gives its key. */
  predicate ColoursAgree(r: FrameDraw)
  {
    forall j :: 0 <= j < |r.paints| && r.paints[j].Marker? ==>
      r.paints[j].text in r.domain &&
      r.paints[j].slot == Colour.Observe(r.domain, r.paints[j].text).slot
  }

  /** Every marker of a tick carries the colour the scale gives its key once
      the tick is over: a key drawn twice in one tick gets one colour. */
  lemma {:induction false} MarkerColours(data: seq<SatTrack>, n: nat, i: nat, domain: seq<string>)
    requires n <= |data|
    ensures ColoursAgree(DrawPrefix(data, n, i, domain))
  {
    if n > 0 {
      MarkerColours(data, n - 1, i, domain);
      var f := DrawPrefix(data, n - 1, i, domain);
      var r := DrawPrefix(data, n, i, domain);
      if f.fault.None? {
        match DrawSatSpec(data[n - 1], n - 1, i, f.domain)
        case Skip =>
          assert r == f;
        case Throw(_) =>
          assert r.paints == f.paints && r.domain == f.domain;
        case Mark(p, d) =>
          assert r.paints == f.paints + [p] && r.domain == d;
          forall j | 0 <= j < |r.paints| && r.paints[j].Marker?
            ensures r.paints[j].text in d
            ensures r.paints[j].slot == Colour.Observe(d, r.paints[j].text).slot
          {
            if j < |f.paints| {
              assert r.paints[j] == f.paints[j];
              Colour.ColourStable(f.domain, d, f.paints[j].text);
            }
          }
      }
    }
  }

  /** Marker p shows its own satellite: that satellite is plottable at i, the
      label is the digits of its name and the position is its sample's. */
  predicate ShowsOwnSatellite(data: seq<SatTrack>, i: nat, p: Paint)
  {
    && p.Marker? && p.sat < |data| && Plottable(data[p.sat], i)
    && p.text == LabelKey.Digits(data[p.sat].info.satname)
    && p.lon == SampleAt(data[p.sat], i).value.satlongitude.deg
    && p.lat == SampleAt(data[p.sat], i).value.satlatitude.deg
  }

  /** Every marker of a tick is labelled with its satellite's digit key and
      placed at that satellite's sample for the tick's index. */
  lemma {:induction false} MarkersShowOwnSatellite(data: seq<SatTrack>, n: nat, i: nat, domain: seq<string>)
    requires n <= |data|
    ensures forall j :: 0 <= j < |DrawPrefix(data, n, i, domain).paints| ==>
      ShowsOwnSatellite(data, i, DrawPrefix(data, n, i, domain).paints[j])
  {
    if n > 0 {
      MarkersShowOwnSatellite(data, n - 1, i, domain);
      var f := DrawPrefix(data, n - 1, i, domain);
      var r := DrawPrefix(data, n, i, domain);
      if f.fault.None? {
        DrawSatCases(data[n - 1], n - 1, i, f.domain);
        match DrawSatSpec(data[n - 1], n - 1, i, f.domain)
        case Skip =>
          assert r == f;
        case Throw(_) =>
          assert r.paints == f.paints;
        case Mark(p, _) =>
          LabelKey.KeyIsDigitsOfName(data[n - 1].info.satname);
          assert r.paints == f.paints + [p];
          assert ShowsOwnSatellite(data, i, p);
      } else {
        assert r == f;
      }
    }
  }

  /** After a tick, the marker of satellite k carries the colour the scale
      now gives the digits of k's name. */
  lemma ColourOfSatellite(data: seq<SatTrack>, i: nat, domain: seq<string>, j: nat)
    requires j < |DrawFrame(data, i, domain).paints|
    ensures var r := DrawFrame(data, i, domain);
      var p := r.paints[j];
      && p.Marker? && p.sat < |data|
      && var key := LabelKey.Digits(data[p.sat].info.satname);
      && key in r.domain && p.text == key && p.slot == Colour.Observe(r.domain, key).slot
  {
    MarkersShowOwnSatellite(data, |data|, i, domain);
    MarkerColours(data, |data|, i, domain);
  }
}
