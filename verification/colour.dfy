/** The one ordinal colour scale the component builds when it is constructed.
    The scale keeps its domain in first-seen order: a key it has not seen is
    appended, and a key's colour is the palette slot at its position in the
    domain modulo the palette's length.  The palette itself is left abstract:
    only the slot is modelled. */
module Colour {

  /** Number of colours in the ten-colour categorical palette. */
  const PaletteSize: nat := 10

  /** Position of the first occurrence of key in domain. */
  function IndexOf(domain: seq<string>, key: string): (n: nat)
    requires key in domain
    ensures n < |domain| && domain[n] == key
  {
    if domain[0] == key then 0 else 1 + IndexOf(domain[1..], key)
  }

  /** The position IndexOf finds is the first occurrence: no earlier entry is key. */
  lemma {:induction false} IndexOfIsFirst(domain: seq<string>, key: string)
    requires key in domain
    ensures forall j :: 0 <= j < IndexOf(domain, key) ==> domain[j] != key
  {
    if domain[0] != key {
      IndexOfIsFirst(domain[1..], key);
    }
  }

  /** What one call of the scale leaves behind: its domain and the slot it answered. */
  datatype Lookup = Lookup(domain: seq<string>, slot: nat)

  /** One call of the scale on key. */
  function Observe(domain: seq<string>, key: string): (r: Lookup)
    ensures domain <= r.domain && key in r.domain
    ensures key in domain ==> r.domain == domain
    ensures key !in domain ==> r.domain == domain + [key] && r.slot == |domain| % PaletteSize
    ensures r.slot == IndexOf(r.domain, key) % PaletteSize && r.slot < PaletteSize
  {
    var d := if key in domain then domain else domain + [key];
    Lookup(d, IndexOf(d, key) % PaletteSize)
  }

  /** Growing the domain never moves a key that is already in it. */
  lemma {:induction false} IndexStable(d: seq<string>, e: seq<string>, key: string)
    requires key in d && d <= e
    ensures key in e && IndexOf(e, key) == IndexOf(d, key)
  {
    var m := IndexOf(d, key);
    assert e[m] == d[m];
    IndexOfIsFirst(d, key);
    IndexOfIsFirst(e, key);
  }

  /** Stable colour: once the scale has seen key, every later call with key,
      whatever keys were seen in between, answers the same slot and leaves
      the domain as it is. */
  lemma ColourStable(d: seq<string>, e: seq<string>, key: string)
    requires key in d && d <= e
    ensures Observe(e, key) == Lookup(e, Observe(d, key).slot)
  {
    IndexStable(d, e, key);
  }

  /** The colour a key is given by the call that first sees it is the colour
      every later call gives it, whatever keys are added in between. */
  lemma FirstColourKept(d: seq<string>, e: seq<string>, key: string)
    requires Observe(d, key).domain <= e
    ensures Observe(e, key) == Lookup(e, Observe(d, key).slot)
  {
    IndexStable(Observe(d, key).domain, e, key);
  }

  /** The scale as an object: `domain` lists the keys in first-seen order and
      `index` is its lookup table from key to position. */
  class ColorScale {
    var domain: seq<string>
    var index: map<string, nat>

    ghost predicate Valid()
      reads this
    {
      && (forall key :: key in index ==> index[key] < |domain| && domain[index[key]] == key)
      && (forall j :: 0 <= j < |domain| ==> domain[j] in index && index[domain[j]] == j)
    }

    constructor ()
      ensures Valid() && domain == []
    {
      domain := [];
      index := map[];
    }

    /** `this.color(key)`: the slot of key, adding key the first time it is seen. */
    method Apply(key: string) returns (slot: nat)
      requires Valid()
      modifies this
      ensures Valid()
      ensures Lookup(domain, slot) == Observe(old(domain), key)
    {
      if key !in index {
        assert key !in domain;
        index := index[key := |domain|];
        domain := domain + [key];
      }
      assert key in domain;
      var n := IndexOf(domain, key);
      assert index[domain[n]] == n;
      slot := index[key] % PaletteSize;
    }
  }
}
