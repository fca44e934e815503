// The control-plane decay table: it turns the raw decay counter carried in
// a statistics record into the resolution index 0..3 that selects the slot
// range of every per-flow vector.
module Decay {
  import opened Values

  /** Number of decay resolutions (100 ms, 1 s, 10 s, 60 s). */
  const Lambdas: nat := 4

  /** The counter-to-position dictionary both statistics stores build. */
  const DecayTable: map<int, nat> :=
    map[0 := 0, 1 := 0, 2 := 1, 3 := 2, 4 := 3, 8192 := 1, 16384 := 2, 24576 := 3]

  /** The data-plane counters for positions 0..3 (step 8192). */
  const DataPlaneCounters: seq<int> := [0, 8192, 16384, 24576]

  /** Whether a real equals an integer, so that it hashes to an integer dictionary key. */
  predicate Integral(x: real)
  {
    x == x.Floor as real
  }

  /**
   * The dictionary lookup `decay_to_pos[field]`: a number equal to one of
   * the eight keys finds its position; anything else (another number, NaN,
   * a string) raises KeyError, modelled as None.
   */
  function DecayPos(f: Field): (r: Option<nat>)
    ensures r.Some? ==> r.value < Lambdas
    ensures r.Some? <==> f.Number? && f.v.Num? && Integral(f.v.x) && f.v.x.Floor in DecayTable
  {
    if f.Number? && f.v.Num? && Integral(f.v.x) && f.v.x.Floor in DecayTable then
      Some(DecayTable[f.v.x.Floor])
    else
      None
  }

  /** The table's keys are exactly these eight counters. */
  lemma DecayTableDomain()
    ensures DecayTable.Keys == {0, 1, 2, 3, 4, 8192, 16384, 24576}
  {
  }

  /** Both key families reach the same positions: 1+p, and 8192·p, map to p. */
  lemma DecayAliases(p: nat)
    requires p < Lambdas
    ensures DecayPos(Number(Num((8192 * p) as real))) == Some(p)
    ensures 1 <= p ==> DecayPos(Number(Num((p + 1) as real))) == Some(p)
  {
  }

  /** The data-plane counter for position p is looked up as p. */
  lemma DataPlaneCounterPosition(p: nat)
    requires p < |DataPlaneCounters|
    ensures DecayPos(Number(Num(DataPlaneCounters[p] as real))) == Some(p)
  {
    DecayAliases(p);
  }

  /** A counter that is not an integer never finds a position. */
  lemma NonIntegralFails(x: real)
    requires !Integral(x)
    ensures DecayPos(Number(Num(x))) == None
  {
  }

  /** Exactly eight counters are accepted; each position has exactly two. */
  lemma DecayPreimage(k: int, p: nat)
    requires p < Lambdas
    ensures DecayPos(Number(Num(k as real))) == Some(p) <==>
      (k == 8192 * p || (p == 0 && k == 1) || (p >= 1 && k == p + 1))
  {
  }
}
