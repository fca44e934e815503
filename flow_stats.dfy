// The per-flow statistics store shared by the offline KitNET pipeline and
// the Peregrine controller: four dictionaries from flow keys to per-decay
// statistic vectors, updated slot by slot from flattened statistics records.
module FlowStats {
  import opened Values
  import opened Decay

  /** A flow-key dictionary: flow key -> statistics vector. */
  type StatsMap = map<string, seq<Val>>

  /** Statistics per decay resolution for the 1-D (3) and 2-D (7) flow granularities. */
  const Width1D: nat := 3
  const Width2D: nat := 7

  /** Length of the feature vector handed to the anomaly detector. */
  const FeatureCount: nat := 2 * Width1D * Lambdas + 2 * Width2D * Lambdas

  /** The four dictionaries, in snapshot order. */
  datatype Tables = Tables(macIpSrc: StatsMap, ipSrc: StatsMap, ip: StatsMap, fiveT: StatsMap)

  const EmptyTables: Tables := Tables(map[], map[], map[], map[])

  /** Every vector in `m` has `width` statistics for each decay resolution. */
  predicate Shaped(m: StatsMap, width: nat)
  {
    forall k :: k in m ==> |m[k]| == width * Lambdas
  }

  predicate ValidTables(t: Tables)
  {
    Shaped(t.macIpSrc, Width1D) && Shaped(t.ipSrc, Width1D) &&
    Shaped(t.ip, Width2D) && Shaped(t.fiveT, Width2D)
  }

  /** The four dictionary keys of one packet. */
  datatype FlowKeys = FlowKeys(macIpSrc: string, ipSrc: string, ip: string, fiveT: string)

  /**
   * A flattened statistics record: `base` leading fields (1 for the offline
   * pipeline, whose record starts with a timestamp; 0 for the controller),
   * six header strings (MAC source, IP source, IP destination, protocol,
   * source port, destination port), the decay counter, then 20 statistics
   * (3 MAC-IP, 3 IP-source, 7 IP-pair, 7 five-tuple).
   */
  predicate WellFormedRecord(rec: seq<Field>, base: nat)
  {
    |rec| == base + 27 &&
    (forall i :: base <= i < base + 6 ==> rec[i].Text?) &&
    (forall i :: base + 7 <= i < |rec| ==> rec[i].Number?)
  }

  /**
   * Keys are plain concatenations of header strings, with no separator.
   * The contract is the definition itself: the key layout is a primitive,
   * and FiveTupleKeysCollide states what follows from it.
   */
  function Keys(rec: seq<Field>, base: nat): (k: FlowKeys)
    requires WellFormedRecord(rec, base)
    ensures k.macIpSrc == rec[base].s + rec[base + 1].s
    ensures k.ipSrc == rec[base + 1].s
    ensures k.ip == k.ipSrc + rec[base + 2].s
    ensures k.fiveT == k.ip + rec[base + 3].s + rec[base + 4].s + rec[base + 5].s
  {
    var mac, src, dst, proto, sport, dport :=
      rec[base].s, rec[base + 1].s, rec[base + 2].s, rec[base + 3].s, rec[base + 4].s, rec[base + 5].s;
    FlowKeys(mac + src, src, src + dst, src + dst + proto + sport + dport)
  }

  /** The field holding the raw decay counter. */
  function DecayField(rec: seq<Field>, base: nat): Field
    requires WellFormedRecord(rec, base)
  {
    rec[base + 6]
  }

  /** The record statistics between offsets lo and hi past the decay field. */
  function Segment(rec: seq<Field>, base: nat, lo: nat, hi: nat): (r: seq<Val>)
    requires WellFormedRecord(rec, base) && lo <= hi <= 20
    ensures |r| == hi - lo
    ensures forall j :: 0 <= j < hi - lo ==> rec[base + 7 + lo + j] == Number(r[j])
  {
    Payloads(rec[base + 7 + lo .. base + 7 + hi])
  }

  function MacIpSrcStats(rec: seq<Field>, base: nat): seq<Val>
    requires WellFormedRecord(rec, base)
  { Segment(rec, base, 0, 3) }

  function IpSrcStats(rec: seq<Field>, base: nat): seq<Val>
    requires WellFormedRecord(rec, base)
  { Segment(rec, base, 3, 6) }

  function IpStats(rec: seq<Field>, base: nat): seq<Val>
    requires WellFormedRecord(rec, base)
  { Segment(rec, base, 6, 13) }

  function FiveTStats(rec: seq<Field>, base: nat): seq<Val>
    requires WellFormedRecord(rec, base)
  { Segment(rec, base, 13, 20) }

  lemma SlotFits(width: nat, pos: nat)
    requires pos < Lambdas
    ensures width * pos + width <= width * Lambdas
  {
    calc {
      width * pos + width;
    ==
      width * (pos + 1);
    <=  { assert pos + 1 <= Lambdas; }
      width * Lambdas;
    }
  }

  /** Where the slot range of decay position `pos` starts, with `width` statistics per decay factor. */
  function SlotStart(width: nat, pos: nat): (off: nat)
    requires pos < Lambdas
    ensures off == width * pos && off + width <= width * Lambdas
  {
    SlotFits(width, pos);
    width * pos
  }

  /** Numpy slice assignment `vec[off:off+|vals|] = vals`. */
  function Overwrite(vec: seq<Val>, off: nat, vals: seq<Val>): (r: seq<Val>)
    requires off + |vals| <= |vec|
    ensures |r| == |vec|
    ensures r[off .. off + |vals|] == vals
    ensures forall i :: 0 <= i < |vec| && !(off <= i < off + |vals|) ==> r[i] == vec[i]
  {
    vec[..off] + vals + vec[off + |vals|..]
  }

  /** The vector stored under `key`, or the fresh zero vector when there is none. */
  function Current(m: StatsMap, key: string, width: nat): (v: seq<Val>)
    requires Shaped(m, width)
    ensures |v| == width * Lambdas
  {
    if key in m then m[key] else Zeros(width * Lambdas)
  }

  /**
   * One dictionary's update: create the zero vector if the key is new, then
   * overwrite the slot range of decay position `pos`.
   */
  function Touch(m: StatsMap, key: string, width: nat, pos: nat, vals: seq<Val>): (r: StatsMap)
    requires Shaped(m, width) && pos < Lambdas && |vals| == width
    ensures Shaped(r, width)
    ensures r.Keys == m.Keys + {key}
    ensures forall k :: k in m && k != key ==> r[k] == m[k]
    ensures r[key][SlotStart(width, pos) .. SlotStart(width, pos) + width] == vals
    ensures forall i :: 0 <= i < width * Lambdas && !(SlotStart(width, pos) <= i < SlotStart(width, pos) + width) ==>
      r[key][i] == Current(m, key, width)[i]
  {
    var off := SlotStart(width, pos);
    var v := Current(m, key, width);
    var w := Overwrite(v, off, vals);
    assert forall i :: 0 <= i < |v| && !(off <= i < off + width) ==> w[i] == v[i];
    m[key := w]
  }

  /** The two in-place steps (lazy creation, then slice assignment) are Touch. */
  lemma TouchInSteps(m: StatsMap, key: string, width: nat, pos: nat, vals: seq<Val>)
    requires Shaped(m, width) && pos < Lambdas && |vals| == width
    ensures var m1 := if key in m then m else m[key := Zeros(width * Lambdas)];
      SlotStart(width, pos) + |vals| <= |m1[key]| &&
      m1[key := Overwrite(m1[key], SlotStart(width, pos), vals)] == Touch(m, key, width, pos, vals)
  {
  }

  /** The four dictionaries after one record at decay position `pos`. */
  function UpdateTables(t: Tables, rec: seq<Field>, base: nat, pos: nat): (r: Tables)
    requires ValidTables(t) && WellFormedRecord(rec, base) && pos < Lambdas
    ensures ValidTables(r)
  {
    var k := Keys(rec, base);
    Tables(
      Touch(t.macIpSrc, k.macIpSrc, Width1D, pos, MacIpSrcStats(rec, base)),
      Touch(t.ipSrc, k.ipSrc, Width1D, pos, IpSrcStats(rec, base)),
      Touch(t.ip, k.ip, Width2D, pos, IpStats(rec, base)),
      Touch(t.fiveT, k.fiveT, Width2D, pos, FiveTStats(rec, base)))
  }

  predicate HasKeys(t: Tables, k: FlowKeys)
  {
    k.macIpSrc in t.macIpSrc && k.ipSrc in t.ipSrc && k.ip in t.ip && k.fiveT in t.fiveT
  }

  /** The raw (unsanitized) concatenation of the packet's four vectors. */
  function RawFeatures(t: Tables, k: FlowKeys): (r: seq<Val>)
    requires ValidTables(t) && HasKeys(t, k)
    ensures |r| == FeatureCount
  {
    t.macIpSrc[k.macIpSrc] + t.ipSrc[k.ipSrc] + t.ip[k.ip] + t.fiveT[k.fiveT]
  }

  /** Why a record cannot be applied: its decay counter is not a table key. */
  datatype StatsError = UnknownDecay(counter: Field)

  datatype Update = Update(tables: Tables, features: seq<real>)

  /**
   * The whole per-packet step: look the decay counter up (failing before any
   * dictionary is touched), update the four dictionaries, and return the
   * NaN-free copy of the concatenated vectors.
   */
  function ApplyRecord(t: Tables, rec: seq<Field>, base: nat): (r: Result<Update, StatsError>)
    requires ValidTables(t) && WellFormedRecord(rec, base)
    ensures r.Ok? <==> DecayPos(DecayField(rec, base)).Some?
    ensures r.Err? ==> r.error == UnknownDecay(DecayField(rec, base))
    ensures r.Ok? ==> ValidTables(r.value.tables) && HasKeys(r.value.tables, Keys(rec, base))
    ensures r.Ok? ==> |r.value.features| == FeatureCount
  {
    match DecayPos(DecayField(rec, base))
    case None => Err(UnknownDecay(DecayField(rec, base)))
    case Some(pos) =>
      var t' := UpdateTables(t, rec, base, pos);
      Ok(Update(t', Sanitize(RawFeatures(t', Keys(rec, base)))))
  }

  // ---------------------------------------------------------------------
  // Snapshots: the list pickled by save_train_stats and read back on a
  // warm start.

  type Snapshot = seq<StatsMap>

  function ToSnapshot(t: Tables): (s: Snapshot)
    ensures |s| == 4
  {
    [t.macIpSrc, t.ipSrc, t.ip, t.fiveT]
  }

  /** A warm start reads list positions 0..3 (IndexError if the list is shorter). */
  function FromSnapshot(s: Snapshot): (r: Option<Tables>)
    ensures r.Some? <==> |s| >= 4
  {
    if |s| < 4 then None else Some(Tables(s[0], s[1], s[2], s[3]))
  }

  /** Saving then restoring reproduces all four dictionaries in their own roles. */
  lemma SnapshotRoundTrip(t: Tables)
    ensures FromSnapshot(ToSnapshot(t)) == Some(t)
  {
  }

  /** Restoring then saving gives back the first four entries of the list. */
  lemma SnapshotRestoreSave(s: Snapshot)
    requires |s| >= 4
    ensures FromSnapshot(s).Some? && ToSnapshot(FromSnapshot(s).value) == s[..4]
  {
  }

  // ---------------------------------------------------------------------
  // Properties of one update.

  /** Decay-position of a record whose counter is accepted. */
  function PosOf(rec: seq<Field>, base: nat): nat
    requires WellFormedRecord(rec, base) && DecayPos(DecayField(rec, base)).Some?
  {
    DecayPos(DecayField(rec, base)).value
  }

  /**
   * Only the packet's own key changes in each dictionary: the key set grows
   * by at most that key and every other key keeps its vector.
   */
  lemma UpdateFrame(t: Tables, rec: seq<Field>, base: nat)
    requires ValidTables(t) && WellFormedRecord(rec, base)
    requires ApplyRecord(t, rec, base).Ok?
    ensures var t', k := ApplyRecord(t, rec, base).value.tables, Keys(rec, base);
      t'.macIpSrc.Keys == t.macIpSrc.Keys + {k.macIpSrc} &&
      t'.ipSrc.Keys == t.ipSrc.Keys + {k.ipSrc} &&
      t'.ip.Keys == t.ip.Keys + {k.ip} &&
      t'.fiveT.Keys == t.fiveT.Keys + {k.fiveT} &&
      (forall s :: s in t.macIpSrc && s != k.macIpSrc ==> t'.macIpSrc[s] == t.macIpSrc[s]) &&
      (forall s :: s in t.ipSrc && s != k.ipSrc ==> t'.ipSrc[s] == t.ipSrc[s]) &&
      (forall s :: s in t.ip && s != k.ip ==> t'.ip[s] == t.ip[s]) &&
      (forall s :: s in t.fiveT && s != k.fiveT ==> t'.fiveT[s] == t.fiveT[s])
  {
  }

  /**
   * In the packet's own vectors, the slot range [w·pos, w·pos+w) holds the
   * record's statistics (NaN included) and every other slot keeps its old
   * value, or 0 when the key is new.
   */
  lemma UpdateSlots(t: Tables, rec: seq<Field>, base: nat)
    requires ValidTables(t) && WellFormedRecord(rec, base)
    requires ApplyRecord(t, rec, base).Ok?
    ensures var t', k, p := ApplyRecord(t, rec, base).value.tables, Keys(rec, base), PosOf(rec, base);
      t'.macIpSrc[k.macIpSrc][3 * p .. 3 * p + 3] == MacIpSrcStats(rec, base) &&
      t'.ipSrc[k.ipSrc][3 * p .. 3 * p + 3] == IpSrcStats(rec, base) &&
      t'.ip[k.ip][7 * p .. 7 * p + 7] == IpStats(rec, base) &&
      t'.fiveT[k.fiveT][7 * p .. 7 * p + 7] == FiveTStats(rec, base) &&
      (forall i :: 0 <= i < 12 && !(3 * p <= i < 3 * p + 3) ==>
        t'.macIpSrc[k.macIpSrc][i] == Current(t.macIpSrc, k.macIpSrc, 3)[i] &&
        t'.ipSrc[k.ipSrc][i] == Current(t.ipSrc, k.ipSrc, 3)[i]) &&
      (forall i :: 0 <= i < 28 && !(7 * p <= i < 7 * p + 7) ==>
        t'.ip[k.ip][i] == Current(t.ip, k.ip, 7)[i] &&
        t'.fiveT[k.fiveT][i] == Current(t.fiveT, k.fiveT, 7)[i])
  {
  }

  /**
   * The returned features are the four stored vectors in the order
   * MAC-IP, IP source, IP pair, five-tuple, each sanitized; the stored
   * vectors themselves are not sanitized.
   */
  lemma FeatureLayout(t: Tables, rec: seq<Field>, base: nat)
    requires ValidTables(t) && WellFormedRecord(rec, base)
    requires ApplyRecord(t, rec, base).Ok?
    ensures var u, k := ApplyRecord(t, rec, base).value, Keys(rec, base);
      |u.features| == 80 &&
      u.features[0..12] == Sanitize(u.tables.macIpSrc[k.macIpSrc]) &&
      u.features[12..24] == Sanitize(u.tables.ipSrc[k.ipSrc]) &&
      u.features[24..52] == Sanitize(u.tables.ip[k.ip]) &&
      u.features[52..80] == Sanitize(u.tables.fiveT[k.fiveT])
  {
    var u, k := ApplyRecord(t, rec, base).value, Keys(rec, base);
    var a, b, c, d := u.tables.macIpSrc[k.macIpSrc], u.tables.ipSrc[k.ipSrc], u.tables.ip[k.ip], u.tables.fiveT[k.fiveT];
    assert |a| == 12 && |b| == 12 && |c| == 28 && |d| == 28;
    SanitizeAppend(a + b + c, d);
    SanitizeAppend(a + b, c);
    SanitizeAppend(a, b);
    ConcatParts(Sanitize(a), Sanitize(b), Sanitize(c), Sanitize(d));
  }

  /** Applying the same record twice leaves the dictionaries as applying it once. */
  lemma UpdateIdempotent(t: Tables, rec: seq<Field>, base: nat)
    requires ValidTables(t) && WellFormedRecord(rec, base)
    requires ApplyRecord(t, rec, base).Ok?
    ensures var u := ApplyRecord(t, rec, base).value;
      ApplyRecord(u.tables, rec, base) == Ok(u)
  {
    var u := ApplyRecord(t, rec, base).value;
    var p := PosOf(rec, base);
    TouchIdempotent(t.macIpSrc, Keys(rec, base).macIpSrc, Width1D, p, MacIpSrcStats(rec, base));
    TouchIdempotent(t.ipSrc, Keys(rec, base).ipSrc, Width1D, p, IpSrcStats(rec, base));
    TouchIdempotent(t.ip, Keys(rec, base).ip, Width2D, p, IpStats(rec, base));
    TouchIdempotent(t.fiveT, Keys(rec, base).fiveT, Width2D, p, FiveTStats(rec, base));
  }

  lemma TouchIdempotent(m: StatsMap, key: string, width: nat, pos: nat, vals: seq<Val>)
    requires Shaped(m, width) && pos < Lambdas && |vals| == width
    ensures Touch(Touch(m, key, width, pos, vals), key, width, pos, vals) == Touch(m, key, width, pos, vals)
  {
    var m1 := Touch(m, key, width, pos, vals);
    var m2 := Touch(m1, key, width, pos, vals);
    assert m2[key] == m1[key] by {
      var off := SlotStart(width, pos);
      assert forall i :: 0 <= i < |m1[key]| ==> m2[key][i] == m1[key][i] by {
        forall i | 0 <= i < |m1[key]|
          ensures m2[key][i] == m1[key][i]
        {
          if off <= i < off + width {
            assert m2[key][i] == m2[key][off .. off + width][i - off];
            assert m1[key][i] == m1[key][off .. off + width][i - off];
          }
        }
      }
    }
  }

  /** A decay counter that is not a table key changes nothing and reports the counter. */
  lemma UnknownDecayRejected(t: Tables, rec: seq<Field>, base: nat)
    requires ValidTables(t) && WellFormedRecord(rec, base)
    requires DecayPos(DecayField(rec, base)) == None
    ensures ApplyRecord(t, rec, base) == Err(UnknownDecay(DecayField(rec, base)))
  {
  }

  /**
   * Keys carry no separator, so distinct five-tuples can share a vector:
   * ports 1234/80 and 123/480 of the same address pair and protocol give
   * the same five-tuple key.
   */
  lemma FiveTupleKeysCollide(mac: string, src: string, dst: string, proto: string, stats: seq<Field>)
    requires |stats| == 21 && forall i :: 1 <= i < 21 ==> stats[i].Number?
    ensures var r1 := [Text(mac), Text(src), Text(dst), Text(proto), Text("1234"), Text("80")] + stats;
      var r2 := [Text(mac), Text(src), Text(dst), Text(proto), Text("123"), Text("480")] + stats;
      WellFormedRecord(r1, 0) && WellFormedRecord(r2, 0) && r1 != r2 &&
      Keys(r1, 0) == Keys(r2, 0)
  {
    var r1 := [Text(mac), Text(src), Text(dst), Text(proto), Text("1234"), Text("80")] + stats;
    var r2 := [Text(mac), Text(src), Text(dst), Text(proto), Text("123"), Text("480")] + stats;
    assert r1[4] != r2[4];
    assert "1234" + "80" == "123" + "480";
    assert Keys(r1, 0).fiveT == src + dst + proto + ("1234" + "80");
    assert Keys(r2, 0).fiveT == src + dst + proto + ("123" + "480");
  }

  // ---------------------------------------------------------------------
  // The store object.

  /**
   * The dictionaries and the feature vectors after the records of `recs`
   * were applied one after the other from `t`, each to the dictionaries the
   * ones before it left; None when one of them raises KeyError on its decay
   * counter (or is not a record).
   */
  function ApplyAll(t: Tables, recs: seq<seq<Field>>, base: nat): (r: Option<(Tables, seq<seq<real>>)>)
    requires ValidTables(t)
    ensures r.Some? ==> ValidTables(r.value.0) && |r.value.1| == |recs|
    decreases |recs|
  {
    if recs == [] then Some((t, []))
    else
      match ApplyAll(t, recs[..|recs| - 1], base)
      case None => None
      case Some((t1, vs)) =>
        var last := recs[|recs| - 1];
        if !WellFormedRecord(last, base) then None
        else
          match ApplyRecord(t1, last, base)
          case Err(_) => None
          case Ok(u) => Some((u.tables, vs + [u.features]))
  }

  /** Applying one more record is ApplyRecord on what the others left. */
  lemma ApplyAllSnoc(t: Tables, recs: seq<seq<Field>>, rec: seq<Field>, base: nat, u: Update)
    requires ValidTables(t) && ApplyAll(t, recs, base).Some? && WellFormedRecord(rec, base)
    requires ApplyRecord(ApplyAll(t, recs, base).value.0, rec, base) == Ok(u)
    ensures ApplyAll(t, recs + [rec], base) == Some((u.tables, ApplyAll(t, recs, base).value.1 + [u.features]))
  {
    assert (recs + [rec])[..|recs|] == recs;
  }

  /**
   * The four `stats_*` dictionaries of PipelineKitNET and Peregrine, updated
   * in place by each statistics record.
   */
  class FlowStatsStore {
    var macIpSrc: StatsMap
    var ipSrc: StatsMap
    var ip: StatsMap
    var fiveT: StatsMap

    function Contents(): Tables
      reads this
    {
      Tables(macIpSrc, ipSrc, ip, fiveT)
    }

    predicate Valid()
      reads this
    {
      ValidTables(Contents())
    }

    /** A cold start: all four dictionaries empty. */
    constructor ()
      ensures Contents() == EmptyTables && Valid()
    {
      macIpSrc, ipSrc, ip, fiveT := map[], map[], map[], map[];
    }

    /** A warm start: the dictionaries restored from snapshot positions 0..3. */
    constructor Restore(snap: Snapshot)
      requires FromSnapshot(snap).Some? && ValidTables(FromSnapshot(snap).value)
      ensures Some(Contents()) == FromSnapshot(snap) && Valid()
    {
      macIpSrc, ipSrc, ip, fiveT := snap[0], snap[1], snap[2], snap[3];
    }

    /**
     * update_stats / the table part of proc_next_packet: look the decay
     * counter up, lazily create and overwrite one slot range in each of the
     * four vectors of the packet's flows, and return the sanitized copy of
     * their concatenation.
     */
    method UpdateStats(rec: seq<Field>, base: nat) returns (r: Result<seq<real>, StatsError>)
      requires Valid() && WellFormedRecord(rec, base)
      modifies this
      ensures Valid()
      ensures var spec := ApplyRecord(old(Contents()), rec, base);
        (spec.Ok? ==> r == Ok(spec.value.features) && Contents() == spec.value.tables) &&
        (spec.Err? ==> r == Err(spec.error) && Contents() == old(Contents()))
      ensures r.Err? ==> unchanged(this)
    {
      var decay := DecayPos(DecayField(rec, base));
      if decay.None? {
        return Err(UnknownDecay(DecayField(rec, base)));
      }
      var pos := decay.value;
      var k := Keys(rec, base);
      TouchSources(rec, base, pos);
      TouchPairs(rec, base, pos);
      var features := macIpSrc[k.macIpSrc] + ipSrc[k.ipSrc] + ip[k.ip] + fiveT[k.fiveT];
      r := Ok(Sanitize(features));
    }

    /** Lazy creation and slot overwrite in the MAC-IP and IP-source dictionaries. */
    method TouchSources(rec: seq<Field>, base: nat, pos: nat)
      requires Valid() && WellFormedRecord(rec, base) && pos < Lambdas
      modifies this`macIpSrc, this`ipSrc
      ensures macIpSrc == Touch(old(macIpSrc), Keys(rec, base).macIpSrc, Width1D, pos, MacIpSrcStats(rec, base))
      ensures ipSrc == Touch(old(ipSrc), Keys(rec, base).ipSrc, Width1D, pos, IpSrcStats(rec, base))
    {
      var k := Keys(rec, base);
      TouchInSteps(macIpSrc, k.macIpSrc, Width1D, pos, MacIpSrcStats(rec, base));
      if k.macIpSrc !in macIpSrc {
        macIpSrc := macIpSrc[k.macIpSrc := Zeros(Width1D * Lambdas)];
      }
      macIpSrc := macIpSrc[k.macIpSrc := Overwrite(macIpSrc[k.macIpSrc], SlotStart(Width1D, pos), MacIpSrcStats(rec, base))];

      TouchInSteps(ipSrc, k.ipSrc, Width1D, pos, IpSrcStats(rec, base));
      if k.ipSrc !in ipSrc {
        ipSrc := ipSrc[k.ipSrc := Zeros(Width1D * Lambdas)];
      }
      ipSrc := ipSrc[k.ipSrc := Overwrite(ipSrc[k.ipSrc], SlotStart(Width1D, pos), IpSrcStats(rec, base))];
    }

    /** Lazy creation and slot overwrite in the IP-pair and five-tuple dictionaries. */
    method TouchPairs(rec: seq<Field>, base: nat, pos: nat)
      requires Valid() && WellFormedRecord(rec, base) && pos < Lambdas
      modifies this`ip, this`fiveT
      ensures ip == Touch(old(ip), Keys(rec, base).ip, Width2D, pos, IpStats(rec, base))
      ensures fiveT == Touch(old(fiveT), Keys(rec, base).fiveT, Width2D, pos, FiveTStats(rec, base))
    {
      var k := Keys(rec, base);
      TouchInSteps(ip, k.ip, Width2D, pos, IpStats(rec, base));
      if k.ip !in ip {
        ip := ip[k.ip := Zeros(Width2D * Lambdas)];
      }
      ip := ip[k.ip := Overwrite(ip[k.ip], SlotStart(Width2D, pos), IpStats(rec, base))];

      TouchInSteps(fiveT, k.fiveT, Width2D, pos, FiveTStats(rec, base));
      if k.fiveT !in fiveT {
        fiveT := fiveT[k.fiveT := Zeros(Width2D * Lambdas)];
      }
      fiveT := fiveT[k.fiveT := Overwrite(fiveT[k.fiveT], SlotStart(Width2D, pos), FiveTStats(rec, base))];
    }

    /** reset_stats: all four dictionaries become empty. */
    method Reset()
      modifies this
      ensures Contents() == EmptyTables && Valid()
    {
      macIpSrc, ipSrc, ip, fiveT := map[], map[], map[], map[];
    }

    /** The four-dictionary part of save_train_stats, in pickle order. */
    method Save() returns (snap: Snapshot)
      ensures snap == ToSnapshot(Contents())
      ensures FromSnapshot(snap) == Some(Contents())
    {
      snap := [macIpSrc, ipSrc, ip, fiveT];
    }
  }
}
