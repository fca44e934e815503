// The switch controller's port arithmetic (a Tofino port number is a 2-bit
// pipe above a 7-bit local port) and the constant match-action entries it
// installs: the recirculation path, decay checks, power-of-two shift tables,
// one-bit flag tables and sign tables.
module ControllerConfig {
  import opened Values
  import opened Decay

  /** Port, pipe and match-key values as 32-bit words. */
  type Word = bv32

  /** Why a port computation fails: a failed `assert`, or a pipe missing from a list. */
  datatype PortError = AssertionFailed | PipeNotListed(pipe: Word) | NoInternalPipe(index: nat)

  /** make_port: the pipe shifted above the seven local-port bits, or-ed with the local port. */
  function MakePort(pipe: Word, local: Word): (p: Word)
    ensures pipe < 4 && local < 128 ==> p == 128 * pipe + local
  {
    (pipe << 7) | local
  }

  /** port_to_local_port: the low seven bits, which must be below 72. */
  function PortToLocalPort(port: Word): (r: Result<Word, PortError>)
    ensures r.Ok? <==> port % 128 < 72
    ensures r.Ok? ==> r.value == port % 128
  {
    var local := port & 0x7F;
    if local < 72 then Ok(local) else Err(AssertionFailed)
  }

  /**
   * port_to_pipe: bits 7..8, after checking the local port and that the
   * port is rebuilt from its two parts (so no bit above bit 8 is set).
   */
  function PortToPipe(port: Word): (r: Result<Word, PortError>)
  {
    match PortToLocalPort(port)
    case Err(e) => Err(e)
    case Ok(local) =>
      var pipe := (port >> 7) & 0x3;
      if port == MakePort(pipe, local) then Ok(pipe) else Err(AssertionFailed)
  }

  /** Both assertions of port_to_pipe hold exactly for ports below 512 with a local part below 72. */
  lemma PortToPipeAccepts(port: Word)
    ensures PortToPipe(port).Ok? <==> port < 512 && port % 128 < 72
    ensures PortToPipe(port).Ok? ==> PortToPipe(port).value == port / 128
  {
    if PortToLocalPort(port).Ok? {
      var local := port & 0x7F;
      var pipe := (port >> 7) & 0x3;
      assert MakePort(pipe, local) == port & 0x1FF;
    }
  }

  /** Splitting a port built by make_port gives back its pipe and local port. */
  lemma PortRoundTrip(pipe: Word, local: Word)
    requires pipe < 4 && local < 72
    ensures PortToLocalPort(MakePort(pipe, local)) == Ok(local)
    ensures PortToPipe(MakePort(pipe, local)) == Ok(pipe)
  {
    PortToPipeAccepts(MakePort(pipe, local));
  }

  /** list.index: the first position holding x, or None (ValueError). */
  function IndexOf(xs: seq<Word>, x: Word): (r: Option<nat>)
    ensures r.Some? ==> r.value < |xs| && xs[r.value] == x && x !in xs[..r.value]
    ensures r.None? ==> x !in xs
  {
    if xs == [] then None
    else if xs[0] == x then Some(0)
    else match IndexOf(xs[1..], x)
      case None => None
      case Some(i) =>
        assert xs[..i + 1] == [xs[0]] + xs[1..][..i];
        Some(i + 1)
  }

  /**
   * get_internal_port_from_external: keep the local port and replace the
   * pipe with the internal pipe at the position of the external pipe.
   */
  function InternalPort(ext: Word, internalPipes: seq<Word>, externalPipes: seq<Word>): (r: Result<Word, PortError>)
  {
    match PortToLocalPort(ext)
    case Err(e) => Err(e)
    case Ok(local) =>
      match PortToPipe(ext)
      case Err(e) => Err(e)
      case Ok(pipe) =>
        match IndexOf(externalPipes, pipe)
        case None => Err(PipeNotListed(pipe))
        case Some(i) =>
          if i < |internalPipes| then Ok(MakePort(internalPipes[i], local)) else Err(NoInternalPipe(i))
  }

  /**
   * An internal port keeps the external port's local part and sits in the
   * internal pipe paired (by list position) with the external port's pipe.
   */
  lemma InternalPortPairs(ext: Word, internalPipes: seq<Word>, externalPipes: seq<Word>)
    requires forall i :: 0 <= i < |internalPipes| ==> internalPipes[i] < 4
    requires InternalPort(ext, internalPipes, externalPipes).Ok?
    ensures var r := InternalPort(ext, internalPipes, externalPipes).value;
      PortToLocalPort(r) == PortToLocalPort(ext) &&
      exists i :: 0 <= i < |externalPipes| && i < |internalPipes| &&
        Ok(externalPipes[i]) == PortToPipe(ext) && PortToPipe(r) == Ok(internalPipes[i])
  {
    var i := IndexOf(externalPipes, PortToPipe(ext).value).value;
    PortRoundTrip(internalPipes[i], PortToLocalPort(ext).value);
  }

  /**
   * The mapping fails exactly when the port is malformed or its pipe is not
   * among the external pipes that have an internal partner.
   */
  lemma InternalPortFails(ext: Word, internalPipes: seq<Word>, externalPipes: seq<Word>)
    ensures InternalPort(ext, internalPipes, externalPipes).Err? <==>
      PortToPipe(ext).Err? || PortToPipe(ext).value !in externalPipes[..Min(|externalPipes|, |internalPipes|)]
  {
    if PortToPipe(ext).Ok? {
      var pipe := PortToPipe(ext).value;
      var n := Min(|externalPipes|, |internalPipes|);
      var idx := IndexOf(externalPipes, pipe);
      if idx.Some? && idx.value < n {
        assert externalPipes[..n][idx.value] == pipe;
      } else if idx.Some? {
        forall j | 0 <= j < n
          ensures externalPipes[..n][j] != pipe
        {
          assert externalPipes[..idx.value][j] == externalPipes[j];
        }
      }
    }
  }

  function Min(a: nat, b: nat): nat
  {
    if a <= b then a else b
  }

  // ---------------------------------------------------------------------
  // The forwarding path configure_switch sets up.

  /** Pipes 0 and 2 face the outside; pipes 1 and 3 are the internal loopback pipes. */
  const ExternalPipes: seq<Word> := [0, 2]
  const InternalPipes: seq<Word> := [1, 3]
  const IngressPort: Word := 0
  const EgressPort: Word := 2

  /**
   * An a_fwd_recirculation entry: exact match on the ingress port and the
   * recirculation toggle; the action sends the packet to `port`, through
   * modify_eg_port when the toggle is set and fwd otherwise.
   */
  datatype FwdEntryA = FwdEntryA(igPort: Word, recircToggle: bool, port: Word, action: string)

  /** A b_fwd_recirculation entry: exact match on the ingress port, sending the packet to `port`. */
  datatype FwdEntryB = FwdEntryB(igPort: Word, port: Word, action: string)

  function FwdEntryAOf(igPort: Word, recircToggle: bool, port: Word): FwdEntryA
  {
    FwdEntryA(igPort, recircToggle, port,
      if recircToggle then "SwitchIngress_a.modify_eg_port" else "SwitchIngress_a.fwd")
  }

  /**
   * The two recirculation entries configure_switch installs: the ingress
   * port with the toggle set goes to the internal port, and the internal
   * port goes to the egress port. Fails as get_internal_port_from_external
   * does.
   */
  function RecirculationEntries(): (r: Result<(FwdEntryA, FwdEntryB), PortError>)
    ensures r.Ok? <==> InternalPort(IngressPort, InternalPipes, ExternalPipes).Ok?
    ensures r.Ok? ==> r.value.0.igPort == IngressPort && r.value.0.recircToggle && r.value.1.port == EgressPort
    ensures r.Ok? ==> r.value.0.port == r.value.1.igPort
  {
    match InternalPort(IngressPort, InternalPipes, ExternalPipes)
    case Err(e) => Err(e)
    case Ok(intPort) =>
      Ok((FwdEntryAOf(IngressPort, true, intPort), FwdEntryB(intPort, EgressPort, "SwitchIngress_b.modify_eg_port")))
  }

  /**
   * Traffic enters on port 0 (external pipe 0), is recirculated through
   * internal port 128 (internal pipe 1, same local port) and leaves on port
   * 2 (external pipe 0); the recirculation entries installed are the pair
   * (0, toggle set) -> 128 and 128 -> 2.
   */
  lemma ForwardingPath()
    ensures InternalPort(IngressPort, InternalPipes, ExternalPipes) == Ok(128)
    ensures PortToPipe(IngressPort) == Ok(0) && PortToPipe(128) == Ok(1) && PortToPipe(EgressPort) == Ok(0)
    ensures RecirculationEntries() == Ok((
      FwdEntryA(0, true, 128, "SwitchIngress_a.modify_eg_port"),
      FwdEntryB(128, 2, "SwitchIngress_b.modify_eg_port")))
  {
    PortRoundTrip(1, 0);
    assert MakePort(1, 0) == 128;
    assert IndexOf(ExternalPipes, 0) == Some(0);
  }

  // ---------------------------------------------------------------------
  // Decay-check entries: exact match on the data-plane decay counter.

  datatype DecayCheckEntry = DecayCheckEntry(counter: int, interval: string)

  /** The four entries each granularity's decay_check table receives, in order. */
  const DecayCheckEntries: seq<DecayCheckEntry> := [
    DecayCheckEntry(0, "100_ms"), DecayCheckEntry(8192, "1_s"),
    DecayCheckEntry(16384, "10_s"), DecayCheckEntry(24576, "60_s")]

  /** The four decay_check tables (MAC-IP source, IP source, IP pair, five-tuple). */
  const DecayCheckTables: seq<seq<DecayCheckEntry>> :=
    [DecayCheckEntries, DecayCheckEntries, DecayCheckEntries, DecayCheckEntries]

  /** The decay intervals, shortest first. */
  const Intervals: seq<string> := ["100_ms", "1_s", "10_s", "60_s"]

  /**
   * In every table the i-th entry selects the i-th interval for the counter
   * that the control-plane decay table maps to position i, so the data
   * plane and the control plane agree on which slot a counter fills.
   */
  lemma DecayChecksAgree(t: nat, i: nat)
    requires t < |DecayCheckTables| && i < |DecayCheckTables[t]|
    ensures |DecayCheckTables[t]| == Lambdas
    ensures DecayCheckTables[t][i].interval == Intervals[i]
    ensures DecayCheckTables[t][i].counter == DataPlaneCounters[i]
    ensures DecayPos(Number(Num(DecayCheckTables[t][i].counter as real))) == Some(i)
  {
    DataPlaneCounterPosition(i);
  }

  // ---------------------------------------------------------------------
  // Shift tables: a ternary match on a packet count picks the right shift
  // that divides by the largest power of two not above the count.

  /**
   * One ternary entry of a shift table: match priority, the power of two
   * and mask matched against the 32-bit packet count, and the right-shift
   * amount of the action it selects.
   */
  datatype ShiftEntry = ShiftEntry(priority: Word, power: Word, mask: Word, shift: Word)

  /** A ternary entry matches a key when they agree on every bit the mask keeps. */
  predicate ShiftMatches(e: ShiftEntry, key: Word)
  {
    key & e.mask == e.power & e.mask
  }

  /** The 32 rows of the longest shift tables, in installation order. */
  const ShiftRows: seq<ShiftEntry> := [
    ShiftEntry(32, 1, 0xFFFF_FFFF, 0), ShiftEntry(31, 2, 0xFFFF_FFFE, 1),
    ShiftEntry(30, 4, 0xFFFF_FFFC, 2), ShiftEntry(29, 8, 0xFFFF_FFF8, 3),
    ShiftEntry(28, 16, 0xFFFF_FFF0, 4), ShiftEntry(27, 32, 0xFFFF_FFE0, 5),
    ShiftEntry(26, 64, 0xFFFF_FFC0, 6), ShiftEntry(25, 128, 0xFFFF_FF80, 7),
    ShiftEntry(24, 256, 0xFFFF_FF00, 8), ShiftEntry(23, 512, 0xFFFF_FE00, 9),
    ShiftEntry(22, 1024, 0xFFFF_FC00, 10), ShiftEntry(21, 2048, 0xFFFF_F800, 11),
    ShiftEntry(20, 4096, 0xFFFF_F000, 12), ShiftEntry(19, 8192, 0xFFFF_E000, 13),
    ShiftEntry(18, 16384, 0xFFFF_C000, 14), ShiftEntry(17, 32768, 0xFFFF_8000, 15),
    ShiftEntry(16, 65536, 0xFFFF_0000, 16), ShiftEntry(15, 131072, 0xFFFE_0000, 17),
    ShiftEntry(14, 262144, 0xFFFC_0000, 18), ShiftEntry(13, 524288, 0xFFF8_0000, 19),
    ShiftEntry(12, 1048576, 0xFFF0_0000, 20), ShiftEntry(11, 2097152, 0xFFE0_0000, 21),
    ShiftEntry(10, 4194304, 0xFFC0_0000, 22), ShiftEntry(9, 8388608, 0xFF80_0000, 23),
    ShiftEntry(8, 16777216, 0xFF00_0000, 24), ShiftEntry(7, 33554432, 0xFE00_0000, 25),
    ShiftEntry(6, 67108864, 0xFC00_0000, 26), ShiftEntry(5, 134217728, 0xF800_0000, 27),
    ShiftEntry(4, 268435456, 0xF000_0000, 28), ShiftEntry(3, 536870912, 0xE000_0000, 29),
    ShiftEntry(2, 1073741824, 0xC000_0000, 30), ShiftEntry(1, 2147483648, 0x8000_0000, 31)]

  /**
   * Every shift table is a prefix of ShiftRows. These are the prefix
   * lengths in installation order: mac_ip_src_mean, ip_src_mean, ip_mean_0,
   * ip_res_prod, ip_mean_ss_0, ip_mean_ss_1, ip_cov, ip_std_dev_prod,
   * ip_pcc, then five_t_mean_0, five_t_res_prod, five_t_mean_ss_0,
   * five_t_mean_ss_1, five_t_cov, five_t_std_dev_prod, five_t_pcc.
   */
  const ShiftTableRows: seq<nat> := [32, 32, 21, 30, 21, 21, 21, 16, 32, 21, 30, 21, 21, 21, 16, 32]

  function ShiftTable(t: nat): (rows: seq<ShiftEntry>)
    requires t < |ShiftTableRows|
    ensures |rows| == ShiftTableRows[t] && rows <= ShiftRows
  {
    ShiftRows[..ShiftTableRows[t]]
  }

  /**
   * The shape of a shift entry: shift d below 32, priority 32-d, power 2^d
   * and the all-ones mask with its d low bits cleared.
   */
  predicate ShiftShape(e: ShiftEntry)
  {
    e.shift < 32 && e.priority == 32 - e.shift && e.power == 1 << e.shift && e.mask == 0xFFFF_FFFF << e.shift
  }

  /** Every entry of every shift table has the shape; row i shifts by i. */
  lemma ShiftTablesShaped(t: nat, i: nat)
    requires t < |ShiftTableRows| && i < |ShiftTable(t)|
    ensures ShiftShape(ShiftTable(t)[i]) && ShiftTable(t)[i].shift as int == i
  {
    assert ShiftTable(t)[i] == ShiftRows[i];
    if i < 8 { ShiftRowsShaped0(i); }
    else if i < 16 { ShiftRowsShaped1(i); }
    else if i < 24 { ShiftRowsShaped2(i); }
    else { ShiftRowsShaped3(i); }
  }

  lemma ShiftRowsShaped0(i: nat)
    requires 0 <= i < 8
    ensures ShiftShape(ShiftRows[i]) && ShiftRows[i].shift as int == i
  {
    assert i in {0, 1, 2, 3, 4, 5, 6, 7};
  }

  lemma ShiftRowsShaped1(i: nat)
    requires 8 <= i < 16
    ensures ShiftShape(ShiftRows[i]) && ShiftRows[i].shift as int == i
  {
    assert i in {8, 9, 10, 11, 12, 13, 14, 15};
  }

  lemma ShiftRowsShaped2(i: nat)
    requires 16 <= i < 24
    ensures ShiftShape(ShiftRows[i]) && ShiftRows[i].shift as int == i
  {
    assert i in {16, 17, 18, 19, 20, 21, 22, 23};
  }

  lemma ShiftRowsShaped3(i: nat)
    requires 24 <= i < 32
    ensures ShiftShape(ShiftRows[i]) && ShiftRows[i].shift as int == i
  {
    assert i in {24, 25, 26, 27, 28, 29, 30, 31};
  }

  /** The mask of shift d keeps exactly the bits from d upwards. */
  lemma MaskedShift(d: Word, key: Word)
    requires d < 32
    ensures key & (0xFFFF_FFFF << d) == (1 << d) <==> (1 << d) <= key && (d == 31 || key < 1 << (d + 1))
  {
  }

  /**
   * A shaped entry matches exactly the counts whose highest set bit is its
   * shift d, so its action divides by the largest power of two not above
   * the count.
   */
  lemma ShiftEntrySelects(e: ShiftEntry, key: Word)
    requires ShiftShape(e)
    ensures ShiftMatches(e, key) <==> e.power <= key && (e.shift == 31 || key < e.power << 1)
  {
    MaskedShift(e.shift, key);
    assert e.power & e.mask == e.power;
    assert e.shift < 31 ==> e.power << 1 == 1 << (e.shift + 1);
  }

  /** Two shaped entries that match the same count shift by the same amount. */
  lemma MatchesOneShift(e: ShiftEntry, f: ShiftEntry, key: Word)
    requires ShiftShape(e) && ShiftShape(f) && ShiftMatches(e, key) && ShiftMatches(f, key)
    ensures e.shift == f.shift
  {
    ShiftEntrySelects(e, key);
    ShiftEntrySelects(f, key);
  }

  /** At most one entry of a shift table matches any count. */
  lemma ShiftTableUnique(t: nat, i: nat, j: nat, key: Word)
    requires t < |ShiftTableRows| && i < |ShiftTable(t)| && j < |ShiftTable(t)|
    requires ShiftMatches(ShiftTable(t)[i], key) && ShiftMatches(ShiftTable(t)[j], key)
    ensures i == j
  {
    ShiftTablesShaped(t, i);
    ShiftTablesShaped(t, j);
    MatchesOneShift(ShiftTable(t)[i], ShiftTable(t)[j], key);
  }

  // ---------------------------------------------------------------------
  // Flag tables: an exact match on a one-bit metadata field picks one of
  // two actions.

  /** One exact-match entry: the flag value and the action it selects. */
  datatype FlagEntry = FlagEntry(flag: int, action: string)

  /**
   * A flag table: its name, the metadata field it matches on, the prefix of
   * its action names, and the names add_entry receives for flags 0 and 1.
   */
  datatype FlagTable = FlagTable(name: string, key: string, prefix: string, off: string, on: string)

  /** The two entries configure_switch installs: 0 selects prefix+off, 1 selects prefix+on. */
  function Entries(tb: FlagTable): seq<FlagEntry>
  {
    [FlagEntry(0, tb.prefix + tb.off), FlagEntry(1, tb.prefix + tb.on)]
  }

  /**
   * The five flag tables of one granularity ("ip" or "five_t"), in
   * installation order: res_struct_update, sum_res_prod_get_carry,
   * pkt_cnt_1_access, ss_1_access and mean_1_access.
   */
  function FlagTablesOf(g: string): (ts: seq<FlagTable>)
    ensures |ts| == 5
  {
    var md, ctl := "ig_md.stats_" + g + ".", "SwitchIngress_a.stats_" + g + "_a.";
    [FlagTable(g + "_res_struct_update", md + "res_check", ctl + "res_", "read", "update"),
     FlagTable(g + "_sum_res_prod_get_carry", md + "decay_check", ctl + "sum_res_prod_get_carry_decay_", "0", "1"),
     FlagTable(g + "_pkt_cnt_1_access", "ig_md.meta.recirc_toggle", ctl + "pkt_cnt_1_", "incr", "read"),
     FlagTable(g + "_ss_1_access", "ig_md.meta.recirc_toggle", ctl + "ss_1_", "incr", "read"),
     FlagTable(g + "_mean_1_access", "ig_md.meta.recirc_toggle", ctl + "mean_", "0_write", "1_read")]
  }

  /** The ten flag tables configure_switch fills: IP-pair tables first, then five-tuple. */
  const FlagTables: seq<FlagTable> := FlagTablesOf("ip") + FlagTablesOf("five_t")

  /** Exact-match lookup: the action of the first entry holding `flag`, or None on a miss. */
  function FlagAction(entries: seq<FlagEntry>, flag: int): (r: Option<string>)
    ensures r.Some? ==> exists i :: 0 <= i < |entries| && entries[i] == FlagEntry(flag, r.value)
    ensures r.None? <==> forall i :: 0 <= i < |entries| ==> entries[i].flag != flag
  {
    if entries == [] then None
    else if entries[0].flag == flag then Some(entries[0].action)
    else
      var r := FlagAction(entries[1..], flag);
      assert forall i :: 1 <= i < |entries| ==> entries[i] == entries[1..][i - 1];
      r
  }

  /** The two names a flag table is given start with different characters. */
  predicate DistinctNames(tb: FlagTable)
  {
    tb.off != [] && tb.on != [] && tb.off[0] != tb.on[0]
  }

  lemma FlagTablesNamed(g: string, i: nat)
    requires i < 5
    ensures DistinctNames(FlagTablesOf(g)[i])
  {
  }

  /** Two names with the same prefix and suffixes that start differently differ. */
  lemma SuffixesDiffer(p: string, a: string, b: string)
    requires a != [] && b != [] && a[0] != b[0]
    ensures p + a != p + b
  {
    assert (p + a)[|p|] == a[0] && (p + b)[|p|] == b[0];
  }

  /**
   * Every flag table hits exactly for the flag values 0 and 1, and the two
   * values select different actions, so each one-bit field picks exactly
   * one of the table's two actions.
   */
  lemma FlagTablesSelect(t: nat, flag: int)
    requires t < |FlagTables|
    ensures FlagAction(Entries(FlagTables[t]), flag).Some? <==> flag == 0 || flag == 1
    ensures FlagAction(Entries(FlagTables[t]), 0) != FlagAction(Entries(FlagTables[t]), 1)
  {
    var g := if t < 5 then "ip" else "five_t";
    var tb := FlagTables[t];
    assert tb == FlagTablesOf(g)[t % 5];
    FlagTablesNamed(g, t % 5);
    SuffixesDiffer(tb.prefix, tb.off, tb.on);
  }

  // ---------------------------------------------------------------------
  // Variance sign tables: a ternary match on the sign bit picks the
  // positive or the negative branch of the absolute value.

  datatype SignEntry = SignEntry(priority: int, value: Word, mask: Word, action: string)

  /** Each of the four variance_abs tables (IP pair and five-tuple, variance 0 and 1). */
  const VarianceAbsEntries: seq<SignEntry> := [
    SignEntry(2, 0x0000_0000, 0x8000_0000, "pos"),
    SignEntry(1, 0x8000_0000, 0x8000_0000, "neg")]

  predicate SignMatches(e: SignEntry, key: Word)
  {
    key & e.mask == e.value & e.mask
  }

  /**
   * Every 32-bit variance matches exactly one entry, and it is the "neg"
   * entry exactly when the sign bit is set.
   */
  lemma VarianceAbsSelects(key: Word)
    ensures SignMatches(VarianceAbsEntries[0], key) != SignMatches(VarianceAbsEntries[1], key)
    ensures SignMatches(VarianceAbsEntries[1], key) <==> key >= 0x8000_0000
  {
  }
}
