// The switch controller's packet pipeline (pkt_pipeline): training records
// come from the offline feature calculator, execution records from the
// Peregrine header of packets the data plane sends to the controller; every
// sampled record is scored by the detector object, evaluated against the
// ground-truth labels, and the threshold is calibrated once at the end of
// training.
module ControllerPipeline {
  import opened Values
  import opened Decay
  import opened FlowStats
  import opened Driver
  import opened ControlPlane
  import KitnetPipeline

  /** A sampling rate: `pkt_cnt_global % sampling_rate` needs it non-zero. */
  type Rate = n: nat | n >= 1 witness 1

  /** Transport ports as scapy prints them. */
  datatype Ports = Ports(sport: string, dport: string)

  /** The Peregrine header: the decay counter and its 20 statistics. */
  datatype PeregrineHdr = PeregrineHdr(decay: int, stats: seq<int>)

  const HdrStats: nat := 20

  /** The parts of a captured packet the callback reads. */
  datatype Packet = Packet(
    ethSrc: string, ipSrc: string, ipDst: string, proto: string,
    udp: Option<Ports>, tcp: Option<Ports>, peregrine: Option<PeregrineHdr>)

  /** The k-th one-packet capture: a packet, or None when it timed out. */
  type Sniffer = nat -> Option<Packet>

  /** The Peregrine headers the switch sends carry all 20 statistics. */
  ghost predicate WellFormedSniffer(sniffer: Sniffer)
  {
    forall k :: sniffer(k).Some? && sniffer(k).value.peregrine.Some? ==>
      |sniffer(k).value.peregrine.value.stats| == HdrStats
  }

  /** The feature calculator only produces complete records. */
  ghost predicate WellFormedSource(source: FeatureSource)
  {
    forall i, m :: source(i, m).Stats? ==> WellFormedRecord(source(i, m).rec, 0)
  }

  /**
   * The value of `cur_stats`: -1 while nothing arrived, 0 for a capture
   * without a Peregrine header (or an answer that does not apply), or a
   * record.
   */
  datatype Capture = Nothing | Foreign | Record(rec: seq<Field>)

  /** The source and destination port fields: UDP first, then TCP, else '0'. */
  function PortFields(pkt: Packet): (p: (string, string))
    ensures pkt.udp.Some? ==> p == (pkt.udp.value.sport, pkt.udp.value.dport)
    ensures pkt.udp.None? && pkt.tcp.Some? ==> p == (pkt.tcp.value.sport, pkt.tcp.value.dport)
    ensures pkt.udp.None? && pkt.tcp.None? ==> p == ("0", "0")
  {
    match (pkt.udp, pkt.tcp)
    case (Some(u), _) => (u.sport, u.dport)
    case (None, Some(t)) => (t.sport, t.dport)
    case (None, None) => ("0", "0")
  }

  /** `pkt_header`: the six text fields that head a record. */
  function HeaderFields(pkt: Packet): (h: seq<Field>)
    ensures |h| == 6 && forall i :: 0 <= i < 6 ==> h[i].Text?
  {
    var (sport, dport) := PortFields(pkt);
    [Text(pkt.ethSrc), Text(pkt.ipSrc), Text(pkt.ipDst), Text(pkt.proto), Text(sport), Text(dport)]
  }

  function Numbers(xs: seq<int>): (fs: seq<Field>)
    ensures |fs| == |xs| && forall i :: 0 <= i < |xs| ==> fs[i] == Number(Num(xs[i] as real))
  {
    seq(|xs|, i requires 0 <= i < |xs| => Number(Num(xs[i] as real)))
  }

  /**
   * pkt_callback's value of `cur_stats`, flattened: a record exactly for a
   * packet with a Peregrine header, laid out as the six header fields, the
   * decay counter, then the statistics in header order.
   */
  function Callback(pkt: Packet): (c: Capture)
    ensures c.Record? <==> pkt.peregrine.Some?
    ensures c.Record? ==>
      |c.rec| == 7 + |pkt.peregrine.value.stats| &&
      c.rec[..6] == HeaderFields(pkt) &&
      c.rec[6] == Number(Num(pkt.peregrine.value.decay as real)) &&
      c.rec[7..] == Numbers(pkt.peregrine.value.stats)
    ensures c.Record? && |pkt.peregrine.value.stats| == HdrStats ==> WellFormedRecord(c.rec, 0)
  {
    match pkt.peregrine
    case None => Foreign
    case Some(hdr) =>
      var rec := HeaderFields(pkt) + [Number(Num(hdr.decay as real))] + Numbers(hdr.stats);
      assert rec[..6] == HeaderFields(pkt) && rec[7..] == Numbers(hdr.stats);
      Record(rec)
  }

  /** What a capture leaves in `cur_stats`: -1 on a timeout. */
  function Captured(p: Option<Packet>): Capture
  {
    match p
    case None => Nothing
    case Some(pkt) => Callback(pkt)
  }

  /** What the feature calculator's answer leaves in `cur_stats`. */
  function Answered(a: SourceResult): Capture
  {
    match a
    case NoStats => Nothing
    case NotApplicable => Foreign
    case Stats(rec) => Record(rec)
  }

  /** The global packet counter counts captures with a Peregrine header only. */
  function Counted(p: Option<Packet>): nat
  {
    if p.Some? && p.value.peregrine.Some? then 1 else 0
  }

  /** The saved model: a warm start needs all four given. */
  predicate TrainSkip(files: KitnetPipeline.ModelFiles)
  {
    files.featureMap.Some? && files.ensembleLayer.Some? &&
    files.outputLayer.Some? && files.trainStats.Some?
  }

  /**
   * The controller warm-starts whenever the offline pipeline would, and
   * also when a file is named but missing, which only the offline pipeline
   * checks.
   */
  lemma WarmStartUnchecked(files: KitnetPipeline.ModelFiles, existing: set<string>)
    ensures KitnetPipeline.WarmStart(files, existing) ==> TrainSkip(files)
    ensures TrainSkip(files) && existing == {} ==> !KitnetPipeline.WarmStart(files, existing)
  {
  }

  /**
   * The calibration rule over the score list: once a cold start has its
   * first fm+ad scores, the threshold is the highest of them and the
   * statistics are saved; until then, and on a warm start, the threshold
   * is 0 and nothing is saved.
   */
  predicate Calibrated(cold: bool, grace: nat, rmse: seq<real>, threshold: real, saved: bool)
  {
    if cold && 1 <= grace <= |rmse| then threshold == Max(rmse[..grace]) && saved
    else threshold == 0.0 && !saved
  }

  /**
   * Appending a score calibrates exactly when it completes a cold start's
   * training window, to the highest score so far; any other score keeps
   * the threshold, so calibration happens at most once.
   */
  lemma CalibrationStep(cold: bool, grace: nat, rmse: seq<real>, x: real, threshold: real, saved: bool)
    requires Calibrated(cold, grace, rmse, threshold, saved)
    ensures cold && |rmse| + 1 == grace ==> Calibrated(cold, grace, rmse + [x], Max(rmse + [x]), true)
    ensures !(cold && |rmse| + 1 == grace) ==> Calibrated(cold, grace, rmse + [x], threshold, saved)
  {
    if cold && |rmse| + 1 == grace {
      WindowCompleted(grace, rmse, x);
    } else if cold && 1 <= grace <= |rmse| {
      WindowKept(grace, rmse, x);
    }
  }

  /** The score that completes the window makes the window the whole list. */
  lemma WindowCompleted(grace: nat, rmse: seq<real>, x: real)
    requires |rmse| + 1 == grace
    ensures (rmse + [x])[..grace] == rmse + [x]
  {
  }

  /** A score past the window leaves the window alone. */
  lemma WindowKept(grace: nat, rmse: seq<real>, x: real)
    requires grace <= |rmse|
    ensures (rmse + [x])[..grace] == rmse[..grace]
  {
    assert forall i :: 0 <= i < grace ==> (rmse + [x])[..grace][i] == rmse[..grace][i];
  }

  /** Why pkt_pipeline's loop stopped. */
  datatype Exit =
    | EndOfTrace                        // the trace size was reached
    | Timeout                           // no statistics and no packet (`TIMEOUT.`)
    | UnknownDecayCounter(counter: Field) // KeyError in the decay table
    | FuelSpent                         // the modelled number of iterations ran out

  /**
   * pkt_pipeline's state, as one value: cur_stats, cur_stats_global,
   * rmse_list, peregrine_eval, pkt_cnt_global, the threshold and the saved
   * statistics, with the feature-calculator calls and captures made so
   * far; `cnts` holds the packet count each score was taken at and `rowOf`
   * the score each evaluation row belongs to.
   */
  datatype Globals = Globals(
    curStats: Capture, stats: seq<seq<Field>>, rmse: seq<real>, eval: seq<EvalRow>,
    pkts: nat, threshold: real, saved: Option<Snapshot>, extracted: nat, sniffed: nat,
    cnts: seq<nat>, rowOf: seq<nat>)

  /** The module state on entry to pkt_pipeline. */
  const Initial: Globals := Globals(Nothing, [], [], [], 0, 0.0, None, 0, 0, [], [])

  class Controller {
    const fmGrace: nat
    const adGrace: nat
    const grace: nat
    const samplingRate: Rate
    const exactBound: real             // train_exact_ratio * (fm_grace + ad_grace)
    const trainSkip: bool
    const labels: seq<int>             // the ground-truth column
    const traceSize: int
    const source: FeatureSource
    const sniffer: Sniffer
    const peregrine: Peregrine
    ghost const start: Tables          // the detector's dictionaries when it was built

    var curStats: Capture
    var curStatsGlobal: seq<seq<Field>>
    var rmseList: seq<real>
    var peregrineEval: seq<EvalRow>
    var pktCntGlobal: nat
    var threshold: real
    var savedStats: Option<Snapshot>   // the four dictionaries written by save_train_stats
    var extracted: nat                 // feature_extract calls so far
    var sniffed: nat                   // sniff calls so far

    ghost var cntLog: seq<nat>         // pkt_cnt_global when each score was taken
    ghost var rowOf: seq<nat>          // the score each evaluation row belongs to

    ghost predicate Valid()
      reads peregrine`trainList, peregrine`execList, peregrine.store
    {
      peregrine.Valid() && grace == fmGrace + adGrace && peregrine.fmGrace + peregrine.adGrace == grace
    }

    /** The fields pkt_pipeline updates, as one value. */
    ghost function St(): Globals
      reads this`curStats, this`curStatsGlobal, this`rmseList, this`peregrineEval, this`pktCntGlobal
      reads this`threshold, this`savedStats, this`extracted, this`sniffed, this`cntLog, this`rowOf
    {
      Globals(curStats, curStatsGlobal, rmseList, peregrineEval, pktCntGlobal, threshold, savedStats,
        extracted, sniffed, cntLog, rowOf)
    }

    /** The detector's dictionaries and vector lists. */
    ghost function Det(): DetState
      reads peregrine`trainList, peregrine`execList, peregrine.store
    {
      peregrine.State()
    }

    /** The detector as it was built: its first dictionaries and empty lists. */
    ghost function Start(): DetState
    {
      DetState(start, [], [])
    }

    /**
     * The module state on entry to pkt_pipeline, and the detector it builds:
     * warm-started exactly when all four saved-model parts are given.
     */
    constructor (fmGrace: nat, adGrace: nat, samplingRate: Rate, trainExactRatio: real,
                 files: KitnetPipeline.ModelFiles, saved: Snapshot, labels: seq<int>, traceSize: int,
                 source: FeatureSource, sniffer: Sniffer, scorer: Scorer)
      requires TrainSkip(files) ==> FromSnapshot(saved).Some? && ValidTables(FromSnapshot(saved).value)
      ensures this.fmGrace == fmGrace && this.adGrace == adGrace && this.samplingRate == samplingRate
      ensures this.labels == labels && this.traceSize == traceSize
      ensures this.source == source && this.sniffer == sniffer && peregrine.scorer == scorer
      ensures exactBound == trainExactRatio * ((fmGrace + adGrace) as real)
      ensures trainSkip == TrainSkip(files)
      ensures trainSkip ==> Some(start) == FromSnapshot(saved)
      ensures !trainSkip ==> start == EmptyTables
      ensures Valid() && St() == Initial && Det() == Start() && Inv(St(), Det())
      ensures fresh(peregrine) && fresh(peregrine.store)
    {
      this.fmGrace := fmGrace;
      this.adGrace := adGrace;
      this.grace := fmGrace + adGrace;
      this.samplingRate := samplingRate;
      this.exactBound := trainExactRatio * ((fmGrace + adGrace) as real);
      this.labels := labels;
      this.traceSize := traceSize;
      this.source := source;
      this.sniffer := sniffer;
      var skip := TrainSkip(files);
      this.trainSkip := skip;
      curStats := Nothing;
      curStatsGlobal, rmseList, peregrineEval := [], [], [];
      pktCntGlobal, threshold, savedStats := 0, 0.0, None;
      extracted, sniffed := 0, 0;
      cntLog, rowOf := [], [];
      var p := new Peregrine(fmGrace, adGrace, scorer, skip, saved);
      peregrine := p;
      start := p.store.Contents();
    }

    function Phase(n: nat): Phase
    {
      PhaseOf(n, grace, exactBound, trainSkip)
    }

    /** The ground-truth label of a score taken at global packet count `cnt`. */
    function LabelOf(cnt: nat): Option<int>
    {
      PyIndex(labels, grace + cnt - 1)
    }

    /** The evaluation row a score taken at packet count `cnt` gets, if any. */
    function RowFor(rec: seq<Field>, score: real, cnt: nat): (rows: seq<EvalRow>)
      requires |rec| >= 6
      ensures |rows| <= 1
      ensures |rows| == 1 <==> LabelOf(cnt).Some?
      ensures |rows| == 1 ==> rows[0] == EvalRow(rec[..6], score, LabelOf(cnt).value)
    {
      match LabelOf(cnt)
      case Some(l) => [EvalRow(rec[..6], score, l)]
      case None => []
    }

    // ---------------------------------------------------------------
    // One iteration, as functions of the state.
    // ---------------------------------------------------------------

    /**
     * The phase decision and the fetch: in a training phase the feature
     * calculator is asked (exact statistics first), in execution one packet
     * is captured and counted if it carries a Peregrine header.
     */
    ghost function FetchSpec(g: Globals): (r: Globals)
      ensures WellFormedSource(source) && WellFormedSniffer(sniffer) && r.curStats.Record? ==>
        WellFormedRecord(r.curStats.rec, 0)
    {
      var phase := Phase(|g.rmse|);
      if phase != Execution then
        g.(extracted := g.extracted + 1,
           curStats := Answered(source(g.extracted + 1, Mode(phase == ExactTraining, true))))
      else
        var p := sniffer(g.sniffed);
        g.(sniffed := g.sniffed + 1, curStats := Captured(p), pkts := g.pkts + Counted(p))
    }

    /** rmse_list.append, with the packet count the score was taken at. */
    ghost function Appended(g: Globals, x: real): Globals
    {
      g.(rmse := g.rmse + [x], cnts := g.cnts + [g.pkts])
    }

    /** The evaluation row of the newest score, dropped when its label index is out of range. */
    ghost function Evaluated(g: Globals, rec: seq<Field>): Globals
      requires |rec| >= 6 && |g.rmse| >= 1
    {
      var k := |g.rmse| - 1;
      var rows := RowFor(rec, g.rmse[k], g.pkts);
      g.(eval := g.eval + rows, rowOf := g.rowOf + if rows == [] then [] else [k])
    }

    /**
     * The calibration check after a score: the score that completes a cold
     * start's window sets the threshold to the highest score and saves the
     * dictionaries; otherwise the run stops once fm+ad+count reaches the
     * trace size.
     */
    ghost function CalibrateSpec(g: Globals, d: DetState): (r: (Globals, Option<Exit>))
      requires |g.rmse| >= 1
      ensures r.0 == g.(threshold := r.0.threshold, saved := r.0.saved)
    {
      if !trainSkip && |g.rmse| == grace then
        (g.(threshold := Max(g.rmse), saved := Some(ToSnapshot(d.tables))), None)
      else if grace + g.pkts >= traceSize then (g, Some(EndOfTrace))
      else (g, None)
    }

    /** What follows an accepted score `x` of `rec`. */
    ghost function AcceptSpec(g: Globals, d: DetState, rec: seq<Field>, x: real): (r: (Globals, Option<Exit>))
      requires |rec| >= 6
      ensures r.0.stats == g.stats && r.0.rmse == g.rmse + [x] && r.0.eval == g.eval + RowFor(rec, x, g.pkts)
      ensures r.1.Some? ==> r.1.value == EndOfTrace
    {
      CalibrateSpec(Evaluated(Appended(g, x), rec), d)
    }

    /**
     * What proc_next_packet's outcome `p` leads to: a KeyError stops the
     * run, a score is appended, evaluated and calibrated.
     */
    ghost function Judged(g: Globals, p: (DetState, Result<real, StatsError>), rec: seq<Field>)
      : (r: (Globals, DetState, Option<Exit>))
      requires |rec| > 6
      ensures r.1 == p.0
      ensures r.2.Some? ==> r.2.value == EndOfTrace || r.2.value == UnknownDecayCounter(rec[6])
    {
      if p.1.Err? then (g, p.0, Some(UnknownDecayCounter(rec[6])))
      else
        var (g2, stop) := AcceptSpec(g, p.0, rec, p.1.value);
        (g2, p.0, stop)
    }

    /**
     * A record past the sampling gate joins `cur_stats_global` and goes to
     * proc_next_packet.
     */
    ghost function ScoreSpec(g: Globals, d: DetState, rec: seq<Field>): (r: (Globals, DetState, Option<Exit>))
      requires ValidTables(d.tables) && WellFormedRecord(rec, 0)
      ensures ValidTables(r.1.tables)
      ensures r.2.Some? ==> r.2.value == EndOfTrace || r.2.value == UnknownDecayCounter(rec[6])
    {
      Judged(g.(stats := g.stats + [rec]), Process(d, rec, grace, peregrine.scorer), rec)
    }

    /**
     * The checks after the fetch: nothing fetched is a timeout; a counter
     * off the sampling rate stops exactly when fm+ad+count equals the trace
     * size and otherwise skips; a capture without statistics is skipped; a
     * record is scored.
     */
    ghost function DispatchSpec(g: Globals, d: DetState): (r: (Globals, DetState, Option<Exit>))
      requires ValidTables(d.tables) && (g.curStats.Record? ==> WellFormedRecord(g.curStats.rec, 0))
      ensures ValidTables(r.1.tables)
    {
      if g.curStats.Nothing? then (g, d, Some(Timeout))
      else if g.pkts % samplingRate != 0 then
        (g, d, if grace + g.pkts == traceSize then Some(EndOfTrace) else None)
      else if g.curStats.Foreign? then (g, d, None)
      else ScoreSpec(g, d, g.curStats.rec)
    }

    /** One iteration of pkt_pipeline's loop. */
    ghost function StepSpec(g: Globals, d: DetState): (r: (Globals, DetState, Option<Exit>))
      requires ValidTables(d.tables) && WellFormedSource(source) && WellFormedSniffer(sniffer)
      ensures ValidTables(r.1.tables)
    {
      DispatchSpec(FetchSpec(g), d)
    }

    // ---------------------------------------------------------------
    // The loop's bookkeeping.
    // ---------------------------------------------------------------

    /** Every record in `cur_stats_global` is complete. */
    ghost predicate AllWellFormed(stats: seq<seq<Field>>)
    {
      forall i :: 0 <= i < |stats| ==> WellFormedRecord(stats[i], 0)
    }

    /**
     * The detector's state and the scores are the replay of the scored
     * records, in order, from the detector as it was built.
     */
    ghost predicate Replayed(stats: seq<seq<Field>>, rmse: seq<real>, d: DetState)
    {
      ValidTables(start) && |rmse| <= |stats| &&
      Replay(Start(), stats[..|rmse|], grace, peregrine.scorer) == Some((d, rmse))
    }

    /** Every score was taken at a packet count the sampling rate divides. */
    ghost predicate Sampled(cnts: seq<nat>)
    {
      forall i :: 0 <= i < |cnts| ==> cnts[i] % samplingRate == 0
    }

    /**
     * One evaluation row per score whose label exists, in score order, with
     * the record's header, the score and the label at fm+ad+count-1.
     */
    ghost predicate EvalRows(stats: seq<seq<Field>>, rmse: seq<real>, cnts: seq<nat>, eval: seq<EvalRow>,
                             rowOf: seq<nat>)
    {
      |cnts| == |rmse| <= |stats| && |rowOf| == |eval| &&
      (forall i :: 0 <= i < |stats| ==> |stats[i]| >= 6) &&
      (forall i :: 0 <= i < |rowOf| ==>
        rowOf[i] < |rmse| && LabelOf(cnts[rowOf[i]]).Some? &&
        eval[i] == EvalRow(stats[rowOf[i]][..6], rmse[rowOf[i]], LabelOf(cnts[rowOf[i]]).value)) &&
      (forall i, j :: 0 <= i < j < |rowOf| ==> rowOf[i] < rowOf[j]) &&
      (forall k :: 0 <= k < |rmse| && LabelOf(cnts[k]).Some? ==> k in rowOf)
    }

    /** During a cold start's training no packet is counted. */
    ghost predicate Training(rmse: seq<real>, cnts: seq<nat>, pkts: nat)
    {
      (!trainSkip && |rmse| < grace ==> pkts == 0) &&
      (!trainSkip ==> forall i :: 0 <= i < |cnts| && i < grace ==> cnts[i] == 0)
    }

    /** The bookkeeping of the records and scores, apart from calibration. */
    ghost predicate Scoring(stats: seq<seq<Field>>, rmse: seq<real>, cnts: seq<nat>, eval: seq<EvalRow>,
                            rowOf: seq<nat>, pkts: nat, d: DetState)
    {
      AllWellFormed(stats) && Replayed(stats, rmse, d) && Sampled(cnts) &&
      EvalRows(stats, rmse, cnts, eval, rowOf) && Training(rmse, cnts, pkts)
    }

    /** The bookkeeping that holds whenever the loop stops or goes on. */
    ghost predicate Books(g: Globals, d: DetState)
    {
      Scoring(g.stats, g.rmse, g.cnts, g.eval, g.rowOf, g.pkts, d) &&
      Calibrated(!trainSkip, grace, g.rmse, g.threshold, g.saved.Some?)
    }

    /** What holds between two iterations of the loop. */
    ghost predicate Inv(g: Globals, d: DetState)
    {
      Books(g, d) && |g.stats| == |g.rmse|
    }

    /**
     * Why the loop stopped: a KeyError leaves its record in
     * `cur_stats_global` without a score; the end of the trace was reached;
     * a timeout left `cur_stats` at -1.
     */
    ghost predicate Stopped(g: Globals, exit: Exit)
    {
      match exit
      case UnknownDecayCounter(c) =>
        |g.stats| == |g.rmse| + 1 && |g.stats[|g.rmse|]| > 6 &&
        c == g.stats[|g.rmse|][6] && DecayPos(c).None?
      case EndOfTrace => |g.stats| == |g.rmse| && grace + g.pkts >= traceSize
      case Timeout => |g.stats| == |g.rmse| && g.curStats.Nothing?
      case FuelSpent => |g.stats| == |g.rmse|
    }

    /** What holds when the loop stops: the bookkeeping, and why it stopped. */
    ghost predicate Post(g: Globals, d: DetState, exit: Exit)
    {
      Books(g, d) && Stopped(g, exit)
    }

    // ---------------------------------------------------------------
    // The bookkeeping is kept.
    // ---------------------------------------------------------------

    /**
     * Between iterations the detector's lists are the split of its history,
     * and each score is the scorer's verdict on the vector of the same
     * position.
     */
    lemma ScoresAreVerdicts(stats: seq<seq<Field>>, rmse: seq<real>, d: DetState)
      requires Replayed(stats, rmse, d)
      ensures d.Split(grace) && |d.History()| == |rmse|
      ensures forall i :: 0 <= i < |rmse| ==> rmse[i] == peregrine.scorer(i, d.History()[i])
    {
      assert Start().Split(grace);
      ReplayScores(Start(), stats[..|rmse|], grace, peregrine.scorer);
    }

    /** An accepted record extends the replay by its score. */
    lemma ReplayedStep(stats: seq<seq<Field>>, rmse: seq<real>, d: DetState, rec: seq<Field>)
      requires Replayed(stats, rmse, d) && |stats| == |rmse| && WellFormedRecord(rec, 0)
      requires Process(d, rec, grace, peregrine.scorer).1.Ok?
      ensures var (d1, r) := Process(d, rec, grace, peregrine.scorer);
        Replayed(stats + [rec], rmse + [r.value], d1)
    {
      assert stats[..|rmse|] == stats;
      ReplaySnoc(Start(), stats, rec, grace, peregrine.scorer);
      assert (stats + [rec])[..|rmse| + 1] == stats + [rec];
    }

    /** A record that is not scored leaves the replay of the scored ones alone. */
    lemma ReplayedGrow(stats: seq<seq<Field>>, rmse: seq<real>, d: DetState, rec: seq<Field>)
      requires Replayed(stats, rmse, d)
      ensures Replayed(stats + [rec], rmse, d)
    {
      assert (stats + [rec])[..|rmse|] == stats[..|rmse|];
    }

    /** A new record, not yet scored, keeps the evaluation rows. */
    lemma EvalRowsGrow(stats: seq<seq<Field>>, rmse: seq<real>, cnts: seq<nat>, eval: seq<EvalRow>,
                       rowOf: seq<nat>, rec: seq<Field>)
      requires EvalRows(stats, rmse, cnts, eval, rowOf) && |rec| >= 6
      ensures EvalRows(stats + [rec], rmse, cnts, eval, rowOf)
    {
      assert forall i :: 0 <= i < |stats| ==> (stats + [rec])[i] == stats[i];
    }

    /** The newest record's score and its row, if its label exists, keep the evaluation rows. */
    lemma EvalRowsStep(stats: seq<seq<Field>>, rmse: seq<real>, cnts: seq<nat>, eval: seq<EvalRow>,
                       rowOf: seq<nat>, rec: seq<Field>, x: real, c: nat)
      requires EvalRows(stats, rmse, cnts, eval, rowOf) && |stats| == |rmse| && |rec| >= 6
      ensures var rows := RowFor(rec, x, c);
        EvalRows(stats + [rec], rmse + [x], cnts + [c], eval + rows,
          rowOf + if rows == [] then [] else [|rmse|])
    {
      var stats', rmse', cnts' := stats + [rec], rmse + [x], cnts + [c];
      assert forall i :: 0 <= i < |stats| ==> stats'[i] == stats[i] && rmse'[i] == rmse[i] && cnts'[i] == cnts[i];
      assert stats'[|rmse|] == rec && rmse'[|rmse|] == x && cnts'[|rmse|] == c;
    }

    /** A score taken while no packet was counted keeps the training window clean. */
    lemma TrainingStep(rmse: seq<real>, cnts: seq<nat>, pkts: nat, x: real)
      requires Training(rmse, cnts, pkts) && |cnts| == |rmse|
      ensures Training(rmse + [x], cnts + [pkts], pkts)
    {
      if !trainSkip {
        assert forall i :: 0 <= i < |cnts| ==> (cnts + [pkts])[i] == cnts[i];
      }
    }

    /** The fetch keeps the bookkeeping: training phases count no packet. */
    lemma FetchKeeps(g: Globals, d: DetState)
      requires Inv(g, d)
      ensures Inv(FetchSpec(g), d)
    {
    }

    /** A KeyError stops the loop with the record unscored and the bookkeeping kept. */
    lemma RejectKeeps(g: Globals, d: DetState, rec: seq<Field>)
      requires Inv(g, d) && WellFormedRecord(rec, 0) && DecayPos(rec[6]).None?
      ensures Post(g.(stats := g.stats + [rec]), d, UnknownDecayCounter(rec[6]))
    {
      ReplayedGrow(g.stats, g.rmse, d, rec);
      EvalRowsGrow(g.stats, g.rmse, g.cnts, g.eval, g.rowOf, rec);
      var stats' := g.stats + [rec];
      assert stats'[|g.rmse|] == rec;
    }

    /**
     * The state right after the newest score and its evaluation row: the
     * bookkeeping holds, except that the calibration rule has not yet seen
     * the newest score.
     */
    ghost predicate Pending(g: Globals, d: DetState)
    {
      |g.stats| == |g.rmse| >= 1 && Scoring(g.stats, g.rmse, g.cnts, g.eval, g.rowOf, g.pkts, d) &&
      Calibrated(!trainSkip, grace, g.rmse[..|g.rmse| - 1], g.threshold, g.saved.Some?)
    }

    /** An accepted score extends the replay, and its record is complete. */
    lemma AcceptedReplay(stats: seq<seq<Field>>, rmse: seq<real>, d: DetState, rec: seq<Field>, d1: DetState, x: real)
      requires AllWellFormed(stats) && Replayed(stats, rmse, d) && |stats| == |rmse| && WellFormedRecord(rec, 0)
      requires Process(d, rec, grace, peregrine.scorer) == (d1, Ok(x))
      ensures AllWellFormed(stats + [rec]) && Replayed(stats + [rec], rmse + [x], d1)
    {
      ReplayedStep(stats, rmse, d, rec);
    }

    /** An accepted score and its evaluation row keep the rest of the bookkeeping. */
    lemma AcceptedRows(g: Globals, rec: seq<Field>, x: real)
      requires Sampled(g.cnts) && EvalRows(g.stats, g.rmse, g.cnts, g.eval, g.rowOf) &&
        Training(g.rmse, g.cnts, g.pkts) && Calibrated(!trainSkip, grace, g.rmse, g.threshold, g.saved.Some?)
      requires |g.stats| == |g.rmse| && |rec| >= 6 && g.pkts % samplingRate == 0
      ensures var rows := RowFor(rec, x, g.pkts);
        var stats, rmse, cnts := g.stats + [rec], g.rmse + [x], g.cnts + [g.pkts];
        Sampled(cnts) &&
        EvalRows(stats, rmse, cnts, g.eval + rows, g.rowOf + if rows == [] then [] else [|g.rmse|]) &&
        Training(rmse, cnts, g.pkts) &&
        Calibrated(!trainSkip, grace, rmse[..|rmse| - 1], g.threshold, g.saved.Some?)
    {
      EvalRowsStep(g.stats, g.rmse, g.cnts, g.eval, g.rowOf, rec, x, g.pkts);
      TrainingStep(g.rmse, g.cnts, g.pkts, x);
      assert (g.stats + [rec])[..|g.stats|] == g.stats && (g.rmse + [x])[..|g.rmse|] == g.rmse;
    }

    /** An accepted score and its evaluation row leave the state pending calibration. */
    lemma AcceptPending(g: Globals, d: DetState, rec: seq<Field>)
      requires Inv(g, d) && WellFormedRecord(rec, 0) && g.pkts % samplingRate == 0
      requires Process(d, rec, grace, peregrine.scorer).1.Ok?
      ensures var (d1, r) := Process(d, rec, grace, peregrine.scorer);
        Pending(Evaluated(Appended(g.(stats := g.stats + [rec]), r.value), rec), d1)
    {
      var (d1, r) := Process(d, rec, grace, peregrine.scorer);
      var x := r.value;
      AcceptedReplay(g.stats, g.rmse, d, rec, d1, x);
      AcceptedRows(g, rec, x);
      var g3 := Evaluated(Appended(g.(stats := g.stats + [rec]), x), rec);
      var rows := RowFor(rec, x, g.pkts);
      assert g3.stats == g.stats + [rec] && g3.rmse == g.rmse + [x] && g3.cnts == g.cnts + [g.pkts];
      assert g3.eval == g.eval + rows && g3.rowOf == g.rowOf + if rows == [] then [] else [|g.rmse|];
      assert g3.pkts == g.pkts && g3.threshold == g.threshold && g3.saved == g.saved;
    }

    /** Calibrating at the end of a cold start's window completes the bookkeeping. */
    lemma HitKeeps(g: Globals, d: DetState)
      requires Pending(g, d) && !trainSkip && |g.rmse| == grace
      ensures Inv(g.(threshold := Max(g.rmse), saved := Some(ToSnapshot(d.tables))), d)
    {
      var n := |g.rmse| - 1;
      assert g.rmse[..n] + [g.rmse[n]] == g.rmse;
      CalibrationStep(!trainSkip, grace, g.rmse[..n], g.rmse[n], g.threshold, g.saved.Some?);
    }

    /** Any other score completes the bookkeeping as it is. */
    lemma MissKeeps(g: Globals, d: DetState)
      requires Pending(g, d) && !(!trainSkip && |g.rmse| == grace)
      ensures Inv(g, d)
    {
      var n := |g.rmse| - 1;
      assert g.rmse[..n] + [g.rmse[n]] == g.rmse;
      CalibrationStep(!trainSkip, grace, g.rmse[..n], g.rmse[n], g.threshold, g.saved.Some?);
    }

    /** The calibration check completes the bookkeeping, and stops only at the end of the trace. */
    lemma CalibrateKeeps(g: Globals, d: DetState)
      requires Pending(g, d)
      ensures var (g', stop) := CalibrateSpec(g, d);
        (stop.None? ==> Inv(g', d)) && (stop.Some? ==> Post(g', d, stop.value))
    {
      if !trainSkip && |g.rmse| == grace {
        HitKeeps(g, d);
      } else {
        MissKeeps(g, d);
      }
    }

    /** An accepted score, its evaluation row and the calibration check keep the bookkeeping. */
    lemma AcceptKeeps(g: Globals, d: DetState, rec: seq<Field>)
      requires Inv(g, d) && WellFormedRecord(rec, 0) && g.pkts % samplingRate == 0
      requires Process(d, rec, grace, peregrine.scorer).1.Ok?
      ensures var (d1, r) := Process(d, rec, grace, peregrine.scorer);
        var (g', stop) := AcceptSpec(g.(stats := g.stats + [rec]), d1, rec, r.value);
        (stop.None? ==> Inv(g', d1)) && (stop.Some? ==> Post(g', d1, stop.value))
    {
      var (d1, r) := Process(d, rec, grace, peregrine.scorer);
      AcceptPending(g, d, rec);
      CalibrateKeeps(Evaluated(Appended(g.(stats := g.stats + [rec]), r.value), rec), d1);
    }

    /**
     * Scoring a record that passed the sampling gate keeps the bookkeeping,
     * and stops only with a reason that holds.
     */
    lemma ScoreKeeps(g: Globals, d: DetState, rec: seq<Field>)
      requires Inv(g, d) && WellFormedRecord(rec, 0) && g.pkts % samplingRate == 0
      ensures var (g', d', stop) := ScoreSpec(g, d, rec);
        (stop.None? ==> Inv(g', d')) && (stop.Some? ==> Post(g', d', stop.value))
    {
      ScoresAreVerdicts(g.stats, g.rmse, d);
      ProcessFacts(d, rec, grace, peregrine.scorer);
      if DecayPos(rec[6]).None? {
        RejectKeeps(g, d, rec);
      } else {
        AcceptKeeps(g, d, rec);
      }
    }

    /** The checks after the fetch keep the bookkeeping. */
    lemma DispatchKeeps(g: Globals, d: DetState)
      requires Inv(g, d) && (g.curStats.Record? ==> WellFormedRecord(g.curStats.rec, 0))
      ensures var (g', d', stop) := DispatchSpec(g, d);
        (stop.None? ==> Inv(g', d')) && (stop.Some? ==> Post(g', d', stop.value))
    {
      if g.curStats.Record? && g.pkts % samplingRate == 0 {
        ScoreKeeps(g, d, g.curStats.rec);
      }
    }

    /** One iteration keeps the bookkeeping and stops only with a reason that holds. */
    lemma StepKeeps(g: Globals, d: DetState)
      requires Inv(g, d) && WellFormedSource(source) && WellFormedSniffer(sniffer)
      ensures var (g', d', stop) := StepSpec(g, d);
        (stop.None? ==> Inv(g', d')) && (stop.Some? ==> Post(g', d', stop.value))
    {
      FetchKeeps(g, d);
      DispatchKeeps(FetchSpec(g), d);
    }

    /**
     * The checks after the fetch: nothing fetched is exactly the timeout
     * exit; a skip changes nothing; off the sampling rate the run stops
     * exactly when fm+ad+count equals the trace size; a sampled record
     * joins `cur_stats_global`.
     */
    lemma GateFacts(g: Globals, d: DetState)
      requires ValidTables(d.tables) && (g.curStats.Record? ==> WellFormedRecord(g.curStats.rec, 0))
      ensures var (g', d', stop) := DispatchSpec(g, d);
        (stop == Some(Timeout) <==> g.curStats.Nothing?) &&
        (g.curStats.Nothing? || g.pkts % samplingRate != 0 || g.curStats.Foreign? ==> g' == g && d' == d) &&
        (!g.curStats.Nothing? && g.pkts % samplingRate != 0 ==>
          (stop.Some? <==> grace + g.pkts == traceSize) && stop != Some(Timeout)) &&
        (g.curStats.Record? && g.pkts % samplingRate == 0 ==> g'.stats == g.stats + [g.curStats.rec])
    {
    }

    /**
     * A sampled record whose decay counter is unknown: the KeyError stops
     * the run, the record stays in `cur_stats_global` and nothing else
     * changes.
     */
    lemma RejectFacts(g: Globals, d: DetState, rec: seq<Field>)
      requires ValidTables(d.tables) && Replayed(g.stats, g.rmse, d) && WellFormedRecord(rec, 0)
      requires DecayPos(rec[6]).None?
      ensures ScoreSpec(g, d, rec) == (g.(stats := g.stats + [rec]), d, Some(UnknownDecayCounter(rec[6])))
    {
      ScoresAreVerdicts(g.stats, g.rmse, d);
      ProcessFacts(d, rec, grace, peregrine.scorer);
    }

    /**
     * A sampled record whose decay counter is known: the detector's
     * dictionaries and history are what ApplyRecord makes of the record,
     * the appended score is the scorer's verdict on the new vector, an
     * evaluation row is added exactly when its label exists, and the run
     * goes on or stops at the end of the trace.
     */
    lemma AcceptFacts(g: Globals, d: DetState, rec: seq<Field>)
      requires ValidTables(d.tables) && Replayed(g.stats, g.rmse, d) && WellFormedRecord(rec, 0)
      requires DecayPos(rec[6]).Some?
      ensures var (g', d', stop) := ScoreSpec(g, d, rec);
        var u := ApplyRecord(d.tables, rec, 0).value;
        g'.stats == g.stats + [rec] && d'.tables == u.tables && d'.History() == d.History() + [u.features] &&
        g'.rmse == g.rmse + [peregrine.scorer(|g.rmse|, u.features)] &&
        (LabelOf(g.pkts).Some? ==>
          g'.eval == g.eval + [EvalRow(rec[..6], g'.rmse[|g.rmse|], LabelOf(g.pkts).value)]) &&
        (LabelOf(g.pkts).None? ==> g'.eval == g.eval) &&
        (stop.Some? ==> stop.value == EndOfTrace)
    {
      ScoresAreVerdicts(g.stats, g.rmse, d);
      ProcessFacts(d, rec, grace, peregrine.scorer);
    }

    /**
     * During a cold start's training no packet is counted, so every
     * evaluation row of the training window carries the label at index
     * fm+ad-1.
     */
    lemma TrainingRowsShareLabel(g: Globals, d: DetState)
      requires Books(g, d) && !trainSkip
      ensures forall i :: 0 <= i < |g.eval| && g.rowOf[i] < grace ==>
        PyIndex(labels, grace - 1) == Some(g.eval[i].truth)
    {
    }

    // ---------------------------------------------------------------
    // The loop.
    // ---------------------------------------------------------------

    /**
     * pkt_callback: counts a packet with a Peregrine header and leaves its
     * record in `cur_stats`; any other packet leaves 0.
     */
    method PktCallback(pkt: Packet)
      modifies this`curStats, this`pktCntGlobal
      ensures St() == old(St()).(curStats := Callback(pkt), pkts := old(pktCntGlobal) + Counted(Some(pkt)))
    {
      curStats := Callback(pkt);
      if pkt.peregrine.Some? {
        pktCntGlobal := pktCntGlobal + 1;
      }
    }

    /**
     * The phase decision: exact statistics, approximate statistics, or one
     * capture from the data plane.
     */
    method Fetch()
      modifies this`curStats, this`pktCntGlobal, this`extracted, this`sniffed
      ensures St() == FetchSpec(old(St()))
    {
      curStats := Nothing;
      var phase := Phase(|rmseList|);
      if phase != Execution {
        extracted := extracted + 1;
        curStats := Answered(source(extracted, Mode(phase == ExactTraining, true)));
      } else {
        var p := sniffer(sniffed);
        sniffed := sniffed + 1;
        if p.Some? {
          PktCallback(p.value);
        }
      }
    }

    /** cur_stats_global.append: the record joins the list before it is scored. */
    method Record(rec: seq<Field>)
      modifies this`curStatsGlobal
      ensures St() == old(St()).(stats := old(curStatsGlobal) + [rec])
    {
      curStatsGlobal := curStatsGlobal + [rec];
    }

    /** rmse_list.append of the newest score. */
    method AppendScore(x: real)
      modifies this`rmseList, this`cntLog
      ensures St() == Appended(old(St()), x)
    {
      rmseList := rmseList + [x];
      cntLog := cntLog + [pktCntGlobal];
    }

    /**
     * The evaluation row of the newest score; an IndexError on its label
     * drops the row and nothing else.
     */
    method Evaluate(rec: seq<Field>)
      requires |rec| >= 6 && |rmseList| >= 1
      modifies this`peregrineEval, this`rowOf
      ensures St() == Evaluated(old(St()), rec)
    {
      var k := |rmseList| - 1;
      var l := LabelOf(pktCntGlobal);
      if l.Some? {
        peregrineEval := peregrineEval + [EvalRow(rec[..6], rmseList[k], l.value)];
        rowOf := rowOf + [k];
      }
    }

    /** The highest score becomes the threshold; save_train_stats keeps the dictionaries. */
    method Calibrate()
      requires Valid() && |rmseList| >= 1
      modifies this`threshold, this`savedStats
      ensures St() == old(St()).(threshold := Max(rmseList), saved := Some(ToSnapshot(Det().tables)))
    {
      threshold := Max(rmseList);
      var snap := peregrine.SaveTrainStats();
      savedStats := Some(snap);
    }

    /**
     * The end of an iteration that produced a score: calibrate at the end
     * of a cold start's training, otherwise stop at the end of the trace.
     */
    method CalibrateOrEnd() returns (stop: Option<Exit>)
      requires Valid() && |rmseList| >= 1
      modifies this`threshold, this`savedStats
      ensures (St(), stop) == CalibrateSpec(old(St()), Det())
    {
      if !trainSkip && |rmseList| == grace {
        Calibrate();
        stop := None;
      } else if grace + pktCntGlobal >= traceSize {
        stop := Some(EndOfTrace);
      } else {
        stop := None;
      }
    }

    /** The rest of an iteration once the detector scored `rec` as `x`. */
    method Accept(rec: seq<Field>, x: real) returns (stop: Option<Exit>)
      requires Valid() && |rec| >= 6
      modifies this`rmseList, this`cntLog, this`peregrineEval, this`rowOf, this`threshold, this`savedStats
      ensures (St(), stop) == AcceptSpec(old(St()), Det(), rec, x)
    {
      AppendScore(x);
      Evaluate(rec);
      stop := CalibrateOrEnd();
    }

    /** proc_next_packet on the newest record. */
    method ProcNextPacket(rec: seq<Field>) returns (r: Result<real, StatsError>)
      requires Valid() && WellFormedRecord(rec, 0)
      modifies peregrine`trainList, peregrine`execList, peregrine.store
      ensures Valid() && (Det(), r) == Process(old(Det()), rec, grace, peregrine.scorer)
    {
      r := peregrine.ProcNextPacket(rec);
    }

    /** The rest of an iteration once proc_next_packet answered `r`. */
    method Judge(rec: seq<Field>, r: Result<real, StatsError>) returns (stop: Option<Exit>)
      requires Valid() && |rec| > 6
      modifies this`rmseList, this`cntLog, this`peregrineEval, this`rowOf, this`threshold, this`savedStats
      ensures (St(), Det(), stop) == Judged(old(St()), (Det(), r), rec)
    {
      if r.Err? {
        return Some(UnknownDecayCounter(rec[6]));
      }
      stop := Accept(rec, r.value);
    }

    /**
     * A record that passed the sampling gate: record it, hand it to
     * proc_next_packet, and finish the iteration on its answer.
     */
    method Score(rec: seq<Field>) returns (stop: Option<Exit>)
      requires Valid() && WellFormedRecord(rec, 0)
      modifies this`curStatsGlobal, this`rmseList, this`cntLog, this`peregrineEval, this`rowOf
      modifies this`threshold, this`savedStats, peregrine`trainList, peregrine`execList, peregrine.store
      ensures Valid() && (St(), Det(), stop) == ScoreSpec(old(St()), old(Det()), rec)
    {
      Record(rec);
      var r := ProcNextPacket(rec);
      stop := Judge(rec, r);
    }

    /**
     * The checks of one iteration after the fetch: the timeout check, the
     * sampling gate with its end-of-trace check, the skip of a capture
     * without statistics, then scoring.
     */
    method Dispatch() returns (stop: Option<Exit>)
      requires Valid() && (curStats.Record? ==> WellFormedRecord(curStats.rec, 0))
      modifies this`curStatsGlobal, this`rmseList, this`cntLog, this`peregrineEval, this`rowOf
      modifies this`threshold, this`savedStats, peregrine`trainList, peregrine`execList, peregrine.store
      ensures Valid() && (St(), Det(), stop) == DispatchSpec(old(St()), old(Det()))
    {
      if curStats.Nothing? {
        return Some(Timeout);
      }
      if pktCntGlobal % samplingRate != 0 {
        if grace + pktCntGlobal == traceSize {
          return Some(EndOfTrace);
        }
        return None;
      }
      if curStats.Foreign? {
        return None;
      }
      stop := Score(curStats.rec);
    }

    /** One iteration of pkt_pipeline's loop. */
    method Step() returns (stop: Option<Exit>)
      requires Valid() && WellFormedSource(source) && WellFormedSniffer(sniffer)
      modifies this`curStats, this`pktCntGlobal, this`extracted, this`sniffed
      modifies this`curStatsGlobal, this`rmseList, this`cntLog, this`peregrineEval, this`rowOf
      modifies this`threshold, this`savedStats, peregrine`trainList, peregrine`execList, peregrine.store
      ensures Valid() && (St(), Det(), stop) == StepSpec(old(St()), old(Det()))
    {
      Fetch();
      stop := Dispatch();
    }

    /**
     * pkt_pipeline's loop, for at most `fuel` iterations; it returns
     * rmse_list, cur_stats_global, peregrine_eval, the threshold and the
     * warm-start flag.
     */
    method Run(fuel: nat) returns (rmse: seq<real>, stats: seq<seq<Field>>, eval: seq<EvalRow>,
                                   thr: real, skip: bool, exit: Exit)
      requires Valid() && Inv(St(), Det()) && WellFormedSource(source) && WellFormedSniffer(sniffer)
      modifies this`curStats, this`pktCntGlobal, this`extracted, this`sniffed
      modifies this`curStatsGlobal, this`rmseList, this`cntLog, this`peregrineEval, this`rowOf
      modifies this`threshold, this`savedStats, peregrine`trainList, peregrine`execList, peregrine.store
      ensures Valid() && Post(St(), Det(), exit)
      ensures rmse == rmseList && stats == curStatsGlobal && eval == peregrineEval
      ensures thr == threshold && skip == trainSkip
    {
      exit := FuelSpent;
      var n := 0;
      while n < fuel
        invariant Valid() && Inv(St(), Det())
      {
        StepKeeps(St(), Det());
        var stop := Step();
        if stop.Some? {
          exit := stop.value;
          break;
        }
        n := n + 1;
      }
      rmse, stats, eval, thr, skip := rmseList, curStatsGlobal, peregrineEval, threshold, trainSkip;
    }
  }
}
