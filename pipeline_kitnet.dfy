// The offline pipeline (PipelineKitNET): per-packet driver loop over a
// trace, with exact and approximate training phases, execution-phase
// sampling, one-shot threshold calibration and attack-detection timing.
module KitnetPipeline {
  import opened Values
  import opened Decay
  import opened FlowStats
  import opened Driver

  datatype KitnetConfig = KitnetConfig(
    fmGrace: nat,
    adGrace: nat,
    sampl: nat,             // execution-phase sampling rate
    trainSampl: bool,       // sample the training phase as well
    execSamplOffset: int,   // label offset of the execution phase
    trainExactRatio: real,  // share of the training phase with exact statistics
    exactStats: bool)       // exact statistics after the first training share

  /** The four saved-model file names a run may be given. */
  datatype ModelFiles = ModelFiles(
    featureMap: Option<string>, ensembleLayer: Option<string>,
    outputLayer: Option<string>, trainStats: Option<string>)

  predicate Present(f: Option<string>, existing: set<string>)
  {
    f.Some? && f.value in existing
  }

  /** A warm start needs all four names given and all four files existing. */
  predicate WarmStart(files: ModelFiles, existing: set<string>)
  {
    Present(files.featureMap, existing) && Present(files.ensembleLayer, existing) &&
    Present(files.outputLayer, existing) && Present(files.trainStats, existing)
  }

  /** Why process() stopped. */
  datatype Exit =
    | EndOfTrace                       // the trace size was reached
    | Timeout                          // the feature calculator had no statistics
    | AttackInTraining                 // an attack label inside the training window
    | LabelOutOfRange(index: int)      // IndexError on a ground-truth lookup
    | UnknownDecayCounter(counter: Field) // KeyError in the decay table

  /** An offline record: a finite timestamp, then the common record layout. */
  predicate KitnetRecord(rec: seq<Field>)
  {
    WellFormedRecord(rec, 1) && rec[0].Number? && rec[0].v.Num?
  }

  /** The offline feature calculator only produces well-formed records. */
  ghost predicate WellFormedSource(source: FeatureSource)
  {
    forall i, m :: source(i, m).Stats? ==> KitnetRecord(source(i, m).rec)
  }

  /** A scored packet: slots used before it, execution counter, phase. */
  datatype ScoreEvent = ScoreEvent(pos: nat, cnt: nat, phase: Phase)

  /** The fields of a run that process() updates, as one value. */
  datatype RunState = RunState(
    extracted: nat,
    rmseList: seq<real>, trainSkipPkt: nat, pktCntGlobal: nat,
    peregrineEval: seq<EvalRow>, threshold: real, savedStats: Option<Snapshot>,
    attackInitTs: real, attackPktNumCntr: int, attackPktNumCntrDp: int,
    detInitTime: real, detInitPktNum: int, detInitPktNumDp: int,
    log: seq<ScoreEvent>, calibrations: nat, calLen: nat,
    detected: bool, frozen: bool, dpSeen: nat)
  {
    /** Training slots used so far: scores plus skipped packets. */
    function Slots(): nat
    {
      |rmseList| + trainSkipPkt
    }
  }

  /** The state right after construction. */
  const Initial: RunState :=
    RunState(0, [], 0, 0, [], 0.0, None, 0.0, 0, 0, -1.0, -1, -1, [], 0, 0, false, false, 0)

  /** The state with the attack-timing fields blanked out. */
  function Untimed(s: RunState): RunState
  {
    s.(attackInitTs := 0.0, attackPktNumCntr := 0, attackPktNumCntrDp := 0,
       detInitTime := 0.0, detInitPktNum := 0, detInitPktNumDp := 0,
       detected := false, frozen := false)
  }

  /** Each score is the scorer's verdict on the feature vector at its position. */
  ghost predicate Verdicts(scorer: Scorer, rmse: seq<real>, vs: seq<seq<real>>)
  {
    |rmse| == |vs| && forall i :: 0 <= i < |rmse| ==> rmse[i] == scorer(i, vs[i])
  }

  /** Scoring one more vector in the next position keeps the scores the scorer's verdicts. */
  lemma VerdictsSnoc(scorer: Scorer, rmse: seq<real>, vs: seq<seq<real>>, x: seq<real>)
    requires Verdicts(scorer, rmse, vs)
    ensures Verdicts(scorer, rmse + [scorer(|rmse|, x)], vs + [x])
  {
    var rmse', vs' := rmse + [scorer(|rmse|, x)], vs + [x];
    forall i | 0 <= i < |rmse'| ensures rmse'[i] == scorer(i, vs'[i]) {
      if i < |rmse| {
        assert rmse'[i] == rmse[i] && vs'[i] == vs[i];
      }
    }
  }

  /** What the first half of a loop iteration leads to. */
  datatype Fetched =
    | Skipped                          // the slot was used up without a score
    | Stopped(exit: Exit)              // the run ends
    | Got(rec: seq<Field>, n: nat)     // a record to score in slot n

  class PipelineKitNet {
    const config: KitnetConfig
    const trainGrace: nat
    const exactBound: real             // slots trained on exact statistics
    const trainSkip: bool
    const labels: seq<int>
    const traceSize: int
    const source: FeatureSource
    const scorer: Scorer
    const store: FlowStatsStore
    ghost const start: Tables          // the dictionaries as the run started with them

    var extracted: nat                 // packets the feature calculator was advanced over
    var rmseList: seq<real>
    var trainSkipPkt: nat
    var pktCntGlobal: nat
    var peregrineEval: seq<EvalRow>
    var threshold: real
    var savedStats: Option<Snapshot>   // the four dictionaries written by save_train_stats
    var attackInitTs: real
    var attackPktNumCntr: int
    var attackPktNumCntrDp: int
    var detInitTime: real
    var detInitPktNum: int
    var detInitPktNumDp: int

    ghost var log: seq<ScoreEvent>     // one event per score, in order
    ghost var calibrations: nat        // how often the threshold was calibrated
    ghost var calLen: nat              // scores present at calibration
    ghost var detected: bool           // the detection latency was recorded
    ghost var frozen: bool             // ... with a non-zero attack start time
    ghost var dpSeen: nat              // execution packets whose label reached the data-plane counter
    ghost var fed: seq<seq<Field>>     // the records whose scores are in rmse_list, in order

    predicate Valid()
      reads store
    {
      store.Valid() && trainGrace == config.fmGrace + config.adGrace
    }

    /** The fields process() updates, as one value. */
    ghost function St(): RunState
      reads this`extracted, this`rmseList, this`trainSkipPkt, this`pktCntGlobal
      reads this`peregrineEval, this`threshold, this`savedStats
      reads this`attackInitTs, this`attackPktNumCntr, this`attackPktNumCntrDp
      reads this`detInitTime, this`detInitPktNum, this`detInitPktNumDp
      reads this`log, this`calibrations, this`calLen, this`detected, this`frozen, this`dpSeen
    {
      RunState(extracted, rmseList, trainSkipPkt, pktCntGlobal, peregrineEval, threshold, savedStats,
        attackInitTs, attackPktNumCntr, attackPktNumCntrDp, detInitTime, detInitPktNum, detInitPktNumDp,
        log, calibrations, calLen, detected, frozen, dpSeen)
    }

    constructor (config: KitnetConfig, labels: seq<int>, files: ModelFiles, existing: set<string>,
                 saved: Snapshot, traceSize: int, source: FeatureSource, scorer: Scorer)
      requires WarmStart(files, existing) ==>
        FromSnapshot(saved).Some? && ValidTables(FromSnapshot(saved).value)
      ensures this.config == config && this.labels == labels && this.traceSize == traceSize
      ensures this.source == source && this.scorer == scorer
      ensures exactBound == config.trainExactRatio * (trainGrace as real)
      ensures trainSkip == WarmStart(files, existing)
      ensures trainSkip ==> Some(store.Contents()) == FromSnapshot(saved)
      ensures !trainSkip ==> store.Contents() == EmptyTables
      ensures Valid() && St() == Initial && fresh(store)
      ensures start == store.Contents() && fed == []
    {
      this.config := config;
      this.trainGrace := config.fmGrace + config.adGrace;
      this.exactBound := config.trainExactRatio * ((config.fmGrace + config.adGrace) as real);
      this.labels := labels;
      this.traceSize := traceSize;
      this.source := source;
      this.scorer := scorer;
      attackInitTs, attackPktNumCntr, attackPktNumCntrDp := 0.0, 0, 0;
      detInitTime, detInitPktNum, detInitPktNumDp := -1.0, -1, -1;
      rmseList, peregrineEval := [], [];
      threshold, pktCntGlobal, trainSkipPkt, extracted := 0.0, 0, 0, 0;
      savedStats := None;
      log, calibrations, calLen, detected, frozen, dpSeen := [], 0, 0, false, false, 0;
      var warm := WarmStart(files, existing);
      this.trainSkip := warm;
      var st;
      if warm {
        st := new FlowStatsStore.Restore(saved);
      } else {
        st := new FlowStatsStore();
      }
      store := st;
      start := st.Contents();
      fed := [];
    }

    function Phase(n: nat): Phase
    {
      PhaseOf(n, trainGrace, exactBound, trainSkip)
    }

    function Label(i: int): Option<int>
    {
      PyIndex(labels, i)
    }

    /** Execution packets still allowed, once `cnt` have been counted, before the trace size is passed. */
    function ExecLeft(cnt: nat): nat
    {
      var used := trainGrace + cnt + config.execSamplOffset;
      if used <= traceSize then traceSize - used + 1 else 0
    }

    /** The measure of process(): training slots to go, then execution packets to go. */
    ghost predicate Below(a: RunState, b: RunState)
    {
      var ta := TrainingLeft(a.Slots(), trainGrace, exactBound, trainSkip);
      var tb := TrainingLeft(b.Slots(), trainGrace, exactBound, trainSkip);
      ta < tb || (ta == tb && ExecLeft(a.pktCntGlobal) < ExecLeft(b.pktCntGlobal))
    }

    // ---------------------------------------------------------------------
    // Invariants of process()

    /** What every scored packet satisfies. */
    ghost predicate ScoredOk(e: ScoreEvent)
      requires config.sampl >= 1
    {
      e.phase == Phase(e.pos) &&
      trainGrace + e.cnt + config.execSamplOffset <= traceSize &&
      (e.phase == Execution ==> e.cnt >= 1 && e.cnt % config.sampl == 0) &&
      (e.phase != Execution ==> e.cnt == 0 && (config.trainSampl ==> (e.pos + 1) % config.sampl == 0))
    }

    /** Every score passed the gates, in strictly increasing slot order. */
    ghost predicate ScoresOk(events: seq<ScoreEvent>)
      requires config.sampl >= 1
    {
      (forall j :: 0 <= j < |events| ==> ScoredOk(events[j])) &&
      (forall i, j :: 0 <= i < j < |events| ==> events[i].pos < events[j].pos)
    }

    /** A score past every earlier one keeps the log in order. */
    lemma ScoresAppend(events: seq<ScoreEvent>, e: ScoreEvent)
      requires config.sampl >= 1
      requires ScoresOk(events) && ScoredOk(e)
      requires |events| > 0 ==> events[|events| - 1].pos < e.pos
      ensures ScoresOk(events + [e])
    {
      var es := events + [e];
      forall i, j | 0 <= i < j < |es|
        ensures es[i].pos < es[j].pos
      {
        if j == |events| && i < |events| - 1 {
          assert events[i].pos < events[|events| - 1].pos;
        }
      }
    }

    /** The scores and the counters agree with the log of scored packets. */
    ghost predicate LogInv(s: RunState)
      requires config.sampl >= 1
    {
      |s.log| == |s.rmseList| && ScoresOk(s.log) &&
      (|s.log| > 0 ==> s.log[|s.log| - 1].pos < s.Slots()) &&
      (s.pktCntGlobal > 0 ==> Phase(s.Slots()) == Execution) &&
      |s.peregrineEval| <= |s.rmseList|
    }

    /**
     * Calibration: at most once, on a cold start only, at the score that
     * completed the training window, to the maximum score up to there; the
     * label offset switches to the execution offset with it.
     */
    ghost predicate CalInv(s: RunState, offset: int)
    {
      s.calibrations <= 1 &&
      offset == (if trainSkip || s.calibrations == 1 then config.execSamplOffset else 0) &&
      (s.calibrations == 1 ==>
        !trainSkip && 1 <= s.calLen <= |s.rmseList| && s.calLen <= |s.log| &&
        s.log[s.calLen - 1].pos + 1 == trainGrace && s.Slots() >= trainGrace &&
        s.threshold == Max(s.rmseList[..s.calLen]) && s.savedStats.Some?) &&
      (s.calibrations == 0 ==> s.threshold == 0.0 && s.savedStats == None)
    }

    /**
     * Detection bookkeeping. A detection freezes the counters at -1 only if
     * the attack start time is non-zero by then: a start time of exactly 0
     * lets the attack-start branch run again and re-arm the counters.
     */
    ghost predicate DetInv(s: RunState, offset: int)
    {
      s.attackPktNumCntr >= -1 && s.attackPktNumCntrDp >= -1 &&
      (!s.detected ==>
        s.attackPktNumCntr >= 0 &&
        s.detInitTime == -1.0 && s.detInitPktNum == -1 && s.detInitPktNumDp == -1 &&
        (s.attackInitTs != 0.0 ==> s.attackPktNumCntr >= 1) &&
        s.attackPktNumCntrDp == CountAttacks(labels, trainGrace + offset, s.dpSeen)) &&
      (s.frozen ==>
        s.detected && s.attackInitTs != 0.0 && s.attackPktNumCntr == -1 && s.attackPktNumCntrDp == -1)
    }

    /** The first k scores passed the training-window attack check. */
    ghost predicate TrainChecked(events: seq<ScoreEvent>, k: nat)
      requires k <= |events|
    {
      forall j :: 0 <= j < k && j + 1 < trainGrace ==> Label(events[j].pos) != Some(1)
    }

    /** Before calibration, none of the first k scores completed the training window. */
    ghost predicate WindowUnmatched(s: RunState, k: nat)
      requires k <= |s.log|
    {
      s.calibrations == 0 && !trainSkip ==>
        forall j :: 0 <= j < k ==> s.log[j].pos + 1 != trainGrace
    }

    /**
     * What holds when process() stops with `exit` (or, for None, between two
     * packets), apart from the attack-timing bookkeeping.
     */
    ghost predicate Core(s: RunState, offset: int, exit: Option<Exit>)
      requires config.sampl >= 1
    {
      LogInv(s) && CalInv(s, offset) &&
      (exit != Some(AttackInTraining) ==> TrainChecked(s.log, |s.log|)) &&
      (exit == Some(AttackInTraining) ==>
        0 < |s.log| < trainGrace && Label(s.log[|s.log| - 1].pos) == Some(1)) &&
      (exit.None? || exit == Some(EndOfTrace) || exit == Some(Timeout) ==>
        WindowUnmatched(s, |s.log|)) &&
      (exit == Some(EndOfTrace) ==>
        trainGrace + s.pktCntGlobal + config.execSamplOffset >= traceSize)
    }

    /** What holds when process() stops with `exit`. */
    ghost predicate Post(s: RunState, offset: int, exit: Option<Exit>)
      requires config.sampl >= 1
    {
      Core(s, offset, exit) && DetInv(s, offset)
    }

    /** The loop invariant of process(): what holds between two packets. */
    ghost predicate Between(s: RunState, offset: int)
      requires config.sampl >= 1
    {
      Post(s, offset, None) && s.dpSeen == s.pktCntGlobal
    }

    /** Stopping between two packets keeps what held there. */
    lemma StopKeeps(s: RunState, offset: int, e: Exit)
      requires config.sampl >= 1 && !e.AttackInTraining?
      requires e.EndOfTrace? ==> trainGrace + s.pktCntGlobal + config.execSamplOffset >= traceSize
      ensures Post(s, offset, None) ==> Post(s, offset, Some(e))
    {
    }

    /** The run starts between two packets, with the offset process() starts with. */
    lemma StartBetween()
      requires config.sampl >= 1
      ensures Between(Initial, if !trainSkip then 0 else config.execSamplOffset)
    {
    }

    // ---------------------------------------------------------------------
    // The first half of an iteration: phase, sampling, counters, statistics

    /** The run has passed the trace size once `cnt` execution packets are counted. */
    function PastEnd(cnt: nat): bool
    {
      trainGrace + cnt + config.execSamplOffset > traceSize
    }

    /** The ground-truth row of the cnt-th execution packet. */
    function LabelIndex(offset: int, cnt: nat): int
    {
      trainGrace + offset + cnt - 1
    }

    /** The feature calculator advances over one packet. */
    ghost function Advance(s: RunState): RunState
    {
      s.(extracted := s.extracted + 1)
    }

    /** A slot is used up without a score. */
    ghost function SkipSlot(s: RunState): RunState
    {
      s.(trainSkipPkt := s.trainSkipPkt + 1)
    }

    /** One more execution packet is counted. */
    ghost function CountPacket(s: RunState): RunState
    {
      s.(pktCntGlobal := s.pktCntGlobal + 1)
    }

    /**
     * The data-plane attack counter sees the label at row `at`: while it is
     * not frozen, an attack label adds one.
     */
    ghost function DataPlane(s: RunState, at: int): RunState
    {
      var dp := if s.attackPktNumCntrDp != -1 && Label(at) == Some(1)
        then s.attackPktNumCntrDp + 1 else s.attackPktNumCntrDp;
      s.(attackPktNumCntrDp := dp, dpSeen := s.pktCntGlobal)
    }

    /** The feature calculator's answer, and what it does to the slot counters. */
    ghost function Answer(s: RunState, cur: SourceResult, n: nat): (RunState, Fetched)
    {
      match cur
      case NoStats => (s, Stopped(Timeout))
      case NotApplicable => (SkipSlot(s), Skipped)
      case Stats(rec) => (s, Got(rec, n))
    }

    /**
     * The first half of one iteration of process(): the phase decision,
     * training-phase sampling, the execution counter with its end-of-trace
     * check and data-plane attack counter, and the feature calculator call.
     */
    ghost function FetchSpec(s: RunState, offset: int): (RunState, Fetched)
      requires config.sampl >= 1
    {
      if Phase(s.Slots()) != Execution then TrainFetch(s)
      else
        var s1 := CountPacket(s);
        if PastEnd(s1.pktCntGlobal) then (s1, Stopped(EndOfTrace)) else ExecFetch(s1, offset, s.Slots())
    }

    /** A training slot: the feature calculator advances, then the sampling skip or the statistics. */
    ghost function TrainFetch(s: RunState): (RunState, Fetched)
      requires config.sampl >= 1
    {
      var n := s.Slots();
      var s1 := Advance(s);
      if config.trainSampl && (n + 1) % config.sampl != 0 then
        (SkipSlot(s1), Skipped)
      else
        var exact := Phase(n) == ExactTraining || config.exactStats;
        Answer(s1, source(s1.extracted, Mode(exact, true)), n)
    }

    /**
     * An execution packet counted within the trace size: the feature
     * calculator advances, the data-plane attack counter sees its label, and
     * the calculator is asked for its statistics.
     */
    ghost function ExecFetch(s: RunState, offset: int, n: nat): (RunState, Fetched)
    {
      var s1 := Advance(s);
      var at := LabelIndex(offset, s1.pktCntGlobal);
      if s1.attackPktNumCntrDp != -1 && Label(at).None? then
        (s1, Stopped(LabelOutOfRange(at)))
      else
        var s2 := DataPlane(s1, at);
        Answer(s2, source(s2.extracted, Mode(config.exactStats, false)), n)
    }

    /** Hands on the feature calculator's answer for slot n. */
    method Answered(cur: SourceResult, n: nat) returns (f: Fetched)
      modifies this`trainSkipPkt
      ensures (St(), f) == Answer(old(St()), cur, n)
    {
      match cur
      case NoStats =>
        f := Stopped(Timeout);
      case NotApplicable =>
        // Not an IPv4 packet: the slot is used up without a score.
        trainSkipPkt := trainSkipPkt + 1;
        f := Skipped;
      case Stats(rec) =>
        f := Got(rec, n);
    }

    method FetchCounted(offset: int, n: nat) returns (f: Fetched)
      modifies this`extracted, this`trainSkipPkt, this`attackPktNumCntrDp, this`dpSeen
      ensures (St(), f) == ExecFetch(old(St()), offset, n)
    {
      extracted := extracted + 1;
      var at := LabelIndex(offset, pktCntGlobal);
      if attackPktNumCntrDp != -1 {
        var l := Label(at);
        if l.None? {
          return Stopped(LabelOutOfRange(at));
        }
        if l.value == 1 {
          attackPktNumCntrDp := attackPktNumCntrDp + 1;
        }
      }
      dpSeen := pktCntGlobal;
      f := Answered(source(extracted, Mode(config.exactStats, false)), n);
    }

    method Fetch(offset: int) returns (f: Fetched)
      requires config.sampl >= 1
      modifies this`extracted, this`trainSkipPkt, this`pktCntGlobal
      modifies this`attackPktNumCntrDp, this`dpSeen
      ensures (St(), f) == FetchSpec(old(St()), offset)
    {
      var n := |rmseList| + trainSkipPkt;
      if Phase(n) != Execution {
        extracted := extracted + 1;
        if config.trainSampl && (n + 1) % config.sampl != 0 {
          trainSkipPkt := trainSkipPkt + 1;
          return Skipped;
        }
        var exact := Phase(n) == ExactTraining || config.exactStats;
        f := Answered(source(extracted, Mode(exact, true)), n);
      } else {
        pktCntGlobal := pktCntGlobal + 1;
        if PastEnd(pktCntGlobal) {
          return Stopped(EndOfTrace);
        }
        f := FetchCounted(offset, n);
      }
    }

    /** Advancing the feature calculator changes nothing the invariants are about. */
    lemma AdvanceKeeps(s: RunState, offset: int)
      requires config.sampl >= 1
      ensures Post(s, offset, None) ==> Post(Advance(s), offset, None)
      ensures Between(s, offset) ==> Between(Advance(s), offset)
    {
      if Post(s, offset, None) {
        assert WindowUnmatched(Advance(s), |s.log|) by {
          assert WindowUnmatched(s, |s.log|);
        }
      }
    }

    /** A slot used up without a score keeps the invariant. */
    lemma SkipKeeps(s: RunState, offset: int)
      requires config.sampl >= 1
      ensures Between(s, offset) ==> Between(SkipSlot(s), offset)
      ensures SkipSlot(s).Slots() == s.Slots() + 1
    {
      if Between(s, offset) {
        PhaseMonotone(s.Slots(), s.Slots() + 1, trainGrace, exactBound, trainSkip);
        assert WindowUnmatched(SkipSlot(s), |s.log|) by {
          assert WindowUnmatched(s, |s.log|);
        }
      }
    }

    /** Counting an execution packet keeps everything but the data-plane bookkeeping. */
    lemma CountKeeps(s: RunState, offset: int)
      requires config.sampl >= 1 && Phase(s.Slots()) == Execution
      ensures Between(s, offset) ==> Post(CountPacket(s), offset, None)
      ensures Between(s, offset) && PastEnd(s.pktCntGlobal + 1) ==>
        Post(CountPacket(s), offset, Some(EndOfTrace))
    {
      if Between(s, offset) {
        var s' := CountPacket(s);
        assert WindowUnmatched(s', |s'.log|) by {
          assert WindowUnmatched(s, |s.log|);
        }
        assert TrainChecked(s'.log, |s'.log|) by {
          assert TrainChecked(s.log, |s.log|);
        }
      }
    }

    /**
     * The data-plane attack counter and the execution counter move together:
     * the counter counts the attack labels of every execution packet seen.
     */
    lemma DataPlaneKeeps(s: RunState, offset: int, at: int)
      requires config.sampl >= 1 && s.dpSeen + 1 == s.pktCntGlobal
      requires at == LabelIndex(offset, s.pktCntGlobal)
      requires s.attackPktNumCntrDp != -1 ==> Label(at).Some?
      ensures Post(s, offset, None) ==> Between(DataPlane(s, at), offset)
    {
      if Post(s, offset, None) {
        var s' := DataPlane(s, at);
        assert WindowUnmatched(s', |s'.log|) by {
          assert WindowUnmatched(s, |s.log|);
        }
        assert TrainChecked(s'.log, |s'.log|) by {
          assert TrainChecked(s.log, |s.log|);
        }
      }
    }

    /** What the feature calculator's answer leads to, from a state between two packets. */
    lemma AnswerKeeps(s: RunState, cur: SourceResult, n: nat, offset: int)
      requires config.sampl >= 1 && WellFormedSource(source)
      requires cur.Stats? ==> KitnetRecord(cur.rec)
      ensures var r := Answer(s, cur, n);
        r.1.Skipped? ==> (Between(s, offset) ==> (Between(r.0, offset) == true)) && r.0.Slots() == s.Slots() + 1
      ensures var r := Answer(s, cur, n);
        r.1.Stopped? ==> r.1.exit == Timeout && (Between(s, offset) ==> (Post(r.0, offset, Some(Timeout)) == true))
      ensures var r := Answer(s, cur, n);
        r.1.Got? ==> r.0 == s && r.1.n == n && KitnetRecord(r.1.rec)
    {
      match cur
      case NoStats => StopKeeps(s, offset, Timeout);
      case NotApplicable => SkipKeeps(s, offset);
      case Stats(_) =>
    }

    /** The first half of an iteration in a training phase. */
    lemma FetchTrainKeeps(s: RunState, offset: int)
      requires config.sampl >= 1 && WellFormedSource(source) && Between(s, offset)
      requires Phase(s.Slots()) != Execution
      ensures var r := TrainFetch(s);
        r.1.Skipped? ==> (Between(r.0, offset) == true) && Below(r.0, s)
      ensures var r := TrainFetch(s);
        r.1.Stopped? ==> r.1.exit == Timeout && (Post(r.0, offset, Some(Timeout)) == true)
      ensures var r := TrainFetch(s);
        r.1.Got? ==>
          (Between(r.0, offset) == true) && (KitnetRecord(r.1.rec) == true) && r.1.n == r.0.Slots() == s.Slots() &&
          r.0.pktCntGlobal == 0 && (config.trainSampl ==> (r.1.n + 1) % config.sampl == 0)
    {
      var n := s.Slots();
      var s1 := Advance(s);
      AdvanceKeeps(s, offset);
      TrainingLeftStep(n, n + 1, trainGrace, exactBound, trainSkip);
      if config.trainSampl && (n + 1) % config.sampl != 0 {
        SkipKeeps(s1, offset);
      } else {
        var exact := Phase(n) == ExactTraining || config.exactStats;
        AnswerKeeps(s1, source(s1.extracted, Mode(exact, true)), n, offset);
      }
    }

    /** An execution packet counted within the trace size keeps the invariant. */
    lemma ExecFetchKeeps(s: RunState, offset: int, n: nat)
      requires config.sampl >= 1 && WellFormedSource(source)
      requires Post(s, offset, None) && s.dpSeen + 1 == s.pktCntGlobal
      ensures var r := ExecFetch(s, offset, n);
        r.1.Skipped? ==> (Between(r.0, offset) == true) && r.0.Slots() == s.Slots() + 1
      ensures var r := ExecFetch(s, offset, n);
        r.1.Stopped? ==> (Post(r.0, offset, Some(r.1.exit)) == true) && (r.1.exit.LabelOutOfRange? || r.1.exit.Timeout?)
      ensures var r := ExecFetch(s, offset, n);
        r.1.Got? ==>
          (Between(r.0, offset) == true) && KitnetRecord(r.1.rec) && r.1.n == n &&
          r.0.Slots() == s.Slots() && r.0.pktCntGlobal == s.pktCntGlobal
    {
      var s1 := Advance(s);
      AdvanceKeeps(s, offset);
      var at := LabelIndex(offset, s1.pktCntGlobal);
      if s1.attackPktNumCntrDp != -1 && Label(at).None? {
        StopKeeps(s1, offset, LabelOutOfRange(at));
      } else {
        var s2 := DataPlane(s1, at);
        DataPlaneKeeps(s1, offset, at);
        AnswerKeeps(s2, source(s2.extracted, Mode(config.exactStats, false)), n, offset);
      }
    }

    /** The first half of an iteration in the execution phase. */
    lemma FetchExecKeeps(s: RunState, offset: int)
      requires config.sampl >= 1 && WellFormedSource(source) && Between(s, offset)
      requires Phase(s.Slots()) == Execution
      ensures var r := FetchSpec(s, offset);
        r.1.Skipped? ==> (Between(r.0, offset) == true) && Below(r.0, s)
      ensures var r := FetchSpec(s, offset);
        r.1.Stopped? ==>
          (Post(r.0, offset, Some(r.1.exit)) == true) &&
          (r.1.exit.EndOfTrace? || r.1.exit.LabelOutOfRange? || r.1.exit.Timeout?)
      ensures var r := FetchSpec(s, offset);
        r.1.Got? ==>
          (Between(r.0, offset) == true) && KitnetRecord(r.1.rec) && r.1.n == r.0.Slots() == s.Slots() &&
          r.0.pktCntGlobal == s.pktCntGlobal + 1 && !PastEnd(r.0.pktCntGlobal) &&
          ExecLeft(r.0.pktCntGlobal) < ExecLeft(s.pktCntGlobal)
    {
      var n := s.Slots();
      CountKeeps(s, offset);
      if !PastEnd(s.pktCntGlobal + 1) {
        ExecFetchKeeps(CountPacket(s), offset, n);
        PhaseMonotone(n, n + 1, trainGrace, exactBound, trainSkip);
      }
    }

    /**
     * The first half of an iteration keeps the invariant: a skipped slot
     * brings the run closer to its end, a stop leaves the state the run ends
     * in, and a record to score comes with the gates it has passed.
     */
    lemma FetchKeeps(s: RunState, offset: int)
      requires config.sampl >= 1 && WellFormedSource(source) && Between(s, offset)
      ensures var r := FetchSpec(s, offset);
        r.1.Skipped? ==> (Between(r.0, offset) == true) && Below(r.0, s)
      ensures var r := FetchSpec(s, offset);
        r.1.Stopped? ==>
          (Post(r.0, offset, Some(r.1.exit)) == true) &&
          (r.1.exit.EndOfTrace? || r.1.exit.LabelOutOfRange? || r.1.exit.Timeout?)
      ensures var r := FetchSpec(s, offset);
        r.1.Got? ==>
          (Between(r.0, offset) == true) && KitnetRecord(r.1.rec) && r.1.n == r.0.Slots() == s.Slots() &&
          (Phase(r.1.n) == Execution ==>
            r.0.pktCntGlobal == s.pktCntGlobal + 1 && !PastEnd(r.0.pktCntGlobal) &&
            ExecLeft(r.0.pktCntGlobal) < ExecLeft(s.pktCntGlobal)) &&
          (Phase(r.1.n) != Execution ==>
            r.0.pktCntGlobal == 0 && (config.trainSampl ==> (r.1.n + 1) % config.sampl == 0))
    {
      if Phase(s.Slots()) != Execution {
        FetchTrainKeeps(s, offset);
      } else {
        FetchExecKeeps(s, offset);
      }
    }

    // ---------------------------------------------------------------------
    // The second half of an iteration: gates, scoring, attack timing,
    // evaluation, calibration

    /**
     * The training-window attack check on the packet just scored, with
     * `scores` scores (itself included) and `skipped` skipped slots: while
     * fewer than train_grace scores exist, an attack label stops the run.
     */
    function TrainCheck(scores: nat, skipped: nat): Option<Exit>
    {
      if scores < trainGrace then
        match Label(scores + skipped - 1)
        case None => Some(LabelOutOfRange(scores + skipped - 1))
        case Some(l) => if l == 1 then Some(AttackInTraining) else None
      else None
    }

    /** The score of the packet in slot e.pos is recorded. */
    ghost function Appended(s: RunState, e: ScoreEvent, rmse: real): RunState
    {
      s.(log := s.log + [e], rmseList := s.rmseList + [rmse])
    }

    /** The first attack-labelled packet starts the attack clock and the packet counter. */
    ghost function AttackStart(s: RunState, ts: real, at: int): RunState
    {
      if s.attackInitTs == 0.0 && Label(at) == Some(1)
      then s.(attackInitTs := ts, attackPktNumCntr := s.attackPktNumCntr + 1)
      else s
    }

    /** The score is above the threshold (both truncated to integers) and detection is armed. */
    function Alarm(rmse: real, threshold: real, cntr: int): bool
    {
      Trunc(rmse) > Trunc(threshold) && cntr != -1
    }

    /** An alarm on an attack-labelled packet records the detection latency and freezes both counters. */
    ghost function Detection(s: RunState, ts: real, rmse: real, at: int): RunState
    {
      if Alarm(rmse, s.threshold, s.attackPktNumCntr) && Label(at) == Some(1) then Detected(s, ts) else s
    }

    /** The detection latency recorded at time ts, with both counters frozen at -1. */
    ghost function Detected(s: RunState, ts: real): RunState
    {
      s.(detInitTime := ts - s.attackInitTs, detInitPktNum := s.attackPktNumCntr,
         detInitPktNumDp := s.attackPktNumCntrDp, attackPktNumCntr := -1, attackPktNumCntrDp := -1,
         detected := true, frozen := s.attackInitTs != 0.0)
    }

    /** While detection is armed, an attack-labelled packet adds one to the packet counter. */
    ghost function AttackCount(s: RunState, at: int): RunState
    {
      if s.attackPktNumCntr != -1 && Label(at) == Some(1)
      then s.(attackPktNumCntr := s.attackPktNumCntr + 1)
      else s
    }

    /**
     * Attack timing for a scored packet whose label sits at row `at`; each of
     * the three label lookups may raise an IndexError.
     */
    ghost function TimingSpec(s: RunState, ts: real, rmse: real, at: int): (RunState, Option<Exit>)
    {
      if s.attackInitTs == 0.0 && Label(at).None? then (s, Some(LabelOutOfRange(at)))
      else
        var s1 := AttackStart(s, ts, at);
        if Alarm(rmse, s1.threshold, s1.attackPktNumCntr) && Label(at).None? then
          (s1, Some(LabelOutOfRange(at)))
        else
          var s2 := Detection(s1, ts, rmse, at);
          if s2.attackPktNumCntr != -1 && Label(at).None? then (s2, Some(LabelOutOfRange(at)))
          else (AttackCount(s2, at), None)
    }

    /** The evaluation row, dropped when its label lookup raises an IndexError. */
    ghost function Evaluated(s: RunState, rec: seq<Field>, rmse: real, at: int): RunState
      requires |rec| >= 7
    {
      if Label(at).Some?
      then s.(peregrineEval := s.peregrineEval + [EvalRow(rec[1..7], rmse, Label(at).value)])
      else s
    }

    /** The threshold becomes the highest score so far and the statistics are saved. */
    ghost function Calibrated(s: RunState, t: Tables): RunState
      requires |s.rmseList| > 0
    {
      s.(threshold := Max(s.rmseList), savedStats := Some(ToSnapshot(t)),
         calibrations := s.calibrations + 1, calLen := |s.rmseList|)
    }

    /**
     * Calibration at the score that completes the training window on a cold
     * start, switching the label offset; otherwise the end-of-trace check.
     */
    ghost function CalibrateSpec(s: RunState, offset: int, t: Tables): (RunState, Option<Exit>, int)
      requires |s.rmseList| > 0
    {
      if !trainSkip && s.Slots() == trainGrace then (Calibrated(s, t), None, config.execSamplOffset)
      else if trainGrace + s.pktCntGlobal + config.execSamplOffset >= traceSize then
        (s, Some(EndOfTrace), offset)
      else (s, None, offset)
    }

    /**
     * The handling of a packet after its score was appended: the
     * training-window attack check, attack timing, the evaluation row, and
     * calibration or the end-of-trace check; `t` holds the statistics as
     * updated by this packet.
     */
    ghost function AfterSpec(s: RunState, rec: seq<Field>, rmse: real, offset: int, t: Tables)
      : (RunState, Option<Exit>, int)
      requires KitnetRecord(rec) && |s.rmseList| > 0
    {
      var check := TrainCheck(|s.rmseList|, s.trainSkipPkt);
      if check.Some? then (s, check, offset) else TimedSpec(s, rec, rmse, offset, t)
    }

    /** AfterSpec past the training-window attack check. */
    ghost function TimedSpec(s: RunState, rec: seq<Field>, rmse: real, offset: int, t: Tables)
      : (RunState, Option<Exit>, int)
      requires KitnetRecord(rec) && |s.rmseList| > 0
    {
      var at := LabelIndex(offset, s.pktCntGlobal);
      var timed := TimingSpec(s, rec[0].v.x, rmse, at);
      if timed.1.Some? then (timed.0, timed.1, offset)
      else CalibrateSpec(Evaluated(timed.0, rec, rmse, at), offset, t)
    }

    /**
     * The second half of one iteration of process() for the record of slot
     * n, with statistics `t` before the update: the end-of-trace and
     * execution sampling gates, the statistics update, scoring, and the
     * handling of the new score.
     */
    ghost function ScoreSpec(s: RunState, rec: seq<Field>, n: nat, offset: int, t: Tables)
      : (RunState, Option<Exit>, int)
      requires config.sampl >= 1 && KitnetRecord(rec) && ValidTables(t)
    {
      if PastEnd(s.pktCntGlobal) then (s, Some(EndOfTrace), offset)
      else if s.pktCntGlobal % config.sampl != 0 then (s, None, offset)
      else RecordSpec(s, rec, n, offset, t)
    }

    /** A packet past both gates: statistics update, scoring, and the handling of the new score. */
    ghost function RecordSpec(s: RunState, rec: seq<Field>, n: nat, offset: int, t: Tables)
      : (RunState, Option<Exit>, int)
      requires config.sampl >= 1 && KitnetRecord(rec) && ValidTables(t)
    {
      match ApplyRecord(t, rec, 1)
      case Err(e) => (s, Some(UnknownDecayCounter(e.counter)), offset)
      case Ok(u) => ScoredSpec(s, rec, n, u.features, offset, u.tables)
    }

    /** Scoring the features of slot n, appending the score, and the handling of the new score. */
    ghost function ScoredSpec(s: RunState, rec: seq<Field>, n: nat, features: seq<real>, offset: int, t: Tables)
      : (RunState, Option<Exit>, int)
      requires config.sampl >= 1 && KitnetRecord(rec)
    {
      var rmse := scorer(|s.rmseList|, features);
      var e := ScoreEvent(n, s.pktCntGlobal, Phase(n));
      AfterSpec(Appended(s, e, rmse), rec, rmse, offset, t)
    }

    /** The attack-start stage of TimingSpec, with its label lookup. */
    ghost function StartStage(s: RunState, ts: real, at: int): (RunState, Option<Exit>)
    {
      if s.attackInitTs == 0.0 && Label(at).None? then (s, Some(LabelOutOfRange(at)))
      else (AttackStart(s, ts, at), None)
    }

    /** The detection stage of TimingSpec, with its label lookup. */
    ghost function DetectStage(s: RunState, ts: real, rmse: real, at: int): (RunState, Option<Exit>)
    {
      if Alarm(rmse, s.threshold, s.attackPktNumCntr) && Label(at).None? then (s, Some(LabelOutOfRange(at)))
      else (Detection(s, ts, rmse, at), None)
    }

    /** The counting stage of TimingSpec, with its label lookup. */
    ghost function CountStage(s: RunState, at: int): (RunState, Option<Exit>)
    {
      if s.attackPktNumCntr != -1 && Label(at).None? then (s, Some(LabelOutOfRange(at)))
      else (AttackCount(s, at), None)
    }

    method StartClock(ts: real, at: int) returns (exit: Option<Exit>)
      modifies this`attackInitTs, this`attackPktNumCntr
      ensures (St(), exit) == StartStage(old(St()), ts, at)
    {
      exit := None;
      if attackInitTs == 0.0 {
        var l := Label(at);
        if l.None? {
          return Some(LabelOutOfRange(at));
        }
        if l.value == 1 {
          attackInitTs := ts;
          attackPktNumCntr := attackPktNumCntr + 1;
        }
      }
    }

    method Detect(ts: real, rmse: real, at: int) returns (exit: Option<Exit>)
      modifies this`attackPktNumCntr, this`attackPktNumCntrDp
      modifies this`detInitTime, this`detInitPktNum, this`detInitPktNumDp, this`detected, this`frozen
      ensures (St(), exit) == DetectStage(old(St()), ts, rmse, at)
    {
      exit := None;
      if Alarm(rmse, threshold, attackPktNumCntr) {
        var l := Label(at);
        if l.None? {
          return Some(LabelOutOfRange(at));
        }
        if l.value == 1 {
          RecordDetection(ts);
        }
      }
    }

    method RecordDetection(ts: real)
      modifies this`attackPktNumCntr, this`attackPktNumCntrDp
      modifies this`detInitTime, this`detInitPktNum, this`detInitPktNumDp, this`detected, this`frozen
      ensures detInitTime == ts - old(attackInitTs) && detInitPktNum == old(attackPktNumCntr)
      ensures detInitPktNumDp == old(attackPktNumCntrDp) && attackPktNumCntr == -1 && attackPktNumCntrDp == -1
      ensures detected && frozen == (attackInitTs != 0.0)
    {
      detInitTime := ts - attackInitTs;
      detInitPktNum := attackPktNumCntr;
      detInitPktNumDp := attackPktNumCntrDp;
      attackPktNumCntr := -1;
      attackPktNumCntrDp := -1;
      detected := true;
      frozen := attackInitTs != 0.0;
    }

    method CountAttack(at: int) returns (exit: Option<Exit>)
      modifies this`attackPktNumCntr
      ensures (St(), exit) == CountStage(old(St()), at)
    {
      exit := None;
      if attackPktNumCntr != -1 {
        var l := Label(at);
        if l.None? {
          return Some(LabelOutOfRange(at));
        }
        if l.value == 1 {
          attackPktNumCntr := attackPktNumCntr + 1;
        }
      }
    }

    method AttackTiming(ts: real, rmse: real, at: int) returns (exit: Option<Exit>)
      modifies this`attackInitTs, this`attackPktNumCntr, this`attackPktNumCntrDp
      modifies this`detInitTime, this`detInitPktNum, this`detInitPktNumDp, this`detected, this`frozen
      ensures (St(), exit) == TimingSpec(old(St()), ts, rmse, at)
    {
      exit := StartClock(ts, at);
      if exit.Some? {
        return;
      }
      exit := Detect(ts, rmse, at);
      if exit.Some? {
        return;
      }
      exit := CountAttack(at);
    }

    method CalibrateOrEnd(offset: int) returns (exit: Option<Exit>, offset': int)
      requires |rmseList| > 0
      modifies this`threshold, this`savedStats, this`calibrations, this`calLen
      ensures (St(), exit, offset') == CalibrateSpec(old(St()), offset, store.Contents())
    {
      offset' := offset;
      exit := None;
      if !trainSkip && |rmseList| + trainSkipPkt == trainGrace {
        offset' := config.execSamplOffset;
        Calibrate();
      } else if trainGrace + pktCntGlobal + config.execSamplOffset >= traceSize {
        exit := Some(EndOfTrace);
      }
    }

    /** Sets the threshold to the highest score so far and saves the statistics. */
    method Calibrate()
      requires |rmseList| > 0
      modifies this`threshold, this`savedStats, this`calibrations, this`calLen
      ensures threshold == Max(rmseList) && savedStats == Some(ToSnapshot(store.Contents()))
      ensures calibrations == old(calibrations) + 1 && calLen == |rmseList|
    {
      threshold := Max(rmseList);
      var snap := store.Save();
      savedStats := Some(snap);
      calibrations := calibrations + 1;
      calLen := |rmseList|;
    }

    method AfterScore(rec: seq<Field>, rmse: real, offset: int) returns (exit: Option<Exit>, offset': int)
      requires KitnetRecord(rec) && |rmseList| > 0
      modifies this`attackInitTs, this`attackPktNumCntr, this`attackPktNumCntrDp
      modifies this`detInitTime, this`detInitPktNum, this`detInitPktNumDp, this`detected, this`frozen
      modifies this`peregrineEval, this`threshold, this`savedStats, this`calibrations, this`calLen
      ensures (St(), exit, offset') == AfterSpec(old(St()), rec, rmse, offset, store.Contents())
    {
      offset' := offset;
      exit := TrainCheck(|rmseList|, trainSkipPkt);
      if exit.Some? {
        return;
      }
      var at := LabelIndex(offset, pktCntGlobal);
      exit := AttackTiming(rec[0].v.x, rmse, at);
      if exit.Some? {
        return;
      }
      // An IndexError on the evaluation row's label only drops the row.
      var l := Label(at);
      if l.Some? {
        peregrineEval := peregrineEval + [EvalRow(rec[1..7], rmse, l.value)];
      }
      exit, offset' := CalibrateOrEnd(offset);
    }

    // ---------------------------------------------------------------------
    // The dictionaries across packets.

    /** The statistics update a record that passed both gates makes, if its decay counter is known. */
    ghost function RecordUpdate(rec: seq<Field>, t: Tables): Option<(seq<Field>, Update)>
      requires KitnetRecord(rec) && ValidTables(t)
    {
      match ApplyRecord(t, rec, 1)
      case Err(_) => None
      case Ok(u) => Some((rec, u))
    }

    /** The statistics update of the second half of an iteration: none when a gate stops the record. */
    ghost function ScoreUpdate(s: RunState, rec: seq<Field>, t: Tables): Option<(seq<Field>, Update)>
      requires config.sampl >= 1 && KitnetRecord(rec) && ValidTables(t)
    {
      if PastEnd(s.pktCntGlobal) || s.pktCntGlobal % config.sampl != 0 then None
      else RecordUpdate(rec, t)
    }

    /** The statistics update of one iteration of process()'s loop. */
    ghost function StepUpdate(s: RunState, offset: int, t: Tables): Option<(seq<Field>, Update)>
      requires config.sampl >= 1 && WellFormedSource(source) && ValidTables(t)
    {
      var (s1, f) := FetchSpec(s, offset);
      match f
      case Got(rec, n) => ScoreUpdate(s1, rec, t)
      case _ => None
    }

    /**
     * The records fed to the dictionaries, the dictionaries and the scores
     * move from (recs, t, rmse) to (recs', t', rmse') by update `u`: with no
     * update nothing changes; otherwise the record joins the records, the
     * dictionaries are those ApplyRecord gives, and the scorer's verdict on
     * its feature vector joins the scores.
     */
    ghost predicate Took(recs: seq<seq<Field>>, t: Tables, rmse: seq<real>,
                         recs': seq<seq<Field>>, t': Tables, rmse': seq<real>, u: Option<(seq<Field>, Update)>)
    {
      if u.None? then recs' == recs && t' == t && rmse' == rmse
      else
        var (rec, v) := u.value;
        WellFormedRecord(rec, 1) && ValidTables(t) && ApplyRecord(t, rec, 1) == Ok(v) &&
        recs' == recs + [rec] && t' == v.tables && rmse' == rmse + [scorer(|rmse|, v.features)]
    }

    /**
     * The dictionaries are those the records of `recs` left, applied in order
     * from the dictionaries the run started with, and each score is the
     * scorer's verdict on the feature vector of the record at its position.
     */
    ghost predicate Fed(recs: seq<seq<Field>>, t: Tables, rmse: seq<real>)
    {
      ValidTables(start) && ApplyAll(start, recs, 1).Some? && ApplyAll(start, recs, 1).value.0 == t &&
      Verdicts(scorer, rmse, ApplyAll(start, recs, 1).value.1)
    }

    /** Feeding one more record keeps the dictionaries and the scores its replay. */
    lemma FedSnoc(recs: seq<seq<Field>>, t: Tables, rmse: seq<real>, rec: seq<Field>, v: Update)
      requires Fed(recs, t, rmse) && WellFormedRecord(rec, 1) && ValidTables(t) && ApplyRecord(t, rec, 1) == Ok(v)
      ensures Fed(recs + [rec], v.tables, rmse + [scorer(|rmse|, v.features)])
    {
      ApplyAllSnoc(start, recs, rec, 1, v);
      VerdictsSnoc(scorer, rmse, ApplyAll(start, recs, 1).value.1, v.features);
    }

    /** Every update keeps the dictionaries and the scores the replay of the records fed so far. */
    lemma FedKeeps(recs: seq<seq<Field>>, t: Tables, rmse: seq<real>,
                   recs': seq<seq<Field>>, t': Tables, rmse': seq<real>, u: Option<(seq<Field>, Update)>)
      requires Fed(recs, t, rmse) && Took(recs, t, rmse, recs', t', rmse', u)
      ensures Fed(recs', t', rmse')
    {
      if u.Some? {
        FedSnoc(recs, t, rmse, u.value.0, u.value.1);
      }
    }

    method Score(rec: seq<Field>, n: nat, offset: int) returns (stop: Option<Exit>, offset': int)
      requires config.sampl >= 1 && KitnetRecord(rec) && Valid()
      modifies this`rmseList, this`log, this`fed, store
      modifies this`attackInitTs, this`attackPktNumCntr, this`attackPktNumCntrDp
      modifies this`detInitTime, this`detInitPktNum, this`detInitPktNumDp, this`detected, this`frozen
      modifies this`peregrineEval, this`threshold, this`savedStats, this`calibrations, this`calLen
      ensures Valid()
      ensures (St(), stop, offset') == ScoreSpec(old(St()), rec, n, offset, old(store.Contents()))
      ensures Took(old(fed), old(store.Contents()), old(rmseList), fed, store.Contents(), rmseList,
        ScoreUpdate(old(St()), rec, old(store.Contents())))
    {
      offset' := offset;
      if PastEnd(pktCntGlobal) {
        return Some(EndOfTrace), offset';
      }
      if pktCntGlobal % config.sampl != 0 {
        return None, offset';
      }
      stop, offset' := ScoreRecord(rec, n, offset);
    }

    method ScoreRecord(rec: seq<Field>, n: nat, offset: int) returns (stop: Option<Exit>, offset': int)
      requires config.sampl >= 1 && KitnetRecord(rec) && Valid()
      modifies this`rmseList, this`log, this`fed, store
      modifies this`attackInitTs, this`attackPktNumCntr, this`attackPktNumCntrDp
      modifies this`detInitTime, this`detInitPktNum, this`detInitPktNumDp, this`detected, this`frozen
      modifies this`peregrineEval, this`threshold, this`savedStats, this`calibrations, this`calLen
      ensures Valid()
      ensures (St(), stop, offset') == RecordSpec(old(St()), rec, n, offset, old(store.Contents()))
      ensures Took(old(fed), old(store.Contents()), old(rmseList), fed, store.Contents(), rmseList,
        RecordUpdate(rec, old(store.Contents())))
    {
      offset' := offset;
      var features := store.UpdateStats(rec, 1);
      assert St() == old(St());
      if features.Err? {
        return Some(UnknownDecayCounter(features.error.counter)), offset';
      }
      fed := fed + [rec];
      stop, offset' := ScoreFeatures(rec, n, features.value, offset);
    }

    method ScoreFeatures(rec: seq<Field>, n: nat, features: seq<real>, offset: int)
      returns (stop: Option<Exit>, offset': int)
      requires config.sampl >= 1 && KitnetRecord(rec)
      modifies this`rmseList, this`log
      modifies this`attackInitTs, this`attackPktNumCntr, this`attackPktNumCntrDp
      modifies this`detInitTime, this`detInitPktNum, this`detInitPktNumDp, this`detected, this`frozen
      modifies this`peregrineEval, this`threshold, this`savedStats, this`calibrations, this`calLen
      ensures (St(), stop, offset') == ScoredSpec(old(St()), rec, n, features, offset, store.Contents())
      ensures rmseList == old(rmseList) + [scorer(|old(rmseList)|, features)]
    {
      var rmse := scorer(|rmseList|, features);
      AppendScore(ScoreEvent(n, pktCntGlobal, Phase(n)), rmse);
      stop, offset' := AfterScore(rec, rmse, offset);
    }

    /** Appends a score to rmse_list, with its event to the log. */
    method AppendScore(e: ScoreEvent, rmse: real)
      modifies this`rmseList, this`log
      ensures rmseList == old(rmseList) + [rmse] && log == old(log) + [e]
    {
      log := log + [e];
      rmseList := rmseList + [rmse];
    }

    /** What holds right after a score was appended, before the rest of the iteration. */
    ghost predicate Scored(s: RunState, offset: int)
      requires config.sampl >= 1
    {
      LogInv(s) && CalInv(s, offset) && DetInv(s, offset) && s.dpSeen == s.pktCntGlobal &&
      |s.log| >= 1 && |s.peregrineEval| < |s.rmseList| &&
      s.log[|s.log| - 1].pos + 1 == s.Slots() && s.log[|s.log| - 1].cnt == s.pktCntGlobal &&
      TrainChecked(s.log, |s.log| - 1) && WindowUnmatched(s, |s.log| - 1) &&
      (s.calibrations == 1 ==> s.log[|s.log| - 1].pos >= trainGrace)
    }

    /**
     * The training-window attack check stops the run exactly for an attack
     * label on one of the first train_grace - 1 scores, and otherwise extends
     * the checked prefix by the new score.
     */
    lemma CheckFacts(s: RunState)
      requires |s.log| >= 1 && |s.log| == |s.rmseList| && s.log[|s.log| - 1].pos + 1 == s.Slots()
      requires TrainChecked(s.log, |s.log| - 1)
      ensures var c := TrainCheck(|s.rmseList|, s.trainSkipPkt);
        c.Some? ==> c == Some(AttackInTraining) || c == Some(LabelOutOfRange(s.log[|s.log| - 1].pos))
      ensures var c := TrainCheck(|s.rmseList|, s.trainSkipPkt);
        c == Some(AttackInTraining) <==>
          |s.log| < trainGrace && Label(s.log[|s.log| - 1].pos) == Some(1)
      ensures var c := TrainCheck(|s.rmseList|, s.trainSkipPkt);
        c != Some(AttackInTraining) ==> TrainChecked(s.log, |s.log|)
    {
    }

    /**
     * Attack timing: the attack clock starts at the first attack label, a
     * new detection happens exactly for an attack-labelled packet scoring
     * above the threshold, it records the latency, and once frozen nothing
     * about the timing changes any more.
     */
    lemma TimingFacts(s: RunState, ts: real, rmse: real, at: int, offset: int)
      requires DetInv(s, offset)
      ensures var r := TimingSpec(s, ts, rmse, at);
        Untimed(r.0) == Untimed(s) && DetInv(r.0, offset)
      ensures var r := TimingSpec(s, ts, rmse, at);
        r.1.Some? ==> r.1 == Some(LabelOutOfRange(at)) && Label(at).None?
      ensures var r := TimingSpec(s, ts, rmse, at);
        r.1.None? && (s.attackInitTs != 0.0 || Label(at) != Some(1)) ==>
          r.0.attackInitTs == s.attackInitTs
      ensures var r := TimingSpec(s, ts, rmse, at);
        r.1.None? && s.attackInitTs == 0.0 && Label(at) == Some(1) ==> r.0.attackInitTs == ts
      ensures var r := TimingSpec(s, ts, rmse, at);
        r.1.None? && !s.detected ==>
          (r.0.detected <==> Trunc(rmse) > Trunc(s.threshold) && Label(at) == Some(1))
      ensures var r := TimingSpec(s, ts, rmse, at);
        !s.detected && r.0.detected ==>
          r.0.detInitTime == ts - r.0.attackInitTs && r.0.detInitPktNum >= 1 &&
          r.0.detInitPktNumDp == s.attackPktNumCntrDp && r.0.detInitPktNumDp >= 0 &&
          (r.0.frozen <==> r.0.attackInitTs != 0.0)
      ensures var r := TimingSpec(s, ts, rmse, at);
        s.detected ==> r.0.detected
      ensures var r := TimingSpec(s, ts, rmse, at);
        s.frozen ==>
          r.0.frozen && r.0.attackInitTs == s.attackInitTs && r.0.detInitTime == s.detInitTime &&
          r.0.detInitPktNum == s.detInitPktNum && r.0.detInitPktNumDp == s.detInitPktNumDp
    {
    }

    /**
     * Calibration happens at most once, on a cold start, at the score that
     * completes the training window, and sets the threshold to the highest
     * score so far; otherwise only the end-of-trace check runs.
     */
    lemma CalibrateFacts(s: RunState, offset: int, t: Tables)
      requires CalInv(s, offset) && |s.log| >= 1 && |s.log| == |s.rmseList|
      requires s.log[|s.log| - 1].pos + 1 == s.Slots()
      requires s.calibrations == 1 ==> s.log[|s.log| - 1].pos >= trainGrace
      requires WindowUnmatched(s, |s.log| - 1)
      ensures var r := CalibrateSpec(s, offset, t);
        CalInv(r.0, r.2) && (r.1.None? || r.1 == Some(EndOfTrace))
      ensures var r := CalibrateSpec(s, offset, t);
        r.0.calibrations == s.calibrations ==>
          r.0 == s && r.2 == offset && WindowUnmatched(r.0, |s.log|)
      ensures var r := CalibrateSpec(s, offset, t);
        r.0.calibrations != s.calibrations ==>
          r.0 == Calibrated(s, t) && r.1.None? && !trainSkip && s.Slots() == trainGrace
      ensures var r := CalibrateSpec(s, offset, t);
        r.1 == Some(EndOfTrace) ==> trainGrace + s.pktCntGlobal + config.execSamplOffset >= traceSize
    {
      if !trainSkip && s.Slots() == trainGrace {
        var c := Calibrated(s, t);
        assert c.rmseList[..c.calLen] == c.rmseList;
      }
    }

    /** Appending a score that passed the gates keeps the log in order. */
    lemma AppendLog(s: RunState, e: ScoreEvent, rmse: real)
      requires config.sampl >= 1 && LogInv(s)
      requires ScoredOk(e) && e.pos == s.Slots()
      ensures LogInv(Appended(s, e, rmse))
    {
      var s' := Appended(s, e, rmse);
      ScoresAppend(s.log, e);
      PhaseMonotone(s.Slots(), s'.Slots(), trainGrace, exactBound, trainSkip);
    }

    /** Appending a score leaves the calibration prefix untouched. */
    lemma AppendCal(s: RunState, e: ScoreEvent, rmse: real, offset: int)
      requires CalInv(s, offset)
      ensures CalInv(Appended(s, e, rmse), offset)
    {
      var s' := Appended(s, e, rmse);
      if s.calibrations == 1 {
        assert s'.rmseList[..s.calLen] == s.rmseList[..s.calLen];
        assert s'.log[s.calLen - 1] == s.log[s.calLen - 1];
      }
    }

    /** Every score before the appended one stays checked and unmatched. */
    lemma AppendChecked(s: RunState, e: ScoreEvent, rmse: real)
      requires TrainChecked(s.log, |s.log|) && WindowUnmatched(s, |s.log|)
      ensures TrainChecked(Appended(s, e, rmse).log, |s.log|)
      ensures WindowUnmatched(Appended(s, e, rmse), |s.log|)
    {
      var s' := Appended(s, e, rmse);
      assert forall j :: 0 <= j < |s.log| ==> s'.log[j] == s.log[j];
    }

    /** A score that passed the gates, appended between two packets. */
    lemma AppendKeeps(s: RunState, e: ScoreEvent, rmse: real, offset: int)
      requires config.sampl >= 1 && Between(s, offset)
      requires ScoredOk(e) && e.pos == s.Slots() && e.cnt == s.pktCntGlobal
      ensures Scored(Appended(s, e, rmse), offset) == true
      ensures Appended(s, e, rmse).Slots() == s.Slots() + 1
    {
      AppendLog(s, e, rmse);
      AppendCal(s, e, rmse, offset);
      AppendChecked(s, e, rmse);
    }

    /** Scored, with the new score past the training-window attack check. */
    ghost predicate Ready(s: RunState, offset: int)
      requires config.sampl >= 1
    {
      LogInv(s) && CalInv(s, offset) && DetInv(s, offset) && s.dpSeen == s.pktCntGlobal &&
      |s.log| >= 1 &&
      s.log[|s.log| - 1].pos + 1 == s.Slots() && s.log[|s.log| - 1].cnt == s.pktCntGlobal &&
      TrainChecked(s.log, |s.log|) && WindowUnmatched(s, |s.log| - 1) &&
      (s.calibrations == 1 ==> s.log[|s.log| - 1].pos >= trainGrace)
    }

    /** The attack-timing fields are not what the log and calibration invariants are about. */
    lemma UntimedFrame(s: RunState, s': RunState, offset: int)
      requires config.sampl >= 1 && Untimed(s') == Untimed(s)
      ensures LogInv(s) ==> LogInv(s')
      ensures CalInv(s, offset) ==> CalInv(s', offset)
      ensures WindowUnmatched(s, |s.log|) ==> WindowUnmatched(s', |s.log|)
      ensures |s.log| >= 1 && WindowUnmatched(s, |s.log| - 1) ==> WindowUnmatched(s', |s.log| - 1)
      ensures s'.log == s.log && s'.Slots() == s.Slots() && s'.pktCntGlobal == s.pktCntGlobal
      ensures s'.dpSeen == s.dpSeen && s'.peregrineEval == s.peregrineEval
    {
      assert s'.log == Untimed(s').log;
      assert s'.rmseList == Untimed(s').rmseList;
      assert s'.calibrations == Untimed(s').calibrations;
    }

    /** The evaluation row adds at most one row per score. */
    lemma EvalKeeps(s: RunState, rec: seq<Field>, rmse: real, at: int, offset: int)
      requires config.sampl >= 1 && |rec| >= 7
      requires LogInv(s) && CalInv(s, offset) && DetInv(s, offset) && s.dpSeen == s.pktCntGlobal
      requires |s.log| >= 1 && |s.peregrineEval| < |s.rmseList|
      requires s.log[|s.log| - 1].pos + 1 == s.Slots() && s.log[|s.log| - 1].cnt == s.pktCntGlobal
      requires TrainChecked(s.log, |s.log|) && WindowUnmatched(s, |s.log| - 1)
      requires s.calibrations == 1 ==> s.log[|s.log| - 1].pos >= trainGrace
      ensures Ready(Evaluated(s, rec, rmse, at), offset)
      ensures Evaluated(s, rec, rmse, at).Slots() == s.Slots()
      ensures Evaluated(s, rec, rmse, at).pktCntGlobal == s.pktCntGlobal
    {
      if Label(at).Some? {
        var s' := Evaluated(s, rec, rmse, at);
        assert s' == s.(peregrineEval := s'.peregrineEval);
        assert |s'.peregrineEval| <= |s'.rmseList|;
      }
    }

    /**
     * Calibration keeps the invariant: the score that completes the training
     * window is a training score, so no execution packet has been counted
     * and the label offset may move.
     */
    lemma CalibratedKeeps(s: RunState, offset: int, t: Tables)
      requires config.sampl >= 1 && Ready(s, offset) && !trainSkip && s.Slots() == trainGrace
      ensures LogInv(Calibrated(s, t)) && DetInv(Calibrated(s, t), config.execSamplOffset)
      ensures TrainChecked(Calibrated(s, t).log, |s.log|)
      ensures Calibrated(s, t).dpSeen == Calibrated(s, t).pktCntGlobal
    {
      assert s.log[|s.log| - 1].phase != Execution;
      assert s.pktCntGlobal == 0;
    }

    /** Calibration or the end-of-trace check keeps the invariant. */
    lemma CalibrateKeeps(s: RunState, offset: int, t: Tables)
      requires config.sampl >= 1 && Ready(s, offset)
      ensures var r := CalibrateSpec(s, offset, t);
        r.0.Slots() == s.Slots() && r.0.pktCntGlobal == s.pktCntGlobal
      ensures var r := CalibrateSpec(s, offset, t);
        r.1.None? ==> (Between(r.0, r.2) == true)
      ensures var r := CalibrateSpec(s, offset, t);
        r.1.Some? ==> r.1 == Some(EndOfTrace) && (Post(r.0, r.2, r.1) == true)
    {
      CalibrateFacts(s, offset, t);
      if !trainSkip && s.Slots() == trainGrace {
        CalibratedKeeps(s, offset, t);
      }
    }

    /** The rest of an iteration after a score was appended keeps the invariant. */
    lemma AfterKeeps(s: RunState, rec: seq<Field>, rmse: real, offset: int, t: Tables)
      requires config.sampl >= 1 && KitnetRecord(rec) && (Scored(s, offset) == true)
      ensures var r := AfterSpec(s, rec, rmse, offset, t);
        r.0.Slots() == s.Slots() && r.0.pktCntGlobal == s.pktCntGlobal
      ensures var r := AfterSpec(s, rec, rmse, offset, t);
        r.1.None? ==> (Between(r.0, r.2) == true)
      ensures var r := AfterSpec(s, rec, rmse, offset, t);
        r.1.Some? ==>
          (Post(r.0, r.2, r.1) == true) &&
          (r.1.value.AttackInTraining? || r.1.value.LabelOutOfRange? || r.1.value.EndOfTrace?)
    {
      CheckFacts(s);
      if TrainCheck(|s.rmseList|, s.trainSkipPkt).None? {
        TimedKeeps(s, rec, rmse, offset, t);
      }
    }

    /** Past the training-window attack check, the rest of an iteration keeps the invariant. */
    lemma TimedKeeps(s: RunState, rec: seq<Field>, rmse: real, offset: int, t: Tables)
      requires config.sampl >= 1 && KitnetRecord(rec) && (Scored(s, offset) == true)
      requires TrainChecked(s.log, |s.log|)
      ensures var r := TimedSpec(s, rec, rmse, offset, t);
        r.0.Slots() == s.Slots() && r.0.pktCntGlobal == s.pktCntGlobal
      ensures var r := TimedSpec(s, rec, rmse, offset, t);
        r.1.None? ==> (Between(r.0, r.2) == true)
      ensures var r := TimedSpec(s, rec, rmse, offset, t);
        r.1.Some? ==> (Post(r.0, r.2, r.1) == true) && (r.1.value.LabelOutOfRange? || r.1 == Some(EndOfTrace))
    {
      var at := LabelIndex(offset, s.pktCntGlobal);
      TimingFacts(s, rec[0].v.x, rmse, at, offset);
      var timed := TimingSpec(s, rec[0].v.x, rmse, at);
      UntimedFrame(s, timed.0, offset);
      if timed.1.None? {
        EvalKeeps(timed.0, rec, rmse, at, offset);
        CalibrateKeeps(Evaluated(timed.0, rec, rmse, at), offset, t);
      }
    }

    /**
     * The second half of an iteration keeps the invariant: the run either
     * goes on with at least one more slot used in a training phase, or stops
     * in a state that says why.
     */
    lemma ScoreKeeps(s: RunState, rec: seq<Field>, n: nat, offset: int, t: Tables)
      requires config.sampl >= 1 && KitnetRecord(rec) && ValidTables(t)
      requires Between(s, offset) && n == s.Slots()
      requires Phase(n) == Execution ==> s.pktCntGlobal >= 1
      requires Phase(n) != Execution ==>
        s.pktCntGlobal == 0 && (config.trainSampl ==> (n + 1) % config.sampl == 0)
      ensures var r := ScoreSpec(s, rec, n, offset, t);
        r.1.None? ==>
          (Between(r.0, r.2) == true) && n <= r.0.Slots() &&
          (Phase(n) != Execution ==> r.0.Slots() == n + 1) && r.0.pktCntGlobal == s.pktCntGlobal
      ensures var r := ScoreSpec(s, rec, n, offset, t);
        r.1.Some? ==> (Post(r.0, r.2, r.1) == true)
    {
      if PastEnd(s.pktCntGlobal) {
        StopKeeps(s, offset, EndOfTrace);
      } else if s.pktCntGlobal % config.sampl == 0 {
        match ApplyRecord(t, rec, 1)
        case Err(err) =>
          StopKeeps(s, offset, UnknownDecayCounter(err.counter));
        case Ok(u) =>
          var rmse := scorer(|s.rmseList|, u.features);
          RecordKeeps(s, n, rec, rmse, offset, u.tables);
      }
    }

    /** A score that passed the gates, appended and followed through, keeps the invariant. */
    lemma RecordKeeps(s: RunState, n: nat, rec: seq<Field>, rmse: real, offset: int, t: Tables)
      requires config.sampl >= 1 && KitnetRecord(rec) && Between(s, offset) && n == s.Slots()
      requires !PastEnd(s.pktCntGlobal) && s.pktCntGlobal % config.sampl == 0
      requires Phase(n) == Execution ==> s.pktCntGlobal >= 1
      requires Phase(n) != Execution ==>
        s.pktCntGlobal == 0 && (config.trainSampl ==> (n + 1) % config.sampl == 0)
      ensures var r := AfterSpec(Appended(s, ScoreEvent(n, s.pktCntGlobal, Phase(n)), rmse), rec, rmse, offset, t);
        r.1.None? ==> (Between(r.0, r.2) == true) && r.0.Slots() == n + 1 && r.0.pktCntGlobal == s.pktCntGlobal
      ensures var r := AfterSpec(Appended(s, ScoreEvent(n, s.pktCntGlobal, Phase(n)), rmse), rec, rmse, offset, t);
        r.1.Some? ==> (Post(r.0, r.2, r.1) == true)
    {
      var e := ScoreEvent(n, s.pktCntGlobal, Phase(n));
      AppendKeeps(s, e, rmse, offset);
      AfterKeeps(Appended(s, e, rmse), rec, rmse, offset, t);
    }

    // ---------------------------------------------------------------------
    // process()

    /** The label offset process() holds in state s: the execution offset once calibrated or warm. */
    function OffsetOf(s: RunState): int
    {
      if trainSkip || s.calibrations == 1 then config.execSamplOffset else 0
    }

    /** One iteration of process()'s loop: fetch a packet and, if one came, score it. */
    ghost function StepSpec(s: RunState, offset: int, t: Tables): (RunState, Option<Exit>, int)
      requires config.sampl >= 1 && WellFormedSource(source) && ValidTables(t)
    {
      var (s1, f) := FetchSpec(s, offset);
      match f
      case Skipped => (s1, None, offset)
      case Stopped(e) => (s1, Some(e), offset)
      case Got(rec, n) => ScoreSpec(s1, rec, n, offset, t)
    }

    /**
     * Every iteration keeps the loop invariant and uses up the measure, or
     * stops in a state that says why.
     */
    lemma StepKeeps(s: RunState, offset: int, t: Tables)
      requires config.sampl >= 1 && WellFormedSource(source) && ValidTables(t) && Between(s, offset)
      ensures var r := StepSpec(s, offset, t);
        r.1.None? ==> (Between(r.0, r.2) == true) && Below(r.0, s)
      ensures var r := StepSpec(s, offset, t);
        r.1.Some? ==> (Post(r.0, r.2, r.1) == true)
    {
      FetchKeeps(s, offset);
      var (s1, f) := FetchSpec(s, offset);
      if f.Got? {
        ScoreKeeps(s1, f.rec, f.n, offset, t);
        var r := ScoreSpec(s1, f.rec, f.n, offset, t);
        if r.1.None? {
          TrainingLeftStep(s.Slots(), r.0.Slots(), trainGrace, exactBound, trainSkip);
        }
      }
    }

    /** The loop body of process(). */
    method Step(offset: int) returns (stop: Option<Exit>, offset': int)
      requires config.sampl >= 1 && WellFormedSource(source) && Valid()
      modifies this, store
      ensures Valid()
      ensures (St(), stop, offset') == StepSpec(old(St()), offset, old(store.Contents()))
      ensures Took(old(fed), old(store.Contents()), old(rmseList), fed, store.Contents(), rmseList,
        StepUpdate(old(St()), offset, old(store.Contents())))
    {
      var f := Fetch(offset);
      match f
      case Skipped =>
        stop, offset' := None, offset;
      case Stopped(e) =>
        stop, offset' := Some(e), offset;
      case Got(rec, n) =>
        stop, offset' := Score(rec, n, offset);
    }

    /**
     * process(): consume the trace until its end, a timeout, an attack label
     * inside the training window, a label lookup past the end of the labels,
     * or an unknown decay counter. What holds when it stops is Post: every
     * score passed its gates in slot order, calibration happened at most once
     * at the score completing the training window, the training-window
     * attack check and the detection bookkeeping, each as the exit requires.
     */
    method Process() returns (exit: Exit)
      requires config.sampl >= 1 && WellFormedSource(source)
      requires Valid() && St() == Initial && fed == [] && store.Contents() == start
      modifies this, store
      ensures Valid()
      ensures Post(St(), OffsetOf(St()), Some(exit))
      ensures Fed(fed, store.Contents(), rmseList)
    {
      var offset: int := if !trainSkip then 0 else config.execSamplOffset;
      StartBetween();
      while true
        invariant Valid() && Between(St(), offset) && Fed(fed, store.Contents(), rmseList)
        decreases TrainingLeft(St().Slots(), trainGrace, exactBound, trainSkip), ExecLeft(pktCntGlobal)
      {
        StepKeeps(St(), offset, store.Contents());
        ghost var recs, t, rmse := fed, store.Contents(), rmseList;
        ghost var u := StepUpdate(St(), offset, t);
        var stop;
        stop, offset := Step(offset);
        FedKeeps(recs, t, rmse, fed, store.Contents(), rmseList, u);
        if stop.Some? {
          exit := stop.value;
          break;
        }
      }
    }
  }
}
