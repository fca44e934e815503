// The switch controller's detector object (Peregrine): it rebuilds the
// per-flow feature vector from each statistics record the data plane sends,
// splits the vectors into a training list and an execution list, and hands
// each vector to the anomaly scorer.
module ControlPlane {
  import opened Values
  import opened Decay
  import opened FlowStats
  import opened Driver

  type Vectors = seq<seq<real>>

  /** The first `grace` vectors of a history: those kept in the training list. */
  function TrainPart(h: Vectors, grace: nat): (r: Vectors)
    ensures |r| <= grace && r <= h
  {
    if |h| <= grace then h else h[..grace]
  }

  /** Every vector after the first `grace`: those kept in the execution list. */
  function ExecPart(h: Vectors, grace: nat): (r: Vectors)
    ensures TrainPart(h, grace) + r == h
    ensures |r| > 0 ==> |TrainPart(h, grace)| == grace
  {
    if |h| <= grace then [] else h[grace..]
  }

  /**
   * Where proc_next_packet files a new vector: the training list while it
   * holds fewer than `grace` vectors, the execution list afterwards. While
   * the lists have that shape the vector joins the end of the history, and
   * the training list never grows past `grace`.
   */
  function Filed(train: Vectors, exec: Vectors, v: seq<real>, grace: nat): (r: (Vectors, Vectors))
    ensures exec == [] || grace <= |train| ==> r.0 + r.1 == train + exec + [v]
    ensures |train| <= grace ==> |r.0| <= grace
  {
    if |train| < grace then (train + [v], exec) else (train, exec + [v])
  }

  /**
   * Filing vectors one at a time keeps the two lists the prefix/suffix split
   * of everything filed so far.
   */
  lemma FiledSplit(h: Vectors, v: seq<real>, grace: nat)
    ensures Filed(TrainPart(h, grace), ExecPart(h, grace), v, grace) ==
      (TrainPart(h + [v], grace), ExecPart(h + [v], grace))
  {
    var h' := h + [v];
    if |h| >= grace {
      assert h'[..grace] == h[..grace];
      assert h'[grace..] == h[grace..] + [v];
    }
  }

  /** The detector's state: its four dictionaries and its two vector lists. */
  datatype DetState = DetState(tables: Tables, train: Vectors, exec: Vectors)
  {
    /** Every vector handed to the scorer, in order. */
    function History(): Vectors
    {
      train + exec
    }

    /** The training list holds the first `grace` vectors, the execution list the rest. */
    predicate Split(grace: nat)
    {
      train == TrainPart(History(), grace) && exec == ExecPart(History(), grace)
    }
  }

  /**
   * proc_next_packet on a detector state: an unknown decay counter raises
   * before anything changes; otherwise the dictionaries are updated, the
   * sanitized vector is filed and the scorer's verdict on it is returned.
   */
  function Process(s: DetState, rec: seq<Field>, grace: nat, scorer: Scorer): (r: (DetState, Result<real, StatsError>))
    requires ValidTables(s.tables) && WellFormedRecord(rec, 0)
    ensures ValidTables(r.0.tables)
  {
    match ApplyRecord(s.tables, rec, 0)
    case Err(e) => (s, Err(e))
    case Ok(u) =>
      var (train, exec) := Filed(s.train, s.exec, u.features, grace);
      (DetState(u.tables, train, exec), Ok(scorer(|s.History()|, u.features)))
  }

  /**
   * What one record does to the detector: a KeyError exactly for an unknown
   * decay counter, changing nothing; otherwise the dictionaries are those
   * ApplyRecord gives, the new vector joins the end of the history (still
   * split at fm+ad), and the result is the scorer's verdict on it.
   */
  lemma ProcessFacts(s: DetState, rec: seq<Field>, grace: nat, scorer: Scorer)
    requires ValidTables(s.tables) && WellFormedRecord(rec, 0) && s.Split(grace)
    ensures var (s', r) := Process(s, rec, grace, scorer);
      (r.Err? <==> DecayPos(rec[6]).None?) &&
      (r.Err? ==> s' == s && r.error == UnknownDecay(rec[6])) &&
      (r.Ok? ==>
        var u := ApplyRecord(s.tables, rec, 0).value;
        s'.tables == u.tables && ValidTables(s'.tables) &&
        s'.History() == s.History() + [u.features] && s'.Split(grace) &&
        r.value == scorer(|s.History()|, u.features))
  {
    var (s', r) := Process(s, rec, grace, scorer);
    if r.Ok? {
      FiledSplit(s.History(), ApplyRecord(s.tables, rec, 0).value.features, grace);
    }
  }

  class Peregrine {
    const fmGrace: nat
    const adGrace: nat
    const scorer: Scorer
    const store: FlowStatsStore

    var trainList: Vectors             // df_train_stats_list
    var execList: Vectors              // df_exec_stats_list

    /** Every vector handed to the scorer, in order. */
    function History(): Vectors
      reads this`trainList, this`execList
    {
      trainList + execList
    }

    /** The dictionaries and the two lists, as one value. */
    function State(): DetState
      reads this`trainList, this`execList, store
    {
      DetState(store.Contents(), trainList, execList)
    }

    ghost predicate Valid()
      reads this`trainList, this`execList, store
    {
      store.Valid() && State().Split(fmGrace + adGrace) &&
      (forall i :: 0 <= i < |History()| ==> |History()[i]| == FeatureCount)
    }

    /**
     * A warm start (`trainSkip`) restores the four dictionaries from
     * snapshot positions 0..3; otherwise they start empty. Both lists start
     * empty.
     */
    constructor (fmGrace: nat, adGrace: nat, scorer: Scorer, trainSkip: bool, saved: Snapshot)
      requires trainSkip ==> FromSnapshot(saved).Some? && ValidTables(FromSnapshot(saved).value)
      ensures this.fmGrace == fmGrace && this.adGrace == adGrace && this.scorer == scorer
      ensures trainSkip ==> Some(store.Contents()) == FromSnapshot(saved)
      ensures !trainSkip ==> store.Contents() == EmptyTables
      ensures trainList == [] && execList == []
      ensures Valid() && fresh(store)
    {
      this.fmGrace := fmGrace;
      this.adGrace := adGrace;
      this.scorer := scorer;
      trainList, execList := [], [];
      if trainSkip {
        store := new FlowStatsStore.Restore(saved);
      } else {
        store := new FlowStatsStore();
      }
    }

    /**
     * proc_next_packet: apply the record (decay position from field 6, flow
     * keys from fields 0..5), file the sanitized feature vector and return
     * its score. An unknown decay counter raises before anything changes.
     */
    method ProcNextPacket(rec: seq<Field>) returns (r: Result<real, StatsError>)
      requires Valid() && WellFormedRecord(rec, 0)
      modifies this`trainList, this`execList, store
      ensures Valid()
      ensures (State(), r) == Process(old(State()), rec, fmGrace + adGrace, scorer)
    {
      var features := store.UpdateStats(rec, 0);
      if features.Err? {
        return Err(features.error);
      }
      var v := features.value;
      r := Ok(scorer(|trainList| + |execList|, v));
      File(v);
    }

    /**
     * Files one vector: in the training list while it holds fewer than
     * fm+ad vectors, in the execution list afterwards.
     */
    method File(v: seq<real>)
      requires Valid() && |v| == FeatureCount
      modifies this`trainList, this`execList
      ensures Valid()
      ensures (trainList, execList) == Filed(old(trainList), old(execList), v, fmGrace + adGrace)
    {
      FiledSplit(History(), v, fmGrace + adGrace);
      if |trainList| < fmGrace + adGrace {
        trainList := trainList + [v];
      } else {
        execList := execList + [v];
      }
    }

    /** The four-dictionary part of save_train_stats, in pickle order. */
    method SaveTrainStats() returns (snap: Snapshot)
      requires Valid()
      ensures FromSnapshot(snap) == Some(store.Contents())
      ensures snap == ToSnapshot(store.Contents())
    {
      snap := store.Save();
    }

    /** reset_stats: the four dictionaries become empty; the lists stay. */
    method ResetStats()
      requires Valid()
      modifies store
      ensures Valid() && store.Contents() == EmptyTables
    {
      store.Reset();
    }
  }

  /**
   * A cold-started detector's training list holds the first fm+ad vectors
   * and its execution list every later one, whatever records arrive.
   */
  lemma {:induction false} FiledAll(vs: Vectors, grace: nat)
    ensures FiledFrom([], [], vs, grace) == (TrainPart(vs, grace), ExecPart(vs, grace))
  {
    assert TrainPart([], grace) == [] && ExecPart([], grace) == [];
    FiledFromSplit([], vs, grace);
    assert [] + vs == vs;
  }

  /** Filing the vectors of `vs` one after the other. */
  function FiledFrom(train: Vectors, exec: Vectors, vs: Vectors, grace: nat): (Vectors, Vectors)
    decreases |vs|
  {
    if vs == [] then (train, exec)
    else
      var next := Filed(train, exec, vs[0], grace);
      FiledFrom(next.0, next.1, vs[1..], grace)
  }

  lemma {:induction false} FiledFromSplit(h: Vectors, vs: Vectors, grace: nat)
    ensures FiledFrom(TrainPart(h, grace), ExecPart(h, grace), vs, grace) ==
      (TrainPart(h + vs, grace), ExecPart(h + vs, grace))
    decreases |vs|
  {
    if vs == [] {
      assert h + vs == h;
    } else {
      var h' := h + [vs[0]];
      var next := Filed(TrainPart(h, grace), ExecPart(h, grace), vs[0], grace);
      assert FiledFrom(TrainPart(h, grace), ExecPart(h, grace), vs, grace) ==
        FiledFrom(next.0, next.1, vs[1..], grace);
      FiledSplit(h, vs[0], grace);
      assert next == (TrainPart(h', grace), ExecPart(h', grace));
      FiledFromSplit(h', vs[1..], grace);
      assert h' + vs[1..] == h + vs;
    }
  }

  /**
   * The detector state and the scores after proc_next_packet accepted the
   * records of `recs` one after the other, starting from `s`; None when one
   * of them raised KeyError on its decay counter (or is not a record at
   * all).
   */
  function Replay(s: DetState, recs: seq<seq<Field>>, grace: nat, scorer: Scorer): (r: Option<(DetState, seq<real>)>)
    requires ValidTables(s.tables)
    ensures r.Some? ==> ValidTables(r.value.0.tables) && |r.value.1| == |recs|
    decreases |recs|
  {
    if recs == [] then Some((s, []))
    else
      match Replay(s, recs[..|recs| - 1], grace, scorer)
      case None => None
      case Some((s1, xs)) =>
        if !WellFormedRecord(recs[|recs| - 1], 0) then None
        else
          match Process(s1, recs[|recs| - 1], grace, scorer)
          case (_, Err(_)) => None
          case (s2, Ok(x)) => Some((s2, xs + [x]))
  }

  /** Replaying one more record is processing it after the replay of the others. */
  lemma ReplaySnoc(s: DetState, recs: seq<seq<Field>>, rec: seq<Field>, grace: nat, scorer: Scorer)
    requires ValidTables(s.tables) && WellFormedRecord(rec, 0) && Replay(s, recs, grace, scorer).Some?
    ensures var (s1, xs) := Replay(s, recs, grace, scorer).value;
      var (s2, r) := Process(s1, rec, grace, scorer);
      Replay(s, recs + [rec], grace, scorer) == if r.Ok? then Some((s2, xs + [r.value])) else None
  {
    assert (recs + [rec])[..|recs|] == recs;
  }

  /** Each score is the scorer's verdict on its vector, numbered from `n` in the history `h`. */
  ghost predicate Scored(xs: seq<real>, h: Vectors, n: nat, scorer: Scorer)
  {
    n + |xs| <= |h| && forall i :: 0 <= i < |xs| ==> xs[i] == scorer(n + i, h[n + i])
  }

  /** Scores keep their meaning when the history grows at its end. */
  lemma ScoredSnoc(xs: seq<real>, h: Vectors, v: seq<real>, n: nat, scorer: Scorer)
    requires Scored(xs, h, n, scorer) && n + |xs| == |h|
    ensures Scored(xs + [scorer(|h|, v)], h + [v], n, scorer)
  {
    var xs', h' := xs + [scorer(|h|, v)], h + [v];
    forall i | 0 <= i < |xs'|
      ensures xs'[i] == scorer(n + i, h'[n + i])
    {
      if i < |xs| {
        assert xs'[i] == xs[i] && h'[n + i] == h[n + i];
      }
    }
  }

  /**
   * Replaying from a split state keeps the split and appends one vector per
   * record to the history; each score is the scorer's verdict on its own
   * vector, numbered by its place in the history.
   */
  lemma {:induction false} ReplayScores(s: DetState, recs: seq<seq<Field>>, grace: nat, scorer: Scorer)
    requires ValidTables(s.tables) && s.Split(grace) && Replay(s, recs, grace, scorer).Some?
    ensures var (s', xs) := Replay(s, recs, grace, scorer).value;
      s'.Split(grace) && |s'.History()| == |s.History()| + |recs| &&
      s'.History()[..|s.History()|] == s.History() && Scored(xs, s'.History(), |s.History()|, scorer)
    decreases |recs|
  {
    if recs != [] {
      var front, last := recs[..|recs| - 1], recs[|recs| - 1];
      ReplayScores(s, front, grace, scorer);
      var (s1, xs1) := Replay(s, front, grace, scorer).value;
      ProcessFacts(s1, last, grace, scorer);
      var v := ApplyRecord(s1.tables, last, 0).value.features;
      ScoredSnoc(xs1, s1.History(), v, |s.History()|, scorer);
      assert (s1.History() + [v])[..|s.History()|] == s1.History()[..|s.History()|];
    }
  }

  /** proc_next_packet accepts a record exactly when its decay counter is in the table. */
  predicate Known(rec: seq<Field>)
  {
    |rec| > 6 && DecayPos(rec[6]).Some?
  }

  /** A run of records replays exactly when every decay counter in it is known. */
  lemma {:induction false} ReplayAccepts(s: DetState, recs: seq<seq<Field>>, grace: nat, scorer: Scorer)
    requires ValidTables(s.tables) && forall i :: 0 <= i < |recs| ==> WellFormedRecord(recs[i], 0)
    ensures Replay(s, recs, grace, scorer).Some? <==> forall i :: 0 <= i < |recs| ==> Known(recs[i])
    decreases |recs|
  {
    if recs != [] {
      var front, last := recs[..|recs| - 1], recs[|recs| - 1];
      ReplayAccepts(s, front, grace, scorer);
      KnownSnoc(recs, front);
      assert DecayField(last, 0) == last[6];
    }
  }

  /** The records are all known exactly when those before the last and the last one are. */
  lemma KnownSnoc(recs: seq<seq<Field>>, front: seq<seq<Field>>)
    requires recs != [] && front == recs[..|recs| - 1]
    ensures (forall i :: 0 <= i < |recs| ==> Known(recs[i])) <==>
      (forall i :: 0 <= i < |front| ==> Known(front[i])) && Known(recs[|recs| - 1])
  {
    assert forall i :: 0 <= i < |front| ==> front[i] == recs[i];
  }
}
