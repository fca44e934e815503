// Definitions shared by the two per-packet driver loops (the offline
// KitNET pipeline and the switch controller's pipeline): training phases,
// the opaque feature calculator and anomaly scorer, and evaluation rows.
module Driver {
  import opened Values

  /** The three phases of a run, in the order a run goes through them. */
  datatype Phase = ExactTraining | ApproxTraining | Execution

  function Rank(p: Phase): nat
  {
    match p
    case ExactTraining => 0
    case ApproxTraining => 1
    case Execution => 2
  }

  /**
   * The phase selected for a packet when `n` training slots are used up:
   * exact statistics while n < bound (the exact-statistics share of the
   * training phase times its length), approximate ones while n < grace,
   * execution otherwise; a warm start is always in execution.
   */
  function PhaseOf(n: nat, grace: nat, bound: real, warm: bool): (p: Phase)
    ensures p == ExactTraining <==> !warm && (n as real) < bound
    ensures p == Execution <==> warm || (grace <= n && bound <= n as real)
  {
    if (n as real) < bound && !warm then ExactTraining
    else if n < grace && !warm then ApproxTraining
    else Execution
  }

  /** The phase never moves backwards as the slot count grows. */
  lemma PhaseMonotone(n: nat, m: nat, grace: nat, bound: real, warm: bool)
    requires n <= m
    ensures Rank(PhaseOf(n, grace, bound, warm)) <= Rank(PhaseOf(m, grace, bound, warm))
  {
    if PhaseOf(m, grace, bound, warm) == ExactTraining {
      assert (n as real) <= (m as real);
    }
  }

  /** Training lasts at most this many slots, whatever the bound. */
  function TrainingLimit(grace: nat, bound: real): (l: nat)
    ensures forall n: nat {:trigger PhaseOf(n, grace, bound, false)} ::
      PhaseOf(n, grace, bound, false) != Execution ==> n < l
  {
    var exact := bound.Floor + 1;
    if exact > grace then exact else grace
  }

  /** Slots still to go before the run reaches the execution phase. */
  function TrainingLeft(n: nat, grace: nat, bound: real, warm: bool): nat
  {
    if PhaseOf(n, grace, bound, warm) == Execution then 0 else TrainingLimit(grace, bound) - n
  }

  /**
   * Slots to go never grow, and shrink with every slot used while the run
   * is still training.
   */
  lemma TrainingLeftStep(n: nat, m: nat, grace: nat, bound: real, warm: bool)
    requires n <= m
    ensures TrainingLeft(m, grace, bound, warm) <= TrainingLeft(n, grace, bound, warm)
    ensures n < m && PhaseOf(n, grace, bound, warm) != Execution ==>
      TrainingLeft(m, grace, bound, warm) < TrainingLeft(n, grace, bound, warm)
  {
    PhaseMonotone(n, m, grace, bound, warm);
  }

  /** How the feature calculator is asked for the current packet's statistics. */
  datatype Mode = Mode(exact: bool, training: bool)

  /**
   * The feature calculator's answer for a packet: no statistics at all (the
   * run stops), statistics that do not apply (the packet is skipped), or a
   * flattened statistics record.
   */
  datatype SourceResult = NoStats | NotApplicable | Stats(rec: seq<Field>)

  /**
   * The external feature calculator, as a function of how many packets it
   * has been advanced over and how it is asked.
   */
  type FeatureSource = (nat, Mode) -> SourceResult

  /** The external anomaly scorer: the score of its n-th input vector. */
  type Scorer = (nat, seq<real>) -> real

  /** One evaluation row: six header fields, the score, the ground-truth label. */
  datatype EvalRow = EvalRow(header: seq<Field>, rmse: real, truth: int)

  /** The positions start, start+1, …, start+k-1 whose label is 1. */
  ghost function AttackPositions(labels: seq<int>, start: int, k: nat): set<int>
  {
    set j | start <= j < start + k && PyIndex(labels, j) == Some(1)
  }

  /**
   * The number of attack labels among k consecutive positions, as the
   * data-plane attack counter accumulates it one packet at a time.
   */
  function CountAttacks(labels: seq<int>, start: int, k: nat): (c: nat)
    ensures c == |AttackPositions(labels, start, k)| && c <= k
  {
    if k == 0 then
      assert AttackPositions(labels, start, k) == {};
      0
    else
      var last := start + k - 1;
      var hit := PyIndex(labels, last) == Some(1);
      assert AttackPositions(labels, start, k) ==
        AttackPositions(labels, start, k - 1) + (if hit then {last} else {});
      CountAttacks(labels, start, k - 1) + (if hit then 1 else 0)
  }
}
