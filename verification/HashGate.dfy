/** The password-hashing gate: a counting semaphore with lock-free statistics.
    Every atomic operation of every request is one step, so a run is any
    interleaving of any number of requests. */
module HashGate {

  type Thread = nat

  /** Where a request stands. `n` is the in-flight count its own increment
      returned, `p` the peak it loaded, `tries` how often its compare-and-swap
      has failed so far. */
  datatype Pc =
    | Outside
    | GotSlot
    | Counting
    | InLoop(n: int, tries: nat)
    | Loaded(n: int, p: int, tries: nat)
    | Hashing
    | Releasing

  /** `limit` zero or less means no semaphore. */
  datatype Gate = Gate(
    limit: int, slots: nat, admitted: nat, shed: nat, inFlight: int, peak: int, pcs: map<Thread, Pc>)

  datatype Kind = Acquire | Shed | Admit | Count | Load | Swap | Done | Free

  datatype Step = Step(t: Thread, kind: Kind)

  function PcOf(g: Gate, t: Thread): (pc: Pc) {
    if t in g.pcs then g.pcs[t] else Outside
  }

  predicate Gated(g: Gate) {
    g.limit > 0
  }

  /** The atomic operations a request may do next; a full channel blocks the send. */
  predicate Enabled(g: Gate, s: Step) {
    var pc := PcOf(g, s.t);
    match s.kind
    case Acquire => pc == Outside && (Gated(g) ==> g.slots < g.limit)
    case Shed => pc == Outside && Gated(g)
    case Admit => pc == GotSlot
    case Count => pc == Counting
    case Load => pc.InLoop?
    case Swap => pc.Loaded?
    case Done => pc == Hashing
    case Free => pc == Releasing && (Gated(g) ==> g.slots > 0)
  }

  function At(g: Gate, t: Thread, pc: Pc): (g': Gate) {
    g.(pcs := g.pcs[t := pc])
  }

  function Apply(g: Gate, s: Step): (g': Gate)
    requires Enabled(g, s)
  {
    var pc := PcOf(g, s.t);
    match s.kind
    case Acquire => At(if Gated(g) then g.(slots := g.slots + 1) else g, s.t, GotSlot)
    case Shed => g.(shed := g.shed + 1)
    case Admit => At(g.(admitted := g.admitted + 1), s.t, Counting)
    case Count => At(g.(inFlight := g.inFlight + 1), s.t, InLoop(g.inFlight + 1, 0))
    case Load => At(g, s.t, Loaded(pc.n, g.peak, pc.tries))
    case Swap =>
      if pc.n <= pc.p then At(g, s.t, Hashing)
      else if g.peak == pc.p then At(g.(peak := pc.n), s.t, Hashing)
      else At(g, s.t, InLoop(pc.n, pc.tries + 1))
    case Done => At(g.(inFlight := g.inFlight - 1), s.t, Releasing)
    case Free => At(if Gated(g) then g.(slots := g.slots - 1) else g, s.t, Outside)
  }

  function NewGate(limit: int): (g: Gate) {
    Gate(limit, 0, 0, 0, 0, 0, map[])
  }

  ghost predicate Possible(g: Gate, steps: seq<Step>)
    decreases |steps|
  {
    steps == [] || (Enabled(g, steps[0]) && Possible(Apply(g, steps[0]), steps[1..]))
  }

  function Run(g: Gate, steps: seq<Step>): (g': Gate)
    requires Possible(g, steps)
    decreases |steps|
  {
    if steps == [] then g else Run(Apply(g, steps[0]), steps[1..])
  }

  /** The largest in-flight count of any state of the run. */
  function HistoricalMax(g: Gate, steps: seq<Step>): (m: int)
    requires Possible(g, steps)
    decreases |steps|
  {
    if steps == [] then g.inFlight else
      var m := HistoricalMax(Apply(g, steps[0]), steps[1..]);
      if g.inFlight <= m then m else g.inFlight
  }

  // ---------------------------------------------------------------- the invariant

  predicate IsHolder(pc: Pc) {
    pc != Outside
  }

  predicate IsCounted(pc: Pc) {
    pc.InLoop? || pc.Loaded? || pc.Hashing?
  }

  predicate MidLoop(pc: Pc) {
    pc.InLoop? || pc.Loaded?
  }

  ghost function Holders(g: Gate): (ts: set<Thread>) {
    set t | t in g.pcs && IsHolder(g.pcs[t])
  }

  ghost function CountedThreads(g: Gate): (ts: set<Thread>) {
    set t | t in g.pcs && IsCounted(g.pcs[t])
  }

  ghost function HashingThreads(g: Gate): (ts: set<Thread>) {
    set t | t in g.pcs && g.pcs[t] == Hashing
  }

  ghost predicate PcOk(g: Gate, pc: Pc) {
    match pc
    case InLoop(n, tries) => tries <= n && tries <= g.peak
    case Loaded(n, p, tries) => tries <= n && tries <= p <= g.peak
    case _ => true
  }

  /** `m` is the largest in-flight count so far: `peak` has reached it, or a
      request that saw it is still on its way to writing it. */
  ghost predicate Inv(g: Gate, m: int) {
    && g.inFlight == |CountedThreads(g)|
    && (Gated(g) ==> g.slots == |Holders(g)| <= g.limit)
    && 0 <= g.peak <= m && g.inFlight <= m
    && (Gated(g) ==> m <= g.limit)
    && (forall t <- g.pcs :: PcOk(g, g.pcs[t]) && (MidLoop(g.pcs[t]) ==> g.pcs[t].n <= m))
    && (g.peak < m ==> exists t <- g.pcs :: MidLoop(g.pcs[t]) && g.pcs[t].n == m)
  }

  function Max(x: int, y: int): (r: int) {
    if x <= y then y else x
  }

  lemma CountedHold(g: Gate)
    ensures CountedThreads(g) <= Holders(g) && |CountedThreads(g)| <= |Holders(g)|
  {
    assert CountedThreads(g) <= Holders(g);
    Included(CountedThreads(g), Holders(g));
  }

  lemma {:induction false} Included(a: set<Thread>, b: set<Thread>)
    requires a <= b
    ensures |a| <= |b|
  {
    assert b == a + (b - a);
  }

  function One(b: bool): (n: nat) {
    if b then 1 else 0
  }

  /** One thread's move changes each count by that thread alone. */
  lemma MoveHolders(g: Gate, g': Gate, t: Thread, pc: Pc)
    requires g'.pcs == g.pcs[t := pc]
    ensures |Holders(g')| == |Holders(g)| - One(IsHolder(PcOf(g, t))) + One(IsHolder(pc))
  {
    CountedApart(Holders(g), t);
    CountedApart(Holders(g'), t);
    assert Holders(g) - {t} == Holders(g') - {t};
  }

  lemma MoveCounted(g: Gate, g': Gate, t: Thread, pc: Pc)
    requires g'.pcs == g.pcs[t := pc]
    ensures |CountedThreads(g')| == |CountedThreads(g)| - One(IsCounted(PcOf(g, t))) + One(IsCounted(pc))
  {
    var before := CountedThreads(g);
    var after := CountedThreads(g');
    assert before - {t} == after - {t} by {
      forall x | x != t
        ensures x in before <==> x in after
      {
        assert x in g.pcs <==> x in g'.pcs;
      }
    }
    assert t in before <==> IsCounted(PcOf(g, t));
    assert t in after <==> IsCounted(pc);
    CountedApart(before, t);
    CountedApart(after, t);
  }

  lemma CountedApart(s: set<Thread>, t: Thread)
    ensures |s| == |s - {t}| + One(t in s)
  {
    if t in s {
      assert s == (s - {t}) + {t};
    }
  }

  lemma ApplyCounts(g: Gate, m: int, s: Step)
    requires Inv(g, m) && Enabled(g, s)
    ensures var g' := Apply(g, s);
            && g'.inFlight == |CountedThreads(g')| && g'.limit == g.limit
            && (Gated(g) ==> g'.slots == |Holders(g')| <= g.limit)
  {
    var g' := Apply(g, s);
    if s.kind != Shed {
      MoveHolders(g, g', s.t, g'.pcs[s.t]);
      MoveCounted(g, g', s.t, g'.pcs[s.t]);
    }
  }

  /** What a step does to `peak` and to the highest count. */
  lemma ApplyPeak(g: Gate, m: int, s: Step)
    requires Inv(g, m) && Enabled(g, s)
    ensures var g' := Apply(g, s); var m' := Max(m, g'.inFlight);
            && g.peak <= g'.peak <= m'
            && (forall t <- g'.pcs :: PcOk(g', g'.pcs[t]) && (MidLoop(g'.pcs[t]) ==> g'.pcs[t].n <= m'))
  {
    var g' := Apply(g, s);
    if s.kind == Count {
      assert g.inFlight >= 0;
    }
  }

  lemma ApplyWitness(g: Gate, m: int, s: Step)
    requires Inv(g, m) && Enabled(g, s)
    ensures var g' := Apply(g, s); var m' := Max(m, g'.inFlight);
            g'.peak < m' ==> exists t <- g'.pcs :: MidLoop(g'.pcs[t]) && g'.pcs[t].n == m'
  {
    var g' := Apply(g, s);
    var m' := Max(m, g'.inFlight);
    if g'.peak < m' {
      if m' > m {
        assert MidLoop(g'.pcs[s.t]) && g'.pcs[s.t].n == m';
      } else {
        assert g.peak < m by { ApplyPeak(g, m, s); }
        var t :| t in g.pcs && MidLoop(g.pcs[t]) && g.pcs[t].n == m;
        assert t in g'.pcs && MidLoop(g'.pcs[t]) && g'.pcs[t].n == m;
      }
    }
  }

  lemma ApplyInv(g: Gate, m: int, s: Step)
    requires Inv(g, m) && Enabled(g, s)
    ensures Inv(Apply(g, s), Max(m, Apply(g, s).inFlight))
  {
    ApplyCounts(g, m, s);
    ApplyPeak(g, m, s);
    ApplyWitness(g, m, s);
    CountedHold(Apply(g, s));
  }

  lemma {:induction false} RunInv(g: Gate, m: int, steps: seq<Step>)
    requires Inv(g, m) && Possible(g, steps)
    ensures Inv(Run(g, steps), Max(m, HistoricalMax(g, steps)))
    ensures Run(g, steps).limit == g.limit && Run(g, steps).peak >= g.peak
    decreases |steps|
  {
    if steps != [] {
      ApplyInv(g, m, steps[0]);
      ApplyPeak(g, m, steps[0]);
      RunInv(Apply(g, steps[0]), Max(m, Apply(g, steps[0]).inFlight), steps[1..]);
      MaxCoversStart(Apply(g, steps[0]), steps[1..]);
    }
  }

  lemma {:induction false} MaxCoversStart(g: Gate, steps: seq<Step>)
    requires Possible(g, steps)
    ensures g.inFlight <= HistoricalMax(g, steps)
  {}

  // ---------------------------------------------------------------- the gate's promises

  lemma Reached(limit: int, steps: seq<Step>)
    requires Possible(NewGate(limit), steps)
    ensures Inv(Run(NewGate(limit), steps), HistoricalMax(NewGate(limit), steps))
    ensures Run(NewGate(limit), steps).limit == limit
  {
    MaxCoversStart(NewGate(limit), steps);
    RunInv(NewGate(limit), 0, steps);
  }

  /** In-flight, slots held, limit: in every state of every run, with the
      reported peak never above the limit. */
  lemma GateBound(limit: int, steps: seq<Step>)
    requires Possible(NewGate(limit), steps) && limit > 0
    ensures var g := Run(NewGate(limit), steps);
            |HashingThreads(g)| <= g.inFlight <= g.slots <= limit && 0 <= g.peak <= limit
  {
    Reached(limit, steps);
    var g := Run(NewGate(limit), steps);
    CountedHold(g);
    assert HashingThreads(g) <= CountedThreads(g);
    Included(HashingThreads(g), CountedThreads(g));
  }

  /** With no count mid-loop, `peak` is the historical maximum, gated or not. */
  lemma PeakIsHistoricalMax(limit: int, steps: seq<Step>)
    requires Possible(NewGate(limit), steps)
    requires forall t <- Run(NewGate(limit), steps).pcs :: !MidLoop(Run(NewGate(limit), steps).pcs[t])
    ensures Run(NewGate(limit), steps).peak == HistoricalMax(NewGate(limit), steps)
  {
    Reached(limit, steps);
  }

  /** A failed compare-and-swap means `peak` rose past the value it had loaded,
      so a request whose count was `n` fails at most `n` times. */
  lemma RetriesAreBounded(limit: int, steps: seq<Step>, t: Thread)
    requires Possible(NewGate(limit), steps)
    requires MidLoop(PcOf(Run(NewGate(limit), steps), t))
    ensures var g := Run(NewGate(limit), steps); var pc := PcOf(g, t);
            && pc.tries <= pc.n
            && (limit > 0 ==> pc.tries <= limit)
            && (pc.Loaded? && Apply(g, Step(t, Swap)).pcs[t].InLoop? ==> g.peak > pc.p)
  {
    Reached(limit, steps);
  }

  lemma RunOne(g: Gate, s: Step, more: seq<Step>)
    requires Enabled(g, s) && Possible(Apply(g, s), more)
    ensures Possible(g, [s] + more) && Run(g, [s] + more) == Run(Apply(g, s), more)
  {
    assert ([s] + more)[1..] == more;
  }

  /** Load and compare-and-swap undisturbed: the request leaves the loop and
      `peak` covers its count. */
  lemma UndisturbedCountEnds(g: Gate, t: Thread)
    requires PcOf(g, t).InLoop?
    ensures var steps := [Step(t, Load)] + ([Step(t, Swap)] + []);
            && Possible(g, steps)
            && PcOf(Run(g, steps), t) == Hashing
            && Run(g, steps).peak == Max(g.peak, PcOf(g, t).n)
  {
    var g1 := Apply(g, Step(t, Load));
    RunOne(g1, Step(t, Swap), []);
    RunOne(g, Step(t, Load), [Step(t, Swap)] + []);
  }

  // ---------------------------------------------------------------- admitting and shedding

  /** How many steps of the run are of that kind. */
  function Times(steps: seq<Step>, kind: Kind): (n: nat) {
    if steps == [] then 0 else (if steps[0].kind == kind then 1 else 0) + Times(steps[1..], kind)
  }

  /** The two counters are the requests admitted and shed. */
  lemma {:induction false} CountersCount(g: Gate, steps: seq<Step>)
    requires Possible(g, steps)
    ensures Run(g, steps).admitted == g.admitted + Times(steps, Admit)
    ensures Run(g, steps).shed == g.shed + Times(steps, Kind.Shed)
    decreases |steps|
  {
    if steps != [] {
      CountersCount(Apply(g, steps[0]), steps[1..]);
    }
  }

  /** In every state of every run: a request gets in exactly while fewer than the limit
      hold a slot, and whoever is inside can always do its next operation. */
  lemma FreeSlotIsUsable(limit: int, steps: seq<Step>, t: Thread)
    requires Possible(NewGate(limit), steps)
    ensures var g := Run(NewGate(limit), steps);
      && (PcOf(g, t) == Outside ==> (Enabled(g, Step(t, Acquire)) <==> limit <= 0 || |Holders(g)| < limit))
      && (PcOf(g, t) != Outside ==> exists kind :: Enabled(g, Step(t, kind)))
  {
    Reached(limit, steps);
    var g := Run(NewGate(limit), steps);
    var kind := match PcOf(g, t)
      case Outside => Acquire
      case GotSlot => Admit
      case Counting => Count
      case InLoop(_, _) => Load
      case Loaded(_, _, _) => Swap
      case Hashing => Done
      case Releasing => Free;
    if PcOf(g, t) != Outside {
      assert t in Holders(g);
      assert Enabled(g, Step(t, kind));
    }
  }

  // ---------------------------------------------------------------- why the release order matters

  /** The other order: the slot is handed on before the counter goes down. */
  function SlotFirst(g: Gate, t: Thread): (g': Gate)
    requires PcOf(g, t) == Hashing && Gated(g) && g.slots > 0
  {
    At(g.(slots := g.slots - 1), t, Releasing)
  }

  /** With that order and a limit of one, a second request reports a peak of two. */
  lemma SlotFirstOverstatesThePeak()
    ensures exists steps, more ::
      && Possible(NewGate(1), steps) && PcOf(Run(NewGate(1), steps), 0) == Hashing && Run(NewGate(1), steps).slots > 0
      && Gated(Run(NewGate(1), steps))
      && Possible(SlotFirst(Run(NewGate(1), steps), 0), more)
      && Run(SlotFirst(Run(NewGate(1), steps), 0), more).peak == 2 > Run(NewGate(1), steps).limit
  {
    var steps := Entering(0);
    EnteringRun(NewGate(1), 0);
    var g := Run(NewGate(1), steps);
    EnteringRun(SlotFirst(g, 0), 1);
  }

  function Entering(t: Thread): (steps: seq<Step>) {
    [Step(t, Acquire)] + ([Step(t, Admit)] + ([Step(t, Count)] + ([Step(t, Load)] + ([Step(t, Swap)] + []))))
  }

  lemma EnteringRun(g: Gate, t: Thread)
    requires PcOf(g, t) == Outside && Gated(g) && g.slots < g.limit
    ensures Possible(g, Entering(t))
    ensures var g' := Run(g, Entering(t));
            && g'.inFlight == g.inFlight + 1 && g'.slots == g.slots + 1 && g'.limit == g.limit
            && g'.peak == Max(g.peak, g.inFlight + 1) && g'.pcs == g.pcs[t := Hashing]
  {
    var g1 := Apply(g, Step(t, Acquire));
    var g2 := Apply(g1, Step(t, Admit));
    var g3 := Apply(g2, Step(t, Count));
    var g4 := Apply(g3, Step(t, Load));
    RunOne(g4, Step(t, Swap), []);
    RunOne(g3, Step(t, Load), [Step(t, Swap)] + []);
    RunOne(g2, Step(t, Count), [Step(t, Load)] + ([Step(t, Swap)] + []));
    RunOne(g1, Step(t, Admit), [Step(t, Count)] + ([Step(t, Load)] + ([Step(t, Swap)] + [])));
    RunOne(g, Step(t, Acquire), [Step(t, Admit)] + ([Step(t, Count)] + ([Step(t, Load)] + ([Step(t, Swap)] + []))));
  }

  // ---------------------------------------------------------------- sizing

  const HASH_COST_BYTES := 19 * 1024 * 1024
  const MIN_HASH_CONCURRENCY := 2
  const MAX_HASH_CONCURRENCY := 64

  /** As many hashes as fit in the budget, within the two clamps. */
  function HashConcurrencyFor(budgetBytes: nat): (n: int)
    requires budgetBytes < 0x1_0000_0000_0000_0000
    ensures MIN_HASH_CONCURRENCY <= n <= MAX_HASH_CONCURRENCY
    ensures n > MIN_HASH_CONCURRENCY ==> n * HASH_COST_BYTES <= budgetBytes
    ensures n < MAX_HASH_CONCURRENCY ==> budgetBytes < (n + 1) * HASH_COST_BYTES
  {
    var n := budgetBytes / HASH_COST_BYTES;
    if n < MIN_HASH_CONCURRENCY then MIN_HASH_CONCURRENCY
    else if n > MAX_HASH_CONCURRENCY then MAX_HASH_CONCURRENCY
    else n
  }

  /** The gate sized from a budget of at least two hashes never commits more
      hashing memory than the budget, nor reports more. */
  lemma HashingFitsTheBudget(budgetBytes: nat, steps: seq<Step>)
    requires 2 * HASH_COST_BYTES <= budgetBytes < 0x1_0000_0000_0000_0000
    requires Possible(NewGate(HashConcurrencyFor(budgetBytes)), steps)
    ensures var g := Run(NewGate(HashConcurrencyFor(budgetBytes)), steps);
            && |HashingThreads(g)| * HASH_COST_BYTES <= budgetBytes
            && g.peak * HASH_COST_BYTES <= budgetBytes
  {
    GateBound(HashConcurrencyFor(budgetBytes), steps);
  }
}
