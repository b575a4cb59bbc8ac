/** Seeding the dictionary registry: workers that share an unbuffered channel
    fill a table in parallel. Every send, receive, load and exit is one step, so
    a run is any schedule. */
module Seeding {
  import opened RoomTypes

  datatype Entry = Entry(lang: string, dictHash: string, raw: string)

  datatype Loaded = Read(entry: Entry) | Broken(error: string)

  /** What one seeding works on: building worker `w`'s own core fails iff
      `coreError(w)` has a value; worker zero reuses the caller's core. */
  datatype Config = Config(names: seq<string>, workers: nat, load: string -> Loaded, coreError: nat -> Option<string>)

  /** As many workers as processors, but no more than there are files, and one at least. */
  function WorkersFor(processors: int, files: nat): (n: nat)
    ensures n >= 1
    ensures n <= processors || n == 1
    ensures n <= files || n == 1
    ensures n < processors ==> n >= files
    ensures n < files ==> n >= processors
  {
    var n := if processors > files then files else processors;
    if n < 1 then 1 else n
  }

  datatype Pc = Starting | Waiting | Working(i: nat) | Exited

  /** `sent` indices have been handed over; `owners[i]` is the worker that took
      index `i`, and `worked` counts the indices whose turn is over: both are logs. */
  datatype Pool = Pool(
    sent: nat, closed: bool, pcs: seq<Pc>, errs: seq<Option<string>>, out: seq<Option<Entry>>,
    owners: seq<nat>, worked: multiset<nat>)

  datatype Step = Start(w: nat) | Hand(w: nat) | Work(w: nat) | Close | Exit(w: nat)

  function CoreErrorOf(c: Config, w: nat): (e: Option<string>) {
    if w > 0 then c.coreError(w) else None
  }

  predicate Shape(c: Config, s: Pool) {
    && |s.pcs| == |s.errs| == c.workers && |s.out| == |c.names|
    && s.sent == |s.owners| <= |c.names|
    && forall w :: 0 <= w < |s.pcs| && s.pcs[w].Working? ==> s.pcs[w].i < |c.names|
  }

  predicate Enabled(c: Config, s: Pool, step: Step) {
    match step
    case Start(w) => w < |s.pcs| && s.pcs[w] == Starting
    case Hand(w) => w < |s.pcs| && s.pcs[w] == Waiting && s.sent < |c.names|
    case Work(w) => w < |s.pcs| && s.pcs[w].Working?
    case Close => s.sent == |c.names| && !s.closed
    case Exit(w) => w < |s.pcs| && s.pcs[w] == Waiting && s.closed
  }

  /** A worker with an error keeps receiving and does nothing. */
  function Worked(c: Config, s: Pool, w: nat): (s': Pool)
    requires Shape(c, s) && w < |s.pcs| && s.pcs[w].Working?
  {
    var i := s.pcs[w].i;
    var s1 := s.(pcs := s.pcs[w := Waiting], worked := s.worked + multiset{i});
    if s.errs[w].Some? then s1 else
      match c.load(c.names[i])
      case Broken(error) => s1.(errs := s.errs[w := Some(error)])
      case Read(entry) => s1.(out := s.out[i := Some(entry)])
  }

  function Apply(c: Config, s: Pool, step: Step): (s': Pool)
    requires Shape(c, s) && Enabled(c, s, step)
    ensures Shape(c, s')
  {
    match step
    case Start(w) => s.(pcs := s.pcs[w := Waiting], errs := if CoreErrorOf(c, w).Some? then s.errs[w := CoreErrorOf(c, w)] else s.errs)
    case Hand(w) => s.(pcs := s.pcs[w := Working(s.sent)], sent := s.sent + 1, owners := s.owners + [w])
    case Work(w) => Worked(c, s, w)
    case Close => s.(closed := true)
    case Exit(w) => s.(pcs := s.pcs[w := Exited])
  }

  function Fresh(c: Config): (s: Pool)
    ensures Shape(c, s)
  {
    Pool(0, false, seq(c.workers, _ => Starting), seq(c.workers, _ => None), seq(|c.names|, _ => None), [], multiset{})
  }

  ghost predicate Possible(c: Config, s: Pool, steps: seq<Step>)
    requires Shape(c, s)
    decreases |steps|
  {
    steps == [] || (Enabled(c, s, steps[0]) && Possible(c, Apply(c, s, steps[0]), steps[1..]))
  }

  function Run(c: Config, s: Pool, steps: seq<Step>): (s': Pool)
    requires Shape(c, s) && Possible(c, s, steps)
    ensures Shape(c, s')
    decreases |steps|
  {
    if steps == [] then s else Run(c, Apply(c, s, steps[0]), steps[1..])
  }

  predicate Finished(s: Pool) {
    forall pc <- s.pcs :: pc == Exited
  }

  /** The first error in worker order. */
  function FirstError(errs: seq<Option<string>>): (e: Option<string>)
    ensures e.None? <==> forall x <- errs :: x.None?
  {
    if errs == [] then None else if errs[0].Some? then errs[0] else FirstError(errs[1..])
  }

  datatype Outcome = Seeded(entries: seq<Entry>) | SeedError(error: string)

  // ---------------------------------------------------------------- the invariant

  /** Index `i` is in its owner's hands, lost to its owner's error, or loaded. */
  ghost predicate Handled(c: Config, s: Pool, i: nat)
    requires Shape(c, s) && i < s.sent
  {
    var w := s.owners[i];
    && w < c.workers
    && (s.pcs[w] == Working(i) || s.errs[w].Some? || (c.load(c.names[i]).Read? && s.out[i] == Some(c.load(c.names[i]).entry)))
    && s.worked[i] == (if s.pcs[w] == Working(i) then 0 else 1)
  }

  /** An error has a cause: the worker's own core, or a file it was handed. */
  ghost predicate Caused(c: Config, s: Pool, w: nat)
    requires Shape(c, s) && w < c.workers && s.errs[w].Some?
  {
    || CoreErrorOf(c, w) == s.errs[w]
    || exists i :: 0 <= i < s.sent && s.owners[i] == w && c.load(c.names[i]) == Broken(s.errs[w].value)
  }

  ghost predicate WorkerOk(c: Config, s: Pool, w: nat)
    requires Shape(c, s) && w < c.workers
  {
    && (s.errs[w].Some? ==> Caused(c, s, w))
    && (s.pcs[w] != Starting && CoreErrorOf(c, w).Some? ==> s.errs[w].Some?)
    && (s.pcs[w].Working? ==> s.pcs[w].i < s.sent && s.owners[s.pcs[w].i] == w)
    && (s.pcs[w] == Exited ==> s.closed)
  }

  ghost predicate Inv(c: Config, s: Pool) {
    && Shape(c, s)
    && (s.closed ==> s.sent == |c.names|)
    && (forall i {:trigger Handled(c, s, i)} :: 0 <= i < s.sent ==> Handled(c, s, i))
    && (forall i :: s.sent <= i ==> s.worked[i] == 0)
    && (forall w {:trigger WorkerOk(c, s, w)} :: 0 <= w < c.workers ==> WorkerOk(c, s, w))
  }

  lemma FreshInv(c: Config)
    ensures Inv(c, Fresh(c))
  {}

  lemma StepHandled(c: Config, s: Pool, step: Step, i: nat)
    requires Inv(c, s) && Enabled(c, s, step) && i < Apply(c, s, step).sent
    ensures Handled(c, Apply(c, s, step), i)
  {
    if i < s.sent {
      assert Handled(c, s, i);
    }
    if step.Work? {
      assert WorkerOk(c, s, step.w);
    }
  }

  lemma StepWorker(c: Config, s: Pool, step: Step, w: nat)
    requires Inv(c, s) && Enabled(c, s, step) && w < c.workers
    ensures WorkerOk(c, Apply(c, s, step), w)
  {
    assert WorkerOk(c, s, w);
    var s' := Apply(c, s, step);
    if s'.errs[w].Some? {
      StepCaused(c, s, step, w);
    }
  }

  lemma StepCaused(c: Config, s: Pool, step: Step, w: nat)
    requires Inv(c, s) && Enabled(c, s, step) && w < c.workers && Apply(c, s, step).errs[w].Some?
    ensures Caused(c, Apply(c, s, step), w)
  {
    assert WorkerOk(c, s, w);
    var s' := Apply(c, s, step);
    if s.errs[w].Some? && s'.errs[w] == s.errs[w] {
      if CoreErrorOf(c, w) != s.errs[w] {
        var i :| 0 <= i < s.sent && s.owners[i] == w && c.load(c.names[i]) == Broken(s.errs[w].value);
        assert s'.owners[i] == w;
      }
    } else if step.Work? {
      var i := s.pcs[step.w].i;
      assert s'.owners[i] == w;
    }
  }

  lemma StepInv(c: Config, s: Pool, step: Step)
    requires Inv(c, s) && Enabled(c, s, step)
    ensures Inv(c, Apply(c, s, step))
  {
    var s' := Apply(c, s, step);
    forall i | 0 <= i < s'.sent
      ensures Handled(c, s', i)
    {
      StepHandled(c, s, step, i);
    }
    forall w | 0 <= w < c.workers
      ensures WorkerOk(c, s', w)
    {
      StepWorker(c, s, step, w);
    }
    if step.Work? {
      assert WorkerOk(c, s, step.w);
    }
  }

  lemma {:induction false} RunInv(c: Config, s: Pool, steps: seq<Step>)
    requires Inv(c, s) && Possible(c, s, steps)
    ensures Inv(c, Run(c, s, steps))
    decreases |steps|
  {
    if steps != [] {
      StepInv(c, s, steps[0]);
      RunInv(c, Apply(c, s, steps[0]), steps[1..]);
    }
  }

  // ---------------------------------------------------------------- progress

  /** No schedule gets stuck: until every worker has exited some step is possible. */
  lemma NeverStuck(c: Config, s: Pool)
    requires Inv(c, s) && !Finished(s)
    ensures exists step :: Enabled(c, s, step)
  {
    var w :| 0 <= w < |s.pcs| && s.pcs[w] != Exited;
    match s.pcs[w]
    case Starting => assert Enabled(c, s, Start(w));
    case Working(_) => assert Enabled(c, s, Work(w));
    case Waiting =>
      if s.sent < |c.names| {
        assert Enabled(c, s, Hand(w));
      } else if s.closed {
        assert Enabled(c, s, Exit(w));
      } else {
        assert Enabled(c, s, Close);
      }
  }

  function PcWeight(pc: Pc): (n: nat) {
    match pc case Exited => 0 case Waiting => 1 case _ => 2
  }

  function Weights(pcs: seq<Pc>): (n: nat) {
    if pcs == [] then 0 else PcWeight(pcs[0]) + Weights(pcs[1..])
  }

  lemma {:induction false} WeightUpdate(pcs: seq<Pc>, w: nat, pc: Pc)
    requires w < |pcs|
    ensures Weights(pcs[w := pc]) == Weights(pcs) - PcWeight(pcs[w]) + PcWeight(pc)
  {
    if w == 0 {
      assert pcs[w := pc][1..] == pcs[1..];
    } else {
      assert pcs[w := pc][1..] == pcs[1..][w-1 := pc];
      WeightUpdate(pcs[1..], w - 1, pc);
    }
  }

  /** What is left to do. */
  function Left(c: Config, s: Pool): (n: int) {
    2 * (|c.names| - s.sent) + Weights(s.pcs) + if s.closed then 0 else 1
  }

  lemma StepLeft(c: Config, s: Pool, step: Step)
    requires Shape(c, s) && Enabled(c, s, step)
    ensures 0 <= Left(c, Apply(c, s, step)) < Left(c, s)
  {
    if !step.Close? {
      WeightUpdate(s.pcs, step.w, Apply(c, s, step).pcs[step.w]);
    }
  }

  lemma {:induction false} RunLength(c: Config, s: Pool, steps: seq<Step>)
    requires Shape(c, s) && Possible(c, s, steps)
    ensures |steps| <= Left(c, s) - Left(c, Run(c, s, steps))
    decreases |steps|
  {
    if steps != [] {
      StepLeft(c, s, steps[0]);
      RunLength(c, Apply(c, s, steps[0]), steps[1..]);
    }
  }

  lemma {:induction false} FreshWeights(pcs: seq<Pc>)
    requires forall i :: 0 <= i < |pcs| ==> pcs[i] == Starting
    ensures Weights(pcs) == 2 * |pcs|
  {
    if pcs != [] {
      FreshWeights(pcs[1..]);
    }
  }

  /** Every schedule is finite, and one that cannot go on has finished: the
      producer never deadlocks, whatever failed. */
  lemma SeedingEnds(c: Config, steps: seq<Step>)
    requires Possible(c, Fresh(c), steps)
    ensures |steps| <= 2 * |c.names| + 2 * c.workers + 1
    ensures Finished(Run(c, Fresh(c), steps)) || exists step :: Enabled(c, Run(c, Fresh(c), steps), step)
  {
    RunLength(c, Fresh(c), steps);
    FreshWeights(Fresh(c).pcs);
    FreshInv(c);
    RunInv(c, Fresh(c), steps);
    if !Finished(Run(c, Fresh(c), steps)) {
      NeverStuck(c, Run(c, Fresh(c), steps));
    }
  }

  // ---------------------------------------------------------------- the result

  /** What the caller gets back once every worker has exited. */
  function ResultOf(c: Config, s: Pool): (r: Outcome)
    requires Shape(c, s) && (FirstError(s.errs).None? ==> forall x <- s.out :: x.Some?)
  {
    match FirstError(s.errs)
    case Some(error) => SeedError(error)
    case None => Seeded(seq(|s.out|, i requires 0 <= i < |s.out| => s.out[i].value))
  }

  /** Some core or some file fails with this error. */
  ghost predicate Produces(c: Config, error: string) {
    || (exists w :: 0 <= w < c.workers && CoreErrorOf(c, w) == Some(error))
    || (exists name <- c.names :: c.load(name) == Broken(error))
  }

  ghost predicate SomethingFails(c: Config) {
    exists error :: Produces(c, error)
  }

  /** Each index was handed out and worked off once; the result is an error iff
      some core or some file fails, and otherwise the sequential map. */
  lemma SeedingIsTheSequentialMap(c: Config, steps: seq<Step>)
    requires c.workers >= 1 && Possible(c, Fresh(c), steps) && Finished(Run(c, Fresh(c), steps))
    ensures var s := Run(c, Fresh(c), steps);
            && s.sent == |c.names| && (forall i :: 0 <= i < |c.names| ==> s.worked[i] == 1)
            && (FirstError(s.errs).None? ==> forall x <- s.out :: x.Some?)
            && (ResultOf(c, s).SeedError? <==> SomethingFails(c))
            && (ResultOf(c, s).SeedError? ==> Produces(c, ResultOf(c, s).error))
            && (!SomethingFails(c) ==> ResultOf(c, s) == Seeded(Mapped(c)))
  {
    var s := Run(c, Fresh(c), steps);
    FreshInv(c);
    RunInv(c, Fresh(c), steps);
    assert s.pcs[0] in s.pcs && WorkerOk(c, s, 0);
    AllHandled(c, s);
    if FirstError(s.errs).Some? {
      ErrorsHaveCauses(c, s);
    } else {
      NothingFailed(c, s);
    }
  }

  function Row(c: Config, name: string): (e: Entry) {
    match c.load(name)
    case Read(entry) => entry
    case Broken(_) => Entry("", "", "")
  }

  /** The load of each name, in order. */
  function Mapped(c: Config): (entries: seq<Entry>) {
    seq(|c.names|, i requires 0 <= i < |c.names| => Row(c, c.names[i]))
  }

  lemma AllHandled(c: Config, s: Pool)
    requires Inv(c, s) && Finished(s) && s.closed
    ensures forall i :: 0 <= i < |c.names| ==> s.worked[i] == 1
    ensures forall i :: 0 <= i < |c.names| && s.owners[i] < c.workers && s.errs[s.owners[i]].None? ==>
      c.load(c.names[i]).Read? && s.out[i] == Some(c.load(c.names[i]).entry)
    ensures forall i :: 0 <= i < |c.names| ==> s.owners[i] < c.workers
  {
    forall i | 0 <= i < |c.names|
      ensures s.worked[i] == 1 && s.owners[i] < c.workers
      ensures s.errs[s.owners[i]].None? ==> c.load(c.names[i]).Read? && s.out[i] == Some(c.load(c.names[i]).entry)
    {
      assert Handled(c, s, i);
      assert s.pcs[s.owners[i]] in s.pcs;
    }
  }

  lemma {:induction false} FirstErrorIsOne(errs: seq<Option<string>>)
    requires FirstError(errs).Some?
    ensures FirstError(errs) in errs
  {
    if errs[0].None? {
      FirstErrorIsOne(errs[1..]);
    }
  }

  lemma ErrorsHaveCauses(c: Config, s: Pool)
    requires Inv(c, s) && FirstError(s.errs).Some?
    ensures Produces(c, FirstError(s.errs).value)
  {
    FirstErrorIsOne(s.errs);
    var w :| 0 <= w < |s.errs| && s.errs[w] == FirstError(s.errs);
    assert WorkerOk(c, s, w);
    if CoreErrorOf(c, w) != s.errs[w] {
      var i :| 0 <= i < s.sent && s.owners[i] == w && c.load(c.names[i]) == Broken(s.errs[w].value);
      assert c.names[i] in c.names;
    }
  }

  lemma NothingFailed(c: Config, s: Pool)
    requires Inv(c, s) && Finished(s) && s.closed && FirstError(s.errs).None?
    ensures !SomethingFails(c) && (forall x <- s.out :: x.Some?) && ResultOf(c, s) == Seeded(Mapped(c))
  {
    AllHandled(c, s);
    forall w | 0 <= w < c.workers
      ensures CoreErrorOf(c, w).None?
    {
      assert WorkerOk(c, s, w);
      assert s.pcs[w] in s.pcs && s.errs[w] in s.errs;
    }
    forall i | 0 <= i < |c.names|
      ensures c.load(c.names[i]).Read? && s.out[i] == Some(c.load(c.names[i]).entry)
    {
      assert s.errs[s.owners[i]] in s.errs;
    }
  }

  // ---------------------------------------------------------------- which error is reported

  ghost predicate Reachable(c: Config, s: Pool) {
    exists steps :: Possible(c, Fresh(c), steps) && Run(c, Fresh(c), steps) == s
  }

  lemma {:induction false} OneMoreStep(c: Config, s: Pool, steps: seq<Step>, step: Step)
    requires Shape(c, s) && Possible(c, s, steps) && Enabled(c, Run(c, s, steps), step)
    ensures Possible(c, s, steps + [step]) && Run(c, s, steps + [step]) == Apply(c, Run(c, s, steps), step)
    decreases |steps|
  {
    if steps == [] {
      assert [step][1..] == [] && steps + [step] == [step];
      assert Possible(c, Apply(c, s, step), []);
    } else {
      OneMoreStep(c, Apply(c, s, steps[0]), steps[1..], step);
      assert (steps + [step])[1..] == steps[1..] + [step];
    }
  }

  lemma Extend(c: Config, s: Pool, step: Step) returns (s': Pool)
    requires Shape(c, s) && Reachable(c, s) && Enabled(c, s, step)
    ensures Reachable(c, s') && s' == Apply(c, s, step)
  {
    s' := Apply(c, s, step);
    var steps :| Possible(c, Fresh(c), steps) && Run(c, Fresh(c), steps) == s;
    OneMoreStep(c, Fresh(c), steps, step);
  }

  lemma ReachableInv(c: Config, s: Pool)
    requires Reachable(c, s)
    ensures Inv(c, s)
  {
    var steps :| Possible(c, Fresh(c), steps) && Run(c, Fresh(c), steps) == s;
    FreshInv(c);
    RunInv(c, Fresh(c), steps);
  }

  ghost predicate Result(c: Config, s: Pool) {
    Reachable(c, s) && Finished(s)
  }

  /** Whatever the schedule, the same error is reported, or none. */
  ghost predicate StableMessage(c: Config) {
    forall s, t :: Result(c, s) && Result(c, t) ==> FirstError(s.errs) == FirstError(t.errs)
  }

  /** `w` is the lowest-numbered worker whose core cannot be built. */
  ghost predicate FirstDeadCore(c: Config, w: nat) {
    && w < c.workers && CoreErrorOf(c, w).Some?
    && forall v :: 0 <= v < w ==> CoreErrorOf(c, v).None?
  }

  ghost predicate FileFails(c: Config, error: string) {
    exists i :: 0 <= i < |c.names| && c.load(c.names[i]) == Broken(error)
  }

  ghost predicate FirstCoreFails(c: Config, error: string) {
    exists w :: FirstDeadCore(c, w) && CoreErrorOf(c, w) == Some(error)
  }

  /** The errors of the broken files, and that of the first dead core. */
  ghost predicate Reportable(c: Config, error: string) {
    FileFails(c, error) || FirstCoreFails(c, error)
  }

  lemma {:induction false} FirstErrorAt(errs: seq<Option<string>>, w: nat)
    requires w < |errs| && errs[w].Some? && forall v :: 0 <= v < w ==> errs[v].None?
    ensures FirstError(errs) == errs[w]
  {
    if w > 0 {
      FirstErrorAt(errs[1..], w - 1);
    }
  }

  lemma {:induction false} FirstErrorWhere(errs: seq<Option<string>>) returns (w: nat)
    requires FirstError(errs).Some?
    ensures w < |errs| && errs[w] == FirstError(errs) && forall v :: 0 <= v < w ==> errs[v].None?
  {
    if errs[0].Some? {
      w := 0;
    } else {
      var u := FirstErrorWhere(errs[1..]);
      w := u + 1;
    }
  }

  /** What is reported is reportable. */
  lemma ReportedIsReportable(c: Config, s: Pool)
    requires Result(c, s) && FirstError(s.errs).Some?
    ensures Reportable(c, FirstError(s.errs).value)
  {
    ReachableInv(c, s);
    var w := FirstErrorWhere(s.errs);
    assert WorkerOk(c, s, w);
    if CoreErrorOf(c, w) == s.errs[w] {
      forall v | 0 <= v < w
        ensures CoreErrorOf(c, v).None?
      {
        assert WorkerOk(c, s, v);
        assert s.pcs[v] in s.pcs;
      }
      assert FirstDeadCore(c, w);
    }
  }

  /** Something is reported iff something fails, whatever the schedule. */
  lemma ReportsTogether(c: Config, s: Pool, t: Pool)
    requires c.workers >= 1 && Result(c, s) && Result(c, t)
    ensures FirstError(s.errs).Some? <==> FirstError(t.errs).Some?
  {
    var steps :| Possible(c, Fresh(c), steps) && Run(c, Fresh(c), steps) == s;
    SeedingIsTheSequentialMap(c, steps);
    var again :| Possible(c, Fresh(c), again) && Run(c, Fresh(c), again) == t;
    SeedingIsTheSequentialMap(c, again);
  }

  // ---------------------------------------------------------------- one worker

  /** The error of the first broken file among the first `n`. */
  function FirstBroken(c: Config, n: nat): (e: Option<string>)
    requires n <= |c.names|
  {
    if n == 0 then None
    else if FirstBroken(c, n - 1).Some? then FirstBroken(c, n - 1)
    else match c.load(c.names[n-1]) case Broken(error) => Some(error) case Read(_) => None
  }

  /** A lone worker has worked off the files in order, up to the one it holds. */
  ghost predicate InOrder(c: Config, s: Pool) {
    && Shape(c, s) && c.workers == 1
    && (s.pcs[0].Working? ==> s.sent > 0 && s.pcs[0].i == s.sent - 1)
    && s.errs[0] == FirstBroken(c, if s.pcs[0].Working? then s.sent - 1 else s.sent)
    && (s.pcs[0] == Starting ==> s.sent == 0)
  }

  lemma LoneStep(c: Config, s: Pool, step: Step)
    requires InOrder(c, s) && Enabled(c, s, step)
    ensures InOrder(c, Apply(c, s, step))
  {}

  lemma {:induction false} LoneRun(c: Config, s: Pool, steps: seq<Step>)
    requires InOrder(c, s) && Possible(c, s, steps)
    ensures InOrder(c, Run(c, s, steps))
    decreases |steps|
  {
    if steps != [] {
      LoneStep(c, s, steps[0]);
      LoneRun(c, Apply(c, s, steps[0]), steps[1..]);
    }
  }

  lemma LoneWorkerIsStable(c: Config, s: Pool)
    requires c.workers == 1 && Result(c, s)
    ensures FirstError(s.errs) == FirstBroken(c, |c.names|)
  {
    var steps :| Possible(c, Fresh(c), steps) && Run(c, Fresh(c), steps) == s;
    LoneRun(c, Fresh(c), steps);
    SeedingIsTheSequentialMap(c, steps);
    assert s.pcs[0] in s.pcs;
    assert s.errs == [s.errs[0]];
  }

  // ---------------------------------------------------------------- any assignment is a schedule

  /** The error worker `w` ends up with after the first `n` files, when file `i`
      goes to worker `who(i)`. */
  function ErrorOf(c: Config, who: nat -> nat, w: nat, n: nat): (e: Option<string>)
    requires n <= |c.names|
  {
    if n == 0 then CoreErrorOf(c, w)
    else if ErrorOf(c, who, w, n - 1).Some? || who(n - 1) != w then ErrorOf(c, who, w, n - 1)
    else match c.load(c.names[n-1]) case Broken(error) => Some(error) case Read(_) => None
  }

  /** The first `w` workers have started. */
  ghost predicate StartedTo(c: Config, s: Pool, w: nat) {
    && w <= c.workers && Shape(c, s) && s.sent == 0 && !s.closed
    && (forall v :: 0 <= v < c.workers ==> s.pcs[v] == if v < w then Waiting else Starting)
    && (forall v :: 0 <= v < c.workers ==> s.errs[v] == if v < w then CoreErrorOf(c, v) else None)
  }

  lemma StartOne(c: Config, s: Pool, w: nat) returns (s': Pool)
    requires Reachable(c, s) && StartedTo(c, s, w) && w < c.workers
    ensures Reachable(c, s') && StartedTo(c, s', w + 1)
  {
    s' := Extend(c, s, Start(w));
  }

  lemma AllStart(c: Config, who: nat -> nat) returns (s: Pool)
    ensures Reachable(c, s) && Handing(c, who, s, 0)
  {
    s := Fresh(c);
    assert Possible(c, s, []) && Run(c, s, []) == s;
    var w := 0;
    while w < c.workers
      invariant w <= c.workers && Reachable(c, s) && StartedTo(c, s, w)
    {
      s := StartOne(c, s, w);
      w := w + 1;
    }
  }

  /** Everybody waits, and the first `n` files have gone where `who` says. */
  ghost predicate Handing(c: Config, who: nat -> nat, s: Pool, n: nat) {
    && n <= |c.names| && Shape(c, s) && s.sent == n && !s.closed
    && (forall v :: 0 <= v < c.workers ==> s.pcs[v] == Waiting)
    && (forall v :: 0 <= v < c.workers ==> s.errs[v] == ErrorOf(c, who, v, n))
  }

  lemma HandOne(c: Config, who: nat -> nat, s: Pool, n: nat) returns (s': Pool)
    requires Reachable(c, s) && Handing(c, who, s, n) && n < |c.names| && who(n) < c.workers
    ensures Reachable(c, s') && Handing(c, who, s', n + 1)
  {
    s' := Extend(c, s, Hand(who(n)));
    s' := Extend(c, s', Work(who(n)));
  }

  lemma AllExit(c: Config, who: nat -> nat, s: Pool) returns (s': Pool)
    requires Reachable(c, s) && Handing(c, who, s, |c.names|)
    ensures Result(c, s') && s'.errs == s.errs
  {
    s' := Extend(c, s, Close);
    var w := 0;
    while w < c.workers
      invariant w <= c.workers && Reachable(c, s') && Shape(c, s') && s'.closed && s'.errs == s.errs
      invariant forall v :: 0 <= v < c.workers ==> s'.pcs[v] == if v < w then Exited else Waiting
    {
      s' := Extend(c, s', Exit(w));
      w := w + 1;
    }
  }

  lemma AnyAssignment(c: Config, who: nat -> nat) returns (s: Pool)
    requires forall i :: 0 <= i < |c.names| ==> who(i) < c.workers
    ensures Result(c, s) && |s.errs| == c.workers
    ensures forall w :: 0 <= w < c.workers ==> s.errs[w] == ErrorOf(c, who, w, |c.names|)
  {
    s := AllStart(c, who);
    var n := 0;
    while n < |c.names|
      invariant n <= |c.names| && Reachable(c, s) && Handing(c, who, s, n)
    {
      s := HandOne(c, who, s, n);
      n := n + 1;
    }
    s := AllExit(c, who, s);
  }

  lemma {:induction false} OnlyFile(c: Config, who: nat -> nat, i: nat, n: nat)
    requires n <= |c.names| && i < |c.names| && c.load(c.names[i]).Broken?
    requires forall j :: 0 <= j < n ==> (who(j) == 0 <==> j == i)
    ensures ErrorOf(c, who, 0, n) == if i < n then Some(c.load(c.names[i]).error) else None
  {
    if n > 0 {
      OnlyFile(c, who, i, n - 1);
    }
  }

  lemma {:induction false} NoFile(c: Config, who: nat -> nat, w: nat, n: nat)
    requires n <= |c.names| && forall j :: 0 <= j < n ==> who(j) != w
    ensures ErrorOf(c, who, w, n) == CoreErrorOf(c, w)
  {
    if n > 0 {
      NoFile(c, who, w, n - 1);
    }
  }

  lemma {:induction false} DeadCoreStays(c: Config, who: nat -> nat, w: nat, n: nat)
    requires n <= |c.names| && CoreErrorOf(c, w).Some?
    ensures ErrorOf(c, who, w, n) == CoreErrorOf(c, w)
  {
    if n > 0 {
      DeadCoreStays(c, who, w, n - 1);
    }
  }

  /** Worker zero is handed one broken file, and worker one all the others. */
  lemma FileIsReported(c: Config, i: nat) returns (s: Pool)
    requires c.workers >= 2 && i < |c.names| && c.load(c.names[i]).Broken?
    ensures Result(c, s) && FirstError(s.errs) == Some(c.load(c.names[i]).error)
  {
    var who: nat -> nat := j => if j == i then 0 else 1;
    s := AnyAssignment(c, who);
    OnlyFile(c, who, i, |c.names|);
    FirstErrorAt(s.errs, 0);
  }

  /** The worker with the first dead core is handed everything. */
  lemma CoreIsReported(c: Config, w: nat) returns (s: Pool)
    requires FirstDeadCore(c, w)
    ensures Result(c, s) && FirstError(s.errs) == CoreErrorOf(c, w)
  {
    var who: nat -> nat := j => w;
    s := AnyAssignment(c, who);
    DeadCoreStays(c, who, w, |c.names|);
    forall v | 0 <= v < w
      ensures s.errs[v].None?
    {
      NoFile(c, who, v, |c.names|);
    }
    FirstErrorAt(s.errs, w);
  }

  /** With two workers or more every reportable error is reported by some schedule. */
  lemma ReportableIsReported(c: Config, error: string) returns (s: Pool)
    requires c.workers >= 2 && Reportable(c, error)
    ensures Result(c, s) && FirstError(s.errs) == Some(error)
  {
    if FileFails(c, error) {
      var i :| 0 <= i < |c.names| && c.load(c.names[i]) == Broken(error);
      s := FileIsReported(c, i);
    } else {
      var w :| FirstDeadCore(c, w) && CoreErrorOf(c, w) == Some(error);
      s := CoreIsReported(c, w);
    }
  }

  /** Exactly when the message is the same under every schedule: with a single
      worker, or when the broken files and the first dead core have at most one
      error between them. */
  lemma MessageIsStableIff(c: Config)
    requires c.workers >= 1
    ensures StableMessage(c) <==>
      c.workers == 1 || forall e, e' :: Reportable(c, e) && Reportable(c, e') ==> e == e'
  {
    if c.workers == 1 {
      LoneIsStable(c);
    } else if forall e, e' :: Reportable(c, e) && Reportable(c, e') ==> e == e' {
      OneErrorIsStable(c);
    } else {
      var e, e' :| Reportable(c, e) && Reportable(c, e') && e != e';
      var s := ReportableIsReported(c, e);
      var t := ReportableIsReported(c, e');
      assert !StableMessage(c);
    }
  }

  lemma LoneIsStable(c: Config)
    requires c.workers == 1
    ensures StableMessage(c)
  {
    forall s, t | Result(c, s) && Result(c, t)
      ensures FirstError(s.errs) == FirstError(t.errs)
    {
      LoneWorkerIsStable(c, s);
      LoneWorkerIsStable(c, t);
    }
  }

  lemma OneErrorIsStable(c: Config)
    requires c.workers >= 1 && forall e, e' :: Reportable(c, e) && Reportable(c, e') ==> e == e'
    ensures StableMessage(c)
  {
    forall s, t | Result(c, s) && Result(c, t)
      ensures FirstError(s.errs) == FirstError(t.errs)
    {
      ReportsTogether(c, s, t);
      if FirstError(s.errs).Some? {
        ReportedIsReportable(c, s);
        ReportedIsReportable(c, t);
      }
    }
  }

  const TWO_BROKEN := Config(["a", "b"], 2, name => Broken(name), _ => None)

  /** Two broken files and two workers: either error can be reported. */
  lemma MessageDependsOnTheSchedule()
    ensures exists c, s, again ::
      && Reachable(c, s) && Finished(s) && Reachable(c, again) && Finished(again)
      && FirstError(s.errs) != FirstError(again.errs)
  {
    var s := FileIsReported(TWO_BROKEN, 0);
    var again := FileIsReported(TWO_BROKEN, 1);
    assert TWO_BROKEN.names[0] != TWO_BROKEN.names[1];
  }

  // ---------------------------------------------------------------- the index

  datatype Registry = Ready(entries: seq<Entry>, byHash: map<string, nat>) | StartupError(error: string)

  ghost predicate DistinctHashes(entries: seq<Entry>) {
    forall i, j :: 0 <= i < j < |entries| ==> entries[i].dictHash != entries[j].dictHash
  }

  /** Every hash of the registry points at its entry, and at nothing else. */
  ghost predicate Indexed(r: Registry) {
    && r.Ready? && DistinctHashes(r.entries)
    && (forall i :: 0 <= i < |r.entries| ==> r.entries[i].dictHash in r.byHash && r.byHash[r.entries[i].dictHash] == i)
    && (forall h <- r.byHash :: r.byHash[h] < |r.entries| && r.entries[r.byHash[h]].dictHash == h)
  }

  /** Nothing embedded, a failed seed and two dictionaries with one hash are the
      only startup errors. */
  method NewRegistry(names: seq<string>, seeded: Outcome) returns (r: Registry)
    ensures r.Ready? <==> names != [] && seeded.Seeded? && DistinctHashes(seeded.entries)
    ensures r.Ready? ==> r.entries == seeded.entries && Indexed(r)
  {
    if names == [] {
      return StartupError("no dictionaries embedded");
    }
    if seeded.SeedError? {
      return StartupError(seeded.error);
    }
    var entries := seeded.entries;
    var byHash: map<string, nat> := map[];
    for i := 0 to |entries|
      invariant forall k, l :: 0 <= k < l < i ==> entries[k].dictHash != entries[l].dictHash
      invariant forall k :: 0 <= k < i ==> entries[k].dictHash in byHash && byHash[entries[k].dictHash] == k
      invariant forall h <- byHash :: byHash[h] < i && entries[byHash[h]].dictHash == h
    {
      if entries[i].dictHash in byHash {
        return StartupError("two dictionaries share a hash");
      }
      byHash := byHash[entries[i].dictHash := i];
    }
    r := Ready(entries, byHash);
  }

  function Body(r: Registry, dictHash: string): (raw: Option<string>)
    requires Indexed(r)
  {
    if dictHash in r.byHash then Some(r.entries[r.byHash[dictHash]].raw) else None
  }

  /** Whatever the schedule, a registry that starts serves for each hash exactly
      the body of the one file that loads to it. */
  lemma BodiesAreTheFiles(c: Config, steps: seq<Step>, r: Registry, dictHash: string)
    requires c.workers >= 1 && Possible(c, Fresh(c), steps) && Finished(Run(c, Fresh(c), steps))
    requires FirstError(Run(c, Fresh(c), steps).errs).None?
    requires (forall x <- Run(c, Fresh(c), steps).out :: x.Some?) && Indexed(r)
    requires ResultOf(c, Run(c, Fresh(c), steps)) == Seeded(r.entries)
    ensures forall raw :: Body(r, dictHash) == Some(raw) <==>
      exists i :: 0 <= i < |c.names| && c.load(c.names[i]).Read? && Row(c, c.names[i]).dictHash == dictHash && Row(c, c.names[i]).raw == raw
    ensures forall i, j :: 0 <= i < j < |c.names| ==> Row(c, c.names[i]).dictHash != Row(c, c.names[j]).dictHash
  {
    SeedingIsTheSequentialMap(c, steps);
    assert r.entries == Mapped(c);
    forall i | 0 <= i < |c.names|
      ensures r.entries[i] == Row(c, c.names[i]) && c.load(c.names[i]).Read?
    {
      assert c.names[i] in c.names;
      if c.load(c.names[i]).Broken? {
        assert Produces(c, c.load(c.names[i]).error);
      }
    }
  }
}
