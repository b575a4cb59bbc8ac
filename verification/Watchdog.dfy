/** One core call after another under a deadline: the watchdog that raises the
    runtime's interrupt flag, and the handshake that retires it before the flag
    is cleared. `handshake` off is the version without the wait. */
module Watchdog {

  /** The caller: between calls, inside the script, after closing `returned`,
      or past the wait and about to clear the flag. */
  datatype Caller = Idle | Running | Returned | Retired

  /** The watchdog of one call: waiting in its select, about to interrupt, or gone. */
  datatype Dog = Selecting | Firing | Gone

  /** `dogs` holds the watchdogs of this call and of any earlier one still alive:
      each with the number of its call. */
  datatype State = State(
    call: nat, caller: Caller, dogs: map<nat, Dog>, returned: set<nat>, expired: set<nat>,
    flag: bool, raisedBy: nat, killed: set<nat>)

  datatype Step = Begin | Expire(n: nat) | Choose(n: nat) | Notice(n: nat) | Interrupt(n: nat) | Finish | Killed | Await | Clear

  predicate Enabled(handshake: bool, s: State, step: Step) {
    match step
    case Begin => s.caller == Idle
    case Expire(n) => n <= s.call
    case Choose(n) => n in s.dogs && s.dogs[n] == Selecting && n in s.expired
    case Notice(n) => n in s.dogs && s.dogs[n] == Selecting && n in s.returned
    case Interrupt(n) => n in s.dogs && s.dogs[n] == Firing
    case Finish => s.caller == Running
    case Killed => s.caller == Running && s.flag
    case Await => s.caller == Returned && (handshake ==> s.call in s.dogs && s.dogs[s.call] == Gone)
    case Clear => s.caller == Retired
  }

  /** `Killed` is the script stopping on a raised flag; `killed` logs those calls. */
  function Apply(handshake: bool, s: State, step: Step): (s': State)
    requires Enabled(handshake, s, step)
  {
    match step
    case Begin => s.(call := s.call + 1, caller := Running, dogs := s.dogs[s.call + 1 := Selecting])
    case Expire(n) => s.(expired := s.expired + {n})
    case Choose(n) => s.(dogs := s.dogs[n := Firing])
    case Notice(n) => s.(dogs := s.dogs[n := Gone])
    case Interrupt(n) => s.(dogs := s.dogs[n := Gone], flag := true, raisedBy := n)
    case Finish => s.(caller := Returned, returned := s.returned + {s.call})
    case Killed => s.(caller := Returned, returned := s.returned + {s.call}, killed := s.killed + {s.call})
    case Await => s.(caller := Retired)
    case Clear => s.(caller := Idle, flag := false)
  }

  const START := State(0, Idle, map[], {}, {}, false, 0, {})

  ghost predicate Possible(handshake: bool, s: State, steps: seq<Step>)
    decreases |steps|
  {
    steps == [] || (Enabled(handshake, s, steps[0]) && Possible(handshake, Apply(handshake, s, steps[0]), steps[1..]))
  }

  function Run(handshake: bool, s: State, steps: seq<Step>): (s': State)
    requires Possible(handshake, s, steps)
    decreases |steps|
  {
    if steps == [] then s else Run(handshake, Apply(handshake, s, steps[0]), steps[1..])
  }

  ghost predicate Inv(s: State) {
    && (forall n <- s.dogs :: n <= s.call && (s.dogs[n] != Gone ==> n == s.call && s.caller in {Running, Returned}))
    && (forall n <- s.dogs :: s.dogs[n] == Firing ==> n in s.expired)
    && (s.caller in {Running, Returned} ==> s.call in s.dogs)
    && (s.caller == Returned ==> s.call in s.returned)
    && (s.flag ==> s.caller != Idle && s.raisedBy == s.call && s.call in s.expired)
    && s.killed <= s.expired
  }

  lemma StepInv(s: State, step: Step)
    requires Inv(s) && Enabled(true, s, step)
    ensures Inv(Apply(true, s, step))
  {}

  lemma {:induction false} RunInv(s: State, steps: seq<Step>)
    requires Inv(s) && Possible(true, s, steps)
    ensures Inv(Run(true, s, steps))
    decreases |steps|
  {
    if steps != [] {
      StepInv(s, steps[0]);
      RunInv(Apply(true, s, steps[0]), steps[1..]);
    }
  }

  /** A call starts with the flag down and no watchdog alive, and a call is
      stopped only after its own deadline. */
  lemma OwnDeadlineOnly(steps: seq<Step>)
    requires Possible(true, START, steps)
    ensures var s := Run(true, START, steps);
            && (s.caller == Idle ==> !s.flag && forall n <- s.dogs :: s.dogs[n] == Gone)
            && (s.flag ==> s.raisedBy == s.call)
            && s.killed <= s.expired
  {
    RunInv(START, steps);
  }

  /** The wait for the watchdog never blocks for good: it can always retire. */
  lemma AwaitIsReachable(steps: seq<Step>)
    requires Possible(true, START, steps) && Run(true, START, steps).caller == Returned
    ensures var s := Run(true, START, steps);
            || Enabled(true, s, Await)
            || Enabled(true, s, Notice(s.call))
            || Enabled(true, s, Interrupt(s.call))
  {
    RunInv(START, steps);
  }

  ghost predicate Reachable(handshake: bool, s: State) {
    exists steps :: Possible(handshake, START, steps) && Run(handshake, START, steps) == s
  }

  lemma {:induction false} OneMoreStep(handshake: bool, s: State, steps: seq<Step>, step: Step)
    requires Possible(handshake, s, steps) && Enabled(handshake, Run(handshake, s, steps), step)
    ensures Possible(handshake, s, steps + [step])
    ensures Run(handshake, s, steps + [step]) == Apply(handshake, Run(handshake, s, steps), step)
    decreases |steps|
  {
    if steps == [] {
      assert [step][1..] == [] && steps + [step] == [step];
      assert Possible(handshake, Apply(handshake, s, step), []);
    } else {
      OneMoreStep(handshake, Apply(handshake, s, steps[0]), steps[1..], step);
      assert (steps + [step])[1..] == steps[1..] + [step];
    }
  }

  lemma Extend(handshake: bool, s: State, step: Step) returns (s': State)
    requires Reachable(handshake, s) && Enabled(handshake, s, step)
    ensures Reachable(handshake, s') && s' == Apply(handshake, s, step)
  {
    s' := Apply(handshake, s, step);
    var steps :| Possible(handshake, START, steps) && Run(handshake, START, steps) == s;
    OneMoreStep(handshake, START, steps, step);
  }

  /** The first call returns and its flag is cleared while its watchdog is firing. */
  lemma WithoutTheWaitADogOutlivesItsCall() returns (s: State)
    ensures Reachable(false, s)
    ensures s.call == 1 && s.caller == Idle && 1 in s.dogs && s.dogs[1] == Firing && s.expired == {1} && s.killed == {}
  {
    s := START;
    assert Possible(false, s, []) && Run(false, s, []) == s;
    s := Extend(false, s, Begin);
    s := Extend(false, s, Expire(1));
    s := Extend(false, s, Choose(1));
    s := Extend(false, s, Finish);
    s := Extend(false, s, Await);
    s := Extend(false, s, Clear);
  }

  /** Without the wait a deadline that fires as one call returns stops the next. */
  lemma WithoutTheWaitTheNextCallDies()
    ensures exists s :: Reachable(false, s) && !(s.killed <= s.expired)
  {
    var s := WithoutTheWaitADogOutlivesItsCall();
    s := Extend(false, s, Begin);
    s := Extend(false, s, Interrupt(1));
    s := Extend(false, s, Killed);
    assert 2 in s.killed && 2 !in s.expired;
  }
}
