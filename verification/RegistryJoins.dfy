/** One create or join from its first section to its answer, with any rooms
    acting in between. */
module RegistryJoins {
  import opened RegistryModel
  import opened RegistryRuns

  predicate Begins(v: Move) {
    v.BeginCreate? || v.BeginJoin?
  }

  /** The first answer a run gives. */
  ghost function Answer(g: Registry, moves: seq<Move>): (o: Outcome)
    requires Ok(g) && OpOk(g) && LegalMoves(g, moves)
    decreases |moves|
  {
    if moves == [] then Pending else
      MoveOk(g, moves[0]);
      var after := Moved(g, moves[0]);
      if after.1 != Pending then after.1 else Answer(after.0, moves[1..])
  }

  ghost predicate Untouched(g: Registry, g': Registry) {
    g'.rooms == g.rooms && g'.store == g.store && g'.users == g.users
  }

  /** Up to the first answer, nothing happened but rooms acting on their own. */
  ghost predicate OnlyRoomsActed(g: Registry, moves: seq<Move>)
    requires Ok(g) && OpOk(g) && LegalMoves(g, moves)
    decreases |moves|
  {
    moves == [] ||
    (MoveOk(g, moves[0]);
     var after := Moved(g, moves[0]);
     && (moves[0].RoomActs? || Untouched(g, after.0))
     && (after.1 != Pending || OnlyRoomsActed(after.0, moves[1..])))
  }

  /** The old seat, if there was one, has been given up. */
  predicate Leapt(op: Op) {
    op.Pruning? || op.Opening? || op.Seating?
  }

  lemma LeaptStep(g: Registry, v: Move)
    requires Ok(g) && OpOk(g) && LegalMove(g, v) && Leapt(g.op)
    ensures var after := Moved(g, v);
      if after.1 == Pending then Leapt(after.0.op)
      else after.1.Seated? && HoldsSeat(after.0, g.op.who.user, after.1.room, g.op.who.seat)
    ensures Moved(g, v).1 == Pending ==> Moved(g, v).0.op.who == g.op.who
  {
    if v.Proceed? && g.op.Seating? {
      SeatingAdds(g.store, g.op.room, g.op.who, g.op.asHost, v.now);
    }
  }

  /** Once the old seat is given up the answer is a seat, whatever interleaves. */
  lemma {:induction false} LeaptIsSeated(g: Registry, moves: seq<Move>)
    requires Ok(g) && OpOk(g) && LegalMoves(g, moves) && Leapt(g.op)
    ensures Answer(g, moves) == Pending || Answer(g, moves).Seated?
    decreases |moves|
  {
    if moves != [] {
      MoveOk(g, moves[0]);
      LeaptStep(g, moves[0]);
      var after := Moved(g, moves[0]);
      if after.1 == Pending {
        LeaptIsSeated(after.0, moves[1..]);
      }
    }
  }

  /** Still looking: nothing has been changed so far. */
  predicate Looking(op: Op) {
    op.Checking? || op.Releasing? || op.Detaching?
  }

  lemma LookingStep(g: Registry, v: Move)
    requires Ok(g) && OpOk(g) && LegalMove(g, v)
    requires Looking(g.op) || (g.op.Free? && Begins(v))
    ensures var after := Moved(g, v);
      && (after.1 == Pending ==> Looking(after.0.op) || Leapt(after.0.op))
      && (after.1 == Pending && Looking(after.0.op) ==> v.RoomActs? || Untouched(g, after.0))
      && (after.1.Failed() ==> Untouched(g, after.0))
  {
    LookingGoesOn(g, v);
    if Moved(g, v).1.Failed() {
      FailureCostsNothing(g, v);
    } else if Begins(v) || (v.Proceed? && g.op.Checking?) {
      LooksBeforeItLeaps(g, v);
    }
  }

  lemma LookingGoesOn(g: Registry, v: Move)
    requires OpOk(g) && LegalMove(g, v)
    requires Looking(g.op) || (g.op.Free? && Begins(v))
    ensures var after := Moved(g, v);
      && (after.1 == Pending ==> Looking(after.0.op) || Leapt(after.0.op))
      && (after.1 == Pending && Looking(after.0.op) ==> v.RoomActs? || Begins(v) || g.op.Checking?)
  {}

  /** A create or join that is refused in the end has cost nothing on the way:
      every move up to the refusal was a room acting on its own or changed
      neither rooms, seats nor the account index. */
  lemma {:induction false} FailedJoinCostNothing(g: Registry, moves: seq<Move>)
    requires Ok(g) && OpOk(g) && LegalMoves(g, moves) && Answer(g, moves).Failed()
    requires Looking(g.op) || (g.op.Free? && moves != [] && Begins(moves[0]))
    ensures OnlyRoomsActed(g, moves)
    decreases |moves|
  {
    MoveOk(g, moves[0]);
    LookingStep(g, moves[0]);
    var after := Moved(g, moves[0]);
    if after.1 == Pending {
      if Leapt(after.0.op) {
        LeaptIsSeated(after.0, moves[1..]);
      } else {
        FailedJoinCostNothing(after.0, moves[1..]);
      }
    }
  }

  // ---------------------------------------------------------------- it gets there

  /** How many sections are left at most. */
  function SectionsLeft(op: Op): (n: nat) {
    match op
    case Free => 0
    case Detaching(_, _, _) => 1
    case Seating(_, _, _) => 1
    case Opening(_) => 2
    case Pruning(_, _, _) => 3
    case Releasing(_, _, _) => 4
    case Checking(_, _, _) => 5
  }

  /** Each of its own sections brings a create or join nearer to its answer, no
      other move sets it back, and the section that frees the lock answers. */
  lemma SectionsCountDown(g: Registry, v: Move)
    requires OpOk(g) && LegalMove(g, v) && !g.op.Free?
    ensures var after := Moved(g, v);
      && (v.Proceed? ==> SectionsLeft(after.0.op) < SectionsLeft(g.op))
      && (!v.Proceed? ==> after.0.op == g.op)
      && (after.0.op.Free? <==> after.1 != Pending)
  {}

  function OwnSections(moves: seq<Move>): (n: nat) {
    if moves == [] then 0 else (if moves[0].Proceed? then 1 else 0) + OwnSections(moves[1..])
  }

  /** However many rooms act in between, a create or join still unanswered has run
      fewer sections than it had left, which is at most five. */
  lemma {:induction false} AnsweredWithinFiveSections(g: Registry, moves: seq<Move>)
    requires Ok(g) && OpOk(g) && LegalMoves(g, moves) && !g.op.Free? && Answer(g, moves) == Pending
    ensures OwnSections(moves) < SectionsLeft(g.op) <= 5
    decreases |moves|
  {
    if moves != [] {
      MoveOk(g, moves[0]);
      SectionsCountDown(g, moves[0]);
      AnsweredWithinFiveSections(Moved(g, moves[0]).0, moves[1..]);
    }
  }
}
