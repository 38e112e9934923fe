/** No lost update.  One createOrUpdate runs against a server that anybody may change between any two of
    its requests -- other controllers, users, another replica of this one -- and reads from a cache that
    may show any earlier state.  It may also stop after any request. */
module LostUpdate {
  import opened ApiServer
  import opened Reconciler

  /** All states of the server so far, how far the attempt is, and where in the history it wrote. */
  datatype Trial = Trial(past: seq<Server>, a: Attempt, writes: seq<nat>)

  datatype Move = Own(at: nat) | Others(s: Server)

  ghost predicate Enabled(x: Trial, m: Move)
    requires x.past != []
  {
    match m
    case Own(at) => at < |x.past|
    case Others(s) => Evolves(x.past[|x.past|-1], s)
  }

  ghost function Next(d: Desired, x: Trial, m: Move): (after: Trial)
    requires x.past != []
    ensures after.past != []
  {
    var n := |x.past| - 1;
    if !Enabled(x, m) then x
    else
      match m
      case Own(at) =>
        var (s, a) := AttemptStep(x.past[n], x.past[at], x.a, d);
        Trial(x.past + [s], a, if s == x.past[n] then x.writes else x.writes + [n])
      case Others(s) => x.(past := x.past + [s])
  }

  ghost function Run(d: Desired, s: Server, moves: seq<Move>): (x: Trial)
    ensures x.past != []
  {
    if moves == [] then Trial([s], Creating, [])
    else Next(d, Run(d, s, moves[..|moves|-1]), moves[|moves|-1])
  }

  /** The history shows this version of the object at some time. */
  ghost predicate Shown(x: Trial, key: Key, seen: Stored) {
    exists i :: 0 <= i < |x.past| && key in x.past[i].objects && x.past[i].objects[key] == seen
  }

  ghost predicate WroteOnce(d: Desired, x: Trial) {
    |x.writes| == 1 && x.writes[0] + 1 < |x.past| && x.past[x.writes[0] + 1] == Put(x.past[x.writes[0]], d)
  }

  /** What an attempt has done to the server by the time it is where it is. */
  ghost predicate Honest(d: Desired, x: Trial) {
    match x.a
    case Creating => x.writes == []
    case Reading => x.writes == []
    case Writing(seen) => x.writes == [] && Shown(x, d.key, seen) && !Acceptable(seen.obj, d.obj)
    case Finished(outcome) =>
      match outcome
      case Created => WroteOnce(d, x) && d.key !in x.past[x.writes[0]].objects
      case LeftAlone(seen) => x.writes == [] && Shown(x, d.key, seen) && Acceptable(seen.obj, d.obj)
      case Replaced(seen) =>
        && WroteOnce(d, x)
        && d.key in x.past[x.writes[0]].objects && x.past[x.writes[0]].objects[d.key] == seen
        && !Acceptable(seen.obj, d.obj)
      case Failed => x.writes == []
  }

  ghost predicate Versioned(x: Trial) {
    && x.past != []
    && (forall i | 0 <= i < |x.past| :: ObjectsDated(x.past[i]))
    && (forall i, j | 0 <= i <= j < |x.past| :: Evolves(x.past[i], x.past[j]))
  }

  lemma EvolvesTransitive(a: Server, b: Server, c: Server)
    requires Evolves(a, b) && Evolves(b, c)
    ensures Evolves(a, c)
  {
  }

  lemma PushIsVersioned(x: Trial, s: Server)
    requires Versioned(x) && Evolves(x.past[|x.past|-1], s)
    ensures Versioned(x.(past := x.past + [s]))
  {
    var after := x.(past := x.past + [s]);
    forall i, j | 0 <= i <= j < |after.past| ensures Evolves(after.past[i], after.past[j]) {
      if i < j == |x.past| {
        assert Evolves(x.past[i], x.past[|x.past|-1]);
        EvolvesTransitive(x.past[i], x.past[|x.past|-1], s);
      }
    }
  }

  /** A version that is still current names the very object that was read, at whatever time. */
  lemma SameVersionSameObject(x: Trial, key: Key, seen: Stored)
    requires Versioned(x) && Shown(x, key, seen)
    requires var s := x.past[|x.past|-1]; key in s.objects && s.objects[key].version == seen.version
    ensures x.past[|x.past|-1].objects[key] == seen
  {
    var i :| 0 <= i < |x.past| && key in x.past[i].objects && x.past[i].objects[key] == seen;
    assert Evolves(x.past[i], x.past[|x.past|-1]) && ObjectsDated(x.past[i]);
  }

  lemma MoreHistoryKeepsHonest(d: Desired, x: Trial, s: Server)
    requires Honest(d, x)
    ensures Honest(d, x.(past := x.past + [s]))
  {
    hide Acceptable;
    var after := x.(past := x.past + [s]);
    forall seen | Shown(x, d.key, seen) ensures Shown(after, d.key, seen) {
      var i :| 0 <= i < |x.past| && d.key in x.past[i].objects && x.past[i].objects[d.key] == seen;
      assert after.past[i] == x.past[i];
    }
  }

  lemma StepEvolves(s: Server, view: Server, a: Attempt, d: Desired)
    ensures Evolves(s, AttemptStep(s, view, a, d).0)
  {
    hide Acceptable;
  }

  lemma OwnStepIsVersioned(d: Desired, x: Trial, at: nat)
    requires Versioned(x) && at < |x.past|
    ensures Versioned(Next(d, x, Own(at)))
  {
    hide Versioned, AttemptStep, Evolves;
    var s := AttemptStep(x.past[|x.past|-1], x.past[at], x.a, d).0;
    StepEvolves(x.past[|x.past|-1], x.past[at], x.a, d);
    PushIsVersioned(x, s);
    VersionedIgnoresTheRest(x.(past := x.past + [s]), Next(d, x, Own(at)));
  }

  lemma VersionedIgnoresTheRest(x: Trial, y: Trial)
    requires Versioned(x) && x.past == y.past
    ensures Versioned(y)
  {
  }

  lemma CreateIsHonest(d: Desired, x: Trial, at: nat)
    requires x.past != [] && Honest(d, x) && at < |x.past| && x.a.Creating?
    ensures Honest(d, Next(d, x, Own(at)))
  {
    hide Acceptable, Shown;
    var n := |x.past| - 1;
    var s := AttemptStep(x.past[n], x.past[at], x.a, d).0;
    assert (x.past + [s])[n] == x.past[n] && (x.past + [s])[n+1] == s;
  }

  lemma ReadIsHonest(d: Desired, x: Trial, at: nat)
    requires x.past != [] && Honest(d, x) && at < |x.past| && x.a.Reading?
    ensures Honest(d, Next(d, x, Own(at)))
  {
    hide Acceptable;
    var after := Next(d, x, Own(at));
    assert after.past[at] == x.past[at];
  }

  lemma WriteIsHonest(d: Desired, x: Trial, at: nat)
    requires Versioned(x) && Honest(d, x) && at < |x.past| && x.a.Writing?
    ensures Honest(d, Next(d, x, Own(at)))
  {
    hide Acceptable, Versioned, Shown;
    var n := |x.past| - 1;
    var s := AttemptStep(x.past[n], x.past[at], x.a, d).0;
    assert (x.past + [s])[n] == x.past[n] && (x.past + [s])[n+1] == s;
    if s != x.past[n] {
      SameVersionSameObject(x, d.key, x.a.seen);
    }
  }

  lemma OwnStepIsHonest(d: Desired, x: Trial, at: nat)
    requires Versioned(x) && Honest(d, x) && at < |x.past|
    ensures Honest(d, Next(d, x, Own(at)))
  {
    match x.a
    case Creating => CreateIsHonest(d, x, at);
    case Reading => ReadIsHonest(d, x, at);
    case Writing(_) => WriteIsHonest(d, x, at);
    case Finished(_) =>
      hide Honest;
      MoreHistoryKeepsHonest(d, x, x.past[|x.past|-1]);
  }

  /** Whatever others do and whenever: createOrUpdate creates at an absent key, or leaves alone what it
      read as acceptable, or replaces precisely the version it read, or fails without a trace. */
  lemma {:induction false} NoLostUpdate(d: Desired, s: Server, moves: seq<Move>)
    requires ObjectsDated(s)
    ensures Versioned(Run(d, s, moves)) && Honest(d, Run(d, s, moves))
  {
    if moves != [] {
      var x, m := Run(d, s, moves[..|moves|-1]), moves[|moves|-1];
      NoLostUpdate(d, s, moves[..|moves|-1]);
      hide Honest, Versioned, AttemptStep;
      if Enabled(x, m) {
        match m
        case Own(at) =>
          OwnStepIsVersioned(d, x, at);
          OwnStepIsHonest(d, x, at);
        case Others(o) =>
          PushIsVersioned(x, o);
          MoreHistoryKeepsHonest(d, x, o);
      }
    }
  }
}
