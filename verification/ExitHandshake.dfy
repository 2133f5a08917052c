/** The interpreter's exit against the threads that call into Python. A thread
    claims a slot, then looks for the exit; the exiting thread raises its flag,
    then reads the count of slots. Each load, store and addition on an atomic is
    one step, and the steps of any number of threads interleave in any order. */
module ExitHandshake {

  type Thread = nat

  /** Where a thread is. It calls back into Python through a CallbackSlot, or
      comes back from a blocking wait through a GilRelease. */
  datatype Place =
    | Outside
    | Claimed(back: bool)      // the slot taken, nothing looked at yet
    | Looking(back: bool)      // the exit flag read clear, the interpreter's next
    | Seen(back: bool)         // the exit seen under way
    | Inside                   // a callback past its check, until it gives its slot back
    | Retaking                 // back from a wait past its check, until it has the GIL
    | Retaken                  // has the GIL, its slot not given back yet
    | Refused                  // a callback that does nothing
    | Leaving                  // back from a wait, about to park
    | Parked

  /** begin_exit: the main thread recorded, the flag raised, the count read as
      zero, or given up on. */
  datatype Exit = NotYet | MainStored | Polling | AllOut | GivenUp

  datatype State = State(places: map<Thread, Place>, takers: int, exiting: bool, finalizing: bool, main: Thread, exit: Exit)

  predicate HoldsSlot(place: Place) {
    !place.Outside? && !place.Parked?
  }

  /** Past the check and not yet done with the GIL. */
  predicate InWindow(place: Place) {
    place.Inside? || place.Retaking?
  }

  ghost function Holders(s: State): set<Thread> {
    set t | t in s.places && HoldsSlot(s.places[t])
  }

  ghost predicate Initial(s: State) {
    && (forall t :: t in s.places ==> s.places[t] == Outside)
    && s.takers == 0 && !s.exiting && !s.finalizing && s.exit == NotYet
  }

  /** A thread moved on, the count of slots changed with it. */
  ghost predicate Moves(s: State, next: State, t: Thread, place: Place, takers: int) {
    t in s.places && next == s.(places := s.places[t := place], takers := takers)
  }

  /** One step of a thread that calls back or comes back. */
  ghost predicate ThreadStep(s: State, next: State, t: Thread) {
    && t in s.places
    && match s.places[t]
       case Outside => exists back :: Moves(s, next, t, Claimed(back), s.takers + 1)
       case Claimed(back) => Moves(s, next, t, if s.exiting then Seen(back) else Looking(back), s.takers)
       case Looking(back) =>
         Moves(s, next, t, if s.finalizing then Seen(back) else if back then Retaking else Inside, s.takers)
       case Seen(back) =>
         Moves(s, next, t, if !back then Refused else if t == s.main then Retaking else Leaving, s.takers)
       case Inside => Moves(s, next, t, Outside, s.takers - 1)
       case Retaking => Moves(s, next, t, Retaken, s.takers)
       case Retaken => Moves(s, next, t, Outside, s.takers - 1)
       case Refused => Moves(s, next, t, Outside, s.takers - 1)
       case Leaving => Moves(s, next, t, Parked, s.takers - 1)
       case Parked => next == s
  }

  /** One step of begin_exit, on the thread that finalizes, and of what follows. */
  ghost predicate ExitStep(s: State, next: State, finalizer: Thread) {
    match s.exit
    case NotYet => next == s.(main := finalizer, exit := MainStored)
    case MainStored => next == s.(exiting := true, exit := Polling)
    case Polling =>
      if s.takers > 0 then next == s || next == s.(exit := GivenUp) else next == s.(exit := AllOut)
    case AllOut => next == s.(finalizing := true)
    case GivenUp => next == s.(finalizing := true)
  }

  ghost predicate Step(s: State, next: State, finalizer: Thread) {
    ExitStep(s, next, finalizer) || exists t :: ThreadStep(s, next, t)
  }

  ghost predicate Run(states: seq<State>, finalizer: Thread) {
    && states != [] && Initial(states[0])
    && forall i :: 0 < i < |states| ==> Step(states[i - 1], states[i], finalizer)
  }

  // What every step keeps

  /** The count is that of the slots claimed; once the count was read as zero,
      nobody but the finalizing thread is past its check, or can get past it. */
  ghost predicate Invariant(s: State, finalizer: Thread) {
    && s.takers == |Holders(s)|
    && (s.exiting <==> s.exit.Polling? || s.exit.AllOut? || s.exit.GivenUp?)
    && (s.finalizing ==> s.exit.AllOut? || s.exit.GivenUp?)
    && (!s.exit.NotYet? ==> s.main == finalizer)
    && (s.exit.AllOut? ==> forall t :: t in s.places && t != finalizer ==>
          !InWindow(s.places[t]) && !s.places[t].Looking? && !s.places[t].Retaken?)
  }

  lemma MovedHolders(s: State, next: State, t: Thread, place: Place)
    requires t in s.places && next.places == s.places[t := place]
    ensures |Holders(next)| == |Holders(s)| + (if HoldsSlot(place) then 1 else 0) - (if HoldsSlot(s.places[t]) then 1 else 0)
  {
    if HoldsSlot(place) && !HoldsSlot(s.places[t]) {
      assert Holders(next) == Holders(s) + {t};
    } else if !HoldsSlot(place) && HoldsSlot(s.places[t]) {
      assert Holders(next) == Holders(s) - {t};
    } else {
      assert Holders(next) == Holders(s);
    }
  }

  lemma ThreadKeeps(s: State, next: State, t: Thread, finalizer: Thread)
    requires Invariant(s, finalizer) && ThreadStep(s, next, t)
    ensures Invariant(next, finalizer)
  {
    if next != s {
      MovedHolders(s, next, t, next.places[t]);
    }
  }

  /** With the count zero nobody holds a slot. */
  lemma NobodyHolds(s: State, t: Thread)
    requires s.takers == |Holders(s)| == 0 && t in s.places
    ensures !HoldsSlot(s.places[t])
  {
    assert t !in Holders(s);
  }

  lemma ExitKeeps(s: State, next: State, finalizer: Thread)
    requires Invariant(s, finalizer) && ExitStep(s, next, finalizer)
    ensures Invariant(next, finalizer)
  {
    assert Holders(next) == Holders(s);
    if s.exit.Polling? && s.takers <= 0 {
      forall t | t in s.places ensures !HoldsSlot(s.places[t]) {
        NobodyHolds(s, t);
      }
    }
  }

  lemma InitialHolds(s: State, finalizer: Thread)
    requires Initial(s)
    ensures Invariant(s, finalizer)
  {
    assert Holders(s) == {};
  }

  lemma {:induction false} Always(states: seq<State>, finalizer: Thread, i: nat)
    requires Run(states, finalizer) && i < |states|
    ensures Invariant(states[i], finalizer)
  {
    if i == 0 {
      InitialHolds(states[0], finalizer);
    } else {
      Always(states, finalizer, i - 1);
      var s, next := states[i - 1], states[i];
      assert Step(s, next, finalizer);
      if ExitStep(s, next, finalizer) {
        ExitKeeps(s, next, finalizer);
      } else {
        var t :| ThreadStep(s, next, t);
        ThreadKeeps(s, next, t, finalizer);
      }
    }
  }

  /** The count read as zero stays behind. */
  lemma {:induction false} AllOutStays(states: seq<State>, finalizer: Thread, i: nat, j: nat)
    requires Run(states, finalizer) && i <= j < |states| && states[i].exit.AllOut?
    ensures states[j].exit.AllOut?
  {
    if i < j {
      AllOutStays(states, finalizer, i, j - 1);
      assert Step(states[j - 1], states[j], finalizer);
    }
  }

  /** In every run, from the moment the count is read as zero on: no thread but
      the finalizing one is past its check, whatever it was doing and whatever it
      tries later, and the count is that of the slots claimed. */
  lemma NobodyIsCaught(states: seq<State>, finalizer: Thread, i: nat, j: nat, t: Thread)
    requires Run(states, finalizer) && i <= j < |states| && states[i].exit.AllOut?
    ensures states[j].takers == |Holders(states[j])|
    ensures t in states[j].places && t != finalizer ==> !states[j].places[t].Inside? && !states[j].places[t].Retaking?
  {
    Always(states, finalizer, j);
    AllOutStays(states, finalizer, i, j);
  }

  /** Before an exit a thread that claims a slot gets past its check. */
  lemma GetsIn(s: State, s': State, s'': State, t: Thread, back: bool)
    requires t in s.places && s.places[t] == Claimed(back) && !s.exiting && !s.finalizing
    requires ThreadStep(s, s', t) && ThreadStep(s', s'', t)
    ensures s''.places[t] == if back then Retaking else Inside
  {
  }

  /** With it under way none but the finalizing thread does, and that comes back from a wait. */
  lemma GetsOut(s: State, s': State, s'': State, t: Thread, back: bool)
    requires t in s.places && s.places[t] == Claimed(back) && s.exiting
    requires ThreadStep(s, s', t) && ThreadStep(s', s'', t)
    ensures s''.places[t] == if !back then Refused else if t == s.main then Retaking else Leaving
  {
  }

  /** Past its check, or with only the interpreter's own flag left to look at. */
  predicate PastFlag(place: Place) {
    InWindow(place) || place.Looking?
  }

  /** Once the flag is raised no thread but the finalizing one gets past it. */
  lemma FlagStops(s: State, next: State, finalizer: Thread, t: Thread)
    requires Invariant(s, finalizer) && Step(s, next, finalizer) && s.exiting && t != finalizer
    requires t in next.places && PastFlag(next.places[t])
    ensures next.exiting && t in s.places && PastFlag(s.places[t])
  {
    if !ExitStep(s, next, finalizer) {
      var moved :| ThreadStep(s, next, moved);
    }
  }

  /** Who can be caught: with the exit under way, however it goes on and whether or
      not it was given up on, a thread past its check was past the flag when it was
      raised, and has been ever since. */
  lemma {:induction false} OnlyThosePast(states: seq<State>, finalizer: Thread, i: nat, j: nat, t: Thread)
    requires Run(states, finalizer) && i <= j < |states| && states[i].exiting && t != finalizer
    requires t in states[j].places && PastFlag(states[j].places[t])
    ensures forall k :: i <= k <= j ==> states[k].exiting && t in states[k].places && PastFlag(states[k].places[t])
    decreases j
  {
    hide Step, Invariant, PastFlag, Initial;
    Raised(states, finalizer, i, j);
    if i < j {
      Always(states, finalizer, j - 1);
      Raised(states, finalizer, i, j - 1);
      FlagStops(states[j - 1], states[j], finalizer, t);
      OnlyThosePast(states, finalizer, i, j - 1, t);
    }
  }

  lemma {:induction false} Raised(states: seq<State>, finalizer: Thread, i: nat, j: nat)
    requires Run(states, finalizer) && i <= j < |states| && states[i].exiting
    ensures states[j].exiting
  {
    if i < j {
      Raised(states, finalizer, i, j - 1);
      assert Step(states[j - 1], states[j], finalizer);
    }
  }

  /** A thread inside its callback that the exit gave up waiting for. */
  function Abandoned(): seq<State> {
    var s0 := State(map[1 := Outside], 0, false, false, 0, NotYet);
    var s1 := s0.(places := map[1 := Claimed(false)], takers := 1);
    var s2 := s1.(places := map[1 := Looking(false)]);
    var s3 := s2.(places := map[1 := Inside]);
    var s4 := s3.(exit := MainStored);
    var s5 := s4.(exiting := true, exit := Polling);
    var s6 := s5.(exit := GivenUp);
    [s0, s1, s2, s3, s4, s5, s6, s6.(finalizing := true)]
  }

  /** Without the count read as zero nothing is promised: the bound on the wait
      leaves a run in which the interpreter finalizes under a callback. */
  lemma GivenUpIsNotSafe()
    ensures Run(Abandoned(), 0) && Abandoned()[7].finalizing && InWindow(Abandoned()[7].places[1])
  {
    var run := Abandoned();
    assert Moves(run[0], run[1], 1, Claimed(false), 1);
    assert ThreadStep(run[0], run[1], 1);
    assert ThreadStep(run[1], run[2], 1);
    assert ThreadStep(run[2], run[3], 1);
    assert ExitStep(run[3], run[4], 0) && ExitStep(run[4], run[5], 0) && ExitStep(run[5], run[6], 0) &&
           ExitStep(run[6], run[7], 0);
  }
}
