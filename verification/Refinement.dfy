/** Workflows run one after another are sequential runs of the machine. */
module Refinement {
  import opened Tables
  import opened Machine
  import opened Solo

  ghost predicate IsSequentialRun(env: Env, r: Run) {
    IsRun(env, r) && IsSequential(r)
  }

  function Last(r: Run): State
    requires r.states != []
  {
    r.states[|r.states| - 1]
  }

  ghost predicate ExtendsRun(r: Run, r': Run) {
    r.states <= r'.states && r.labels <= r'.labels
  }

  lemma RunPlusLabel(env: Env, r: Run, l: Label) returns (r': Run)
    requires IsRun(env, r) && Legal(Last(r), l)
    ensures r'.states != [] && IsRun(env, r') && ExtendsRun(r, r') && Last(r') == After(env, Last(r), l)
    ensures IsSequential(r) && (l.Spawn? ==> Idle(Last(r))) ==> IsSequential(r')
  {
    hide After, Legal, Initial, Idle;
    r' := Run(r.states + [After(env, Last(r), l)], r.labels + [l]);
    forall i | 0 <= i < |r'.labels|
      ensures Legal(r'.states[i], r'.labels[i]) && r'.states[i + 1] == After(env, r'.states[i], r'.labels[i])
      ensures IsSequential(r) && (l.Spawn? ==> Idle(Last(r))) && r'.labels[i].Spawn? ==> Idle(r'.states[i])
    {
      if i < |r.labels| {
        assert r'.labels[i] == r.labels[i] && r'.states[i] == r.states[i] && r'.states[i + 1] == r.states[i + 1];
      }
    }
  }

  function PastOf(s: State): Past {
    Past(s.issued, s.created, s.dispatched)
  }

  /** Where this process stands. */
  function PlaceOf(s: State, pid: nat): Place
    requires pid < |s.procs|
  {
    Place(s.db, s.procs[pid], PastOf(s))
  }

  lemma ActSteps(env: Env, s: State, pid: nat, c: Choice)
    requires pid < |s.procs| && CanStep(PlaceOf(s, pid), c)
    ensures Legal(s, Act(pid, c))
    ensures var s', there := After(env, s, Act(pid, c)), Stepped(env, PlaceOf(s, pid), c);
            s' == State(there.db, s.procs[pid := there.pc], there.past.issued, there.past.created,
                        there.past.dispatched)
  {
    hide Next, Possible;
    var pc := s.procs[pid];
    assert Creates(pc) ==> Generates(pc) && Dispatches(pc, c) == [];
    assert Generates(pc) ==> Dispatches(pc, c) == [];
    assert s.dispatched + [] == s.dispatched;
  }

  /** Whatever a process can do left to itself it can do as the next steps of the run. */
  lemma {:induction false} ProcessExtendsRun(env: Env, r: Run, pid: nat, choices: seq<Choice>) returns (r': Run)
    requires r.states != [] && IsRun(env, r) && pid < |Last(r).procs|
    requires AllPossible(env, PlaceOf(Last(r), pid), choices)
    ensures r'.states != [] && IsRun(env, r') && ExtendsRun(r, r') && (IsSequential(r) ==> IsSequential(r'))
    ensures var there := Alone(env, PlaceOf(Last(r), pid), choices);
            Last(r') == State(there.db, Last(r).procs[pid := there.pc], there.past.issued, there.past.created,
                              there.past.dispatched)
    decreases choices
  {
    hide IsRun, IsSequential, CanStep, Stepped, After, Legal;
    r' := r;
    if choices == [] {
    } else {
      var s, l := Last(r), Act(pid, choices[0]);
      ActSteps(env, s, pid, choices[0]);
      var longer := RunPlusLabel(env, r, l);
      assert PlaceOf(Last(longer), pid) == Stepped(env, PlaceOf(s, pid), choices[0]);
      StuckIsStill(env, PlaceOf(s, pid), choices);
      r' := ProcessExtendsRun(env, longer, pid, choices[1..]);
    }
  }

  lemma StuckIsStill(env: Env, p: Place, choices: seq<Choice>)
    requires choices != [] && AllPossible(env, p, choices)
    ensures CanStep(p, choices[0]) && !p.pc.Done?
  {
    hide Next, Possible, FreshFor, Stepped;
  }

  lemma ReachingExtendsRun(env: Env, r: Run, pid: nat, there: Place) returns (r': Run)
    requires r.states != [] && IsRun(env, r) && pid < |Last(r).procs|
    requires Reaches(env, PlaceOf(Last(r), pid), there)
    ensures r'.states != [] && IsRun(env, r') && ExtendsRun(r, r') && (IsSequential(r) ==> IsSequential(r'))
    ensures Last(r') == State(there.db, Last(r).procs[pid := there.pc], there.past.issued, there.past.created,
                              there.past.dispatched)
  {
    hide IsRun, IsSequential, AllPossible, Alone;
    var choices :| AllPossible(env, PlaceOf(Last(r), pid), choices)
                   && Alone(env, PlaceOf(Last(r), pid), choices) == there;
    r' := ProcessExtendsRun(env, r, pid, choices);
  }

  /**
   A workflow that, run alone from the tables of an idle run, reaches an outcome reaches it as the next
   workflow of that run: what is proved of sequential runs holds of workflows called in turn.
   */
  lemma WorkflowExtendsRun(env: Env, r: Run, pc: Pc, db': Db, o: Outcome, past': Past) returns (r': Run)
    requires r.states != [] && IsSequentialRun(env, r) && Idle(Last(r)) && Starts(pc)
    requires Reaches(env, Place(Last(r).db, pc, PastOf(Last(r))), Place(db', Done(o), past'))
    ensures r'.states != [] && IsSequentialRun(env, r') && ExtendsRun(r, r') && Idle(Last(r'))
    ensures Last(r') == State(db', Last(r).procs + [Done(o)], past'.issued, past'.created, past'.dispatched)
  {
    hide IsRun, IsSequential, Reaches;
    var pid := |Last(r).procs|;
    var spawned := RunPlusLabel(env, r, Spawn(pc));
    assert PlaceOf(Last(spawned), pid) == Place(Last(r).db, pc, PastOf(Last(r)));
    r' := ReachingExtendsRun(env, spawned, pid, Place(db', Done(o), past'));
  }
}
