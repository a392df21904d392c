/** One process running by itself: the link between the step machine and the workflow methods. */
module Solo {
  import opened Domain
  import opened Tables
  import opened Machine

  /** What any process has done so far: ids generated, messages created, sends accepted. */
  datatype Past = Past(issued: set<Id>, created: seq<Id>, dispatched: seq<Dispatch>)

  function PastAfter(past: Past, pc: Pc, c: Choice): Past {
    if Creates(pc) then past.(issued := past.issued + {c.id}, created := past.created + [c.id])
    else if Generates(pc) then past.(issued := past.issued + {c.id})
    else if Dispatches(pc, c) != [] then past.(dispatched := past.dispatched + Dispatches(pc, c))
    else past
  }

  /** The tables, where the process stands, and what has been done. */
  datatype Place = Place(db: Db, pc: Pc, past: Past)

  ghost function Stepped(env: Env, p: Place, c: Choice): Place {
    var moved := Next(env, p.db, p.pc, c);
    Place(moved.db, moved.pc, PastAfter(p.past, p.pc, c))
  }

  /** A new id was generated. */
  function Noted(past: Past, id: Id): Past {
    past.(issued := past.issued + {id})
  }

  /** And a message was created under it. */
  function NotedMessage(past: Past, id: Id): Past {
    past.(issued := past.issued + {id}, created := past.created + [id])
  }

  /** Freshly generated ids: nonempty, never generated before, and all different. */
  predicate NewIds(ids: seq<Id>, past: Past) {
    && (forall i :: 0 <= i < |ids| ==> ids[i] != "" && ids[i] !in past.issued)
    && forall i, j :: 0 <= i < j < |ids| ==> ids[i] != ids[j]
  }

  /** The answer is one the process could really get, and a generated id is new. */
  ghost predicate CanStep(p: Place, c: Choice) {
    !p.pc.Done? && Possible(p.db, p.pc, c) && FreshFor(p.past.issued, p.pc, c)
  }

  /** One process left to itself, taking these answers until they run out or it is done. */
  ghost function Alone(env: Env, p: Place, choices: seq<Choice>): Place
    decreases choices
  {
    if choices == [] || p.pc.Done? then p else Alone(env, Stepped(env, p, choices[0]), choices[1..])
  }

  ghost predicate AllPossible(env: Env, p: Place, choices: seq<Choice>)
    decreases choices
  {
    choices == [] || (CanStep(p, choices[0]) && AllPossible(env, Stepped(env, p, choices[0]), choices[1..]))
  }

  /** Undisturbed, and with answers it could really get, the process gets from here to there. */
  ghost predicate Reaches(env: Env, p: Place, q: Place) {
    exists choices :: AllPossible(env, p, choices) && Alone(env, p, choices) == q
  }

  lemma ReachesItself(env: Env, p: Place)
    ensures Reaches(env, p, p)
  {
    hide Next, Possible;
    assert AllPossible(env, p, []) && Alone(env, p, []) == p;
  }

  lemma {:induction false} AloneSnoc(env: Env, p: Place, choices: seq<Choice>, c: Choice)
    requires AllPossible(env, p, choices) && CanStep(Alone(env, p, choices), c)
    ensures AllPossible(env, p, choices + [c])
    ensures Alone(env, p, choices + [c]) == Stepped(env, Alone(env, p, choices), c)
    decreases choices
  {
    hide Next, Possible, FreshFor, PastAfter;
    if choices == [] {
      assert ([] + [c])[1..] == [];
    } else {
      assert (choices + [c])[1..] == choices[1..] + [c];
      AloneSnoc(env, Stepped(env, p, choices[0]), choices[1..], c);
    }
  }

  /** One more step. */
  lemma ReachesNext(env: Env, p: Place, q: Place, c: Choice)
    requires Reaches(env, p, q) && CanStep(q, c)
    ensures Reaches(env, p, Stepped(env, q, c))
  {
    hide CanStep, Stepped, AllPossible, Alone;
    var choices :| AllPossible(env, p, choices) && Alone(env, p, choices) == q;
    AloneSnoc(env, p, choices, c);
  }

  lemma {:induction false} AloneAppend(env: Env, p: Place, xs: seq<Choice>, ys: seq<Choice>)
    requires AllPossible(env, p, xs) && AllPossible(env, Alone(env, p, xs), ys)
    ensures AllPossible(env, p, xs + ys) && Alone(env, p, xs + ys) == Alone(env, Alone(env, p, xs), ys)
    decreases xs
  {
    hide Next, Possible, FreshFor, PastAfter;
    if xs == [] {
      assert xs + ys == ys;
    } else {
      assert (xs + ys)[1..] == xs[1..] + ys;
      AloneAppend(env, Stepped(env, p, xs[0]), xs[1..], ys);
    }
  }

  lemma ReachesOn(env: Env, p: Place, q: Place, there: Place)
    requires Reaches(env, p, q) && Reaches(env, q, there)
    ensures Reaches(env, p, there)
  {
    hide AllPossible, Alone;
    var xs :| AllPossible(env, p, xs) && Alone(env, p, xs) == q;
    var ys :| AllPossible(env, q, ys) && Alone(env, q, ys) == there;
    AloneAppend(env, p, xs, ys);
  }
}
