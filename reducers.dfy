/** The application's Redux reducer (src/reducers/index.js): a pure state
    machine over the record {fetching, dog, error}, driven by the three API
    call actions, together with the fold that a store performs when it
    dispatches a sequence of actions. */
module Reducers {

  /** A value that may be absent: `null` in a state field, `undefined` for the
      reducer's state argument. */
  datatype Option<T> = None | Some(value: T)

  /** The store's state: whether an API call is in flight, the URL of the
      dog photo (or null), and the failure message (or null). */
  datatype State = State(fetching: bool, dog: Option<string>, error: Option<string>)

  /** The actions the reducer tells apart. The three API call types are
      distinct tags; `Other` is any action whose `type` is none of them
      (such as the store's own initialisation action). */
  datatype Action =
    | Request
    | Success(dog: string)
    | Failure(error: string)
    | Other(tag: string)

  /** The module-level `initialState`. */
  function Init(): (s: State)
    ensures !s.fetching && s.dog == None && s.error == None
  {
    State(false, None, None)
  }

  /** The `switch` on `action.type`. Every recognised branch copies the old
      state and overwrites some fields, like `{ ...state, ... }`; the default
      branch hands the state back. */
  function Transition(s: State, a: Action): (r: State)
    // REQUEST: a call is in flight, any earlier error is cleared, the photo stays.
    ensures a.Request? ==> r.fetching && r.error == None && r.dog == s.dog
    // SUCCESS: the call is over and the photo is replaced; the error is left as it was.
    ensures a.Success? ==> !r.fetching && r.dog == Some(a.dog) && r.error == s.error
    // FAILURE: the call is over, the photo is dropped and the message recorded.
    ensures a.Failure? ==> !r.fetching && r.dog == None && r.error == Some(a.error)
    // Any other action: the state is returned untouched.
    ensures a.Other? ==> r == s
  {
    match a
    case Request => s.(fetching := true, error := None)
    case Success(d) => s.(fetching := false, dog := Some(d))
    case Failure(e) => s.(fetching := false, dog := None, error := Some(e))
    case Other(_) => s
  }

  /** The exported `reducer(state = initialState, action)`: `None` stands for
      an `undefined` state, which the default parameter replaces by the
      initial state. */
  function Reducer(state: Option<State>, a: Action): (r: State)
    ensures state.Some? ==> r == Transition(state.value, a)
    // With no state, each action acts on the initial state; the store's own
    // initialisation action (an unrecognised type) yields exactly `initialState`.
    ensures state.None? && a.Request? ==> r == State(true, None, None)
    ensures state.None? && a.Success? ==> r == State(false, Some(a.dog), None)
    ensures state.None? && a.Failure? ==> r == State(false, None, Some(a.error))
    ensures state.None? && a.Other? ==> r == Init()
  {
    match state
    case None => Transition(Init(), a)
    case Some(s) => Transition(s, a)
  }

  /** The invariant of every reachable state: an error is only shown when no
      call is in flight. */
  predicate Consistent(s: State) {
    s.error.Some? ==> !s.fetching
  }

  /** Dispatching `actions` one after another, oldest first, starting from `s`.
      Each step preserves the invariant, so a fold that starts consistent
      ends consistent. */
  function Run(s: State, actions: seq<Action>): (r: State)
    ensures Consistent(s) ==> Consistent(r)
    decreases |actions|
  {
    if actions == [] then s else Run(Transition(s, actions[0]), actions[1..])
  }

  /** The three phases a consistent state is in. */
  datatype Phase = Idle | Fetching | Failed

  /** The phase of a consistent state: the three phases partition the
      consistent states, and the phase is read off `fetching` and `error`. */
  function PhaseOf(s: State): (p: Phase)
    requires Consistent(s)
    ensures p == Fetching <==> s.fetching
    ensures p == Failed <==> s.error.Some?
    ensures p == Idle <==> !s.fetching && s.error == None
  {
    if s.fetching then Fetching
    else if s.error.Some? then Failed
    else Idle
  }

  /** An action that settles an API call (the outcome the saga dispatches). */
  predicate Settles(a: Action) {
    a.Success? || a.Failure?
  }

  /** Every recognised action overwrites fields with values that do not depend
      on their old values, so dispatching the same action twice is the same as
      dispatching it once. */
  lemma TransitionIdempotent(s: State, a: Action)
    ensures Transition(Transition(s, a), a) == Transition(s, a)
  {
  }

  /** The same action dispatched any positive number of times in a row has the
      effect of one dispatch. */
  lemma {:induction false} RepeatedDispatch(s: State, a: Action, n: nat)
    requires n >= 1
    ensures Run(s, seq(n, _ => a)) == Transition(s, a)
    decreases n
  {
    var xs := seq(n, _ => a);
    assert xs[0] == a;
    assert xs[1..] == seq(n - 1, _ => a);
    if n == 1 {
      assert xs[1..] == [];
    } else {
      RepeatedDispatch(Transition(s, a), a, n - 1);
      TransitionIdempotent(s, a);
    }
  }

  /** Dispatching `xs` and then `ys` is dispatching their concatenation. */
  lemma {:induction false} RunAppend(s: State, xs: seq<Action>, ys: seq<Action>)
    ensures Run(s, xs + ys) == Run(Run(s, xs), ys)
    decreases |xs|
  {
    if xs == [] {
      assert xs + ys == ys;
    } else {
      assert (xs + ys)[0] == xs[0];
      assert (xs + ys)[1..] == xs[1..] + ys;
      RunAppend(Transition(s, xs[0]), xs[1..], ys);
    }
  }

  /** Every state reachable from the initial state is consistent. */
  lemma ReachableConsistent(xs: seq<Action>)
    ensures Consistent(Run(Init(), xs))
  {
  }

  /** The transition table of the three phases, on reachable states: REQUEST
      always starts fetching, SUCCESS while fetching returns to idle with no
      error, FAILURE always ends in the failed phase, and any other action
      keeps the phase. */
  lemma PhaseTable(xs: seq<Action>, d: string, e: string, t: string)
    ensures var s := Run(Init(), xs);
      && PhaseOf(Transition(s, Request)) == Fetching
      && (s.fetching ==> PhaseOf(Transition(s, Success(d))) == Idle)
      && (s.fetching ==> Transition(s, Success(d)).error == None)
      && PhaseOf(Transition(s, Failure(e))) == Failed
      && PhaseOf(Transition(s, Other(t))) == PhaseOf(s)
  {
    ReachableConsistent(xs);
  }

  /** Unrecognised actions never change the state. */
  lemma {:induction false} OthersAreInert(s: State, ys: seq<Action>)
    requires forall i :: 0 <= i < |ys| ==> ys[i].Other?
    ensures Run(s, ys) == s
    decreases |ys|
  {
    if ys != [] {
      OthersAreInert(s, ys[1..]);
    }
  }

  /** Only SUCCESS and FAILURE touch the photo. */
  lemma {:induction false} DogKeptWithoutResponses(s: State, ys: seq<Action>)
    requires forall i :: 0 <= i < |ys| ==> !Settles(ys[i])
    ensures Run(s, ys).dog == s.dog
    decreases |ys|
  {
    if ys != [] {
      DogKeptWithoutResponses(Transition(s, ys[0]), ys[1..]);
    }
  }

  /** Only REQUEST and FAILURE touch the error. */
  lemma {:induction false} ErrorKeptWithoutRequestsOrFailures(s: State, ys: seq<Action>)
    requires forall i :: 0 <= i < |ys| ==> !ys[i].Request? && !ys[i].Failure?
    ensures Run(s, ys).error == s.error
    decreases |ys|
  {
    if ys != [] {
      ErrorKeptWithoutRequestsOrFailures(Transition(s, ys[0]), ys[1..]);
    }
  }

  /** After any sequence of actions, the photo is decided by the last SUCCESS
      or FAILURE dispatched: its URL, or null. */
  lemma LastResponseDecidesDog(s: State, xs: seq<Action>, a: Action, ys: seq<Action>)
    requires Settles(a)
    requires forall i :: 0 <= i < |ys| ==> !Settles(ys[i])
    ensures Run(s, xs + [a] + ys).dog == (if a.Success? then Some(a.dog) else None)
  {
    RunAppend(s, xs + [a], ys);
    RunAppend(s, xs, [a]);
    DogKeptWithoutResponses(Run(s, xs + [a]), ys);
  }

  /** The error is decided by the last REQUEST or FAILURE dispatched: cleared
      by a REQUEST, set by a FAILURE. */
  lemma LastRequestOrFailureDecidesError(s: State, xs: seq<Action>, a: Action, ys: seq<Action>)
    requires a.Request? || a.Failure?
    requires forall i :: 0 <= i < |ys| ==> !ys[i].Request? && !ys[i].Failure?
    ensures Run(s, xs + [a] + ys).error == (if a.Failure? then Some(a.error) else None)
  {
    RunAppend(s, xs + [a], ys);
    RunAppend(s, xs, [a]);
    ErrorKeptWithoutRequestsOrFailures(Run(s, xs + [a]), ys);
  }

  /** `fetching` is decided by the last recognised action: true exactly when it
      was a REQUEST. */
  lemma LastRecognisedDecidesFetching(s: State, xs: seq<Action>, a: Action, ys: seq<Action>)
    requires !a.Other?
    requires forall i :: 0 <= i < |ys| ==> ys[i].Other?
    ensures Run(s, xs + [a] + ys).fetching == a.Request?
  {
    RunAppend(s, xs + [a], ys);
    RunAppend(s, xs, [a]);
    OthersAreInert(Run(s, xs + [a]), ys);
  }

  /** A fetch cycle that succeeds, then one that fails. */
  lemma ScenarioSuccessThenFailure()
    ensures Run(Init(), [Request]) == State(true, None, None)
    ensures Run(Init(), [Request, Success("u")]) == State(false, Some("u"), None)
    ensures Run(Init(), [Request, Success("u"), Request]) == State(true, Some("u"), None)
    ensures Run(Init(), [Request, Success("u"), Request, Failure("e")]) == State(false, None, Some("e"))
  {
  }

  /** A FAILURE followed by a SUCCESS: the SUCCESS sets a photo while the error
      is still set. The first sequence sends two REQUESTs back to back, which
      the view never does (its button is disabled while fetching); the second
      answers with a SUCCESS when no call is outstanding. */
  lemma ScenarioRaceFailureThenSuccess()
    ensures Run(Init(), [Request, Request, Failure("e"), Success("u")]) == State(false, Some("u"), Some("e"))
    ensures Run(Init(), [Request, Failure("e"), Success("u")]) == State(false, Some("u"), Some("e"))
  {
  }

  /** Two REQUESTs dispatched back to back, which the view never does, then a
      SUCCESS and a FAILURE: the FAILURE drops the photo just set. */
  lemma ScenarioRaceSuccessThenFailure()
    ensures Run(Init(), [Request, Request, Success("u")]) == State(false, Some("u"), None)
    ensures Run(Init(), [Request, Request, Success("u"), Failure("e")]) == State(false, None, Some("e"))
  {
  }

  /** A sequence dispatched the way the program dispatches: REQUEST only when
      not fetching, since the view's button is disabled while fetching, and
      SUCCESS or FAILURE only while fetching, since the saga answers the one
      outstanding call. In such a sequence no two REQUESTs and no two
      responses are dispatched back to back. */
  predicate Guarded(s: State, xs: seq<Action>)
    ensures Guarded(s, xs) && |xs| >= 2 && xs[0].Request? ==> !xs[1].Request?
    ensures Guarded(s, xs) && |xs| >= 2 && Settles(xs[0]) ==> !Settles(xs[1])
    decreases |xs|
  {
    xs == [] ||
    ((xs[0].Request? ==> !s.fetching)
     && (Settles(xs[0]) ==> s.fetching)
     && Guarded(Transition(s, xs[0]), xs[1..]))
  }

  /** No photo is shown together with an error. */
  predicate Exclusive(s: State) {
    !(s.dog.Some? && s.error.Some?)
  }

  /** Along a guarded sequence, a consistent state that shows no photo with an
      error stays that way. */
  lemma {:induction false} GuardedRunExclusive(s: State, xs: seq<Action>)
    requires Consistent(s) && Exclusive(s)
    requires Guarded(s, xs)
    ensures Consistent(Run(s, xs)) && Exclusive(Run(s, xs))
    decreases |xs|
  {
    if xs != [] {
      GuardedRunExclusive(Transition(s, xs[0]), xs[1..]);
    }
  }

  /** Every state the program reaches by guarded dispatches from the initial
      state shows either a photo or an error, never both. */
  lemma GuardedReachableExclusive(xs: seq<Action>)
    requires Guarded(Init(), xs)
    ensures Exclusive(Run(Init(), xs))
  {
    GuardedRunExclusive(Init(), xs);
  }

  /** The sequences that set a photo and an error together are not guarded:
      either a REQUEST comes while fetching, or a response comes when no call
      is outstanding. */
  lemma RacesAreNotGuarded()
    ensures !Guarded(Init(), [Request, Request, Failure("e"), Success("u")])
    ensures !Guarded(Init(), [Request, Request, Success("u"), Failure("e")])
    ensures !Guarded(Init(), [Failure("e"), Success("u")])
    ensures !Guarded(Init(), [Request, Failure("e"), Success("u")])
  {
  }
}
