# Dog saga reducer — a Dafny model

The application is a one-page React/Redux client that fetches a random dog
photo when a button is clicked. Its only piece of logic is the Redux reducer
in `src/reducers/index.js`: a pure function from the state record
`{fetching, dog, error}` and an action to the next state record. It handles
three action types, `API_CALL_REQUEST`, `API_CALL_SUCCESS` (carrying `dog`,
the photo URL) and `API_CALL_FAILURE` (carrying `error`). Every other action
returns the state unchanged. When no state is passed, the default parameter
supplies `initialState = {fetching: false, dog: null, error: null}`.

`reducers.dfy` (module `Reducers`) models this as follows:

- `State` is the record. JavaScript `null` is `None` of a small `Option` type.
- `Action` has one constructor per action type, plus `Other(tag)` for any
  unrecognised type, such as the store's own initialisation action.
- `Init` is `initialState`.
- `Transition` is the `switch`. Each branch uses Dafny's update syntax
  `s.(f := v)`, which does what the object spread `{ ...state, f: v }` does.
- `Reducer` is the exported function. Its `Option<State>` argument stands for
  a state that may be `undefined`.
- `Run` folds `Transition` over a sequence of actions, oldest first. This is
  what the store does as actions are dispatched. `Run` accepts any sequence,
  including ones the program never sends, such as a REQUEST while fetching.
  Every property proved for all sequences therefore also holds for the
  sequences the program sends.
- `Guarded` picks out the sequences the program does send. A REQUEST comes
  only when not fetching, because the view disables its button while
  fetching (`src/App.js:27-31`, `src/App.js:53`). A SUCCESS or FAILURE comes
  only while fetching, as the saga's answer to the one outstanding call.

What is proved:

- Each branch's field updates.
- The undefined-state default.
- Idempotence of every action, both for two dispatches and for any number of
  repeated dispatches.
- The invariant "an error is set only when no call is in flight", for every
  sequence of actions from the initial state. It is stated on `Run` and gives the phase table Idle / Fetching /
  Failed.
- Along guarded sequences, a photo and an error are never set together.
- "Last write wins" lemmas. They say which action decides each field after
  any sequence of actions.
- Concrete scenarios. Some of them send a REQUEST while fetching or a
  response when no call is outstanding. These sequences are proved not
  guarded.

Two behaviours of the code a reader might not expect:

- On FAILURE the code sets `dog` to `null` (`src/reducers/index.js:20`). The
  photo is not retained.
- On SUCCESS the code leaves `error` as it was (`src/reducers/index.js:18`).
  It does not clear it. `PhaseTable` proves that SUCCESS from a reachable
  fetching state still ends with no error, because REQUEST cleared it.
  `ScenarioRaceFailureThenSuccess` shows that a photo and an error can be set
  together. This needs a sequence that is not guarded: a REQUEST while
  fetching, or a response when no call is outstanding. The view does not send
  the first, and the saga, as assumed, does not send the second.
  `GuardedReachableExclusive` proves it never happens along guarded
  sequences.

## Model

| member | source | states |
|---|---|---|
| `Reducers.Init` | src/reducers/index.js:6-10 | the initial state is not fetching, has no photo and no error |
| `Reducers.Transition` | src/reducers/index.js:14-23 | REQUEST sets fetching, clears error and keeps dog. SUCCESS clears fetching, sets dog to the payload and keeps error. FAILURE clears fetching, sets dog to null and error to the payload. Any other action returns the state unchanged |
| `Reducers.Reducer` | src/reducers/index.js:6-22 | a given state goes through the switch; with no state, REQUEST gives {true, null, null}, SUCCESS(d) gives {false, d, null}, FAILURE(e) gives {false, null, e}, and an unrecognised action (the store's initialisation) yields exactly the initial state |
| `Reducers.TransitionIdempotent` | src/reducers/index.js:16-22 | dispatching the same action twice in a row gives the same state as dispatching it once |
| `Reducers.RepeatedDispatch` | src/reducers/index.js:16-22 | any positive number of consecutive dispatches of one action gives the state of a single dispatch |
| `Reducers.Run` | src/reducers/index.js:13-23 | a state with error set only when not fetching stays that way after any sequence of actions |
| `Reducers.RunAppend` | src/reducers/index.js:13-23 | dispatching two sequences one after the other is dispatching their concatenation |
| `Reducers.ReachableConsistent` | src/reducers/index.js:6-20 | every state reachable from the initial state has error set only when not fetching |
| `Reducers.PhaseOf` | src/reducers/index.js:7-9 | a classification the source does not name, read off the `fetching` and `error` fields declared here: on consistent states, Fetching, Failed and Idle hold exactly when fetching is set, an error is set, and neither is set |
| `Reducers.PhaseTable` | src/reducers/index.js:15-22 | from any reachable state, REQUEST leads to Fetching, SUCCESS while fetching leads to Idle with no error, FAILURE leads to Failed, and any other action keeps the phase |
| `Reducers.OthersAreInert` | src/reducers/index.js:21-22 | a sequence of only unrecognised actions leaves the state unchanged |
| `Reducers.DogKeptWithoutResponses` | src/reducers/index.js:16 | a sequence with no SUCCESS or FAILURE leaves the photo unchanged, so REQUEST does not clear it |
| `Reducers.ErrorKeptWithoutRequestsOrFailures` | src/reducers/index.js:18 | a sequence with no REQUEST or FAILURE leaves the error unchanged |
| `Reducers.LastResponseDecidesDog` | src/reducers/index.js:17-20 | after any sequence, the photo is the payload of the last SUCCESS, or null if the last SUCCESS-or-FAILURE was a FAILURE |
| `Reducers.LastRequestOrFailureDecidesError` | src/reducers/index.js:15-20 | after any sequence, the error is null if the last REQUEST-or-FAILURE was a REQUEST, and the FAILURE's message otherwise |
| `Reducers.LastRecognisedDecidesFetching` | src/reducers/index.js:15-22 | after any sequence, fetching holds exactly when the last recognised action was a REQUEST |
| `Reducers.ScenarioSuccessThenFailure` | src/reducers/index.js:16-20 | Init, REQUEST, SUCCESS("u") gives {false, "u", null}; then REQUEST gives {true, "u", null} and FAILURE("e") gives {false, null, "e"} |
| `Reducers.ScenarioRaceFailureThenSuccess` | src/reducers/index.js:16-20 | two REQUESTs back to back (not sent by the view), then FAILURE("e"), then SUCCESS("u") gives {false, "u", "e"}: a photo and an error together; so does REQUEST, FAILURE("e"), SUCCESS("u"), whose SUCCESS comes when no call is outstanding |
| `Reducers.ScenarioRaceSuccessThenFailure` | src/reducers/index.js:16-20 | two REQUESTs back to back (not sent by the view), then SUCCESS("u"), gives {false, "u", null}; a later FAILURE("e") drops the photo |
| `Reducers.Guarded` | src/App.js:27-31 | a REQUEST only when not fetching (the button is disabled while fetching); SUCCESS or FAILURE only while fetching (the saga's single answer, assumed); hence no two REQUESTs and no two responses back to back |
| `Reducers.GuardedRunExclusive` | src/reducers/index.js:15-22 | from a consistent state with no photo and error together, a sequence with REQUEST only when not fetching and responses only while fetching keeps both properties |
| `Reducers.GuardedReachableExclusive` | src/App.js:27-31 | every state reached from the initial state by such a sequence never has a photo and an error together |
| `Reducers.RacesAreNotGuarded` | src/App.js:27-31 | the race scenario sequences, with a REQUEST while fetching or a response when no call is outstanding, are not sequences the view and saga send |

## Left out

- The view's rendering (`src/App.js`) is not modelled. It is React UI code.
  Only its guard enters the model: through `Guarded`, a REQUEST is sent only
  when `fetching` is false.
- The store wiring (`src/store/index.js`) and the DOM mount (`src/index.js`)
  are library and I/O code. Redux's dispatch and subscription machinery is
  represented only by the fold `Run`.
- The saga (`watcherSaga` from `src/sagas`, run in `src/store/index.js:25`)
  is not part of this model. Its HTTP calls are covered only as action
  sequences given to `Run`. `Guarded` assumes the saga answers only while a
  call is outstanding.
- The action-type constants (`src/actions/actionTypes`) are not part of this
  model. They are treated as three distinct tags.
- `Reducer` handles only an `undefined` state, through the default parameter.
  A `null` state, which JavaScript spreads as an empty object, is not
  modelled.
- Action payloads are modelled as strings. A SUCCESS or FAILURE action
  without its `dog` or `error` property would store `undefined`; this is not
  modelled.
- The default branch hands back the very same object. Object identity is not
  expressible on values, and the model states only equality.
