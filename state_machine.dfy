/**
 * The UI lifecycle of the image-recognition app: the transition table
 * `stateMachine`, the `reducer` that reads it and the display flags read
 * from it at render time (src/App.js).
 */
module StateMachine {
  import opened Wrappers

  /** The six keys of `stateMachine.states`. */
  datatype UiState = Initial | LoadingModel | AwaitingUpload | Ready | Classifying | Complete

  /**
   * A property value of a state's entry: the table holds strings (the
   * `next` state names) and booleans (the display flags).
   */
  datatype Prop = Str(text: string) | Bool(flag: bool)

  /** `stateMachine.initial`, the start state and the reducer's fallback. */
  const InitialName := "initial"

  const NextKey := "next"
  const ShowImageKey := "showImage"
  const ShowResultsKey := "showResults"

  /** The key under which each state is stored in `stateMachine.states`. */
  function Name(s: UiState): string {
    match s
    case Initial => "initial"
    case LoadingModel => "loadingModel"
    case AwaitingUpload => "awaitingUpload"
    case Ready => "ready"
    case Classifying => "classifying"
    case Complete => "complete"
  }

  /** Looks a name up among the keys of `stateMachine.states`. */
  function Parse(name: string): (r: Option<UiState>)
    ensures r.Some? ==> Name(r.value) == name
  {
    if name == "initial" then Some(Initial)
    else if name == "loadingModel" then Some(LoadingModel)
    else if name == "awaitingUpload" then Some(AwaitingUpload)
    else if name == "ready" then Some(Ready)
    else if name == "classifying" then Some(Classifying)
    else if name == "complete" then Some(Complete)
    else None
  }

  lemma ParseName(s: UiState)
    ensures Parse(Name(s)) == Some(s)
  {
  }

  /**
   * The object stored under state `s` in `stateMachine.states`, key by key.
   * Its keys are `next` and at most the two display flags, and none of its
   * values is falsy.
   */
  function Entry(s: UiState): (m: map<string, Prop>)
    ensures NextKey in m && m.Keys <= {NextKey, ShowImageKey, ShowResultsKey}
    ensures forall k :: k in m ==> Truthy(m[k])
  {
    match s
    case Initial => map[NextKey := Str("loadingModel")]
    case LoadingModel => map[NextKey := Str("awaitingUpload")]
    case AwaitingUpload => map[NextKey := Str("ready")]
    case Ready => map[NextKey := Str("classifying"), ShowImageKey := Bool(true)]
    case Classifying => map[NextKey := Str("complete")]
    case Complete =>
      map[NextKey := Str("awaitingUpload"), ShowImageKey := Bool(true), ShowResultsKey := Bool(true)]
  }

  /** JavaScript truthiness of a table value, as `||` tests it: only `""` and `false` are falsy. */
  predicate Truthy(p: Prop)
    ensures !Truthy(p) <==> p == Str("") || p == Bool(false)
  {
    match p
    case Str(t) => t != ""
    case Bool(b) => b
  }

  /** The keys of a state's entry other than `next`: its display flags. */
  function FlagKeys(s: UiState): set<string> {
    Entry(s).Keys - {NextKey}
  }

  /**
   * `reducer(currentState, event)`: the entry's property named by the event,
   * or `stateMachine.initial` when that property is missing or falsy. The
   * fallback fires exactly for events that are not keys of the entry, since
   * no entry holds a falsy value and no entry names "initial".
   */
  function Reducer(current: UiState, event: string): (r: Prop)
    ensures r == Str(InitialName) <==> event !in Entry(current)
    ensures event in Entry(current) ==> r == Entry(current)[event]
  {
    var entry := Entry(current);
    if event in entry && Truthy(entry[event]) then entry[event] else Str(InitialName)
  }

  /**
   * The reducer yields the name of a state (the only thing the component can
   * render from) exactly when the event is not one of the entry's flag names;
   * for a flag name it yields the flag's value `true`.
   */
  lemma ReducerNamesStateUnlessFlag(current: UiState, event: string)
    ensures Reducer(current, event).Str? && Parse(Reducer(current, event).text).Some?
            <==> event !in FlagKeys(current)
    ensures event in FlagKeys(current) ==> Reducer(current, event) == Bool(true)
  {
  }

  /** Every entry has a `next` key whose value is itself a key of `stateMachine.states`. */
  lemma NextNamesState(s: UiState)
    ensures NextKey in Entry(s) && Entry(s)[NextKey].Str?
    ensures Parse(Entry(s)[NextKey].text).Some?
  {
  }

  /** The state `dispatch("next")` moves to: the one the reducer names for "next". */
  function Step(s: UiState): (t: UiState)
    ensures Entry(s)[NextKey].Str? && Parse(Entry(s)[NextKey].text) == Some(t)
    ensures t != Initial
  {
    NextNamesState(s);
    Parse(Reducer(s, NextKey).text).value
  }

  /**
   * The documented run order. After `complete` the run goes back to
   * `awaitingUpload`, the state at index LoopStart.
   */
  const Lifecycle: seq<UiState> := [Initial, LoadingModel, AwaitingUpload, Ready, Classifying, Complete]
  const LoopStart := 2
  const LoopLength := 4

  /** Where a state stands in Lifecycle. */
  function Position(s: UiState): (i: nat)
    ensures i < |Lifecycle| && Lifecycle[i] == s
  {
    match s
    case Initial => 0
    case LoadingModel => 1
    case AwaitingUpload => 2
    case Ready => 3
    case Classifying => 4
    case Complete => 5
  }

  /** The state after `s` in the documented run order. */
  function LifecycleSuccessor(s: UiState): UiState {
    if Position(s) + 1 < |Lifecycle| then Lifecycle[Position(s) + 1] else Lifecycle[LoopStart]
  }

  /** The table's `next` successor of every state is the documented one. */
  lemma StepFollowsLifecycle(s: UiState)
    ensures Step(s) == LifecycleSuccessor(s)
  {
  }

  /** `initial` is nobody's successor, and `loadingModel` only that of `initial`. */
  lemma StartupNotReentered(s: UiState)
    ensures Step(s) != Initial
    ensures Step(s) == LoadingModel <==> s == Initial
  {
  }

  /** The state reached by `n` dispatches of "next". */
  function Steps(s: UiState, n: nat): (t: UiState)
    ensures n > 0 ==> t != Initial
    decreases n
  {
    if n == 0 then s else Steps(Step(s), n - 1)
  }

  lemma {:induction false} StepsAdd(s: UiState, m: nat, n: nat)
    ensures Steps(Steps(s, m), n) == Steps(s, m + n)
    decreases m
  {
    if m > 0 {
      StepsAdd(Step(s), m - 1, n);
    }
  }

  /** The four states of the upload-identify-reset loop. */
  predicate InLoop(s: UiState) {
    s != Initial && s != LoadingModel
  }

  /** Once in the loop, no number of "next" dispatches leaves it. */
  lemma {:induction false} LoopIsClosed(s: UiState, n: nat)
    requires InLoop(s)
    ensures InLoop(Steps(s, n))
    decreases n
  {
    if n > 0 {
      StartupNotReentered(s);
      LoopIsClosed(Step(s), n - 1);
    }
  }

  /** Inside the loop, `n` dispatches advance `n` places around it. */
  lemma {:induction false} StepsInLoop(k: nat, n: nat)
    requires k < LoopLength
    ensures Steps(Lifecycle[LoopStart + k], n) == Lifecycle[LoopStart + (k + n) % LoopLength]
    decreases n
  {
    if n > 0 {
      var s := Lifecycle[LoopStart + k];
      StepFollowsLifecycle(s);
      var k' := if k + 1 < LoopLength then k + 1 else 0;
      assert Step(s) == Lifecycle[LoopStart + k'];
      StepsInLoop(k', n - 1);
      assert (k' + (n - 1)) % LoopLength == (k + n) % LoopLength by {
        assert k' == k + 1 || k' + LoopLength == k + 1;
      }
    }
  }

  /**
   * The run from `initial`: the two start-up states, then the loop of four
   * states forever.
   */
  lemma RunFromInitial(n: nat)
    ensures Steps(Initial, n) ==
            if n < LoopStart then Lifecycle[n] else Lifecycle[LoopStart + (n - LoopStart) % LoopLength]
  {
    if n == 1 {
      StepFollowsLifecycle(Initial);
    } else if n >= LoopStart {
      StepFollowsLifecycle(Initial);
      StepFollowsLifecycle(LoadingModel);
      StepsAdd(Initial, LoopStart, n - LoopStart);
      StepsInLoop(0, n - LoopStart);
    }
  }

  /** The loop has period exactly four: four dispatches return, fewer do not. */
  lemma LoopPeriod(s: UiState, n: nat)
    requires InLoop(s)
    ensures Steps(s, n + LoopLength) == Steps(s, n)
    ensures 0 < n < LoopLength ==> Steps(s, n) != s
  {
    var k := Position(s) - LoopStart;
    StepsInLoop(k, n + LoopLength);
    StepsInLoop(k, n);
  }

  /**
   * `showImage` of line 99: the entry's flag, false where it has none. The
   * preview is shown exactly in `ready` and `complete`.
   */
  predicate ShowImage(s: UiState)
    ensures ShowImage(s) <==> s == Ready || s == Complete
  {
    ShowImageKey in Entry(s) && Truthy(Entry(s)[ShowImageKey])
  }

  /**
   * `showResults` of line 99: the entry's flag, false where it has none. The
   * results are shown exactly in `complete`.
   */
  predicate ShowResults(s: UiState)
    ensures ShowResults(s) <==> s == Complete
  {
    ShowResultsKey in Entry(s) && Truthy(Entry(s)[ShowResultsKey])
  }

  /** Results are never shown without the image. */
  lemma FlagsByState(s: UiState)
    ensures ShowResults(s) ==> ShowImage(s)
  {
  }
}
