# Image-recognition app: UI lifecycle model

A Dafny model of the single React component of a browser app that lets a
user upload a photo, classifies it with a pre-trained MobileNet model and
lists the predicted labels. The logic of the component is a small state
machine:

- `state_machine.dfy` (module `StateMachine`): the transition table
  `stateMachine` with its six states `initial`, `loadingModel`,
  `awaitingUpload`, `ready`, `classifying` and `complete`, each entry held as
  the map of properties the source writes (`next` and the display flags
  `showImage` / `showResults`); the `reducer`, which reads the event as a
  property key of the current entry and falls back to `"initial"`; the
  `dispatch("next")` step; and the display flags read at render time. The
  lemmas prove that the table's successors are the documented run order
  (`initial → loadingModel → awaitingUpload → ready → classifying →
  complete → awaitingUpload → …`), that every `next` names a state, that the
  start-up states are never re-entered, that the loop has period four, and
  which flags hold in which state.
- `app.dfy` (module `Component`): the `App` component as a class whose
  fields are its React state (`state`, whether a model is loaded, `imgUrl`,
  `results`, the button label) and whose methods are the handlers
  `loadModel`, `handleUpload`, `identify` and `resetUI`, each performing its
  dispatches and setter calls in the source's order; the render as a
  function; and three sessions driven through the class (a normal run, an
  upload while results are shown, a failed model load).
- `wrappers.dfy`: the `Option` type that stands for JavaScript's `null`.

The outcomes of the calls into TensorFlow.js and the browser are handler
parameters: `LoadModel(loaded)` says whether `mobilenet.load()` resolved,
`Identify(outcome)` receives what `model.classify` resolved to (None when it
rejected), and `HandleUpload(files, createObjectUrl)` receives the function
that turns the first file into an object URL.

Behaviour of the code that the model keeps as it is:

- The reducer reads its event as a property key of the current entry
  (src/App.js:33). A name the entry lacks gives `"initial"`; a display-flag
  name gives the flag's value `true`, which is not a state: `showImage` in
  `ready`, `showImage` and `showResults` in `complete` (`Reducer`,
  `ReducerNamesStateUnlessFlag`).
- `handleUpload` does not clear `results` (src/App.js:65-73), so an upload
  in `complete` reaches `awaitingUpload` with the old results still stored
  (`UploadKeepsResults`). Results are rendered only in `complete`
  (`App.Render`).
- A rejected `await` ends the handler after its first dispatch and leaves
  the intermediate label in place (`LoadModel`, `Identify`, `LoadFailure`).

## Model

| member | source | states |
|---|---|---|
| StateMachine.Parse | src/App.js:7-29 | a name that parses is the key of the state it parses to |
| StateMachine.ParseName | src/App.js:7-29 | every state's key parses back to that state |
| StateMachine.NextNamesState | src/App.js:8-28 | every entry has a `next` property whose value is a string naming a key of `states` |
| StateMachine.Reducer | src/App.js:32-33 | the reducer returns `"initial"` exactly when the event is not a key of the current entry; for a key it returns that key's value (no value is falsy) |
| StateMachine.ReducerNamesStateUnlessFlag | src/App.js:17-33 | the reducer names a state exactly when the event is not a flag name of the entry; a flag name yields `true` |
| StateMachine.StepFollowsLifecycle | src/App.js:5-33 | `dispatch("next")` moves every state to its successor in the run order initial, loadingModel, awaitingUpload, ready, classifying, complete, with complete going back to awaitingUpload |
| StateMachine.StartupNotReentered | src/App.js:8-28 | no state steps to `initial`, and only `initial` steps to `loadingModel` |
| StateMachine.StepsAdd | src/App.js:51-53 | m dispatches followed by n dispatches equal m + n dispatches |
| StateMachine.LoopIsClosed | src/App.js:14-28 | from any of awaitingUpload, ready, classifying, complete, any number of dispatches stays among those four |
| StateMachine.StepsInLoop | src/App.js:14-28 | inside the loop, n dispatches advance n places modulo four |
| StateMachine.RunFromInitial | src/App.js:5-30 | the state after n dispatches from `initial`: the two start-up states, then the loop of four in order |
| StateMachine.LoopPeriod | src/App.js:14-28 | inside the loop four dispatches return to the same state and one to three never do |
| StateMachine.Entry | src/App.js:8-28 | definition of the table entries; each has `next` and at most the two display flags, and none of its values is falsy; `NextNamesState` pins down `next` |
| StateMachine.Truthy | src/App.js:33 | definition of the truthiness `\|\|` tests: only `""` and `false` are falsy |
| StateMachine.Step | src/App.js:51-53 | definition of `dispatch("next")` through the reducer; the new state is the one the entry's `next` names, never `initial`; `StepFollowsLifecycle` gives it for every state |
| StateMachine.Steps | src/App.js:51-53 | definition of n dispatches in a row; after at least one the state is never `initial`; `StepsAdd`, `RunFromInitial` and `LoopPeriod` describe it |
| StateMachine.ShowImage | src/App.js:99 | definition of the `showImage` flag with its default false; it holds exactly in ready and complete |
| StateMachine.ShowResults | src/App.js:99 | definition of the `showResults` flag with its default false; it holds exactly in complete |
| StateMachine.FlagsByState | src/App.js:17-27 | the results flag never holds without the image flag |
| Component.App.constructor | src/App.js:42-48 | the component mounts in `initial` with no model, no image, no results and an undefined button label |
| Component.App.Next | src/App.js:51-53 | `next()` applies the reducer's step to the state and changes nothing else |
| Component.App.LoadModel | src/App.js:54-64 | two dispatches and label "Upload Photo" with the model recorded when loading resolves (from initial: awaitingUpload); one dispatch and label "Loading Model..." when it rejects; image and results untouched |
| Component.App.HandleUpload | src/App.js:65-73 | an empty file list changes nothing; otherwise the image URL comes from the first file, the label becomes "Identify" and the state advances one step from whatever it was |
| Component.App.Identify | src/App.js:74-84 | with a model and a resolved classification: two dispatches (ready to complete), results replaced by the classifier output, label "Reset"; otherwise one dispatch, results kept, label "Identifying" |
| Component.App.ResetUI | src/App.js:85-93 | results emptied, image URL null, one dispatch (complete to awaitingUpload), label "Upload Photo" |
| Component.App.Render | src/App.js:99-111 | the preview is rendered exactly in ready and complete, the result list exactly in complete, and the button shows the current label |
| Component.NormalSession | src/App.js:54-93 | mount, upload, identify, reset pass through initial, awaitingUpload, ready, complete, awaitingUpload; the results and image are shown after identifying and both are gone after reset |
| Component.UploadKeepsResults | src/App.js:65-73 | uploading in complete reaches awaitingUpload with the previous results still stored but not shown |
| Component.LoadFailure | src/App.js:54-84 | after a rejected model load an upload reaches only awaitingUpload and identifying stops at ready with label "Identifying" and no results |

## Left out

- `tf.setBackend("cpu")`, `mobilenet.load()` and `model.classify()` (src/App.js:41, 57, 77): calls into TensorFlow.js whose behaviour is not visible; a load is a flag and a classification an arbitrary sequence of predictions, or a rejection.
- `formatResult` (src/App.js:35-39): floating-point percentage formatting and markup; `Render` shows the raw predictions.
- Async interleaving and React's batching of state updates: each handler runs atomically, its steps in source order. An upload that lands while `mobilenet.load()` is pending is therefore not modelled.
- The button's `action` closures: only the label is modelled, so the methods may be called in any order rather than only through the button that currently offers them.
- `imgRef`: a classification of a missing image element is covered by the rejected outcome of `Identify`.
- `inputRef.current.click()`, the `useEffect` that runs `loadModel` on mount (the sessions call `LoadModel` first) and the rest of the markup.
- `URL.createObjectURL`: a function parameter from files to URL strings; URLs are never revoked in the source either.
- Properties that JavaScript objects inherit (`toString`, `constructor`, …): the reducer treats an entry as having only the keys written in the table.
