/**
 * The `App` component (src/App.js:40-114): its React state, the four
 * action handlers that advance the lifecycle and what it renders.
 * `mobilenet.load()`, `model.classify()` and `URL.createObjectURL` are
 * outside the model: their outcomes are parameters of the handlers.
 */
module Component {
  import opened Wrappers
  import opened StateMachine

  /** One entry of the classifier's output. */
  datatype Prediction = Prediction(className: string, probability: real)

  /** A file chosen in the file input. */
  datatype File = File(name: string)

  /** What one render shows: the preview (with its `src`) and the result list, when shown, and the button label. */
  datatype Screen = Screen(preview: Option<Option<string>>, list: Option<seq<Prediction>>, button: Option<string>)

  const LoadingLabel := "Loading Model..."
  const UploadLabel := "Upload Photo"
  const IdentifyLabel := "Identify"
  const IdentifyingLabel := "Identifying"
  const ResetLabel := "Reset"

  class App {
    /** The reducer's state (`useReducer`). */
    var state: UiState
    /** Whether `setModel` has stored a loaded model (`model` is not null). */
    var modelLoaded: bool
    /** The preview's object URL; None is `null`. */
    var imgUrl: Option<string>
    /** The last classifier output. */
    var results: seq<Prediction>
    /** `buttonProps.text`; None while it is undefined. */
    var buttonText: Option<string>

    /**
     * The first render. The initial `buttonProps` is `{ initial: { text: ... } }`,
     * whose `.text` is undefined, so the button starts without a label.
     */
    constructor ()
      ensures state == Initial && !modelLoaded && imgUrl == None
      ensures results == [] && buttonText == None
    {
      state := Initial;
      modelLoaded := false;
      imgUrl := None;
      results := [];
      buttonText := None;
    }

    /** `next()`: `dispatch("next")`. */
    method Next()
      modifies this`state
      ensures state == Step(old(state))
    {
      state := Step(state);
    }

    /**
     * `loadModel`. `loaded` is whether `mobilenet.load()` resolves; when it
     * rejects, the handler stops at the await, after its first step.
     */
    method LoadModel(loaded: bool)
      modifies this
      ensures state == Steps(old(state), if loaded then 2 else 1)
      ensures modelLoaded == (old(modelLoaded) || loaded)
      ensures buttonText == Some(if loaded then UploadLabel else LoadingLabel)
      ensures imgUrl == old(imgUrl) && results == old(results)
      ensures old(state) == Initial && loaded ==> state == AwaitingUpload
    {
      ghost var s0 := state;
      Next();
      buttonText := Some(LoadingLabel);
      if loaded {
        modelLoaded := true;
        Next();
        buttonText := Some(UploadLabel);
        assert state == Steps(s0, 2);
        RunFromInitial(2);
      }
    }

    /**
     * `handleUpload`. With no file nothing happens; otherwise the preview
     * takes the object URL of the first file and the machine advances one
     * step from whatever state it is in: the file input is always rendered,
     * so nothing guards the current state.
     */
    method HandleUpload(files: seq<File>, createObjectUrl: File -> string)
      modifies this
      ensures |files| == 0 ==> state == old(state) && imgUrl == old(imgUrl) && buttonText == old(buttonText)
      ensures |files| > 0 ==> state == Step(old(state)) && imgUrl == Some(createObjectUrl(files[0]))
      ensures |files| > 0 ==> buttonText == Some(IdentifyLabel)
      ensures results == old(results) && modelLoaded == old(modelLoaded)
    {
      if |files| > 0 {
        var url := createObjectUrl(files[0]);
        imgUrl := Some(url);
        buttonText := Some(IdentifyLabel);
        Next();
      }
    }

    /**
     * `identify`. `outcome` is what `model.classify` resolves to, None when
     * it rejects. Without a loaded model the call on `null` throws. Either
     * failure stops the handler after its first step, label "Identifying".
     * The image element is rendered only in `ready` and `complete`; a call
     * from any other state classifies a missing image, and the model leaves
     * that outcome to the caller like any other.
     */
    method Identify(outcome: Option<seq<Prediction>>)
      modifies this
      ensures modelLoaded && outcome.Some? ==>
                state == Steps(old(state), 2) && results == outcome.value && buttonText == Some(ResetLabel)
      ensures !(modelLoaded && outcome.Some?) ==>
                state == Step(old(state)) && results == old(results) && buttonText == Some(IdentifyingLabel)
      ensures old(state) == Ready && modelLoaded && outcome.Some? ==> state == Complete
      ensures imgUrl == old(imgUrl) && modelLoaded == old(modelLoaded)
    {
      ghost var s0 := state;
      Next();
      buttonText := Some(IdentifyingLabel);
      if modelLoaded && outcome.Some? {
        results := outcome.value;
        Next();
        buttonText := Some(ResetLabel);
        assert state == Steps(s0, 2);
        if s0 == Ready {
          StepsInLoop(1, 2);
        }
      }
    }

    /** `resetUI`: clears the results and the preview and advances one step. */
    method ResetUI()
      modifies this
      ensures results == [] && imgUrl == None
      ensures state == Step(old(state)) && buttonText == Some(UploadLabel)
      ensures old(state) == Complete ==> state == AwaitingUpload
      ensures modelLoaded == old(modelLoaded)
    {
      results := [];
      imgUrl := None;
      Next();
      buttonText := Some(UploadLabel);
      StepFollowsLifecycle(old(state));
    }

    /**
     * The render (lines 99-111): the preview only where the state's
     * `showImage` flag holds, the results only where `showResults` holds.
     */
    function Render(): (v: Screen)
      reads this
      ensures v.preview.Some? <==> state == Ready || state == Complete
      ensures v.list.Some? <==> state == Complete
      ensures v.preview.Some? ==> v.preview.value == imgUrl
      ensures v.list.Some? ==> v.list.value == results
      ensures v.button == buttonText
    {
      Screen(if ShowImage(state) then Some(imgUrl) else None,
             if ShowResults(state) then Some(results) else None,
             buttonText)
    }
  }

  /**
   * A normal session: mount (which loads the model), upload a photo,
   * identify it, reset. Returns the state after each of these and the
   * screens after identifying and after resetting.
   */
  method NormalSession(photo: File, createObjectUrl: File -> string, predictions: seq<Prediction>)
    returns (trace: seq<UiState>, shown: Screen, afterReset: Screen)
    ensures trace == [Initial, AwaitingUpload, Ready, Complete, AwaitingUpload]
    ensures shown == Screen(Some(Some(createObjectUrl(photo))), Some(predictions), Some(ResetLabel))
    ensures afterReset == Screen(None, None, Some(UploadLabel))
  {
    var app := new App();
    trace := [app.state];
    app.LoadModel(true);
    trace := trace + [app.state];
    app.HandleUpload([photo], createObjectUrl);
    StepFollowsLifecycle(AwaitingUpload);
    trace := trace + [app.state];
    app.Identify(Some(predictions));
    trace := trace + [app.state];
    shown := app.Render();
    app.ResetUI();
    trace := trace + [app.state];
    afterReset := app.Render();
  }

  /**
   * Uploading a new photo while results are on screen moves `complete` to
   * `awaitingUpload` without clearing the results: they stay stored,
   * though no longer shown.
   */
  method UploadKeepsResults(first: File, second: File, createObjectUrl: File -> string, predictions: seq<Prediction>)
    returns (state: UiState, stored: seq<Prediction>, shown: Screen)
    ensures state == AwaitingUpload && stored == predictions
    ensures shown == Screen(None, None, Some(IdentifyLabel))
  {
    var app := new App();
    app.LoadModel(true);
    app.HandleUpload([first], createObjectUrl);
    StepFollowsLifecycle(AwaitingUpload);
    app.Identify(Some(predictions));
    app.HandleUpload([second], createObjectUrl);
    StepFollowsLifecycle(Complete);
    state, stored := app.state, app.results;
    shown := app.Render();
  }

  /**
   * If `mobilenet.load()` rejects, the app stays in `loadingModel` with the
   * label "Loading Model..." and an upload then only reaches `awaitingUpload`;
   * identifying from there fails on the missing model.
   */
  method LoadFailure(photo: File, createObjectUrl: File -> string, predictions: seq<Prediction>)
    returns (trace: seq<UiState>, text: Option<string>, stored: seq<Prediction>)
    ensures trace == [LoadingModel, AwaitingUpload, Ready]
    ensures text == Some(IdentifyingLabel) && stored == []
  {
    var app := new App();
    app.LoadModel(false);
    StepFollowsLifecycle(Initial);
    trace := [app.state];
    app.HandleUpload([photo], createObjectUrl);
    StepFollowsLifecycle(LoadingModel);
    trace := trace + [app.state];
    app.Identify(Some(predictions));
    StepFollowsLifecycle(AwaitingUpload);
    trace := trace + [app.state];
    text, stored := app.buttonText, app.results;
  }
}
