/**
 * `ImageWithFallback`, the image tile both dashboards use: a spinner while
 * the image loads, the image once it has loaded, and an alert in its place if
 * loading fails. The React copy (`pages/Dashboard.js`) and the earlier saas
 * copy (`components/Dashboard.js`) have the same state and handlers.
 */
module ImageFallback {
  import opened Wrappers

  const FailedToLoad := "Failed to load image"

  /** The events the `<Image>` element raises. */
  datatype ImageEvent = Load | LoadError

  /** The component's two state hooks. */
  datatype ImageState = ImageState(isLoading: bool, error: Option<string>)

  /** Mounted: loading, no error. */
  const Initial := ImageState(true, None)

  /** The `<Image>` element, and with it its `onLoad`/`onError` handlers, is
      rendered only while there is no error. */
  predicate ImageRendered(s: ImageState)
  {
    s.error.None?
  }

  /** The effect of one event on the state: the handlers run only while the
      image is rendered. */
  function Step(s: ImageState, e: ImageEvent): (t: ImageState)
    ensures !ImageRendered(s) ==> t == s
    ensures ImageRendered(s) ==> !t.isLoading
    ensures ImageRendered(t) <==> ImageRendered(s) && e == Load
    ensures t.error.Some? && s.error != t.error ==> t.error == Some(FailedToLoad)
  {
    if !ImageRendered(s) then s
    else match e
      case Load => ImageState(false, None)
      case LoadError => ImageState(false, Some(FailedToLoad))
  }

  /** The state after a sequence of events, starting from mount. */
  function Run(events: seq<ImageEvent>): ImageState
  {
    if events == [] then Initial
    else Step(Run(events[..|events| - 1]), events[|events| - 1])
  }

  /** Whatever events arrive, the tile shows the spinner until the first
      event, shows an error exactly when some event was a load error (and then
      always the same message), and so never leaves the error state. */
  lemma {:induction false} RunOutcome(events: seq<ImageEvent>)
    ensures Run(events).isLoading <==> events == []
    ensures Run(events).error.Some? <==> LoadError in events
    ensures Run(events).error.Some? ==> Run(events).error == Some(FailedToLoad)
  {
    if events != [] {
      var n := |events| - 1;
      RunOutcome(events[..n]);
      assert events == events[..n] + [events[n]];
    }
  }

  /** An error is terminal: no later event changes the state. */
  lemma {:induction false} ErrorIsTerminal(events: seq<ImageEvent>, later: seq<ImageEvent>)
    requires LoadError in events
    ensures Run(events + later) == Run(events)
    decreases |later|
  {
    if later == [] {
      assert events + later == events;
    } else {
      var n := |later| - 1;
      var all := events + later;
      assert all[..|all| - 1] == events + later[..n];
      assert all[|all| - 1] == later[n];
      ErrorIsTerminal(events, later[..n]);
      RunOutcome(events);
      assert Run(all) == Step(Run(events), later[n]);
    }
  }

  class ImageWithFallback {
    var isLoading: bool
    var error: Option<string>

    function State(): ImageState
      reads this
    {
      ImageState(isLoading, error)
    }

    constructor ()
      ensures State() == Initial
    {
      isLoading, error := true, None;
    }

    /** `handleLoad`. */
    method HandleLoad()
      modifies this
      ensures State() == ImageState(false, None)
    {
      isLoading := false;
      error := None;
    }

    /** `handleError`. */
    method HandleError()
      modifies this
      ensures State() == ImageState(false, Some(FailedToLoad))
    {
      isLoading := false;
      error := Some(FailedToLoad);
    }

    /** An event from the browser: it reaches a handler only if the
        `<Image>` element is currently rendered. */
    method Deliver(e: ImageEvent)
      modifies this
      ensures State() == Step(old(State()), e)
    {
      if error.None? {
        match e
        case Load => HandleLoad();
        case LoadError => HandleError();
      }
    }
  }
}
