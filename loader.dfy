/**
 * The start-up gate of js/loader.js: the game is started (the callback runs) once
 * the images are loaded, the player has logged in and the player list has arrived.
 */
module Loading {

  /** The loader's entry points, each of which the environment calls back. */
  datatype Event =
    | Load            // `load(url, callback)`: stores the callback, starts the image load and the login
    | ImagesLoaded    // `_onImagesLoaded`
    | LoggedIn        // `_onLoggedIn`
    | ListLoaded      // `_onListLoaded`

  /**
   * The loader's fields. `hasCallback` says whether `_callback` is set; `callbackRuns`
   * counts its invocations; `listRequests` counts the requests for the player list.
   */
  datatype LoaderState = LoaderState(
    loggedIn: bool, listLoaded: bool, imagesLoaded: bool,
    hasCallback: bool, callbackRuns: nat, listRequests: nat)

  /** What a call of `_checkReady` did. */
  datatype Outcome =
    | Waiting        // some flag is still false
    | Started        // the callback ran
    | NullCallback   // all flags are set but no callback was stored: calling null throws a TypeError

  const INITIAL := LoaderState(false, false, false, false, 0, 0)

  predicate AllLoaded(s: LoaderState)
  {
    s.listLoaded && s.loggedIn && s.imagesLoaded
  }

  /** `_checkReady`: runs the callback when, and only when, all three flags are set. */
  function CheckedReady(s: LoaderState): LoaderState
  {
    if AllLoaded(s) && s.hasCallback then s.(callbackRuns := s.callbackRuns + 1) else s
  }

  /** What `_checkReady` reports: the callback started exactly when `CheckedReady` counts a run. */
  function ReadyOutcome(s: LoaderState): (o: Outcome)
    ensures o == Started <==> CheckedReady(s) != s
    ensures o == NullCallback ==> AllLoaded(s) && CheckedReady(s) == s
  {
    if !AllLoaded(s) then Waiting else if s.hasCallback then Started else NullCallback
  }

  /** The loader's state after handling one event. */
  function Step(s: LoaderState, e: Event): LoaderState
  {
    match e
    case Load => s.(hasCallback := true)
    case ImagesLoaded => CheckedReady(s.(imagesLoaded := true))
    case LoggedIn => s.(loggedIn := true, listRequests := s.listRequests + 1)
    case ListLoaded => CheckedReady(s.(listLoaded := true))
  }

  /** Every flag that is set stays set. */
  predicate FlagsKept(s: LoaderState, t: LoaderState)
  {
    && (s.loggedIn ==> t.loggedIn)
    && (s.listLoaded ==> t.listLoaded)
    && (s.imagesLoaded ==> t.imagesLoaded)
  }

  /** Whether an event can run the callback. */
  predicate Checks(e: Event)
  {
    e == ImagesLoaded || e == ListLoaded
  }

  /**
   * One event: no flag is ever cleared; the callback runs at most once, and only on
   * image or list completion with all three flags set; logging in requests the list
   * and never runs the callback.
   */
  lemma StepGuarded(s: LoaderState, e: Event)
    ensures FlagsKept(s, Step(s, e))
    ensures Step(s, e).callbackRuns <= s.callbackRuns + 1
    ensures Step(s, e).callbackRuns > s.callbackRuns ==> Checks(e) && AllLoaded(Step(s, e)) && s.hasCallback
    ensures e == LoggedIn ==> Step(s, e).callbackRuns == s.callbackRuns && Step(s, e).listRequests == s.listRequests + 1
  {
  }

  /** The state after a run of events, in order. */
  function Run(s: LoaderState, events: seq<Event>): LoaderState
    decreases |events|
  {
    if events == [] then s else Run(Step(s, events[0]), events[1..])
  }

  /** No run of events clears a flag, and a run that ran the callback ends with all flags set. */
  lemma {:induction false} RunGuarded(s: LoaderState, events: seq<Event>)
    ensures FlagsKept(s, Run(s, events))
    ensures Run(s, events).callbackRuns > s.callbackRuns ==> AllLoaded(Run(s, events))
    decreases |events|
  {
    if events != [] {
      var t := Step(s, events[0]);
      StepGuarded(s, events[0]);
      RunGuarded(t, events[1..]);
    }
  }

  function Count(events: seq<Event>, e: Event): nat
    decreases |events|
  {
    if events == [] then 0 else (if events[0] == e then 1 else 0) + Count(events[1..], e)
  }

  /** Every `ListLoaded` event comes after a `LoggedIn` one (or the player was logged in already). */
  predicate ListAfterLogin(loggedIn: bool, events: seq<Event>)
    decreases |events|
  {
    events == [] ||
    ((events[0] != ListLoaded || loggedIn) && ListAfterLogin(loggedIn || events[0] == LoggedIn, events[1..]))
  }

  /**
   * With the callback stored, a run in which the images and the list each finish
   * loading exactly once more, the list only after login, runs the callback exactly
   * once more, whichever of the two finishes last.
   */
  lemma {:induction false} RunStartsOnce(s: LoaderState, events: seq<Event>)
    requires s.hasCallback
    requires s.listLoaded ==> s.loggedIn
    requires !s.imagesLoaded && Count(events, ImagesLoaded) == 1
    requires !s.listLoaded && Count(events, ListLoaded) == 1
    requires ListAfterLogin(s.loggedIn, events)
    ensures Run(s, events).callbackRuns == s.callbackRuns + 1
    decreases |events|
  {
    RunStartsOnceFrom(s, events);
  }

  lemma {:induction false} RunStartsOnceFrom(s: LoaderState, events: seq<Event>)
    requires s.hasCallback
    requires s.listLoaded ==> s.loggedIn
    requires Count(events, ImagesLoaded) == (if s.imagesLoaded then 0 else 1)
    requires Count(events, ListLoaded) == (if s.listLoaded then 0 else 1)
    requires ListAfterLogin(s.loggedIn, events)
    ensures Run(s, events).callbackRuns
      == s.callbackRuns + (if s.imagesLoaded && s.listLoaded then 0 else 1)
    decreases |events|
  {
    if events != [] {
      RunStartsOnceFrom(Step(s, events[0]), events[1..]);
    }
  }

  /** Both orders of completion start the game once. */
  lemma StartsOnceEitherOrder()
    ensures Run(INITIAL, [Load, LoggedIn, ImagesLoaded, ListLoaded]).callbackRuns == 1
    ensures Run(INITIAL, [Load, LoggedIn, ListLoaded, ImagesLoaded]).callbackRuns == 1
    ensures Run(INITIAL, [Load, ImagesLoaded, LoggedIn, ListLoaded]).callbackRuns == 1
  {
  }

  /** `Loader`: three flags set by the environment's callbacks, and a stored callback. */
  class Loader {
    var loggedIn: bool
    var listLoaded: bool
    var imagesLoaded: bool
    var hasCallback: bool
    var callbackRuns: nat
    var listRequests: nat

    function State(): LoaderState
      reads this
    {
      LoaderState(loggedIn, listLoaded, imagesLoaded, hasCallback, callbackRuns, listRequests)
    }

    /** All flags false, no callback. */
    constructor ()
      ensures State() == INITIAL
    {
      loggedIn := false;
      listLoaded := false;
      imagesLoaded := false;
      hasCallback := false;
      callbackRuns := 0;
      listRequests := 0;
    }

    /** `load`: stores the callback; the image load and the login it starts are the environment's. */
    method Load()
      modifies this
      ensures State() == Step(old(State()), Event.Load)
    {
      hasCallback := true;
    }

    method OnImagesLoaded() returns (outcome: Outcome)
      modifies this
      ensures State() == Step(old(State()), ImagesLoaded)
      ensures outcome == ReadyOutcome(old(State()).(imagesLoaded := true))
    {
      imagesLoaded := true;
      outcome := CheckReady();
    }

    /** `_onLoggedIn`: sets the flag and requests the player list; it does not check readiness. */
    method OnLoggedIn()
      modifies this
      ensures State() == Step(old(State()), LoggedIn)
    {
      loggedIn := true;
      listRequests := listRequests + 1;
    }

    method OnListLoaded() returns (outcome: Outcome)
      modifies this
      ensures State() == Step(old(State()), ListLoaded)
      ensures outcome == ReadyOutcome(old(State()).(listLoaded := true))
    {
      listLoaded := true;
      outcome := CheckReady();
    }

    method CheckReady() returns (outcome: Outcome)
      modifies this
      ensures State() == CheckedReady(old(State()))
      ensures outcome == ReadyOutcome(old(State()))
    {
      if listLoaded && loggedIn && imagesLoaded {
        if hasCallback {
          callbackRuns := callbackRuns + 1;
          outcome := Started;
        } else {
          outcome := NullCallback;
        }
      } else {
        outcome := Waiting;
      }
    }
  }
}
