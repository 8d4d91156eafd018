/** The transient UI state of the shell (App.tsx) and the handlers that change it: the
    selected pin, the remix seed, the search term, the current view, whether the generator
    form is open and whether the user is signed in. The pin store behind it is an input. */
module Session {
  import opened PinTypes
  import opened Feed

  /** A snapshot of the six state cells of the shell. */
  datatype UiState = UiState(
    selectedPin: Option<Pin>,
    pinToRemix: Option<Pin>,
    searchTerm: string,
    view: View,
    isGeneratorOpen: bool,
    isAuthenticated: bool)

  /** How the awaited store call of a generate or upload ended. */
  datatype Settlement = Resolved | Rejected

  /** The events the shell reacts to. The two settlement events are the part of
      `handleGenerate` and `handleUpload` that runs after their `await`. */
  datatype UiEvent =
    | Login
    | Logout
    | SearchChange(term: string)
    | NavigateTo(target: View)
    | PinClick(pin: Pin)
    | CloseModal
    | RemixClick(pin: Pin)
    | OpenGenerator
    | CloseGenerator
    | GenerateSettled(outcome: Settlement)
    | UploadSettled(outcome: Settlement)

  /** The state the shell starts in, given the persisted sign-in flag. */
  function Initial(persistedAuth: bool): (s: UiState)
    ensures s.selectedPin == None && s.pinToRemix == None && s.searchTerm == []
    ensures s.view == Home && !s.isGeneratorOpen && s.isAuthenticated == persistedAuth
  {
    UiState(None, None, [], Home, false, persistedAuth)
  }

  /** The state after one event. Signing in stores the flag and reloads, so the shell
      starts again from its initial state, now signed in. A rejected store call throws
      out of the handler before any of its setters run. */
  function Next(s: UiState, e: UiEvent): (r: UiState)
    ensures !e.Login? && !e.Logout? ==> r.isAuthenticated == s.isAuthenticated
    ensures !e.SearchChange? ==> r.searchTerm in {s.searchTerm, []}
    ensures r.view == Profile && s.view == Home ==>
      e == NavigateTo(Profile) || e == GenerateSettled(Resolved) || e == UploadSettled(Resolved)
    ensures r.pinToRemix != s.pinToRemix ==>
      e.RemixClick? || e.CloseGenerator? || e == GenerateSettled(Resolved) || e.Login?
  {
    match e
    case Login => Initial(true)
    case Logout => s.(isAuthenticated := false, view := Home)
    case SearchChange(term) => s.(searchTerm := term)
    case NavigateTo(target) =>
      s.(searchTerm := if target != Home then [] else s.searchTerm, view := target)
    case PinClick(pin) => s.(selectedPin := Some(pin))
    case CloseModal => s.(selectedPin := None)
    case RemixClick(pin) => s.(selectedPin := None, pinToRemix := Some(pin), isGeneratorOpen := true)
    case OpenGenerator => s.(isGeneratorOpen := true)
    case CloseGenerator => s.(isGeneratorOpen := false, pinToRemix := None)
    case GenerateSettled(outcome) =>
      if outcome == Resolved then s.(isGeneratorOpen := false, pinToRemix := None, view := Profile)
      else s
    case UploadSettled(outcome) =>
      if outcome == Resolved then s.(isGeneratorOpen := false, view := Profile)
      else s
  }

  /** The state after a sequence of events, in order. */
  function Run(s: UiState, events: seq<UiEvent>): UiState
    decreases |events|
  {
    if events == [] then s else Run(Next(s, events[0]), events[1..])
  }

  /** The pins the home grid shows in a state: none to a signed-out user (who sees only the
      login screen) or off the home view, and otherwise exactly the store's pins that match
      the search term. */
  function ShownPins(s: UiState, pins: seq<Pin>): (r: seq<Pin>)
    ensures !s.isAuthenticated || s.view != Home ==> r == []
    ensures forall p :: p in r <==> s.isAuthenticated && s.view == Home && p in pins && Matches(p, s.searchTerm)
  {
    if s.isAuthenticated then FilteredPins(s.view, pins, s.searchTerm) else []
  }

  /** The scroll sentinel asks the store for more pins: the observer is installed only on
      the home view of a signed-in user, and its callback fires only when the sentinel
      intersects and neither a page fetch nor a generation is in flight. */
  function LoadMoreRequested(s: UiState, isIntersecting: bool, isLoading: bool, isGenerating: bool): (r: bool)
    ensures r ==> !isLoading && !isGenerating
    ensures r ==> s.view == Home && s.isAuthenticated && isIntersecting
    ensures s.view == Home && s.isAuthenticated && isIntersecting && !isLoading && !isGenerating ==> r
  {
    if s.view != Home || !s.isAuthenticated then false
    else isIntersecting && !isLoading && !isGenerating
  }

  /** The spinner under the home grid of a signed-in user (a signed-out user sees only the
      login screen). While it shows, the sentinel asks for nothing, even when visible. */
  function SpinnerShown(s: UiState, isLoading: bool, isGenerating: bool): (r: bool)
    ensures r ==> !LoadMoreRequested(s, true, isLoading, isGenerating)
    ensures r ==> s.view == Home && s.isAuthenticated
    ensures s.view == Home && s.isAuthenticated && (isLoading || isGenerating) ==> r
  {
    s.isAuthenticated && s.view == Home && (isLoading || isGenerating)
  }

  /** The "Your feed is empty" banner of a signed-in user. It appears exactly when the home
      view has no pins at all and nothing is in flight; then the grid shows nothing and the
      spinner is hidden. */
  function EmptyFeedShown(s: UiState, pins: seq<Pin>, isLoading: bool, isGenerating: bool): (r: bool)
    ensures r ==> s.view == Home && s.isAuthenticated && pins == [] && !isLoading && !isGenerating
    ensures r ==> ShownPins(s, pins) == []
    ensures r ==> !SpinnerShown(s, isLoading, isGenerating)
    ensures s.view == Home && s.isAuthenticated && pins == [] && !isLoading && !isGenerating ==> r
  {
    s.isAuthenticated && s.view == Home && |pins| == 0 && !isLoading && !isGenerating
  }

  /** A search with no hits empties the grid of a non-empty feed, but that is not the
      empty-feed banner. */
  lemma NoHitsIsNotEmptyFeed(s: UiState, pins: seq<Pin>, isLoading: bool, isGenerating: bool)
    requires s.view == Home && pins != []
    requires forall p :: p in pins ==> !Matches(p, s.searchTerm)
    ensures ShownPins(s, pins) == []
    ensures !EmptyFeedShown(s, pins, isLoading, isGenerating)
  {
    FilterNoHits(pins, s.searchTerm);
  }

  /** Signed out, the shell shows only the login screen: no grid, no banner, no spinner,
      no paging. */
  lemma SignedOutShowsNoFeedChrome(s: UiState, pins: seq<Pin>, isIntersecting: bool, isLoading: bool, isGenerating: bool)
    requires !s.isAuthenticated
    ensures ShownPins(s, pins) == []
    ensures !EmptyFeedShown(s, pins, isLoading, isGenerating)
    ensures !SpinnerShown(s, isLoading, isGenerating)
    ensures !LoadMoreRequested(s, isIntersecting, isLoading, isGenerating)
  {
  }

  /** Leaving the home view through the header (shown only to a signed-in user) clears
      the search, so coming back shows every pin. */
  lemma ProfileRoundTripShowsAll(s: UiState, pins: seq<Pin>)
    requires s.isAuthenticated
    ensures ShownPins(Run(s, [NavigateTo(Profile)]), pins) == []
    ensures ShownPins(Run(s, [NavigateTo(Profile), NavigateTo(Home)]), pins) == pins
  {
  }

  /** A successful generation also lands on the profile view, but keeps the search term:
      back on home, the old filter is still in force. */
  lemma GenerateKeepsSearch(s: UiState, pins: seq<Pin>)
    requires s.isAuthenticated
    ensures Run(s, [GenerateSettled(Resolved)]).view == Profile
    ensures Run(s, [GenerateSettled(Resolved), NavigateTo(Home)]).searchTerm == s.searchTerm
    ensures ShownPins(Run(s, [GenerateSettled(Resolved), NavigateTo(Home)]), pins)
         == FilterMatching(pins, s.searchTerm)
  {
  }

  /** Navigating to the same view twice is navigating once. */
  lemma NavigateIdempotent(s: UiState, v: View)
    ensures Next(Next(s, NavigateTo(v)), NavigateTo(v)) == Next(s, NavigateTo(v))
  {
  }

  /** Opening and closing the detail modal restores a state that had no selection. */
  lemma ModalRoundTrip(s: UiState, pin: Pin)
    requires s.selectedPin == None
    ensures Next(Next(s, PinClick(pin)), CloseModal) == s
  {
  }

  /** Starting a remix and closing the form leaves no selection, no seed and the form
      closed, with search, view and sign-in as they were. */
  lemma RemixThenClose(s: UiState, pin: Pin)
    ensures Next(Next(s, RemixClick(pin)), CloseGenerator)
         == s.(selectedPin := None, pinToRemix := None, isGeneratorOpen := false)
  {
  }

  /** Once signed out, the sentinel never asks for more pins. */
  lemma LogoutStopsPaging(s: UiState, isIntersecting: bool, isLoading: bool, isGenerating: bool)
    ensures !LoadMoreRequested(Next(s, Logout), isIntersecting, isLoading, isGenerating)
    ensures Next(s, Logout).view == Home
  {
  }

  /** Only signing in and out change the sign-in flag. */
  lemma {:induction false} AuthChangesOnlyAtLoginLogout(s: UiState, events: seq<UiEvent>)
    requires forall k :: 0 <= k < |events| ==> !events[k].Login? && !events[k].Logout?
    ensures Run(s, events).isAuthenticated == s.isAuthenticated
    decreases |events|
  {
    if events != [] {
      AuthChangesOnlyAtLoginLogout(Next(s, events[0]), events[1..]);
    }
  }

  /** Without typing, the search term either stays what it was or is cleared. */
  lemma {:induction false} SearchOnlyTypedOrCleared(s: UiState, events: seq<UiEvent>)
    requires forall k :: 0 <= k < |events| ==> !events[k].SearchChange?
    ensures Run(s, events).searchTerm in {s.searchTerm, []}
    decreases |events|
  {
    if events != [] {
      var t := Next(s, events[0]);
      assert t.searchTerm in {s.searchTerm, []};
      SearchOnlyTypedOrCleared(t, events[1..]);
    }
  }

  /** After a remix starts, the form is open on the seed and no detail view competes with it. */
  lemma RemixExcludesSelection(s: UiState, pin: Pin)
    ensures var t := Next(s, RemixClick(pin));
      t.selectedPin == None && t.pinToRemix == Some(pin) && t.isGeneratorOpen
  {
  }

  /** A generation clears the seed but an upload keeps it, so after a remix that ends in
      an upload the "+" button reopens the form on the old seed. */
  lemma UploadLeavesStaleSeed(p: Pin)
    ensures var t := Run(Initial(true), [RemixClick(p), UploadSettled(Resolved), OpenGenerator]);
      t.isGeneratorOpen && t.pinToRemix == Some(p)
    ensures var t := Run(Initial(true), [RemixClick(p), GenerateSettled(Resolved), OpenGenerator]);
      t.isGeneratorOpen && t.pinToRemix == None
  {
    var s0 := Initial(true);
    RunSteps(s0, RemixClick(p), UploadSettled(Resolved), OpenGenerator);
    RunSteps(s0, RemixClick(p), GenerateSettled(Resolved), OpenGenerator);
  }

  /** Running three events is applying them one after the other. */
  lemma RunSteps(s: UiState, e1: UiEvent, e2: UiEvent, e3: UiEvent)
    ensures Run(s, [e1, e2, e3]) == Next(Next(Next(s, e1), e2), e3)
  {
    var s1, s2 := Next(s, e1), Next(Next(s, e1), e2);
    assert [e1, e2, e3][1..] == [e2, e3];
    assert [e2, e3][1..] == [e3];
    assert Run(s2, [e3]) == Next(s2, e3) by { assert [e3][1..] == []; }
    assert Run(s1, [e2, e3]) == Run(s2, [e3]);
  }

  /** The shell component: six state cells and the handlers that set them. */
  class App {
    var selectedPin: Option<Pin>
    var pinToRemix: Option<Pin>
    var searchTerm: string
    var view: View
    var isGeneratorOpen: bool
    var isAuthenticated: bool

    function State(): UiState
      reads this
    {
      UiState(selectedPin, pinToRemix, searchTerm, view, isGeneratorOpen, isAuthenticated)
    }

    /** Mounting: every cell at its initial value, the sign-in flag read from storage. */
    constructor (persistedAuth: bool)
      ensures State() == Initial(persistedAuth)
    {
      selectedPin := None;
      pinToRemix := None;
      searchTerm := [];
      view := Home;
      isGeneratorOpen := false;
      isAuthenticated := persistedAuth;
    }

    /** `handleLogin`: sign in, then reload into the initial state. */
    method HandleLogin()
      modifies this
      ensures State() == Next(old(State()), Login)
      ensures isAuthenticated && view == Home && searchTerm == []
      ensures selectedPin == None && pinToRemix == None && !isGeneratorOpen
    {
      isAuthenticated := true;
      selectedPin, pinToRemix, searchTerm, view, isGeneratorOpen := None, None, [], Home, false;
    }

    /** `handleLogout`: sign out and go home; the rest is kept. */
    method HandleLogout()
      modifies this
      ensures State() == Next(old(State()), Logout)
      ensures !isAuthenticated && view == Home
      ensures selectedPin == old(selectedPin) && pinToRemix == old(pinToRemix)
      ensures searchTerm == old(searchTerm) && isGeneratorOpen == old(isGeneratorOpen)
    {
      isAuthenticated := false;
      view := Home;
    }

    /** The header's `onSearchChange`. */
    method SearchChange(term: string)
      modifies this
      ensures State() == Next(old(State()), UiEvent.SearchChange(term))
      ensures State() == old(State()).(searchTerm := term)
    {
      searchTerm := term;
    }

    /** The header's `onNavigate`: leaving home clears the search; going home keeps it. */
    method Navigate(newView: View)
      modifies this
      ensures State() == Next(old(State()), NavigateTo(newView))
      ensures view == newView
      ensures searchTerm == if newView != Home then [] else old(searchTerm)
      ensures selectedPin == old(selectedPin) && pinToRemix == old(pinToRemix)
      ensures isGeneratorOpen == old(isGeneratorOpen) && isAuthenticated == old(isAuthenticated)
    {
      if newView != Home {
        searchTerm := [];
      }
      view := newView;
    }

    /** `handlePinClick`: open the detail modal on `pin`. */
    method HandlePinClick(pin: Pin)
      modifies this
      ensures State() == Next(old(State()), PinClick(pin))
      ensures State() == old(State()).(selectedPin := Some(pin))
    {
      selectedPin := Some(pin);
    }

    /** `handleCloseModal`. */
    method HandleCloseModal()
      modifies this
      ensures State() == Next(old(State()), CloseModal)
      ensures State() == old(State()).(selectedPin := None)
    {
      selectedPin := None;
    }

    /** `handleRemixClick`: close the modal and open the form seeded with `pin`. */
    method HandleRemixClick(pin: Pin)
      modifies this
      ensures State() == Next(old(State()), RemixClick(pin))
      ensures selectedPin == None && pinToRemix == Some(pin) && isGeneratorOpen
      ensures searchTerm == old(searchTerm) && view == old(view) && isAuthenticated == old(isAuthenticated)
    {
      selectedPin := None;
      pinToRemix := Some(pin);
      isGeneratorOpen := true;
    }

    /** The floating "+" button: open the form, leaving any seed in place. */
    method OpenGenerator()
      modifies this
      ensures State() == Next(old(State()), UiEvent.OpenGenerator)
      ensures State() == old(State()).(isGeneratorOpen := true)
    {
      isGeneratorOpen := true;
    }

    /** The form's `onClose`: close it and drop the seed. */
    method CloseGenerator()
      modifies this
      ensures State() == Next(old(State()), UiEvent.CloseGenerator)
      ensures !isGeneratorOpen && pinToRemix == None
      ensures selectedPin == old(selectedPin) && searchTerm == old(searchTerm)
      ensures view == old(view) && isAuthenticated == old(isAuthenticated)
    {
      isGeneratorOpen := false;
      pinToRemix := None;
    }

    /** `handleGenerate` once `generatePin(options)` has settled: on success close the
        form, drop the seed and show the profile; on rejection nothing changes. */
    method HandleGenerate(options: GenerationOptions, outcome: Settlement)
      modifies this
      ensures State() == Next(old(State()), GenerateSettled(outcome))
      ensures outcome == Resolved ==> !isGeneratorOpen && pinToRemix == None && view == Profile
      ensures outcome == Resolved ==> selectedPin == old(selectedPin) && searchTerm == old(searchTerm)
      ensures isAuthenticated == old(isAuthenticated)
      ensures outcome == Rejected ==> State() == old(State())
    {
      if outcome == Resolved {
        isGeneratorOpen := false;
        pinToRemix := None;
        view := Profile;
      }
    }

    /** `handleUpload` once `uploadPin(data)` has settled: on success close the form and
        show the profile, keeping the seed; on rejection nothing changes. */
    method HandleUpload(data: UploadedPinData, outcome: Settlement)
      modifies this
      ensures State() == Next(old(State()), UploadSettled(outcome))
      ensures outcome == Resolved ==> !isGeneratorOpen && view == Profile
      ensures pinToRemix == old(pinToRemix) && selectedPin == old(selectedPin)
      ensures searchTerm == old(searchTerm) && isAuthenticated == old(isAuthenticated)
      ensures outcome == Rejected ==> State() == old(State())
    {
      if outcome == Resolved {
        isGeneratorOpen := false;
        view := Profile;
      }
    }
  }

  /** Selecting a pin and then remixing it: the modal closes and the form opens seeded
      with that pin. */
  method RemixScenario(p: Pin) returns (selected: Option<Pin>, seed: Option<Pin>, formOpen: bool)
    ensures selected == None && seed == Some(p) && formOpen
  {
    var app := new App(true);
    app.HandlePinClick(p);
    app.HandleRemixClick(p);
    selected, seed, formOpen := app.selectedPin, app.pinToRemix, app.isGeneratorOpen;
  }
}
