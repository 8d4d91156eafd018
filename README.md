# AI pin board: the view and session shell

This project models the shell component of a client-side pin board (`App.tsx`) and proves
properties of that model. The shell has two parts.

- **Derived feed values** (module `Feed`, with the string helpers in `AsciiText`):
  - The home grid's search filter: nothing off the home view, every pin for an empty term,
    and otherwise the pins whose lower-cased prompt includes the lower-cased term, in feed order.
  - The set of saved pin ids.
  - The detail modal's "is saved" flag.
- **Transient UI state** (module `Session`):
  - Six state cells: selected pin, remix seed, search term, current view, generator-open flag
    and sign-in flag.
  - The handlers that set them, modelled as the class `Session.App`. Each method ties the new
    snapshot `State()` to the pure transition `Next(old(State()), event)`.
  - Lemmas about `Next` and `Run` (a fold of `Next` over a sequence of events) that state the
    multi-step properties.
  - The scroll-sentinel guard, the spinner and the empty-feed banner, as predicates over a
    snapshot and the store's flags.

The pin store (`usePins`) sits behind the shell and is not part of this model. Its lists
(`pins`, `savedPins`) and its flags (`isLoading`, `isGenerating`) are parameters. Its
`generatePin` and `uploadPin` calls are opaque. Only how the awaited call ended (resolved or
rejected) reaches the handlers.

Two consequences of the handlers are worth knowing:

- While the user is signed in, only the header's `onNavigate` clears the search term;
  signing in again after a logout reloads and starts from an empty term. `handleGenerate` and
  `handleUpload` switch to the profile view and keep it, so the old filter is back when the
  user returns home (`Session.GenerateKeepsSearch`).
- `handleUpload` and the "+" button leave `pinToRemix` in place, while `handleGenerate`
  and the form's `onClose` clear it. After a remix that ends in an upload, "+" reopens the
  form on the old seed (`Session.UploadLeavesStaleSeed`).

`toLowerCase` is modelled on ASCII letters only. `includes` is the substring test of
`String.prototype.includes`.

## Model

| member | source | states |
|---|---|---|
| AsciiText.LowerChar | App.tsx:52 | one character of `toLowerCase`: the result is never an ASCII capital; a capital becomes the matching small letter; every other character is kept |
| AsciiText.ToLower | App.tsx:52 | `toLowerCase` keeps the length and lowers each character in its own position |
| AsciiText.ToLowerIdempotent | App.tsx:52 | lower-casing a lower-cased string changes nothing |
| AsciiText.OccurrenceIncluded | App.tsx:52 | if the term occurs at any position of the string, `includes` holds |
| AsciiText.IncludesIff | App.tsx:52 | `includes` holds exactly when the term occurs at some position of the string (both directions) |
| AsciiText.Includes | App.tsx:52 | `includes` holds whenever the term is a prefix of the string, and never for a term longer than the string |
| Feed.Matches | App.tsx:52 | the filter callback holds iff the lower-cased term occurs at some position of the lower-cased prompt |
| Feed.FilterNoHits | App.tsx:51-53 | when no pin matches the term, the filtered list is empty |
| Feed.FilterMatching | App.tsx:51-53 | the filtered list is no longer than the input; a pin is in it iff it is in the input and its lowered prompt includes the lowered term |
| Feed.FilteredPins | App.tsx:45-54 | off the home view the result is empty; on home it equals the general filter, so the empty-term shortcut that returns `pins` unchanged agrees with filtering |
| Feed.FilterEmptyTermKeepsAll | App.tsx:48-53 | filtering with the empty term returns the pin list exactly, because every prompt includes "" |
| Feed.FilterIsSubsequence | App.tsx:51-53 | the filtered list is an order-preserving subsequence of the pins |
| Feed.FilterMultiplicity | App.tsx:51-53 | a matching pin appears in the result as many times as in the input; a pin that does not match never appears |
| Feed.FilterAppend | App.tsx:51-53 | filtering a concatenation is the concatenation of the filtered parts |
| Feed.FilterCaseInsensitive | App.tsx:52 | two search terms with the same lower-cased form select the same pins |
| Feed.FilterLoweredTerm | App.tsx:52 | searching for the lowered term gives the same result as the term itself |
| Feed.FilteredPinsCaseInsensitive | App.tsx:45-54 | the grid's list on any view is the same for search terms that lower alike |
| Feed.FilterExample | App.tsx:45-54 | with prompts "a red fox", "blue sky", "Red Sports Car" and term "red", the home list is exactly the first and third pins, in that order |
| Feed.SavedPinIds | App.tsx:109 | an id is in the saved-id set iff some saved pin has it; the set is no larger than the list |
| Feed.SavedPinIdsCount | App.tsx:109 | when the saved pins have distinct ids, the set has one id per saved pin |
| Feed.IsSaved | App.tsx:163 | the modal's flag holds iff some saved pin has the selected pin's id |
| Feed.IsSavedAgreesWithIds | App.tsx:163 | the modal's flag holds iff the pin's id is in the saved-id set used by the grids |
| Session.Initial | App.tsx:25-30 | the shell starts with no selection, no seed, an empty search, the home view, the form closed and the sign-in flag read from storage |
| Session.LoadMoreRequested | App.tsx:56-64 | the sentinel asks for more pins only on home, signed in and intersecting, and never while a fetch or a generation is in flight; with all of those met it does ask |
| Session.Next | App.tsx:33-186 | the transition behind every handler: only login and logout change the sign-in flag; only typing sets the search term to a new value, other events keep it or clear it; leaving home for profile happens only by navigating there or by a successful generate or upload; only a remix, closing the form, a successful generate or a login change the remix seed |
| Session.ShownPins | App.tsx:111-131 | the grid of a state shows nothing to a signed-out user or off the home view, and otherwise a pin iff it is one of the store's pins and matches the search term |
| Session.SpinnerShown | App.tsx:137 | the spinner shows iff the user is signed in, on home, and a fetch or a generation is in flight; while it shows, the sentinel asks for nothing |
| Session.EmptyFeedShown | App.tsx:152 | the empty-feed banner shows iff the user is signed in, on home, the store's list is empty and nothing is in flight; when it shows, the grid is empty and the spinner is hidden |
| Session.NoHitsIsNotEmptyFeed | App.tsx:152 | on home, a non-empty feed whose search matches nothing gives an empty grid but no empty-feed banner |
| Session.SignedOutShowsNoFeedChrome | App.tsx:111-113 | signed out, there is no grid, no banner, no spinner and no paging request |
| Session.LogoutStopsPaging | App.tsx:39-43 | after logout the view is home and the sentinel never asks for more pins |
| Session.AuthChangesOnlyAtLoginLogout | App.tsx:33-43 | over any sequence of events without login or logout, the sign-in flag is unchanged |
| Session.SearchOnlyTypedOrCleared | App.tsx:119-123 | over any sequence of events without typing, the search term is either unchanged or empty |
| Session.ProfileRoundTripShowsAll | App.tsx:120-123 | for a signed-in user, navigating to profile empties the grid; navigating back home then shows every pin |
| Session.NavigateIdempotent | App.tsx:120-123 | navigating to the same view twice has the effect of navigating once |
| Session.GenerateKeepsSearch | App.tsx:90-95 | a successful generation lands on profile but keeps the search term, so back on home a signed-in user's grid still applies the old filter |
| Session.ModalRoundTrip | App.tsx:82-88 | from a state with no selection, opening and closing the modal restores the state exactly |
| Session.RemixThenClose | App.tsx:103-107 | a remix followed by closing the form leaves no selection, no seed and the form closed, with search, view and sign-in unchanged |
| Session.RemixExcludesSelection | App.tsx:103-107 | after a remix the form is open on that seed and no pin is selected |
| Session.UploadLeavesStaleSeed | App.tsx:97-101 | after a remix and a successful upload, "+" reopens the form on the old seed; with a successful generation instead of the upload, "+" opens it with no seed |
| Session.App.constructor | App.tsx:25-30 | mounting puts every cell at its initial value |
| Session.App.HandleLogin | App.tsx:33-37 | signing in and reloading yields the initial state with the sign-in flag set |
| Session.App.HandleLogout | App.tsx:39-43 | logout clears the sign-in flag and sets the view to home; the other cells are unchanged |
| Session.App.SearchChange | App.tsx:119 | typing sets the search term and changes nothing else |
| Session.App.Navigate | App.tsx:120-123 | the view becomes the target; the search is cleared when the target is not home and kept otherwise; the other cells are unchanged |
| Session.App.HandlePinClick | App.tsx:82-84 | the selected pin becomes the clicked pin and nothing else changes |
| Session.App.HandleCloseModal | App.tsx:86-88 | the selection is cleared and nothing else changes |
| Session.App.HandleRemixClick | App.tsx:103-107 | the selection is cleared, the seed becomes the pin and the form opens; search, view and sign-in are unchanged |
| Session.App.OpenGenerator | App.tsx:171 | the form opens and any seed stays as it was |
| Session.App.CloseGenerator | App.tsx:183-186 | the form closes and the seed is cleared; selection, search, view and sign-in are unchanged |
| Session.App.HandleGenerate | App.tsx:90-95 | on success the form closes, the seed is cleared and the view becomes profile, with selection and search kept; on rejection nothing changes |
| Session.App.HandleUpload | App.tsx:97-101 | on success the form closes and the view becomes profile, but the seed is kept; on rejection nothing changes |
| Session.RemixScenario | App.tsx:103-107 | selecting a pin and then remixing it closes the modal and opens the form seeded with that pin |

## Left out

- The pin store hook (`usePins`) is not part of this model. This covers pagination, `loadMorePins`, `generatePin`, `uploadPin`, `toggleSavePin`, the created-pins list, id assignment and duplicate handling. Its lists and flags are parameters.
- The `IntersectionObserver` set-up and tear-down (App.tsx:59-78) are browser plumbing. Only the guard that decides whether the callback calls `loadMorePins` is modelled.
- `localStorage` and `window.location.reload` are not modelled. Sign-in is a plain field; the reload after login is modelled as a return to the initial state with the flag set.
- Session.App.HandleGenerate: only the part after `await generatePin(options)` is modelled. The settlement is a separate event that applies the handler's setters to the state at that moment, as the source does, but nothing links it to a submit: the model lets a settlement occur with no submit before it, or twice for one submit. The options are only passed through. The same applies to Session.App.HandleUpload.
- Every handler is modelled as available in every state. Which handlers the screen actually offers depends on the rendering, for example whether a pin can be clicked while the generator form is open, and that is not modelled.
- `useMemo` reference stability is not modelled. The derived values are pure functions of their inputs.
- Rendering is not modelled: JSX, `Header`, `MasonryGrid`, `PinDetailModal`, `GeneratePinForm`, `ProfilePage`, `LoginScreen` and the icons. So `GeneratePinForm` deriving `baseImage` from the remix seed is not modelled.
- AsciiText.ToLower: full Unicode case mapping is not modelled; only ASCII capitals are lowered.
- Pin `width` and `height` are carried but have no behaviour here. The enumerations of `types.ts` are declared as plain datatypes.
