# Characters page: incremental-window list controller

This project models the `Characters` page of a Harry Potter catalog browser. The page fetches the full character list once, when it mounts. It then shows the list in a growing window: first 13 characters, then 13 more for every "load more" request from the infinite-scroll trigger.

The component state has four parts:

- the fetched `characters`
- `visibleCount`, the window size, which starts at `ITEMS_PER_PAGE = 13`
- `isLoading`
- `error`

The project has two modules:

- `Window` (window.dfy) holds the window arithmetic as plain functions:
  - the visible prefix `characters.slice(0, visibleCount)`
  - `hasMore`
  - the rule `min(count + 13, |characters|)` for one request
  - `ExpandTimes`, which applies that rule k times, plus the lemmas about it
- `Characters` (characters.dfy) holds:
  - the class `CharactersPage`, whose fields are the four state variables. Its methods are the state changes made through the component's setters: the fetch starting, resolving, or rejecting, and "load more".
  - `Display()`, which works out which block the page renders
  - the card of each row, with its link and fallbacks
  - `Mount`, the mount-time effect: the initial state, then one fetch outcome

The network call is not modelled. It is an input of type `FetchOutcome`: either `Resolved(list)` or `Rejected(thrown)`.

Where the code and the intended design differ, the model follows the code:

- **The window size can shrink.** The window is meant to only grow. But `loadMoreCharacters` checks neither `hasMore` nor the load state. So a request with a count past the end of the list lowers the count to the list length. For example, 10 characters with a count of 13 becomes 10. What the model proves instead:
  - the visible prefix never shrinks (`LoadMoreKeepsVisiblePrefix`)
  - the count itself never decreases while it is at most the list length (`NextCountShrinksOnlyPastEnd`, `ExpandTimesMonotone`)
- **The error block depends on truthiness.** Any stored error message is meant to be shown. The code shows the error paragraph only when `error` is truthy. So a rejection with an empty message leaves the page blank: no loading text, no error and no grid (`Display`, `Mount`). The same is true of a successful fetch of an empty list.
- **Writes can happen after unmount.** A fetch that settles after unmount is meant not to write to the destroyed view. The effect returns no cleanup, so the code has no such guard, and the model has none either.

## Model

| member | source | states |
|---|---|---|
| Window.Visible | src/pages/characters/characters.tsx:39 | The visible characters are the first min(visibleCount, \|characters\|) elements of the list, in their original order (a prefix). |
| Window.HasMore | src/pages/characters/characters.tsx:39-40 | `hasMore` holds exactly when visibleCount < \|characters\|. It is false exactly when the whole list is visible. |
| Window.NextCount | src/pages/characters/characters.tsx:42-44 | One request never takes the count past the list length and raises it by at most 13. The result is either count + 13 or the list length. Below the end of the list the count strictly grows. |
| Window.NextCountShrinksOnlyPastEnd | src/pages/characters/characters.tsx:43 | One request lowers the count exactly when the count is past the list length, and then it lands on the length. From a count within the list it never decreases. |
| Window.LoadMoreKeepsVisiblePrefix | src/pages/characters/characters.tsx:39-44 | For any count, the old visible prefix is a prefix of the new one. The number of visible characters never decreases and rises by at most 13. |
| Window.ExpandTimesClosedForm | src/pages/characters/characters.tsx:42-44 | k >= 1 consecutive requests from count w give min(w + 13k, \|characters\|). |
| Window.SettledAtBoundary | src/pages/characters/characters.tsx:40-44 | Idempotence at the boundary: once the count equals the list length, any number of further requests leaves it there, and `hasMore` stays false. |
| Window.ExpandTimesMonotone | src/pages/characters/characters.tsx:42-44 | From a count within the list, the counts across repeated requests never decrease and never exceed the list length. |
| Window.ThirtyCharactersScenario | src/pages/characters/characters.tsx:10-44 | With 30 characters, the count goes 13, 26, 30, 30. `hasMore` is true, true, then false. |
| Window.ShortListScenario | src/pages/characters/characters.tsx:10-44 | With 10 characters, all 10 are visible from the start and `hasMore` is false. One request lowers the count from 13 to 10 and leaves the visible list unchanged. |
| Characters.ErrorMessage | src/pages/characters/characters.tsx:24-29 | A rejected fetch stores the message of a thrown `Error`. For any other thrown value it stores the fixed, non-empty 'Unknown error occurred while loading characters.' |
| Characters.RowOf | src/pages/characters/characters.tsx:65-80 | Each card links to `/characters/<id>` and is keyed by the id. It shows 'No image' exactly when the image is missing, and otherwise the image with the name as its alt text. Its house label is the house when there is one, and exactly 'Unknown house' when the house is missing, so the label is never empty. |
| Characters.Rows | src/pages/characters/characters.tsx:64-82 | The grid has exactly one card per visible character, in the same order. |
| Characters.CharactersPage.constructor | src/pages/characters/characters.tsx:13-16 | At mount the list is empty, the count is 13, loading is on and there is no error. |
| Characters.CharactersPage.BeginFetch | src/pages/characters/characters.tsx:21 | Starting the fetch switches loading on and changes nothing else. |
| Characters.CharactersPage.FetchSucceeded | src/pages/characters/characters.tsx:22-31 | A resolved fetch stores the list and ends loading. The error and the count are unchanged. |
| Characters.CharactersPage.FetchFailed | src/pages/characters/characters.tsx:24-31 | A rejected fetch stores its message as the error and ends loading. The list and the count are unchanged. |
| Characters.CharactersPage.LoadMore | src/pages/characters/characters.tsx:42-44 | A request may come at any time. The count becomes min(count + 13, \|characters\|), and the old visible prefix stays a prefix of the new one. When nothing was hidden, everything stays visible. |
| Characters.CharactersPage.Display | src/pages/characters/characters.tsx:38-54 | Loading text, error text and grid each appear exactly when the source's condition for them holds, so no two appear together. Those conditions are the helper predicates `CharactersPage.ShowsLoading` (line 50: `isLoading`), `CharactersPage.ShowsError` (line 52: a truthy error once loading has ended) and `CharactersPage.HasCharacters` (line 38: settled, no truthy error, a non-empty list), with JavaScript truthiness of the error as `Truthy`. The page is blank exactly when it is settled with no truthy error and an empty list. The loading text is 'Loading characters...'. The error text is 'Failed to load characters. ' followed by the stored message, which is non-empty. The grid holds the cards of the first min(visibleCount, \|characters\|) characters, and its `hasMore` is visibleCount < \|characters\|. |
| Characters.Mount | src/pages/characters/characters.tsx:18-36 | After the mount effect's fetch settles, loading is off and the count is 13. On success the list is stored with no error: an empty list shows nothing, and otherwise the grid shows the first page. On failure the list stays empty and the message is stored: the error text with that message is shown, or nothing when the message is empty. |

## Left out

- The `getCharacters` network call, and the `Character` type. src/api/characters is not part of this model. The call is an input outcome, and the type is modelled as a record with the four fields the page reads: id, name, image and house, all strings.
- Falsy values other than the empty string. `image` and `house` are strings in which "" stands for every falsy value (a missing field, null or undefined). `id` is a string, so the link is `/characters/` followed by it.
- async/await and React's batching of state updates. The fetch is modelled as three discrete steps: start, then resolve or reject. React's development-mode double run of effects is not modelled.
- Writes after unmount. The effect has no cleanup, so nothing guards a fetch that settles after teardown. The model has no teardown state.
- The `react-infinite-scroll-component` trigger: the 0.9 scroll threshold, firing once per crossing, and DOM measurement. These are foreign code and viewport geometry. `LoadMore` is an operation that anyone may call at any time, and the `hasMore` flag passed to the trigger is part of `Display`'s grid.
- The page heading, the JSX markup, the CSS classes and lazy image loading. They are presentational only.
- src/App.tsx. It wires routes and has no logic of its own.
