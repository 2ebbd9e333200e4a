# Music-player library state, in Dafny

This project models the data layer behind the single page of the music-player front end,
`src/pages/Index.tsx`. That layer is the only logic the page has. It holds:

- a fixed catalog of five sample tracks;
- an ordered list of playlists, seeded with "liked" and "chill";
- the selected view, which is the sentinel `"all"` or a playlist id;
- the pending playlist name;
- the current track and the playing flag.

Each state handler of the page is a pure function over an immutable `State`. The handlers are
`displayTracks`, `createPlaylist`, `addToPlaylist`, the sidebar clicks, the track-card click,
the transport button and the two `window.prompt` dialogs.

- `jstext.dfy` (`JsText`) models JavaScript's `String.prototype.trim` over the ECMAScript
  WhiteSpace and LineTerminator code points. It also models string truthiness.
- `library.dfy` (`Library`) holds the `Track`, `Playlist` and `State` datatypes and the initial
  state. It also holds `Array.prototype.find` by id and one function per handler.
- `library_facts.dfy` (`LibraryFacts`) holds lemmas that relate handlers to one another:
  - what is shown after each change;
  - which handlers keep playlist ids distinct;
  - which handlers undo or absorb each other.
- `page.dfy` (`Page`) holds the click and prompt handlers and a `Step`/`Run` event model. The
  model takes the "+" handler as a parameter: the one in the source (`AsWritten`) or the
  corrected one from the Findings (`Corrected`). It proves that, with either handler, every
  reachable state keeps the library's invariant:
  - playlist ids are distinct;
  - the view is `"all"` or an existing playlist;
  - playlists hold only catalog tracks;
  - a catalog track is always loaded.

Parameters stand in for what the page gets from the browser:

- the answer of `window.prompt` is an `Option<string>`, with `None` for a cancelled dialog;
- the `Date.now().toString()` id of a new playlist is a string argument (`newId`/`clock`).

`CreatePlaylist` puts no condition on the new id, and neither does the source. Freshness of
the id is a hypothesis only of the lemmas about distinct ids.

The view stays a string with the sentinel `"all"`, as in the source. So a playlist whose id is
`"all"` could never be shown. The ids the page creates are digit strings, so this never arises.

Facts about the source that shape the model:

- `createPlaylist` returns nothing.
- Rejected input is a silent no-op. No handler returns an error.
- The code never clamps the volume. Only the slider's `max={100}` bounds it.
- The transport toggle has no guard. The bar is rendered only while a track is loaded, and
  `Page.RunKeepsGood` shows that a track is always loaded.

## Model

| member | source | states |
|---|---|---|
| `JsText.Trim` | src/pages/Index.tsx:50 | `trim()` yields the empty string exactly when every character is ECMAScript whitespace or a line terminator. Otherwise both ends of the result are non-whitespace. |
| `JsText.TrimIdempotent` | src/pages/Index.tsx:50 | Trimming an already trimmed name changes nothing. |
| `Library.Initial` | src/pages/Index.tsx:25-43 | Start state: the 5 sample tracks as the catalog, and two playlists. "liked" holds tracks 1-3 and "chill" holds tracks 2-4. The view is `"all"`, the pending name is empty, and track 1 is loaded and paused. |
| `Library.FindIndex` | src/pages/Index.tsx:47 | Finds a position exactly when some playlist has the id. That position is the first such playlist. |
| `Library.Find` | src/pages/Index.tsx:47 | `find` is none exactly when no playlist has the id. Otherwise it is the first playlist carrying it. |
| `Library.DisplayTracks` | src/pages/Index.tsx:45-47 | Under `"all"`, the shown list is the catalog in catalog order, whatever the playlists hold. Otherwise it is the track list of the first playlist with the view id, or empty if none has it. |
| `Library.SelectView` | src/pages/Index.tsx:120 | A sidebar click sets the view and leaves the catalog, playlists, pending name, current track and flag alone. |
| `Library.CreatePlaylist` | src/pages/Index.tsx:49-60 | A blank or whitespace-only pending name changes nothing. Otherwise exactly one playlist is appended, with the untrimmed name and no tracks, after the unchanged earlier playlists. The pending name becomes `''`. |
| `Library.AddToPlaylist` | src/pages/Index.tsx:62-68 | The count, order, ids, names and covers are kept. A playlist with the id grows by one and ends in the track, with no deduplication. Other playlists are unchanged. |
| `Library.AddTrack` | src/pages/Index.tsx:62-68 | The state-level add changes only the playlists. |
| `Library.SelectTrack` | src/pages/Index.tsx:152-155 | Clicking a card makes that track current and forces playing on. Playlists, view and pending name are untouched. |
| `Library.TogglePlay` | src/pages/Index.tsx:244 | The transport button flips the playing flag and nothing else. |
| `LibraryFacts.DisplaySelectedPlaylist` | src/pages/Index.tsx:45-47 | With distinct ids, selecting a playlist's id shows exactly that playlist's tracks. |
| `LibraryFacts.FirstMatchAfterAppend` | src/pages/Index.tsx:57 | Appending a playlist keeps the first match of every id already present. |
| `LibraryFacts.AddKeepsMatches` | src/pages/Index.tsx:63-67 | Adding a track keeps the id sequence. An unmatched id stays unmatched and a first match stays first. |
| `LibraryFacts.AddKeepsIdsDistinct` | src/pages/Index.tsx:63-67 | Adding a track keeps pairwise distinct ids distinct. |
| `LibraryFacts.AddUnknownIdIsNoOp` | src/pages/Index.tsx:63-67 | An id no playlist carries leaves the whole playlist list unchanged. |
| `LibraryFacts.AddTwiceKeepsBoth` | src/pages/Index.tsx:65 | Adding the same track twice appends it twice. The list grows by two and the track's count grows by two. |
| `LibraryFacts.AddThenDisplay` | src/pages/Index.tsx:45-68 | While a playlist is shown, adding a track to it shows the old rows followed by that track. |
| `LibraryFacts.AddElsewhereKeepsDisplay` | src/pages/Index.tsx:45-68 | Adding to an id other than the shown view leaves the shown list unchanged. |
| `LibraryFacts.AppendFreshKeepsIdsDistinct` | src/pages/Index.tsx:57 | Appending a playlist with an unused id keeps ids pairwise distinct. |
| `LibraryFacts.CreateKeepsIdsDistinct` | src/pages/Index.tsx:49-58 | With a fresh id, `createPlaylist` keeps playlist ids pairwise distinct. |
| `LibraryFacts.AppendKeepsDisplay` | src/pages/Index.tsx:45-57 | Appending a playlist whose id is not the view leaves the shown list unchanged. |
| `LibraryFacts.CreateKeepsDisplay` | src/pages/Index.tsx:45-58 | Creating a playlist under an id other than the view leaves the shown list unchanged. |
| `LibraryFacts.AddToAppended` | src/pages/Index.tsx:57-67 | Adding to the fresh id of a just-appended playlist changes only that playlist, which gains the track as its last entry. |
| `LibraryFacts.CreateTwiceCreatesOnce` | src/pages/Index.tsx:58 | Creation clears the pending name, so an immediate second creation does nothing. |
| `LibraryFacts.ToggleTwiceRestores` | src/pages/Index.tsx:244 | Toggling twice restores the whole state. |
| `LibraryFacts.SelectThenTogglePauses` | src/pages/Index.tsx:153-154 | Whatever the flag was, selecting a track plays it, and a toggle right after pauses it. |
| `Page.PromptCreateAsWritten` | src/pages/Index.tsx:102-108 | The "+" handler as written. A cancelled or empty answer changes nothing. A truthy answer waits as the pending name when the earlier pending name was blank. Otherwise the earlier playlists are kept in order and one empty playlist with the new id, the earlier name and the new-playlist cover is appended, and the pending name becomes `''`. Catalog, view, current track and flag never change. |
| `Page.PromptCreate` | src/pages/Index.tsx:102-108 | The "+" handler as intended: a cancelled or empty answer changes nothing, and a whitespace answer creates nothing. A non-blank answer appends exactly one empty playlist with that name and clears the pending name. |
| `Page.PromptAdd` | src/pages/Index.tsx:184-189 | A cancelled or empty answer changes nothing. Any other answer acts exactly as a direct add, so the existence check at line 187 is redundant. |
| `Page.Step` | src/pages/Index.tsx:84-244 | With either "+" handler, no action changes the catalog or shortens the playlist list. Every existing playlist keeps its position, id, name and cover. |
| `Page.InitialIsGood` | src/pages/Index.tsx:34-40 | The start state has distinct ids, a valid view, no orphan tracks and a loaded catalog track. |
| `Page.ShownAreCatalogTracks` | src/pages/Index.tsx:45-47 | In a good state every shown row is a catalog track. |
| `Page.AddKeepsNoOrphans` | src/pages/Index.tsx:62-68 | Adding a catalog track keeps every playlist made of catalog tracks. |
| `Page.PromptCreateKeepsGood` | src/pages/Index.tsx:102-108 | The corrected "+" handler, with a fresh id, keeps the invariant. |
| `Page.PromptCreateAsWrittenKeepsGood` | src/pages/Index.tsx:102-108 | The "+" handler as written, with a fresh id, keeps the invariant. |
| `Page.PromptAddKeepsGood` | src/pages/Index.tsx:184-189 | Adding a shown row through the prompt keeps the invariant. |
| `Page.StepKeepsGood` | src/pages/Index.tsx:84-244 | Any single action, with a fresh clock reading, keeps the invariant. This holds for the "+" handler as written and for the corrected one. |
| `Page.RunKeepsGood` | src/pages/Index.tsx:207 | With either "+" handler, every state reachable by fresh actions keeps the invariant and the catalog. In particular a track is always loaded, so the transport bar is always shown. |
| `Page.RunConcat` | src/pages/Index.tsx:84-244 | With either "+" handler, running two action sequences one after the other equals running their concatenation. |
| `Page.PlayThenPause` | src/pages/Index.tsx:152-244 | Playing shown row `k` and then pressing the transport button leaves that row's track loaded and paused. Everything else is as before. |
| `Page.AddRowFromCatalog` | src/pages/Index.tsx:184-189 | In the catalog view, the add prompt on row `k` with a non-empty answer adds the `k`-th catalog track to that id. |
| `Page.CreateThenAddFromCatalog` | src/pages/Index.tsx:102-189 | With the corrected "+" handler, in the catalog view, creating a playlist under a fresh id and then adding row `k` to it appends exactly one playlist. That playlist holds only the `k`-th catalog track, and the earlier playlists and the playback state are unchanged. |
| `Page.CreateThenAddFromCatalogAsWritten` | src/pages/Index.tsx:102-189 | With the "+" handler as written and nothing pending, the same two actions only store the name as pending. The add at line 187 finds no playlist with the new id and is dropped. |
| `Page.RoadTripWalkthrough` | src/pages/Index.tsx:152-189 | Scenario on the corrected page: play track 1, pause, create "Road Trip", then add track 5 to it. The result is three playlists, the last holding only track 5, with track 1 loaded and paused. |
| `Page.RoadTripWalkthroughAsWritten` | src/pages/Index.tsx:102-189 | The same scenario on the page as written leaves the two original playlists untouched and "Road Trip" pending, with track 1 loaded and paused. |
| `Page.PromptCreateAsWrittenLags` | src/pages/Index.tsx:102-108 | As written, with nothing pending, a non-blank first answer creates nothing. The next truthy answer creates a playlist named after the first answer and clears the pending name. |
| `Page.PromptCreateAsWrittenLagsOneAnswer` | src/pages/Index.tsx:102-108 | As written, the first answer "Road Trip" creates nothing. The next answer "Gym" creates a playlist named "Road Trip". |

## Findings

| source | as written | input that shows it | evidently intended | confidence | as-written member | corrected member |
|---|---|---|---|---|---|---|
| src/pages/Index.tsx:102-108 | `setNewPlaylistName(name)` is followed at once by `createPlaylist()`, whose closure reads the pending name of the current render. That is the name from before the click. | From the start state, answer "Road Trip": no playlist is created and "Road Trip" waits. Then answer "Gym": a playlist named "Road Trip" is created and "Gym" is lost. | Each non-blank answer creates one playlist carrying that answer. | high; not executed | `Page.PromptCreateAsWritten`, `Page.PromptCreateAsWrittenLags`, `Page.PromptCreateAsWrittenLagsOneAnswer`, `Page.CreateThenAddFromCatalogAsWritten`, `Page.RoadTripWalkthroughAsWritten` | `Page.PromptCreate`, `Page.CreateThenAddFromCatalog`, `Page.RoadTripWalkthrough` |

The event model (`Page.Step`) takes the handler as a parameter, so the invariant is proved for the page as written and for the corrected page.

## Left out

- JSX layout and the UI component library (`Button`, `Card`, `Input`, `Slider`, `Progress`, `Icon`) are presentation over code that is not part of this model.
- `window.prompt` (lines 103 and 186) is browser I/O. Its answer is an `Option<string>` parameter.
- `Date.now().toString()` (line 52) reads the clock. The new id is a parameter, and its freshness is a hypothesis of the id lemmas, not a guarantee.
- React re-rendering and state batching are not modelled beyond the one stale read in the Findings. Each handler maps one state snapshot to the next.
- Volume (lines 42 and 266-272) is left out. The slider's `max={100}` is the only bound, the code never clamps, and nothing else reads it.
- Progress (line 43) is a constant that is never updated.
- The playlist title lookup in the header (line 139) only chooses display text.
- The heart, shuffle, skip and repeat buttons have no handlers.
- Duration strings and cover paths are opaque. Nothing parses them.
