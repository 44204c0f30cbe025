# Blurbinator: a verified model of its navigation state and floating panel

Blurbinator is a browser extension for browsing pre-written marketing "blurbs",
organised by folder (`DRBlurbs`, `SABlurbs`), category (one JSON file each) and
title, each available in several languages. This project models its two pieces
of sequential state logic in Dafny and proves what they guarantee.

- **The application view** (`src/App.js`). `BlurbLoader` models `loadBlurbs`:
  the fixed folder-to-files table, the file paths, `file.replace(".json", "")`
  as the key, and a loop that skips a file whose fetch fails. The network and
  the JSON parser are an oracle `fetch: path -> Option<Category>`. `AppView`
  models the view's React state as the datatype `AppState`, every handler as a
  transition function on it, and the class `App`, whose fields are the state
  and whose methods are the handlers. Each method is proved to perform its
  transition. `TitleSearch` models the case-insensitive title filter of the
  category page.
- **The content script** (`build/content.js`). `ContentScript` models the
  script's module-level variables, the bubble position, the container size and
  both elements' `style.display` as the datatype `Panel`, with the event
  listeners as functions on it. The class `FloatingWindow` holds the same state
  in fields, and its listener methods are proved to perform those functions.
  Attaching and detaching the bubble gesture's document listeners is the flag
  `dragListening`.

Supporting modules: `Options` (null/undefined), `JsObjects` (a string-keyed
object whose keys keep insertion order, so "the first key" and the filter's
order are defined), and `JsStrings` (ASCII `toLowerCase`, `includes`, and
`replace` with a string pattern).

Behaviour the model keeps as the code has it:
- The resize does not clamp. A width or height outside its bounds is not
  applied, and that dimension keeps its previous value
  (`ContentScript.WideRequestKeepsWidth`: a request for width 700 keeps 590).
  It does not become 600.
- "Return Home" clears the category and shows the home page. It keeps
  `selectedBlurb` and `blurbText`.
- "Back to File" clears the category but leaves the page set to `"category"`.
  The main area then renders nothing (`AppView.BackedToFile`).
- A blurb with no languages gets `undefined` as its default language. Looking
  it up then uses the property name `"undefined"`.

## Model

| member | source | states |
|---|---|---|
| `JsObjects.Put` | src/App.js:50 | assigning a key: a new key goes last in key order, an existing key keeps its place, and only its value changes |
| `JsObjects.FirstKey` | src/App.js:96 | `Object.keys(o)[0]` is the first key in insertion order, or undefined exactly when the object is empty |
| `JsStrings.Lower` | src/App.js:214 | lower-casing keeps the length and leaves no upper-case letter; each character that is not an ASCII capital is kept, and each capital becomes the letter 32 code points later |
| `JsStrings.LowerIdempotent` | src/App.js:214 | lower-casing twice is the same as lower-casing once |
| `JsStrings.Contains` | src/App.js:214 | `includes` is true for the empty term, and is false when the term is longer than the string |
| `JsStrings.ContainsAt` | src/App.js:214 | an occurrence of the term at any position makes `includes` true |
| `JsStrings.ContainsHasPosition` | src/App.js:214 | when `includes` is true, there is a position where the term occurs |
| `JsStrings.ReplaceFirst` | src/App.js:50 | `replace` with a pattern that does not occur returns the string unchanged |
| `JsStrings.ReplaceFirstAt` | src/App.js:50 | when the pattern first occurs at position i, `replace` gives the part before i, then the replacement, then the rest after that one occurrence; later occurrences stay |
| `JsStrings.ReplaceJsonSuffix` | src/App.js:50 | removing ".json" from `base + ".json"` gives `base` when `base` has no dot |
| `BlurbLoader.FilesOf` | src/App.js:38-43 | the file table has an entry exactly for "DRBlurbs" and "SABlurbs", each with at least one file; any other own key of the table has none, so `loadBlurbs` returns early |
| `BlurbLoader.FilePath` | src/App.js:46 | the path is "/blurbs/", then the folder, then "/", then the file name, with nothing else in between |
| `BlurbLoader.CategoryName` | src/App.js:50 | a file named base + ".json", with no dot in base, is stored under the key base |
| `BlurbLoader.LoadBlurbs` | src/App.js:36-57 | the loop's result is the specified assembly of the folder's files, and a folder not in the table gives an empty object |
| `BlurbLoader.AssembledContents` | src/App.js:45-54 | if the names are distinct, the keys are the names of the files that load, in file order; each key holds that file's data; a failing file leaves no key |
| `BlurbLoader.SucceededHasName` | src/App.js:45-54 | every key of the result comes from a file that loaded |
| `BlurbLoader.DRNames` | src/App.js:38-39 | the DRBlurbs files give the keys JewelleryDR and ToysDR, which are distinct |
| `BlurbLoader.SANames` | src/App.js:38-41 | the SABlurbs files give the keys JewellerySA, NTJewellerySA and ToysSA, which are distinct |
| `BlurbLoader.LoadResultKeys` | src/App.js:38-56 | for any folder, the keys are exactly the names of the files that loaded, ".json" removed, in file order; a folder not in the table gives none |
| `TitleSearch.FilterTitles` | src/App.js:212-215 | a title is shown exactly when it is one of the category's titles and contains the term, ignoring case; an empty term shows every title |
| `TitleSearch.FilterAppend` | src/App.js:212-215 | the filter keeps the original order: it distributes over concatenation |
| `TitleSearch.FilterIgnoresCase` | src/App.js:212-215 | two terms that differ only in letter case give the same titles |
| `TitleSearch.MatchAt` | src/App.js:214 | a title that contains the term at some position, ignoring case, matches |
| `TitleSearch.NecklaceExample` | src/App.js:212-215 | "ToysDR Necklace" is found by "neck" and by "TOYS" |
| `AppView.Shown` | src/App.js:193-258 | the home page shows the home screen; the category page shows the category's titles that match the term, or nothing when no category is selected; the titles are exactly the filter of the category's titles, in key order; the blurb page shows the selected blurb with `blurbText` and `currentLanguages[selectedBlurb]`, or nothing when no blurb is selected; in a consistent state the titles are the loaded category's and the text is that blurb's text in the shown language. For a category that is not loaded, `Titles` gives no titles, where `Object.keys(blurbs[selectedCategory])` at src/App.js:212 would throw; no button reaches that case, because a category is only selected from the loaded keys |
| `AppView.InitialConsistent` | src/App.js:60-68 | the initial state is consistent and shows the home page |
| `AppView.Loaded` | src/App.js:73-80 | after a load completes, the data replaces `blurbs`; category and blurb are null; the text is ""; the languages are empty; the page is home; the state is consistent |
| `AppView.FolderChosen` | src/App.js:71-82 | choosing a new non-empty folder loads it and then acts exactly as `Loaded` on the state with that folder selected, which clears the category, blurb, text and languages and returns to the home page; choosing the selected folder again changes nothing; dark mode and the search term are always kept; consistency is kept |
| `AppView.CategorySelected` | src/App.js:92-101 | the category is selected, the page is "category" and the term is ""; the language entries are exactly the category's titles, each set to its first language key; all titles are shown; consistency is kept |
| `AppView.BlurbSelected` | src/App.js:103-108 | the blurb is selected, the page is "blurb", and the text is the blurb in its current language; the text is defined exactly when the blurb has a language |
| `AppView.LanguageChanged` | src/App.js:110-114 | only the title's language entry changes, to the new language; the text becomes the blurb in that language |
| `AppView.DarkModeToggled` | src/App.js:116-121 | the dark-mode flag is negated and nothing else changes |
| `AppView.SearchTyped` | src/App.js:204-210 | typing sets the search term and nothing else |
| `AppView.BackedToFile` | src/App.js:224 | the category is cleared and the page is unchanged, so the category page then shows nothing |
| `AppView.BackedToCategories` | src/App.js:294 | the page becomes "category" and the category is unchanged; coming from a blurb, the category's filtered titles are shown |
| `AppView.ReturnedHome` | src/App.js:298-301 | the category is cleared and the home page is shown; the selected blurb and its text are kept |
| `AppView.CategorySelectIdempotent` | src/App.js:92-101 | selecting the same category twice in a row is the same as selecting it once |
| `AppView.DarkModeToggleTwice` | src/App.js:116-121 | two toggles restore the state |
| `AppView.BrowseToLanguage` | src/App.js:92-114 | selecting a category, then a blurb, then one of its languages shows that blurb's text in that language |
| `AppView.BuildDefaultLanguages` | src/App.js:94-97 | the loop produces an entry for exactly the category's titles, each with the title's first language key |
| `AppView.App.constructor` | src/App.js:60-68 | the fields start at the `useState` initial values |
| `AppView.App.OnBlurbsLoaded` | src/App.js:73-80 | the load continuation performs `Loaded` and keeps consistency |
| `AppView.App.SelectFolder` | src/App.js:71-82 | the folder button and its effect perform `FolderChosen` |
| `AppView.App.HandleCategorySelect` | src/App.js:92-101 | performs `CategorySelected`, with the language entries built by the loop |
| `AppView.App.HandleBlurbSelect` | src/App.js:103-108 | performs `BlurbSelected` |
| `AppView.App.HandleLanguageChange` | src/App.js:110-114 | performs `LanguageChanged` |
| `AppView.App.ToggleDarkMode` | src/App.js:116-121 | performs `DarkModeToggled` |
| `AppView.App.SetSearchTerm` | src/App.js:208 | performs `SearchTyped` |
| `AppView.App.BackToFile` | src/App.js:224 | performs `BackedToFile` |
| `AppView.App.BackToCategories` | src/App.js:294 | performs `BackedToCategories` |
| `AppView.App.ReturnHome` | src/App.js:298-301 | performs `ReturnedHome` |
| `ContentScript.Start` | build/content.js:10-14 | at start the container is hidden, the bubble is visible and no gesture is active |
| `ContentScript.Toggled` | build/content.js:29-37 | afterwards exactly one of container and bubble is visible; the container's visibility flips; nothing else changes |
| `ContentScript.ToggleTwice` | build/content.js:29-37 | toggling twice restores both visibilities |
| `ContentScript.BubblePressed` | build/content.js:46-49 | mousedown starts a gesture that is not a drag, anchored at the mouse |
| `ContentScript.DragMoved` | build/content.js:51-62 | a move within 3 px of the anchor on both axes changes nothing; a larger move shifts the bubble by the move, marks a drag and re-anchors; without an active gesture nothing changes |
| `ContentScript.DragReleased` | build/content.js:64-71 | mouseup ends the gesture and toggles the window exactly when the gesture was not a drag; after a drag, or with no gesture, both visibilities are kept; no other field changes |
| `ContentScript.ResizePressed` | build/content.js:85-93 | resizing starts, recording the current width, height and mouse position |
| `ContentScript.ResizeMoved` | build/content.js:95-108 | width = initial + dx and height = initial − dy are applied only within [250, 600] and [350, 800]; a candidate outside its bounds is not applied and that dimension keeps its value, each dimension independently of the other; a size in range stays in range; nothing happens when not resizing |
| `ContentScript.ResizeReleased` | build/content.js:110-113 | mouseup ends resizing |
| `ContentScript.MouseMoved` | build/content.js:51-108 | a document mousemove runs the resize listener and then the gesture's listener; the two touch separate fields, so the order does not matter: the size is the resize listener's and the bubble position the gesture's; visibilities and the listening and resizing flags are kept; a size in bounds stays in bounds |
| `ContentScript.MouseReleased` | build/content.js:64-113 | a document mouseup, listeners in either order, ends both resizing and the gesture; it toggles the window exactly when a gesture was active and was not a drag; the size and bubble position are kept |
| `ContentScript.NothingMovesAfterRelease` | build/content.js:64-113 | after mouseup, a move changes nothing: neither the size nor the bubble position |
| `ContentScript.DragStaysDrag` | build/content.js:51-62 | once a gesture is a drag it stays one, and moves never change visibility |
| `ContentScript.GestureMoves` | build/content.js:46-62 | a gesture becomes a drag exactly when a move leaves the 3 px threshold around the mousedown point; until then the bubble stays put |
| `ContentScript.ClickOrDrag` | build/content.js:46-75 | mousedown, any moves and mouseup toggle the window exactly when no move left the threshold; a click does not move the bubble |
| `ContentScript.RunKeepsInvariants` | build/content.js:29-113 | over any series of events, exactly one of container and bubble stays visible, and a size that starts in bounds stays in bounds |
| `ContentScript.WideRequestKeepsWidth` | build/content.js:97-100 | a requested width of 700 keeps the previous width (590), not 600 |
| `ContentScript.FloatingWindow.constructor` | build/content.js:10-14 | the fields start as in `Start` |
| `ContentScript.FloatingWindow.ToggleFloatingWindow` | build/content.js:29-37 | performs `Toggled` |
| `ContentScript.FloatingWindow.BubbleMouseDown` | build/content.js:46-75 | performs `BubblePressed` |
| `ContentScript.FloatingWindow.ResizeMouseDown` | build/content.js:85-93 | performs `ResizePressed` |
| `ContentScript.FloatingWindow.DocumentMouseMove` | build/content.js:51-108 | a document mousemove runs the resize listener and then the gesture's listener (`MouseMoved`) |
| `ContentScript.FloatingWindow.DocumentMouseUp` | build/content.js:64-113 | a document mouseup runs the resize listener and then the gesture's listener (`MouseReleased`) |

## Left out

- `fetch`, `response.json()` and JSON parsing are an oracle from path to parsed
  data or failure. The oracle's result is assumed to have the
  title → language → text shape.
- Async ordering is not modelled. A folder's load runs to completion before any
  other event. The race when folders are switched quickly cannot be stated in
  this sequential model.
- The clipboard copy (`navigator.clipboard`, the fallback through a textarea
  and `execCommand`) and the "Copied!" toast with its timer are browser APIs
  and timers, so they are left out.
- `localStorage` and the `dark-mode` class on `document.body` are left out.
  Only the boolean flip is kept, and the view starts with dark mode off.
- JSX rendering, styles and `ResizableBox` are left out. `AppView.Shown` only
  says which screen the main area shows.
- Host-page plumbing is left out: creating the DOM elements,
  `chrome.runtime.getURL`, iframe sizing, cursor styles and the click listener
  that stops the bubble animation.
- The bubble position and the container size start at values the stylesheet
  gives. These are parameters of `ContentScript.Start`. The difference between
  `offsetWidth` (with borders) and `style.width` is not modelled. Neither is the
  difference between `offsetLeft`/`offsetTop` and `style.left`/`style.top`:
  the model keeps one position.
- Listener registration is a flag. A second bubble mousedown before any mouseup
  would stack a second pair of listeners in the browser. The model has a single
  gesture.
- Mouse coordinates, offsets and sizes are integers. In the browser
  `e.clientX` and `e.clientY` are doubles, so a move with dx = 3.5 counts as a
  drag there but cannot be expressed here. Fractional widths and heights are
  left out for the same reason.
- `toLowerCase` folds only ASCII letters.
- `BlurbLoader.FilesOf`: a folder name is looked up among the table's own keys
  only. In JavaScript `files[folder]` also finds members inherited from
  `Object.prototype`, so "toString", "constructor" or "__proto__" is truthy
  there; the loop then throws because the value is not iterable, `loadBlurbs`
  rejects and the view state is never reset. The model gives such a folder
  the empty object instead (`BlurbLoader.LoadResultKeys`, `AppView.FolderChosen`).
  Only the two folder buttons set a folder, so no reachable behaviour differs.
- Key order is insertion order. JavaScript puts integer-like keys first in
  numeric order, and that is not modelled.
- `AppView.App.HandleCategorySelect`: requires the category to be a loaded key,
  which the category buttons guarantee. The code also runs for an unknown key,
  giving empty language entries, and `AppView.CategorySelected` models that case.
- `AppView.App.HandleLanguageChange`: requires the new language to be one of
  the blurb's languages, which the selector's options guarantee.
  `AppView.LanguageChanged` handles any language.
