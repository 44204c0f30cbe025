/**
 * The application view: the state the view keeps (folder data, the selected
 * category and blurb, the language chosen per blurb, the displayed text, the
 * page, the search term and the dark-mode flag) and the handlers that change it.
 *
 * `AppState` is the state as a value and the functions below are the
 * transitions on it; the class `App` holds the same state in fields and its
 * handler methods are proved to perform exactly those transitions.
 */
module AppView {
  import opened Options
  import opened JsObjects
  import opened BlurbLoader
  import opened TitleSearch

  datatype Page = HomePage | CategoryPage | BlurbPage

  datatype AppState = AppState(
    selectedFolder: Option<string>,
    blurbs: BlurbSet,
    selectedCategory: Option<string>,
    selectedBlurb: Option<string>,
    currentLanguages: map<string, Option<string>>,
    blurbText: Option<string>,
    isDarkMode: bool,
    page: Page,
    searchTerm: string)

  /** What the main area shows. */
  datatype Screen =
    | HomeScreen
    | CategoryScreen(category: string, titles: seq<string>)
    | BlurbScreen(title: string, text: Option<string>, language: Option<string>)
    | NoScreen

  /** JavaScript truthiness of a string that may be `null`: `null` and `""` are falsy. */
  predicate Truthy(v: Option<string>) {
    v.Some? && v.value != ""
  }

  /** The property name a possibly `undefined` value denotes when used as a key. */
  function KeyOf(v: Option<string>): string {
    match v
    case Some(k) => k
    case None => "undefined"
  }

  /** The state before any interaction: the `useState` initial values. */
  function Initial(): AppState {
    AppState(None, Empty(), None, None, map[], Some(""), false, HomePage, "")
  }

  /** The titles of category `c`, in key order; none when `c` is not loaded. */
  function Titles(blurbs: BlurbSet, c: string): seq<string> {
    if c in blurbs.entries then blurbs.entries[c].keys else []
  }

  /** The default language of every title of a category: the first language key. */
  function DefaultLanguages(cat: Category): map<string, Option<string>> {
    map t | t in cat.entries :: FirstKey(cat.entries[t])
  }

  /** `currentLanguages[t]`, `undefined` when absent. */
  function LanguageOf(s: AppState, t: string): Option<string> {
    if t in s.currentLanguages then s.currentLanguages[t] else None
  }

  /** `blurbs[selectedCategory][t]` exists, so indexing it does not throw. */
  predicate CanLookUp(s: AppState, t: string) {
    && s.selectedCategory.Some?
    && s.selectedCategory.value in s.blurbs.entries
    && t in s.blurbs.entries[s.selectedCategory.value].entries
  }

  /** `blurbs[selectedCategory][t][lang]` */
  function TextOf(s: AppState, t: string, lang: Option<string>): Option<string>
    requires CanLookUp(s, t)
  {
    Get(s.blurbs.entries[s.selectedCategory.value].entries[t], KeyOf(lang))
  }

  /** Every chosen language is one of that blurb's languages, or absent when it has none. */
  predicate LanguagesFit(cat: Category, langs: map<string, Option<string>>) {
    forall t :: t in langs ==>
      && t in cat.entries
      && (langs[t].Some? ==> langs[t].value in cat.entries[t].entries)
      && (langs[t].None? ==> cat.entries[t].entries == map[])
  }

  /**
   * The consistency the handlers keep between the separately stored fields:
   * an open category is loaded and has a language entry for exactly its
   * titles; on the blurb page the displayed text is the selected blurb in its
   * chosen language.
   */
  predicate Consistent(s: AppState) {
    && (s.selectedCategory.Some? ==>
          && s.selectedCategory.value in s.blurbs.entries
          && s.currentLanguages.Keys == s.blurbs.entries[s.selectedCategory.value].entries.Keys
          && LanguagesFit(s.blurbs.entries[s.selectedCategory.value], s.currentLanguages))
    && (s.page == BlurbPage ==>
          && s.selectedBlurb.Some?
          && CanLookUp(s, s.selectedBlurb.value)
          && s.blurbText == TextOf(s, s.selectedBlurb.value, LanguageOf(s, s.selectedBlurb.value)))
  }

  /** What the main area renders for a state. */
  function Shown(s: AppState): (r: Screen)
    ensures r.HomeScreen? <==> s.page == HomePage
    ensures s.page == CategoryPage ==> (r.NoScreen? <==> !Truthy(s.selectedCategory))
    ensures s.page == BlurbPage ==> (r.NoScreen? <==> !Truthy(s.selectedBlurb))
    ensures r.CategoryScreen? ==>
      && s.page == CategoryPage && Some(r.category) == s.selectedCategory
      && (forall t :: t in r.titles <==> t in Titles(s.blurbs, r.category) && Matches(t, s.searchTerm))
    ensures r.CategoryScreen? && Consistent(s) ==>
      forall t :: t in r.titles ==> t in s.blurbs.entries[r.category].entries
    ensures r.CategoryScreen? ==> r.titles == FilterTitles(Titles(s.blurbs, r.category), s.searchTerm)
    ensures r.BlurbScreen? ==> s.page == BlurbPage && Some(r.title) == s.selectedBlurb
    ensures r.BlurbScreen? ==> r.text == s.blurbText && r.language == LanguageOf(s, r.title)
    ensures r.BlurbScreen? && Consistent(s) ==> r.text == TextOf(s, r.title, r.language)
  {
    if s.page == HomePage then HomeScreen
    else if s.page == CategoryPage && Truthy(s.selectedCategory) then
      CategoryScreen(s.selectedCategory.value,
                     FilterTitles(Titles(s.blurbs, s.selectedCategory.value), s.searchTerm))
    else if s.page == BlurbPage && Truthy(s.selectedBlurb) then
      BlurbScreen(s.selectedBlurb.value, s.blurbText, LanguageOf(s, s.selectedBlurb.value))
    else NoScreen
  }

  lemma InitialConsistent()
    ensures Consistent(Initial()) && Shown(Initial()) == HomeScreen
  {
  }

  /** Completion of a folder load: the loaded data replaces everything selected. */
  function Loaded(s: AppState, data: BlurbSet): (r: AppState)
    ensures r.blurbs == data
    ensures r.selectedCategory.None? && r.selectedBlurb.None?
    ensures r.blurbText == Some("") && r.currentLanguages == map[] && r.page == HomePage
    ensures r.selectedFolder == s.selectedFolder && r.isDarkMode == s.isDarkMode && r.searchTerm == s.searchTerm
    ensures Consistent(r) && Shown(r) == HomeScreen
  {
    s.(blurbs := data, selectedCategory := None, selectedBlurb := None, blurbText := Some(""),
       currentLanguages := map[], page := HomePage)
  }

  /**
   * Clicking a folder button: the folder becomes selected; when it differs from
   * the one selected before (and is not empty) its files are loaded and the
   * load completes.
   */
  function FolderChosen(s: AppState, folder: string, fetch: Fetcher): (r: AppState)
    ensures r.selectedFolder == Some(folder)
    ensures s.selectedFolder == Some(folder) ==> r == s
    ensures s.selectedFolder != Some(folder) && folder != "" ==>
      r.blurbs == LoadResult(folder, fetch) && r.page == HomePage && r.selectedCategory.None?
    ensures s.selectedFolder != Some(folder) && folder != "" ==>
      r == Loaded(s.(selectedFolder := Some(folder)), LoadResult(folder, fetch))
    ensures r.isDarkMode == s.isDarkMode && r.searchTerm == s.searchTerm
    ensures Consistent(s) ==> Consistent(r)
  {
    if s.selectedFolder == Some(folder) then s
    else if folder == "" then s.(selectedFolder := Some(folder))
    else Loaded(s.(selectedFolder := Some(folder)), LoadResult(folder, fetch))
  }

  /** `handleCategorySelect(c)` */
  function CategorySelected(s: AppState, c: string): (r: AppState)
    ensures r.selectedCategory == Some(c) && r.page == CategoryPage && r.searchTerm == ""
    ensures forall t :: t in r.currentLanguages <==> t in Titles(s.blurbs, c)
    ensures forall t :: t in r.currentLanguages ==>
      var languages := s.blurbs.entries[c].entries[t].keys;
      && (r.currentLanguages[t].None? <==> languages == [])
      && (r.currentLanguages[t].Some? ==> r.currentLanguages[t].value == languages[0])
    ensures r.blurbs == s.blurbs && r.selectedBlurb == s.selectedBlurb && r.blurbText == s.blurbText
    ensures r.selectedFolder == s.selectedFolder && r.isDarkMode == s.isDarkMode
    ensures Consistent(s) && c in s.blurbs.entries ==> Consistent(r)
    ensures c != "" && c in s.blurbs.entries ==> Shown(r) == CategoryScreen(c, s.blurbs.entries[c].keys)
  {
    var langs := if c in s.blurbs.entries then DefaultLanguages(s.blurbs.entries[c]) else map[];
    s.(selectedCategory := Some(c), currentLanguages := langs, page := CategoryPage, searchTerm := "")
  }

  /** `handleBlurbSelect(t)`: shows blurb `t` in its chosen language. */
  function BlurbSelected(s: AppState, t: string): (r: AppState)
    requires CanLookUp(s, t)
    ensures r.selectedBlurb == Some(t) && r.page == BlurbPage
    ensures r.blurbText == Get(s.blurbs.entries[s.selectedCategory.value].entries[t], KeyOf(LanguageOf(s, t)))
    ensures r.blurbs == s.blurbs && r.selectedCategory == s.selectedCategory
    ensures r.currentLanguages == s.currentLanguages && r.searchTerm == s.searchTerm
    ensures r.selectedFolder == s.selectedFolder && r.isDarkMode == s.isDarkMode
    ensures Consistent(s) ==> Consistent(r)
    ensures Consistent(s) ==>
      (r.blurbText.Some? <==> s.blurbs.entries[s.selectedCategory.value].entries[t].keys != [])
  {
    NoKeysNoEntries(s.blurbs.entries[s.selectedCategory.value].entries[t]);
    s.(selectedBlurb := Some(t), blurbText := TextOf(s, t, LanguageOf(s, t)), page := BlurbPage)
  }

  /** `handleLanguageChange(t, l)`: only the entry of `t` changes, and the text follows. */
  function LanguageChanged(s: AppState, t: string, l: string): (r: AppState)
    requires CanLookUp(s, t)
    ensures t in r.currentLanguages && r.currentLanguages[t] == Some(l)
    ensures forall u :: u != t ==> (u in r.currentLanguages <==> u in s.currentLanguages)
    ensures forall u :: u != t && u in s.currentLanguages ==> r.currentLanguages[u] == s.currentLanguages[u]
    ensures var blurb := s.blurbs.entries[s.selectedCategory.value].entries[t];
      l in blurb.entries ==> r.blurbText == Some(blurb.entries[l])
    ensures r.blurbs == s.blurbs && r.selectedCategory == s.selectedCategory && r.selectedBlurb == s.selectedBlurb
    ensures r.page == s.page && r.searchTerm == s.searchTerm
    ensures r.selectedFolder == s.selectedFolder && r.isDarkMode == s.isDarkMode
    ensures Consistent(s) && (s.page == BlurbPage ==> s.selectedBlurb == Some(t))
            && l in s.blurbs.entries[s.selectedCategory.value].entries[t].entries
            ==> Consistent(r)
  {
    s.(currentLanguages := s.currentLanguages[t := Some(l)], blurbText := TextOf(s, t, Some(l)))
  }

  /** `toggleDarkMode` */
  function DarkModeToggled(s: AppState): (r: AppState)
    ensures r.isDarkMode == !s.isDarkMode
    ensures r.(isDarkMode := s.isDarkMode) == s
    ensures Consistent(s) ==> Consistent(r)
  {
    s.(isDarkMode := !s.isDarkMode)
  }

  /** Typing in the search box. */
  function SearchTyped(s: AppState, term: string): (r: AppState)
    ensures r.searchTerm == term && r.(searchTerm := s.searchTerm) == s
    ensures Consistent(s) ==> Consistent(r)
  {
    s.(searchTerm := term)
  }

  /**
   * "Back to File": the category is deselected but the page stays the
   * category page, so the main area then shows nothing.
   */
  function BackedToFile(s: AppState): (r: AppState)
    ensures r.selectedCategory.None? && r.page == s.page
    ensures r.(selectedCategory := s.selectedCategory) == s
    ensures s.page == CategoryPage ==> Shown(r) == NoScreen
    ensures Consistent(s) && s.page != BlurbPage ==> Consistent(r)
  {
    s.(selectedCategory := None)
  }

  /** "Back to Categories": the page of the still selected category. */
  function BackedToCategories(s: AppState): (r: AppState)
    ensures r.page == CategoryPage && r.selectedCategory == s.selectedCategory
    ensures r.(page := s.page) == s
    ensures Consistent(s) ==> Consistent(r)
    ensures Consistent(s) && s.page == BlurbPage && Truthy(s.selectedCategory) ==>
      Shown(r) == CategoryScreen(s.selectedCategory.value,
                                 FilterTitles(s.blurbs.entries[s.selectedCategory.value].keys, s.searchTerm))
  {
    s.(page := CategoryPage)
  }

  /**
   * "Return Home": deselects the category and shows the home page; the
   * selected blurb and its text are kept.
   */
  function ReturnedHome(s: AppState): (r: AppState)
    ensures r.selectedCategory.None? && r.page == HomePage
    ensures r.selectedBlurb == s.selectedBlurb && r.blurbText == s.blurbText
    ensures r.(selectedCategory := s.selectedCategory, page := s.page) == s
    ensures Shown(r) == HomeScreen
    ensures Consistent(s) ==> Consistent(r)
  {
    s.(selectedCategory := None, page := HomePage)
  }

  /** Selecting the same category twice in a row is the same as selecting it once. */
  lemma CategorySelectIdempotent(s: AppState, c: string)
    ensures CategorySelected(CategorySelected(s, c), c) == CategorySelected(s, c)
  {
  }

  /** Two toggles restore the dark-mode flag. */
  lemma DarkModeToggleTwice(s: AppState)
    ensures DarkModeToggled(DarkModeToggled(s)) == s
  {
  }

  /**
   * Opening a loaded category, then one of its blurbs, then choosing another of
   * that blurb's languages shows the blurb's text in the chosen language.
   */
  lemma BrowseToLanguage(s: AppState, c: string, t: string, l: string)
    requires Consistent(s) && c in s.blurbs.entries && t in s.blurbs.entries[c].entries
    requires l in s.blurbs.entries[c].entries[t].entries && t != ""
    ensures var atBlurb := BlurbSelected(CategorySelected(s, c), t);
      Shown(LanguageChanged(atBlurb, t, l))
        == BlurbScreen(t, Some(s.blurbs.entries[c].entries[t].entries[l]), Some(l))
  {
  }

  /** The for-in loop of `handleCategorySelect`: every title gets its first language key. */
  method BuildDefaultLanguages(cat: Category) returns (langs: map<string, Option<string>>)
    ensures forall t :: t in langs <==> t in cat.keys
    ensures forall t :: t in langs ==> t in cat.entries && langs[t] == FirstKey(cat.entries[t])
  {
    langs := map[];
    for i := 0 to |cat.keys|
      invariant forall t :: t in langs <==> t in cat.keys[..i]
      invariant forall t :: t in langs ==> t in cat.entries && langs[t] == FirstKey(cat.entries[t])
    {
      var title := cat.keys[i];
      assert title in cat.entries;
      assert cat.keys[..i + 1] == cat.keys[..i] + [title];
      langs := langs[title := FirstKey(cat.entries[title])];
    }
    assert cat.keys[..|cat.keys|] == cat.keys;
  }

  /** The view's state, held in fields and changed by its handlers. */
  class App {
    var selectedFolder: Option<string>
    var blurbs: BlurbSet
    var selectedCategory: Option<string>
    var selectedBlurb: Option<string>
    var currentLanguages: map<string, Option<string>>
    var blurbText: Option<string>
    var isDarkMode: bool
    var page: Page
    var searchTerm: string

    function State(): AppState
      reads this
    {
      AppState(selectedFolder, blurbs, selectedCategory, selectedBlurb, currentLanguages,
               blurbText, isDarkMode, page, searchTerm)
    }

    ghost predicate Valid()
      reads this
    {
      Consistent(State())
    }

    constructor ()
      ensures State() == Initial() && Valid()
    {
      selectedFolder := None;
      blurbs := Empty();
      selectedCategory := None;
      selectedBlurb := None;
      currentLanguages := map[];
      blurbText := Some("");
      isDarkMode := false;
      page := HomePage;
      searchTerm := "";
    }

    /** The continuation of the folder load. */
    method OnBlurbsLoaded(data: BlurbSet)
      modifies this
      ensures State() == Loaded(old(State()), data) && Valid()
    {
      blurbs := data;
      selectedCategory := None;
      selectedBlurb := None;
      blurbText := Some("");
      currentLanguages := map[];
      page := HomePage;
    }

    /** A folder button: select the folder and, when it changed, load it. */
    method SelectFolder(folder: string, fetch: Fetcher)
      requires Valid()
      modifies this
      ensures State() == FolderChosen(old(State()), folder, fetch) && Valid()
    {
      if selectedFolder != Some(folder) {
        selectedFolder := Some(folder);
        if folder != "" {
          var data := LoadBlurbs(folder, fetch);
          OnBlurbsLoaded(data);
        }
      }
    }

    /** A category button; the buttons are the keys of `blurbs`. */
    method HandleCategorySelect(category: string)
      requires Valid() && category in blurbs.entries
      modifies this
      ensures State() == CategorySelected(old(State()), category) && Valid()
    {
      selectedCategory := Some(category);
      var langs := BuildDefaultLanguages(blurbs.entries[category]);
      assert langs == DefaultLanguages(blurbs.entries[category]);
      currentLanguages := langs;
      page := CategoryPage;
      searchTerm := "";
    }

    /** A title button of the open category. */
    method HandleBlurbSelect(title: string)
      requires Valid() && CanLookUp(State(), title)
      modifies this
      ensures State() == BlurbSelected(old(State()), title) && Valid()
    {
      selectedBlurb := Some(title);
      var language := if title in currentLanguages then currentLanguages[title] else None;
      blurbText := Get(blurbs.entries[selectedCategory.value].entries[title], KeyOf(language));
      page := BlurbPage;
    }

    /** The language selector of the blurb page; its options are the blurb's languages. */
    method HandleLanguageChange(title: string, lang: string)
      requires Valid() && page == BlurbPage && selectedBlurb == Some(title)
      requires lang in blurbs.entries[selectedCategory.value].entries[title].entries
      modifies this
      ensures State() == LanguageChanged(old(State()), title, lang) && Valid()
    {
      currentLanguages := currentLanguages[title := Some(lang)];
      blurbText := Get(blurbs.entries[selectedCategory.value].entries[title], lang);
    }

    method ToggleDarkMode()
      requires Valid()
      modifies this
      ensures State() == DarkModeToggled(old(State())) && Valid()
    {
      isDarkMode := !isDarkMode;
    }

    /** The search box of the category page. */
    method SetSearchTerm(term: string)
      requires Valid()
      modifies this
      ensures State() == SearchTyped(old(State()), term) && Valid()
    {
      searchTerm := term;
    }

    /** "Back to File", shown on the category page. */
    method BackToFile()
      requires Valid() && page == CategoryPage
      modifies this
      ensures State() == BackedToFile(old(State())) && Valid()
    {
      selectedCategory := None;
    }

    /** "Back to Categories", shown on the blurb page. */
    method BackToCategories()
      requires Valid()
      modifies this
      ensures State() == BackedToCategories(old(State())) && Valid()
    {
      page := CategoryPage;
    }

    /** "Return Home", shown on the blurb page. */
    method ReturnHome()
      requires Valid()
      modifies this
      ensures State() == ReturnedHome(old(State())) && Valid()
    {
      selectedCategory := None;
      page := HomePage;
    }
  }
}
