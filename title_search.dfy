/**
 * The search box of the category screen: the titles of the open category
 * whose lower-case form contains the lower-case search term, in their
 * original order (`Object.keys(...).filter(...)`).
 */
module TitleSearch {
  import opened JsStrings

  /** `title.toLowerCase().includes(term.toLowerCase())` */
  predicate Matches(title: string, term: string) {
    Contains(Lower(title), Lower(term))
  }

  /** The titles shown for a search term. */
  function FilterTitles(titles: seq<string>, term: string): (r: seq<string>)
    ensures forall t :: t in r <==> t in titles && Matches(t, term)
    ensures |r| <= |titles|
    ensures term == "" ==> r == titles
  {
    if titles == [] then []
    else
      assert term == "" ==> Lower(term) == "";
      (if Matches(titles[0], term) then [titles[0]] else []) + FilterTitles(titles[1..], term)
  }

  /** Filtering keeps the order: it distributes over concatenation of title lists. */
  lemma {:induction false} FilterAppend(a: seq<string>, b: seq<string>, term: string)
    ensures FilterTitles(a + b, term) == FilterTitles(a, term) + FilterTitles(b, term)
  {
    if a != [] {
      assert (a + b)[1..] == a[1..] + b;
      FilterAppend(a[1..], b, term);
    } else {
      assert a + b == b;
    }
  }

  /** Terms that differ only in letter case select the same titles. */
  lemma {:induction false} FilterIgnoresCase(titles: seq<string>, a: string, b: string)
    requires Lower(a) == Lower(b)
    ensures FilterTitles(titles, a) == FilterTitles(titles, b)
  {
    if titles != [] {
      FilterIgnoresCase(titles[1..], a, b);
    }
  }

  /** A title that contains the term, ignoring case, is shown. */
  lemma MatchAt(title: string, term: string, i: nat)
    requires i + |term| <= |title| && Lower(title)[i..i + |term|] == Lower(term)
    ensures Matches(title, term)
  {
    ContainsAt(Lower(title), Lower(term), i);
  }

  /** The example of a title found by a lower-case and by an upper-case fragment. */
  lemma NecklaceExample()
    ensures FilterTitles(["ToysDR Necklace"], "neck") == ["ToysDR Necklace"]
    ensures FilterTitles(["ToysDR Necklace"], "TOYS") == ["ToysDR Necklace"]
  {
    var t := "ToysDR Necklace";
    assert Lower(t) == "toysdr necklace";
    assert Lower("neck") == "neck";
    assert Lower("TOYS") == "toys";
    MatchAt(t, "neck", 7);
    MatchAt(t, "TOYS", 0);
  }
}
