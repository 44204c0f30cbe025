/**
 * `loadBlurbs` of the application view: for a folder of the fixed table it
 * fetches each of the folder's files in turn and collects the parsed contents
 * under the file name without ".json"; a file that fails is skipped.
 * The network and JSON parsing are an oracle `fetch` that gives, per path,
 * the parsed file or `None` for a failure.
 */
module BlurbLoader {
  import opened Options
  import opened JsObjects
  import opened JsStrings

  /** Language code to blurb text. */
  type Blurb = Object<string>
  /** Blurb title to blurb: the parsed contents of one file. */
  type Category = Object<Blurb>
  /** Category name to category: everything loaded for a folder. */
  type BlurbSet = Object<Category>

  /** The outcome of `fetch(path)` followed by `response.json()`. */
  type Fetcher = string -> Option<Category>

  /** The fixed folder-to-files table; `None` for a folder that is not in it. */
  function FilesOf(folder: string): (r: Option<seq<string>>)
    ensures r.Some? <==> folder == "DRBlurbs" || folder == "SABlurbs"
    ensures r.Some? ==> r.value != []
  {
    if folder == "DRBlurbs" then Some(["JewelleryDR.json", "ToysDR.json"])
    else if folder == "SABlurbs" then Some(["JewellerySA.json", "NTJewellerySA.json", "ToysSA.json"])
    else None
  }

  /** The path a file is fetched from. */
  function FilePath(folder: string, file: string): (r: string)
    ensures |r| == |folder| + |file| + 9
    ensures r[..8] == "/blurbs/" && r[8..8 + |folder|] == folder && r[8 + |folder|] == '/'
    ensures r[|r| - |file|..] == file
  {
    "/blurbs/" + folder + "/" + file
  }

  /** The key a file's contents are stored under: `file.replace(".json", "")`. */
  function CategoryName(file: string): (r: string)
    ensures |file| >= 5 && file[|file| - 5..] == ".json" && '.' !in file[..|file| - 5] ==>
      r == file[..|file| - 5]
  {
    if |file| >= 5 && file[|file| - 5..] == ".json" && '.' !in file[..|file| - 5] then
      assert file == file[..|file| - 5] + ".json";
      ReplaceJsonSuffix(file[..|file| - 5]);
      ReplaceFirst(file, ".json", "")
    else
      ReplaceFirst(file, ".json", "")
  }

  function Last(files: seq<string>): string
    requires files != []
  {
    files[|files| - 1]
  }

  predicate Loads(folder: string, file: string, fetch: Fetcher) {
    fetch(FilePath(folder, file)).Some?
  }

  /** The result object after the loop has handled `files`, in order. */
  function Assembled(folder: string, files: seq<string>, fetch: Fetcher): BlurbSet
  {
    if files == [] then Empty()
    else
      var before := Assembled(folder, files[..|files| - 1], fetch);
      match fetch(FilePath(folder, Last(files)))
      case None => before
      case Some(data) => Put(before, CategoryName(Last(files)), data)
  }

  /** The category names of the files that load, in file order. */
  function Succeeded(folder: string, files: seq<string>, fetch: Fetcher): seq<string>
  {
    if files == [] then []
    else
      Succeeded(folder, files[..|files| - 1], fetch)
      + (if Loads(folder, Last(files), fetch) then [CategoryName(Last(files))] else [])
  }

  /** What `loadBlurbs(folder)` resolves to. */
  function LoadResult(folder: string, fetch: Fetcher): BlurbSet {
    match FilesOf(folder)
    case None => Empty()
    case Some(files) => Assembled(folder, files, fetch)
  }

  /** `loadBlurbs`, with the awaited fetches of its loop replaced by the oracle. */
  method LoadBlurbs(folder: string, fetch: Fetcher) returns (result: BlurbSet)
    ensures result == LoadResult(folder, fetch)
    ensures FilesOf(folder).None? ==> result.keys == []
  {
    result := Empty();
    var files := FilesOf(folder);
    if files.None? {
      return;
    }
    var list := files.value;
    for i := 0 to |list|
      invariant result == Assembled(folder, list[..i], fetch)
    {
      assert list[..i + 1][..i] == list[..i];
      var file := list[i];
      var response := fetch(FilePath(folder, file));
      match response
      case Some(data) =>
        result := Put(result, CategoryName(file), data);
      case None =>
        // the error is logged and the file skipped
    }
    assert list[..|list|] == list;
  }

  predicate Distinct(names: seq<string>) {
    forall i, j :: 0 <= i < j < |names| ==> names[i] != names[j]
  }

  predicate DistinctNames(files: seq<string>) {
    Distinct(CategoryNames(files))
  }

  /**
   * With distinct category names, the result's keys are the names of the files
   * that load, in file order; each holds that file's contents; a file that
   * fails leaves no key behind.
   */
  lemma {:induction false} AssembledContents(folder: string, files: seq<string>, fetch: Fetcher)
    requires DistinctNames(files)
    ensures Assembled(folder, files, fetch).keys == Succeeded(folder, files, fetch)
    ensures forall j :: 0 <= j < |files| && Loads(folder, files[j], fetch) ==>
      && CategoryName(files[j]) in Assembled(folder, files, fetch).entries
      && Assembled(folder, files, fetch).entries[CategoryName(files[j])] == fetch(FilePath(folder, files[j])).value
    ensures forall j :: 0 <= j < |files| && !Loads(folder, files[j], fetch) ==>
      CategoryName(files[j]) !in Assembled(folder, files, fetch).entries
  {
    if files != [] {
      var init := files[..|files| - 1];
      assert DistinctNames(init);
      AssembledContents(folder, init, fetch);
      var last := Last(files);
      forall j | 0 <= j < |init|
        ensures CategoryName(init[j]) != CategoryName(last)
      {
        assert init[j] == files[j];
      }
      assert CategoryName(last) !in Assembled(folder, init, fetch).entries by {
        if CategoryName(last) in Assembled(folder, init, fetch).entries {
          SucceededHasName(folder, init, fetch, CategoryName(last));
        }
      }
      forall j | 0 <= j < |files| - 1 ensures files[j] == init[j] { }
    }
  }

  /** Every key of the assembled object is the name of a file that loads. */
  lemma {:induction false} SucceededHasName(folder: string, files: seq<string>, fetch: Fetcher, k: string)
    requires k in Assembled(folder, files, fetch).entries
    ensures exists j :: 0 <= j < |files| && Loads(folder, files[j], fetch) && CategoryName(files[j]) == k
  {
    var init := files[..|files| - 1];
    if k in Assembled(folder, init, fetch).entries {
      SucceededHasName(folder, init, fetch, k);
      var j :| 0 <= j < |init| && Loads(folder, init[j], fetch) && CategoryName(init[j]) == k;
      assert files[j] == init[j];
    } else {
      assert Loads(folder, files[|files| - 1], fetch);
    }
  }

  /** Each file of the table, ".json" removed. */
  lemma JewelleryDRName()
    ensures CategoryName("JewelleryDR.json") == "JewelleryDR"
  {
    assert "JewelleryDR.json" == "JewelleryDR" + ".json";
    ReplaceJsonSuffix("JewelleryDR");
  }

  lemma ToysDRName()
    ensures CategoryName("ToysDR.json") == "ToysDR"
  {
    assert "ToysDR.json" == "ToysDR" + ".json";
    ReplaceJsonSuffix("ToysDR");
  }

  lemma JewellerySAName()
    ensures CategoryName("JewellerySA.json") == "JewellerySA"
  {
    assert "JewellerySA.json" == "JewellerySA" + ".json";
    ReplaceJsonSuffix("JewellerySA");
  }

  lemma NTJewellerySAName()
    ensures CategoryName("NTJewellerySA.json") == "NTJewellerySA"
  {
    assert "NTJewellerySA.json" == "NTJewellerySA" + ".json";
    ReplaceJsonSuffix("NTJewellerySA");
  }

  lemma ToysSAName()
    ensures CategoryName("ToysSA.json") == "ToysSA"
  {
    assert "ToysSA.json" == "ToysSA" + ".json";
    ReplaceJsonSuffix("ToysSA");
  }

  function CategoryNames(files: seq<string>): (r: seq<string>)
    ensures |r| == |files|
    ensures forall i :: 0 <= i < |files| ==> r[i] == CategoryName(files[i])
  {
    seq(|files|, i requires 0 <= i < |files| => CategoryName(files[i]))
  }

  /** The category names of the "DRBlurbs" folder; they are distinct. */
  lemma DRNames()
    ensures CategoryNames(FilesOf("DRBlurbs").value) == ["JewelleryDR", "ToysDR"]
    ensures DistinctNames(FilesOf("DRBlurbs").value)
  {
    JewelleryDRName();
    ToysDRName();
  }

  /** The category names of the "SABlurbs" folder; they are distinct. */
  lemma SANames()
    ensures CategoryNames(FilesOf("SABlurbs").value) == ["JewellerySA", "NTJewellerySA", "ToysSA"]
    ensures DistinctNames(FilesOf("SABlurbs").value)
  {
    SANameList();
    SADistinct();
  }

  lemma SANameList()
    ensures CategoryNames(FilesOf("SABlurbs").value) == ["JewellerySA", "NTJewellerySA", "ToysSA"]
  {
    NamesOfThree("JewellerySA.json", "NTJewellerySA.json", "ToysSA.json");
    JewellerySAName();
    NTJewellerySAName();
    ToysSAName();
  }

  lemma NamesOfThree(a: string, b: string, c: string)
    ensures CategoryNames([a, b, c]) == [CategoryName(a), CategoryName(b), CategoryName(c)]
  {
  }

  lemma SADistinct()
    ensures Distinct(["JewellerySA", "NTJewellerySA", "ToysSA"])
  {
  }

  /**
   * For every folder, the keys of what `loadBlurbs` resolves to are exactly the
   * names of its files that load, ".json" removed, in file order; a folder
   * outside the table gives the empty object.
   */
  lemma LoadResultKeys(folder: string, fetch: Fetcher)
    ensures FilesOf(folder).None? ==> LoadResult(folder, fetch).keys == []
    ensures FilesOf(folder).Some? ==>
      LoadResult(folder, fetch).keys == Succeeded(folder, FilesOf(folder).value, fetch)
  {
    if folder == "DRBlurbs" {
      DRNames();
    } else if folder == "SABlurbs" {
      SANames();
    }
    if FilesOf(folder).Some? {
      AssembledContents(folder, FilesOf(folder).value, fetch);
    }
  }
}
