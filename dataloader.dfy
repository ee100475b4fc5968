/** Loading the project records and shaping them for the vector store (utils/data_loader.py). */
module DataLoader {
  import opened Wrappers
  import opened Text
  import opened Json

  // ---------------------------------------------------------------------------------------------
  // format_data_for_vector_store

  /** `f"proj-{i+1:04d}"`, the id given to the `i`-th (0-based) project when it has none. */
  function GeneratedId(i: nat): string {
    "proj-" + ZeroPad(NatToString(i + 1), 4)
  }

  /** A generated id is "proj-" and at least four digits that read back as the 1-based position. */
  lemma GeneratedIdDecodes(i: nat)
    ensures var id := GeneratedId(i);
      && |id| >= 9 && id[..5] == "proj-"
      && AllDigits(id[5..]) && ParseNat(id[5..]) == i + 1
  {
    var s := NatToString(i + 1);
    var id := GeneratedId(i);
    assert id[5..] == ZeroPad(s, 4);
    ParseNatToString(i + 1);
    if |s| < 4 {
      ParseNatLeadingZeros(4 - |s|, s);
    }
  }

  /** Different positions never get the same generated id. */
  lemma GeneratedIdsDistinct(i: nat, j: nat)
    requires i != j
    ensures GeneratedId(i) != GeneratedId(j)
  {
    GeneratedIdDecodes(i);
    GeneratedIdDecodes(j);
  }

  /** `"{project_type} renovation with {square_feet} square feet using {material_grade} materials"`,
      a missing key reading as "renovation", 200 and "standard". */
  function BaseText(p: Dict): string {
    Display(Get(p, "project_type", Str("renovation"))) + " renovation with "
    + Display(Get(p, "square_feet", Int(200))) + " square feet using "
    + Display(Get(p, "material_grade", Str("standard"))) + " materials"
  }

  /** The description text: the base text, then `" in {zip_code}"` exactly when the project has a
      "zip_code" key. */
  function Description(p: Dict): (text: string)
    ensures |BaseText(p)| <= |text| && text[..|BaseText(p)|] == BaseText(p)
    ensures text == BaseText(p) <==> "zip_code" !in p
    ensures "zip_code" in p ==> text == BaseText(p) + " in " + Display(p["zip_code"])
  {
    if "zip_code" in p then BaseText(p) + " in " + Display(p["zip_code"]) else BaseText(p)
  }

  /** A project with none of the keys is described by the defaults. */
  lemma DescriptionDefaults()
    ensures Description(map[]) == "renovation" + " renovation with " + "200" + " square feet using " + "standard" + " materials"
  {
    var p: Dict := map[];
    assert Get(p, "project_type", Str("renovation")) == Str("renovation");
    assert Get(p, "square_feet", Int(200)) == Int(200);
    assert Get(p, "material_grade", Str("standard")) == Str("standard");
    assert Display(Int(200)) == "200" by {
      assert NatToString(2) == "2";
      assert NatToString(20) == "20";
      assert NatToString(200) == "200";
    }
    assert Display(Str("renovation")) == "renovation";
    assert Display(Str("standard")) == "standard";
    assert BaseText(p) == "renovation" + " renovation with " + "200" + " square feet using " + "standard" + " materials";
  }

  /** Already in vector-store shape: the dict has both an "id" and a "metadata" entry. */
  predicate IsFormatted(p: Dict) {
    "id" in p && "metadata" in p
  }

  /** The vector-store record made from the `i`-th (0-based) raw project: a formatted one passes
      through unchanged; any other gets its own or a generated id, the description, and itself as
      the metadata. */
  function FormatEntry(i: nat, p: Dict): (r: Dict)
    ensures IsFormatted(r)
    ensures IsFormatted(p) ==> r == p
    ensures !IsFormatted(p) ==>
      && r.Keys == {"id", "text", "metadata"}
      && r["id"] == (if "id" in p then p["id"] else Str(GeneratedId(i)))
      && r["text"] == Str(Description(p))
      && r["metadata"] == Obj(p)
  {
    if IsFormatted(p) then p
    else map["id" := Get(p, "id", Str(GeneratedId(i))), "text" := Str(Description(p)), "metadata" := Obj(p)]
  }

  /** Every raw project formatted, one output per input, in order. */
  function FormatAll(rawData: seq<Dict>): (formatted: seq<Dict>)
    ensures |formatted| == |rawData|
  {
    seq(|rawData|, i requires 0 <= i < |rawData| => FormatEntry(i, rawData[i]))
  }

  /** `format_data_for_vector_store`. */
  method FormatDataForVectorStore(rawData: seq<Dict>) returns (formatted: seq<Dict>)
    ensures |formatted| == |rawData|
    ensures forall i :: 0 <= i < |rawData| ==> formatted[i] == FormatEntry(i, rawData[i])
  {
    formatted := [];
    var i := 0;
    while i < |rawData|
      invariant 0 <= i <= |rawData|
      invariant |formatted| == i
      invariant forall j :: 0 <= j < i ==> formatted[j] == FormatEntry(j, rawData[j])
    {
      var project := rawData[i];
      if "id" in project && "metadata" in project {
        formatted := formatted + [project];
        i := i + 1;
        continue;
      }
      var projectId := Get(project, "id", Str(GeneratedId(i)));
      var projectType := Get(project, "project_type", Str("renovation"));
      var squareFeet := Get(project, "square_feet", Int(200));
      var materialGrade := Get(project, "material_grade", Str("standard"));
      var text := Display(projectType) + " renovation with " + Display(squareFeet) + " square feet using "
                  + Display(materialGrade) + " materials";
      if "zip_code" in project {
        text := text + " in " + Display(project["zip_code"]);
      }
      formatted := formatted + [map["id" := projectId, "text" := Str(text), "metadata" := Obj(project)]];
      i := i + 1;
    }
  }

  /** Formatting is idempotent: formatted output passes through a second formatting unchanged. */
  lemma FormatAllIdempotent(rawData: seq<Dict>)
    ensures FormatAll(FormatAll(rawData)) == FormatAll(rawData)
  {
    var once := FormatAll(rawData);
    var twice := FormatAll(once);
    forall i | 0 <= i < |rawData|
      ensures twice[i] == once[i]
    {
      assert IsFormatted(once[i]);
    }
  }

  /** Two projects without an "id" never end up with the same id. */
  lemma FormatAllIdsDistinct(rawData: seq<Dict>, i: nat, j: nat)
    requires i < |rawData| && j < |rawData| && i != j
    requires !("id" in rawData[i]) && !("id" in rawData[j])
    ensures FormatAll(rawData)[i]["id"] != FormatAll(rawData)[j]["id"]
  {
    GeneratedIdsDistinct(i, j);
  }

  // ---------------------------------------------------------------------------------------------
  // load_project_data

  /** What opening and parsing a path gives: a list of project dicts, or a failure (the path does not
      exist, the file cannot be read or parsed, or it holds JSON `null`, whose `len` raises). */
  datatype FileState = Loads(data: seq<Dict>) | Fails

  /** The file system, as the state of every existing path. */
  type Files = map<string, FileState>

  const DefaultPaths: seq<string> := [
    "data/synthetic/renovation_projects.json",
    "data/synthetic/sample_projects.json",
    "data/synthetic/projects.json"
  ]

  predicate Truthy(dataFile: Option<string>) {
    dataFile.Some? && dataFile.value != ""
  }

  /** The paths tried, in order: a truthy `data_file` first, then the three defaults. */
  function CandidatePaths(dataFile: Option<string>): (paths: seq<string>)
    ensures Truthy(dataFile) ==> paths == [dataFile.value] + DefaultPaths
    ensures !Truthy(dataFile) ==> paths == DefaultPaths
  {
    if Truthy(dataFile) then [dataFile.value] + DefaultPaths else DefaultPaths
  }

  predicate LoadsAt(files: Files, path: string) {
    path in files && files[path].Loads?
  }

  /** The data of the first path that loads, if any. */
  function FirstLoaded(paths: seq<string>, files: Files): Option<seq<Dict>> {
    if paths == [] then None
    else if LoadsAt(files, paths[0]) then Some(files[paths[0]].data)
    else FirstLoaded(paths[1..], files)
  }

  /** `FirstLoaded` finds nothing exactly when no path loads, and otherwise the data of a path that
      loads with none before it loading. */
  lemma {:induction false} FirstLoadedSpec(paths: seq<string>, files: Files)
    ensures var r := FirstLoaded(paths, files);
      && (r.None? <==> forall i :: 0 <= i < |paths| ==> !LoadsAt(files, paths[i]))
      && (r.Some? ==>
            exists i :: 0 <= i < |paths| && LoadsAt(files, paths[i]) && files[paths[i]].data == r.value
                        && forall j :: 0 <= j < i ==> !LoadsAt(files, paths[j]))
  {
    if paths != [] && !LoadsAt(files, paths[0]) {
      FirstLoadedSpec(paths[1..], files);
      assert forall i :: 1 <= i < |paths| ==> paths[i] == paths[1..][i - 1];
      var r := FirstLoaded(paths, files);
      if r.Some? {
        var i :| 0 <= i < |paths[1..]| && LoadsAt(files, paths[1..][i]) && files[paths[1..][i]].data == r.value
                 && forall j :: 0 <= j < i ==> !LoadsAt(files, paths[1..][j]);
        assert LoadsAt(files, paths[i + 1]) && files[paths[i + 1]].data == r.value;
      }
    } else if paths != [] {
      assert LoadsAt(files, paths[0]);
    }
  }

  /** What `load_project_data` returns. `synthetic` is what `generate_synthetic_data(count)` would
      return, or None when importing it fails. */
  function LoadResult(dataFile: Option<string>, fallbackToSynthetic: bool, returnFormatted: bool,
                      files: Files, synthetic: Option<seq<Dict>>): seq<Dict>
  {
    var loaded := FirstLoaded(CandidatePaths(dataFile), files);
    if loaded.None? && fallbackToSynthetic && synthetic.None? then []
    else
      var rawData := if loaded.None? && fallbackToSynthetic then synthetic else loaded;
      if rawData.None? || rawData.value == [] then []
      else if returnFormatted then FormatAll(rawData.value)
      else rawData.value
  }

  /** `load_project_data`. */
  method LoadProjectData(dataFile: Option<string>, fallbackToSynthetic: bool, returnFormatted: bool,
                         files: Files, synthetic: Option<seq<Dict>>) returns (r: seq<Dict>)
    ensures r == LoadResult(dataFile, fallbackToSynthetic, returnFormatted, files, synthetic)
  {
    var possibleFiles := DefaultPaths;
    if dataFile.Some? && dataFile.value != "" {
      possibleFiles := [dataFile.value] + possibleFiles;
    }
    var rawData := FindFirstLoaded(possibleFiles, files);
    if rawData.None? && fallbackToSynthetic {
      if synthetic.None? {
        return [];
      }
      rawData := synthetic;
    }
    if rawData.None? || rawData.value == [] {
      return [];
    }
    if returnFormatted {
      r := FormatDataForVectorStore(rawData.value);
      assert r == FormatAll(rawData.value);
      return;
    }
    return rawData.value;
  }

  /** The `for file_path in possible_files` loop: the first path that exists and loads wins. */
  method FindFirstLoaded(possibleFiles: seq<string>, files: Files) returns (rawData: Option<seq<Dict>>)
    ensures rawData == FirstLoaded(possibleFiles, files)
  {
    rawData := None;
    var i := 0;
    while i < |possibleFiles|
      invariant 0 <= i <= |possibleFiles|
      invariant FirstLoaded(possibleFiles, files) == FirstLoaded(possibleFiles[i..], files)
    {
      var filePath := possibleFiles[i];
      if filePath in files && files[filePath].Loads? {
        assert possibleFiles[i..][0] == filePath;
        rawData := Some(files[filePath].data);
        return;
      }
      assert possibleFiles[i..][1..] == possibleFiles[i + 1..];
      i := i + 1;
    }
  }

  /** A truthy `data_file` that loads wins over the default paths. */
  lemma ExplicitFileWins(dataFile: string, fallbackToSynthetic: bool, returnFormatted: bool,
                         files: Files, synthetic: Option<seq<Dict>>)
    requires dataFile != "" && LoadsAt(files, dataFile) && files[dataFile].data != []
    ensures var d := files[dataFile].data;
      LoadResult(Some(dataFile), fallbackToSynthetic, returnFormatted, files, synthetic)
        == if returnFormatted then FormatAll(d) else d
  {
  }

  /** Without a `data_file`, the first default path that loads wins. */
  lemma FirstDefaultWins(k: nat, fallbackToSynthetic: bool, files: Files, synthetic: Option<seq<Dict>>)
    requires k < |DefaultPaths| && LoadsAt(files, DefaultPaths[k])
    requires forall j :: 0 <= j < k ==> !LoadsAt(files, DefaultPaths[j])
    ensures LoadResult(None, fallbackToSynthetic, false, files, synthetic) == files[DefaultPaths[k]].data
  {
    var loaded := FirstLoaded(DefaultPaths, files);
    FirstLoadedSpec(DefaultPaths, files);
    assert loaded.Some?;
    var i :| 0 <= i < |DefaultPaths| && LoadsAt(files, DefaultPaths[i]) && files[DefaultPaths[i]].data == loaded.value
             && forall j :: 0 <= j < i ==> !LoadsAt(files, DefaultPaths[j]);
    assert i == k;
  }

  /** A file that loads an empty list stops the search and returns `[]`, without falling back to
      synthetic data. */
  lemma EmptyFileGivesEmpty(dataFile: string, fallbackToSynthetic: bool, returnFormatted: bool,
                            files: Files, synthetic: Option<seq<Dict>>)
    requires dataFile != "" && dataFile in files && files[dataFile] == Loads([])
    ensures LoadResult(Some(dataFile), fallbackToSynthetic, returnFormatted, files, synthetic) == []
  {
  }

  /** With no file loading and no fallback, or a generator that cannot be imported, the result is `[]`. */
  lemma NothingLoadedGivesEmpty(dataFile: Option<string>, fallbackToSynthetic: bool, returnFormatted: bool,
                                files: Files, synthetic: Option<seq<Dict>>)
    requires forall path :: path in CandidatePaths(dataFile) ==> !LoadsAt(files, path)
    requires !fallbackToSynthetic || synthetic.None? || synthetic == Some([])
    ensures LoadResult(dataFile, fallbackToSynthetic, returnFormatted, files, synthetic) == []
  {
    var paths := CandidatePaths(dataFile);
    assert forall i :: 0 <= i < |paths| ==> paths[i] in paths;
    FirstLoadedSpec(paths, files);
  }

  /** Formatted output has one record per loaded project, in order: the `i`-th is the `i`-th project
      that `return_formatted=False` would return, formatted, with an id and metadata. */
  lemma LoadedFormatted(dataFile: Option<string>, fallbackToSynthetic: bool, files: Files,
                        synthetic: Option<seq<Dict>>)
    ensures var raw := LoadResult(dataFile, fallbackToSynthetic, false, files, synthetic);
      var r := LoadResult(dataFile, fallbackToSynthetic, true, files, synthetic);
      && |r| == |raw|
      && forall i :: 0 <= i < |r| ==> r[i] == FormatEntry(i, raw[i]) && IsFormatted(r[i])
  {
  }
}
