/**
 * The job-file panel: the loaded file's name, path, size and bounds, the
 * selected history entry, the view mode of the information card, and the
 * history of recently loaded files, unique by path and capped at ten.
 */
module FileLoad {
  import opened Wrappers
  import Search
  import opened FileInformation
  import opened FileCommand

  /** A history entry. */
  datatype RecentFile = RecentFile(name: string, path: string)

  /** How many entries the history keeps. */
  const HistoryCapacity: nat := 10

  /** The job every load produces: loading always shows this one fixed file. */
  const FixtureName := "V4 Gold Maples14.gcode"
  const FixturePath := "E:\\Downloads\\CnC Projects\\Gold Coin Box\\V4 Gold Maples 14.gcode"
  const FixtureSize := "14 KB (852 lines)"
  const FixtureBounds := FileBounds(
    AxisBounds(61.12, 0.0, 61.12),
    AxisBounds(128.28, 0.0, 128.28),
    AxisBounds(38.0, -36.0, 2.0))

  // ---------------------------------------------------------------------------
  // The history
  // ---------------------------------------------------------------------------

  /** The search predicate of the history: the entry has this path. */
  function PathIs(path: string): RecentFile -> bool
  {
    (f: RecentFile) => f.path == path
  }

  /** `list.some(f => f.path === path)`. */
  predicate HasPath(list: seq<RecentFile>, path: string)
  {
    Search.Any(list, PathIs(path))
  }

  /** No two entries share a path. */
  predicate UniquePaths(list: seq<RecentFile>)
  {
    forall i, j :: 0 <= i < j < |list| ==> list[i].path != list[j].path
  }

  /** `s.slice(-n)` for a positive `n`: the last `n` elements, or all of them when there are fewer. */
  function LastN<T>(s: seq<T>, n: nat): (r: seq<T>)
    requires n > 0
    ensures |r| == if |s| <= n then |s| else n
    ensures r == s[|s| - |r|..]
  {
    if |s| <= n then s else s[|s| - n..]
  }

  /** Keeping the last `n`, then appending and keeping the last `n` again, is appending first. */
  lemma LastNAppend<T>(s: seq<T>, e: T, n: nat)
    requires n > 0
    ensures LastN(LastN(s, n) + [e], n) == LastN(s + [e], n)
  {
    if |s| > n {
      assert (s[|s| - n..] + [e])[1..] == (s + [e])[|s| + 1 - n..];
    }
  }

  /**
   * The history after loading `path`: a path already present leaves the list
   * exactly as it was; a new one is appended and the oldest entries beyond
   * the capacity are dropped. Either way the path is then present, and a
   * unique, bounded history stays unique and bounded.
   */
  function AddRecent(list: seq<RecentFile>, name: string, path: string): (r: seq<RecentFile>)
    ensures HasPath(r, path)
    ensures |list| <= HistoryCapacity ==> |r| <= HistoryCapacity
  {
    if HasPath(list, path) then list
    else
      var appended := list + [RecentFile(name, path)];
      var r := LastN(appended, HistoryCapacity);
      assert r[|r| - 1] == RecentFile(name, path);
      r
  }

  /** A history unique by path stays unique when a file is loaded. */
  lemma AddRecentKeepsUnique(list: seq<RecentFile>, name: string, path: string)
    requires UniquePaths(list)
    ensures UniquePaths(AddRecent(list, name, path))
  {
    if !HasPath(list, path) {
      var appended := list + [RecentFile(name, path)];
      forall i, j | 0 <= i < j < |appended|
        ensures appended[i].path != appended[j].path
      {
        if j == |list| {
          assert appended[i] in list;
        }
      }
      var r := LastN(appended, HistoryCapacity);
      assert r == appended[|appended| - |r|..];
    }
  }

  /** A path already in the history changes nothing: no duplicate, no reordering. */
  lemma AddRecentKnownPath(list: seq<RecentFile>, name: string, path: string)
    requires HasPath(list, path)
    ensures AddRecent(list, name, path) == list
  {
  }

  /** A new path is appended and the result cut to the capacity. */
  lemma AddRecentAppends(list: seq<RecentFile>, f: RecentFile)
    requires !HasPath(list, f.path)
    ensures AddRecent(list, f.name, f.path) == LastN(list + [f], HistoryCapacity)
  {
  }

  /**
   * A new path goes last, and the entries kept before it are the newest of the
   * old list, in their old order: the oldest are evicted first.
   */
  lemma AddRecentNewPath(list: seq<RecentFile>, name: string, path: string)
    requires !HasPath(list, path)
    ensures var r := AddRecent(list, name, path);
      && |r| == (if |list| < HistoryCapacity then |list| + 1 else HistoryCapacity)
      && r[|r| - 1] == RecentFile(name, path)
      && r[..|r| - 1] == list[|list| + 1 - |r|..]
  {
    var r := AddRecent(list, name, path);
    var appended := list + [RecentFile(name, path)];
    AddRecentAppends(list, RecentFile(name, path));
    assert r == appended[|appended| - |r|..];
    assert r[..|r| - 1] == appended[|appended| - |r|..|appended| - 1];
  }

  /** Loading the same path twice in a row is loading it once. */
  lemma AddRecentIdempotent(list: seq<RecentFile>, name: string, path: string)
    ensures AddRecent(AddRecent(list, name, path), name, path) == AddRecent(list, name, path)
  {
  }

  /** The history produced by loading the given files, one after another, from an empty history. */
  function History(loads: seq<RecentFile>): seq<RecentFile>
  {
    if loads == [] then []
    else
      var last := loads[|loads| - 1];
      AddRecent(History(loads[..|loads| - 1]), last.name, last.path)
  }

  /** Dropping the last entry keeps paths unique. */
  lemma UniquePathsPrefix(list: seq<RecentFile>)
    requires UniquePaths(list) && list != []
    ensures UniquePaths(list[..|list| - 1])
  {
  }

  /** With distinct paths, the last load's path is not among the newest entries before it. */
  lemma LastPathIsNew(loads: seq<RecentFile>)
    requires UniquePaths(loads) && loads != []
    ensures !HasPath(LastN(loads[..|loads| - 1], HistoryCapacity), loads[|loads| - 1].path)
  {
  }

  /** Loading files with distinct paths leaves the last ten of them, in load order. */
  lemma {:induction false} DistinctLoadsKeepNewest(loads: seq<RecentFile>)
    requires UniquePaths(loads)
    ensures History(loads) == LastN(loads, HistoryCapacity)
  {
    if loads != [] {
      var init := loads[..|loads| - 1];
      var last := loads[|loads| - 1];
      UniquePathsPrefix(loads);
      DistinctLoadsKeepNewest(init);
      var kept := LastN(init, HistoryCapacity);
      assert History(loads) == AddRecent(kept, last.name, last.path);
      LastPathIsNew(loads);
      AddRecentAppends(kept, last);
      LastNAppend(init, last, HistoryCapacity);
      assert init + [last] == loads;
    }
  }

  /** Eleven files with distinct paths: ten remain, and the first one loaded is the one evicted. */
  lemma ElevenDistinctLoads(loads: seq<RecentFile>)
    requires |loads| == 11 && UniquePaths(loads)
    ensures History(loads) == loads[1..]
  {
    DistinctLoadsKeepNewest(loads);
  }

  // ---------------------------------------------------------------------------
  // The component
  // ---------------------------------------------------------------------------

  /** The job-file panel. */
  class FileLoad {
    var previousFiles: seq<RecentFile>
    var selectedPath: string
    var fileName: string
    var filePath: string
    var fileSizeLines: string
    var bounds: Option<FileBounds>
    var viewMode: FileInfoView

    /** The history is unique by path and within capacity. */
    ghost predicate Valid()
      reads this
    {
      UniquePaths(previousFiles) && |previousFiles| <= HistoryCapacity
    }

    /** No file is shown and no history entry is selected. */
    predicate ShowsNothing()
      reads this
    {
      fileName == "" && filePath == "" && fileSizeLines == "" && bounds == None && selectedPath == ""
    }

    /** The fixture file is shown and its path is the selected history entry. */
    predicate ShowsFixture()
      reads this
    {
      fileName == FixtureName && filePath == FixturePath && fileSizeLines == FixtureSize &&
      bounds == Some(FixtureBounds) && selectedPath == FixturePath
    }

    constructor ()
      ensures Valid() && ShowsNothing()
      ensures previousFiles == [] && viewMode == DefaultView
    {
      previousFiles := [];
      selectedPath, fileName, filePath, fileSizeLines := "", "", "", "";
      bounds := None;
      viewMode := DefaultView;
    }

    /** `setMockFile`: show the fixture, select its path, and record it in the history. */
    method SetMockFile()
      requires Valid()
      modifies this
      ensures Valid() && ShowsFixture()
      ensures previousFiles == AddRecent(old(previousFiles), FixtureName, FixturePath)
      ensures viewMode == old(viewMode)
    {
      fileName := FixtureName;
      filePath := FixturePath;
      fileSizeLines := FixtureSize;
      bounds := Some(FixtureBounds);
      var path := filePath;
      var name := fileName;
      selectedPath := path;
      var list := previousFiles;
      if !HasPath(list, path) {
        previousFiles := LastN(list + [RecentFile(name, path)], HistoryCapacity);
      }
      AddRecentKeepsUnique(list, name, path);
    }

    /**
     * `onFileCommand`: load shows the fixture; reload does so only when a file
     * is shown; clear empties the panel but keeps the history; picking a
     * previous file is not handled here and changes nothing.
     */
    method OnFileCommand(action: FileCommandAction)
      requires Valid()
      modifies this
      ensures Valid() && viewMode == old(viewMode)
      ensures action == Load || (action == Reload && old(fileName) != "") ==>
        ShowsFixture() && previousFiles == AddRecent(old(previousFiles), FixtureName, FixturePath)
      ensures action == Clear ==> ShowsNothing() && previousFiles == old(previousFiles)
      ensures action == SelectPrevious || (action == Reload && old(fileName) == "") ==> unchanged(this)
    {
      if action == Load {
        SetMockFile();
      } else if action == Clear {
        fileName := "";
        filePath := "";
        fileSizeLines := "";
        bounds := None;
        selectedPath := "";
      } else if action == Reload && fileName != "" {
        SetMockFile();
      }
    }

    /**
     * `onPreviousSelected`: the picked path is selected, then the fixture is
     * loaded, which overwrites the selection with the fixture's path.
     */
    method OnPreviousSelected(path: string)
      requires Valid()
      modifies this
      ensures Valid() && ShowsFixture() && selectedPath == FixturePath
      ensures previousFiles == AddRecent(old(previousFiles), FixtureName, FixturePath)
      ensures viewMode == old(viewMode)
    {
      selectedPath := path;
      SetMockFile();
    }

    /**
     * The history picker wired to this panel: the placeholder changes nothing,
     * any other value is handled as a pick of that path.
     */
    method OnHistoryPick(value: string)
      requires Valid()
      modifies this
      ensures Valid() && viewMode == old(viewMode)
      ensures value == "" ==> unchanged(this)
      ensures value != "" ==> ShowsFixture() && previousFiles == AddRecent(old(previousFiles), FixtureName, FixturePath)
    {
      var emitted := OnPreviousSelect(value);
      if emitted.Some? {
        OnPreviousSelected(emitted.value);
      }
    }

    /** The information card wired to this panel: its emitted view becomes the view mode. */
    method OnToggleView()
      modifies this
      ensures viewMode == ToggleView(old(viewMode)) && viewMode != old(viewMode)
      ensures previousFiles == old(previousFiles) && selectedPath == old(selectedPath)
      ensures fileName == old(fileName) && filePath == old(filePath)
      ensures fileSizeLines == old(fileSizeLines) && bounds == old(bounds)
    {
      var next := ToggleView(viewMode);
      viewMode := next;
    }
  }
}
