/**
 * Per-workspace persistence of the selected scheme and the custom schemes
 * (src/storage/projectStorage.ts). The JSON file `.vscode/colorspace.json`
 * is modelled as an abstract document; the open workspace as a flag.
 */
module Storage {
  import opened Wrappers
  import opened Colors

  /** What `readConfig` hands back: `customColors` is always present. */
  datatype ColorSpaceConfig = ColorSpaceConfig(currentColor: Option<WorkspaceColorScheme>, customColors: seq<WorkspaceColorScheme>)

  /**
   * The configuration file as found on disk: missing; present but read as
   * the empty configuration (unreadable, not JSON, or `null` or a primitive
   * value); or a parsed object whose `currentColor` and `customColors`
   * properties may each be missing. Objects of any other shape are not
   * represented.
   */
  datatype Document =
    | Absent
    | Corrupt
    | Stored(currentColor: Option<WorkspaceColorScheme>, customColors: Option<seq<WorkspaceColorScheme>>)

  /**
   * The errors the store throws: `NoWorkspace` ("No workspace folder is open")
   * and `InvalidIndex` ("Invalid custom color index").
   */
  datatype StorageError = NoWorkspace | InvalidIndex

  /** Completion of a store operation: normal return, or the error it throws. */
  datatype Status = Ok | Fail(error: StorageError)

  const EmptyConfig := ColorSpaceConfig(None, [])

  /** What `readConfig` returns, given whether a workspace is open and the document. */
  function Load(workspaceOpen: bool, doc: Document): ColorSpaceConfig {
    if workspaceOpen && doc.Stored? then ColorSpaceConfig(doc.currentColor, doc.customColors.GetOr([]))
    else EmptyConfig
  }

  /** The document `writeConfig` leaves behind. */
  function Encode(c: ColorSpaceConfig): Document {
    Stored(c.currentColor, Some(c.customColors))
  }

  /** Reading back what was written gives the written configuration. */
  lemma LoadEncode(c: ColorSpaceConfig)
    ensures Load(true, Encode(c)) == c
  {
  }

  /**
   * Writing back what was read reproduces the file exactly when the file is a
   * parsed object with a `customColors` list; any other file is replaced.
   */
  lemma EncodeLoad(doc: Document)
    ensures Encode(Load(true, doc)) == doc <==> doc.Stored? && doc.customColors.Some?
  {
    if doc.Stored? && doc.customColors.Some? {
      assert Load(true, doc) == ColorSpaceConfig(doc.currentColor, doc.customColors.value);
    }
  }

  /** `splice(index, 1)`: element `index` goes, later elements move down by one. */
  function RemoveAt<T>(s: seq<T>, index: nat): (r: seq<T>)
    requires index < |s|
    ensures |r| == |s| - 1
    ensures forall j :: 0 <= j < index ==> r[j] == s[j]
    ensures forall j :: index <= j < |r| ==> r[j] == s[j + 1]
  {
    s[..index] + s[index + 1..]
  }

  /** Removing the element just appended gives back the old list. */
  lemma RemoveAppended<T>(s: seq<T>, x: T)
    ensures RemoveAt(s + [x], |s|) == s
  {
    assert (s + [x])[..|s|] == s;
  }

  /** Deleting from [a, b, c] at 0 and then at 1 leaves [b]. */
  lemma DeleteRenumbers<T>(a: T, b: T, c: T)
    ensures RemoveAt([a, b, c], 0) == [b, c]
    ensures RemoveAt(RemoveAt([a, b, c], 0), 1) == [b]
  {
  }

  /** The document after `reset`: deleted when a workspace is open, untouched otherwise. */
  function AfterReset(workspaceOpen: bool, doc: Document): Document {
    if workspaceOpen then Absent else doc
  }

  /** After a reset the store reads as empty and holds no file; a second reset changes nothing. */
  lemma ResetEmptiesAndIsIdempotent(workspaceOpen: bool, doc: Document)
    ensures Load(workspaceOpen, AfterReset(workspaceOpen, doc)) == EmptyConfig
    ensures !(workspaceOpen && !AfterReset(workspaceOpen, doc).Absent?)
    ensures AfterReset(workspaceOpen, AfterReset(workspaceOpen, doc)) == AfterReset(workspaceOpen, doc)
  {
  }

  class ProjectStorage {
    /** Whether the host has a first workspace folder (what `configPath` is derived from). */
    var workspaceOpen: bool
    /** The file `.vscode/colorspace.json` of that folder. */
    var doc: Document

    constructor(workspaceOpen: bool, doc: Document)
      ensures this.workspaceOpen == workspaceOpen && this.doc == doc
    {
      this.workspaceOpen := workspaceOpen;
      this.doc := doc;
    }

    /** The configuration as `readConfig` currently sees it. */
    function Loaded(): ColorSpaceConfig
      reads this
    {
      Load(workspaceOpen, doc)
    }

    /** Never fails: no workspace, a missing or a corrupt file all read as the empty configuration. */
    method ReadConfig() returns (config: ColorSpaceConfig)
      ensures !workspaceOpen || !doc.Stored? ==> config == EmptyConfig
      ensures workspaceOpen && doc.Stored? ==>
        config.currentColor == doc.currentColor && config.customColors == doc.customColors.GetOr([])
    {
      if !workspaceOpen {
        return EmptyConfig;
      }
      match doc
      case Absent =>
        config := EmptyConfig;
      case Corrupt =>
        config := EmptyConfig;
      case Stored(current, custom) =>
        var customColors := if custom.None? then [] else custom.value;
        config := ColorSpaceConfig(current, customColors);
    }

    method WriteConfig(config: ColorSpaceConfig) returns (r: Status)
      modifies this`doc
      ensures r == (if workspaceOpen then Ok else Fail(NoWorkspace))
      ensures r.Ok? ==> doc == Encode(config) && Loaded() == config
      ensures r.Fail? ==> doc == old(doc)
    {
      if !workspaceOpen {
        return Fail(NoWorkspace);
      }
      doc := Encode(config);
      r := Ok;
      LoadEncode(config);
    }

    method GetCurrentColor() returns (color: Option<WorkspaceColorScheme>)
      ensures color.Some? ==> workspaceOpen && doc.Stored? && doc.currentColor == color
      ensures workspaceOpen && doc.Stored? ==> color == doc.currentColor
    {
      var config := ReadConfig();
      color := config.currentColor;
    }

    method SetCurrentColor(color: WorkspaceColorScheme) returns (r: Status)
      modifies this`doc
      ensures r == (if workspaceOpen then Ok else Fail(NoWorkspace))
      ensures r.Ok? ==> doc == Encode(old(Loaded()).(currentColor := Some(color)))
      ensures r.Ok? ==> Loaded().currentColor == Some(color) && Loaded().customColors == old(Loaded()).customColors
      ensures r.Fail? ==> doc == old(doc)
    {
      var config := ReadConfig();
      config := config.(currentColor := Some(color));
      r := WriteConfig(config);
    }

    method GetCustomColors() returns (colors: seq<WorkspaceColorScheme>)
      ensures |colors| > 0 ==> workspaceOpen && doc.Stored? && doc.customColors == Some(colors)
      ensures workspaceOpen && doc.Stored? ==> colors == doc.customColors.GetOr([])
    {
      var config := ReadConfig();
      colors := config.customColors;
    }

    method AddCustomColor(color: WorkspaceColorScheme) returns (r: Status)
      modifies this`doc
      ensures r == (if workspaceOpen then Ok else Fail(NoWorkspace))
      ensures r.Ok? ==> doc == Encode(old(Loaded()).(customColors := old(Loaded()).customColors + [color]))
      ensures r.Ok? ==> Loaded().customColors == old(Loaded()).customColors + [color]
      ensures r.Ok? ==> Loaded().currentColor == old(Loaded()).currentColor
      ensures r.Fail? ==> doc == old(doc)
    {
      var config := ReadConfig();
      config := config.(customColors := config.customColors + [color]);
      r := WriteConfig(config);
    }

    method UpdateCustomColor(index: int, color: WorkspaceColorScheme) returns (r: Status)
      modifies this`doc
      ensures r == (if 0 <= index < |old(Loaded()).customColors| then Ok else Fail(InvalidIndex))
      ensures r.Ok? ==> doc == Encode(old(Loaded()).(customColors := old(Loaded()).customColors[index := color]))
      ensures r.Ok? ==> Loaded().currentColor == old(Loaded()).currentColor
      ensures r.Ok? ==> |Loaded().customColors| == |old(Loaded()).customColors|
      ensures r.Ok? ==> Loaded().customColors[index] == color
      ensures r.Ok? ==> forall j :: 0 <= j < |Loaded().customColors| && j != index ==>
        Loaded().customColors[j] == old(Loaded()).customColors[j]
      ensures r.Fail? ==> doc == old(doc)
    {
      var config := ReadConfig();
      if index < 0 || index >= |config.customColors| {
        return Fail(InvalidIndex);
      }
      config := config.(customColors := config.customColors[index := color]);
      r := WriteConfig(config);
    }

    method DeleteCustomColor(index: int) returns (r: Status)
      modifies this`doc
      ensures r == (if 0 <= index < |old(Loaded()).customColors| then Ok else Fail(InvalidIndex))
      ensures r.Ok? ==> doc == Encode(old(Loaded()).(customColors := RemoveAt(old(Loaded()).customColors, index)))
      ensures r.Ok? ==> Loaded().currentColor == old(Loaded()).currentColor
      ensures r.Ok? ==> Loaded().customColors == RemoveAt(old(Loaded()).customColors, index)
      ensures r.Fail? ==> doc == old(doc)
    {
      var config := ReadConfig();
      if index < 0 || index >= |config.customColors| {
        return Fail(InvalidIndex);
      }
      config := config.(customColors := config.customColors[..index] + config.customColors[index + 1..]);
      r := WriteConfig(config);
    }

    /** Deletes the file; silently does nothing without a workspace or a file. */
    method Reset()
      modifies this`doc
      ensures doc == AfterReset(workspaceOpen, old(doc))
    {
      if !workspaceOpen {
        return;
      }
      doc := Absent;
    }

    /** Whether the file exists; a corrupt file exists too. */
    method HasConfig() returns (b: bool)
      ensures b <==> workspaceOpen && !doc.Absent?
    {
      if !workspaceOpen {
        return false;
      }
      b := !doc.Absent?;
    }
  }


  /** Deleting from [a, b, c] at 0 and then at 1 leaves [b]; updating position 5 then fails and changes nothing. */
  method DeleteThenUpdateScenario(a: WorkspaceColorScheme, b: WorkspaceColorScheme, c: WorkspaceColorScheme)
  {
    var store := new ProjectStorage(true, Stored(None, Some([a, b, c])));
    var r := store.DeleteCustomColor(0);
    assert store.Loaded().customColors == [b, c];
    r := store.DeleteCustomColor(1);
    assert store.Loaded().customColors == [b];
    r := store.UpdateCustomColor(5, a);
    assert r == Fail(InvalidIndex) && store.Loaded().customColors == [b];
    store.Reset();
    var present := store.HasConfig();
    assert !present && store.Loaded() == EmptyConfig;
  }
}
