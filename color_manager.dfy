/**
 * Selection, persistence and application of a workspace colour scheme
 * (src/colorManager.ts). The host's `workbench.colorCustomizations` object is
 * a map from setting key to colour string; the extension's own settings
 * `colorspace.autoColor` and `colorspace.colorElements` are optional fields
 * that fall back to their defaults when unset.
 */
module Manager {
  import opened Wrappers
  import opened Colors
  import opened Storage

  /** Which chrome regions `applyColor` writes. */
  datatype ColorElements = ColorElements(activityBar: bool, sideBar: bool, statusBar: bool)

  const DefaultColorElements := ColorElements(true, true, false)
  const DefaultAutoColor := true

  /** `workbench.colorCustomizations`, restricted to its string-valued entries. */
  type Customizations = map<string, Color>

  const ActivityBarKeys: set<string> :=
    {"activityBar.background", "activityBar.foreground", "activityBar.inactiveForeground"}
  const SideBarKeys: set<string> :=
    {"sideBar.background", "sideBar.foreground", "sideBarTitle.foreground"}
  const StatusBarKeys: set<string> :=
    {"statusBar.background", "statusBar.foreground", "statusBar.noFolderBackground"}
  /** Every key this extension writes into the customizations. */
  const ColorKeys: set<string> := ActivityBarKeys + SideBarKeys + StatusBarKeys

  /** The nine keys `resetColor` deletes, in the order it deletes them. */
  const KeysToRemove: seq<string> := [
    "activityBar.background",
    "activityBar.foreground",
    "activityBar.inactiveForeground",
    "sideBar.background",
    "sideBar.foreground",
    "sideBarTitle.foreground",
    "statusBar.background",
    "statusBar.foreground",
    "statusBar.noFolderBackground"
  ]

  function ActivityBarWrites(scheme: WorkspaceColorScheme): Customizations {
    map["activityBar.background" := scheme.activityBar.background,
        "activityBar.foreground" := scheme.activityBar.foreground,
        "activityBar.inactiveForeground" := scheme.activityBar.inactiveForeground]
  }

  function SideBarWrites(scheme: WorkspaceColorScheme): Customizations {
    map["sideBar.background" := scheme.sideBar.background,
        "sideBar.foreground" := scheme.sideBar.foreground,
        "sideBarTitle.foreground" := scheme.sideBarTitle.foreground]
  }

  function StatusBarWrites(status: StatusBarColors): Customizations {
    map["statusBar.background" := status.background,
        "statusBar.foreground" := status.foreground,
        "statusBar.noFolderBackground" := status.background]
  }

  /** Everything `applyColor` writes: the enabled regions' keys with the scheme's values. */
  function RegionWrites(elements: ColorElements, scheme: WorkspaceColorScheme): Customizations {
    (if elements.activityBar then ActivityBarWrites(scheme) else map[])
    + (if elements.sideBar then SideBarWrites(scheme) else map[])
    + (if elements.statusBar && scheme.statusBar.Some? then StatusBarWrites(scheme.statusBar.value) else map[])
  }

  /** Each region writes exactly its own three keys, and the three groups do not overlap. */
  lemma RegionKeys(scheme: WorkspaceColorScheme)
    ensures ActivityBarWrites(scheme).Keys == ActivityBarKeys
    ensures SideBarWrites(scheme).Keys == SideBarKeys
    ensures scheme.statusBar.Some? ==> StatusBarWrites(scheme.statusBar.value).Keys == StatusBarKeys
    ensures ActivityBarKeys !! SideBarKeys && ActivityBarKeys !! StatusBarKeys && SideBarKeys !! StatusBarKeys
  {
  }

  /** The customizations after `applyColor`: the region writes laid over the old object. */
  function Applied(current: Customizations, elements: ColorElements, scheme: WorkspaceColorScheme): Customizations {
    current + RegionWrites(elements, scheme)
  }

  /** The customizations after `resetColor` deleted its nine keys. */
  function Cleared(current: Customizations): Customizations {
    current - ColorKeys
  }

  /** The reset list names exactly the three regions' keys. */
  lemma ResetListIsColorKeys()
    ensures (set k | k in KeysToRemove) == ColorKeys
  {
  }

  /** The reset list names nine different keys. */
  lemma ResetListDistinct()
    ensures forall i, j :: 0 <= i < j < |KeysToRemove| ==> KeysToRemove[i] != KeysToRemove[j]
  {
  }

  /** `applyColor` only ever writes keys that `resetColor` removes. */
  lemma RegionWritesAreResetKeys(elements: ColorElements, scheme: WorkspaceColorScheme)
    ensures RegionWrites(elements, scheme).Keys <= ColorKeys
  {
    RegionKeys(scheme);
  }

  /** Merging is non-destructive: a key outside the nine is kept, with its value, and none is added. */
  lemma ApplyKeepsOtherKeys(current: Customizations, elements: ColorElements, scheme: WorkspaceColorScheme, k: string)
    requires k !in ColorKeys
    ensures k in Applied(current, elements, scheme) <==> k in current
    ensures k in current ==> Applied(current, elements, scheme)[k] == current[k]
  {
    RegionWritesAreResetKeys(elements, scheme);
  }

  /** The activity-bar keys hold the scheme's values when the region is on, and are untouched when off. */
  lemma ApplyActivityBar(current: Customizations, elements: ColorElements, scheme: WorkspaceColorScheme)
    ensures var r := Applied(current, elements, scheme);
      elements.activityBar ==>
        && r["activityBar.background"] == scheme.activityBar.background
        && r["activityBar.foreground"] == scheme.activityBar.foreground
        && r["activityBar.inactiveForeground"] == scheme.activityBar.inactiveForeground
    ensures var r := Applied(current, elements, scheme);
      !elements.activityBar ==>
        forall k :: k in ActivityBarKeys ==> (k in r <==> k in current) && (k in current ==> r[k] == current[k])
  {
    RegionKeys(scheme);
  }

  /** The side-bar keys hold the scheme's values when the region is on, and are untouched when off. */
  lemma ApplySideBar(current: Customizations, elements: ColorElements, scheme: WorkspaceColorScheme)
    ensures var r := Applied(current, elements, scheme);
      elements.sideBar ==>
        && r["sideBar.background"] == scheme.sideBar.background
        && r["sideBar.foreground"] == scheme.sideBar.foreground
        && r["sideBarTitle.foreground"] == scheme.sideBarTitle.foreground
    ensures var r := Applied(current, elements, scheme);
      !elements.sideBar ==>
        forall k :: k in SideBarKeys ==> (k in r <==> k in current) && (k in current ==> r[k] == current[k])
  {
    RegionKeys(scheme);
  }

  /**
   * The status-bar keys are written only when the region is on and the scheme
   * has a status bar; the no-folder background then repeats the background.
   */
  lemma ApplyStatusBar(current: Customizations, elements: ColorElements, scheme: WorkspaceColorScheme)
    ensures var r := Applied(current, elements, scheme);
      elements.statusBar && scheme.statusBar.Some? ==>
        && r["statusBar.background"] == scheme.statusBar.value.background
        && r["statusBar.foreground"] == scheme.statusBar.value.foreground
        && r["statusBar.noFolderBackground"] == r["statusBar.background"]
    ensures var r := Applied(current, elements, scheme);
      !(elements.statusBar && scheme.statusBar.Some?) ==>
        forall k :: k in StatusBarKeys ==> (k in r <==> k in current) && (k in current ==> r[k] == current[k])
  {
    RegionKeys(scheme);
  }

  /** With only the side bar and status bar on and a scheme without a status bar, exactly the three side-bar keys are written. */
  lemma SideBarOnlyScheme(scheme: WorkspaceColorScheme)
    requires scheme.statusBar.None?
    ensures RegionWrites(ColorElements(false, true, true), scheme).Keys == SideBarKeys
  {
  }

  /** Applying the same scheme twice gives what applying it once gives. */
  lemma ApplyIdempotent(current: Customizations, elements: ColorElements, scheme: WorkspaceColorScheme)
    ensures Applied(Applied(current, elements, scheme), elements, scheme) == Applied(current, elements, scheme)
  {
  }

  /** A second reset changes nothing. */
  lemma ClearedIdempotent(current: Customizations)
    ensures Cleared(Cleared(current)) == Cleared(current)
  {
  }

  /**
   * Reset after apply leaves what reset alone leaves: the nine keys are gone,
   * every other key keeps the value it had before the apply.
   */
  lemma ClearUndoesApply(current: Customizations, elements: ColorElements, scheme: WorkspaceColorScheme)
    ensures Cleared(Applied(current, elements, scheme)) == Cleared(current)
    ensures forall k :: k in ColorKeys ==> k !in Cleared(Applied(current, elements, scheme))
    ensures forall k :: k in current && k !in ColorKeys ==>
      k in Cleared(Applied(current, elements, scheme)) && Cleared(Applied(current, elements, scheme))[k] == current[k]
  {
    RegionWritesAreResetKeys(elements, scheme);
    RemoveOverlay(current, RegionWrites(elements, scheme), ColorKeys);
  }

  /** Removing a key set after laying over a map whose keys all lie in that set undoes the overlay. */
  lemma RemoveOverlay(m: Customizations, w: Customizations, keys: set<string>)
    requires w.Keys <= keys
    ensures (m + w) - keys == m - keys
  {
  }

  /**
   * The body of `applyColor` on the copied customizations object: each
   * enabled region's keys are assigned one at a time.
   */
  method MergeScheme(current: Customizations, elements: ColorElements, scheme: WorkspaceColorScheme)
    returns (next: Customizations)
    ensures next == Applied(current, elements, scheme)
  {
    ghost var activity := if elements.activityBar then ActivityBarWrites(scheme) else map[];
    ghost var side := if elements.sideBar then SideBarWrites(scheme) else map[];
    ghost var status := if elements.statusBar && scheme.statusBar.Some? then StatusBarWrites(scheme.statusBar.value) else map[];
    next := current;
    if elements.activityBar {
      next := next["activityBar.background" := scheme.activityBar.background];
      next := next["activityBar.foreground" := scheme.activityBar.foreground];
      next := next["activityBar.inactiveForeground" := scheme.activityBar.inactiveForeground];
      OverlayThree(current, "activityBar.background", scheme.activityBar.background,
        "activityBar.foreground", scheme.activityBar.foreground,
        "activityBar.inactiveForeground", scheme.activityBar.inactiveForeground);
    } else {
      OverlayEmpty(current);
    }
    assert next == current + activity;
    ghost var afterActivity := next;
    if elements.sideBar {
      next := next["sideBar.background" := scheme.sideBar.background];
      next := next["sideBar.foreground" := scheme.sideBar.foreground];
      next := next["sideBarTitle.foreground" := scheme.sideBarTitle.foreground];
      OverlayThree(afterActivity, "sideBar.background", scheme.sideBar.background,
        "sideBar.foreground", scheme.sideBar.foreground,
        "sideBarTitle.foreground", scheme.sideBarTitle.foreground);
    } else {
      OverlayEmpty(afterActivity);
    }
    assert next == afterActivity + side;
    ghost var afterSide := next;
    if elements.statusBar && scheme.statusBar.Some? {
      next := next["statusBar.background" := scheme.statusBar.value.background];
      next := next["statusBar.foreground" := scheme.statusBar.value.foreground];
      next := next["statusBar.noFolderBackground" := scheme.statusBar.value.background];
      OverlayThree(afterSide, "statusBar.background", scheme.statusBar.value.background,
        "statusBar.foreground", scheme.statusBar.value.foreground,
        "statusBar.noFolderBackground", scheme.statusBar.value.background);
    } else {
      OverlayEmpty(afterSide);
    }
    assert next == afterSide + status;
    OverlayAssociates(current, activity, side, status);
  }

  lemma OverlayEmpty(m: Customizations)
    ensures m + map[] == m
  {
  }

  /** Three assignments in a row lay a three-key map over the object. */
  lemma OverlayThree(m: Customizations, a: string, x: Color, b: string, y: Color, c: string, z: Color)
    ensures m[a := x][b := y][c := z] == m + map[a := x, b := y, c := z]
  {
  }

  lemma OverlayAssociates(m: Customizations, p: Customizations, q: Customizations, t: Customizations)
    ensures m + p + q + t == m + (p + q + t)
  {
  }

  /** The `forEach` of `resetColor`: delete each listed key from the object. */
  method RemoveKeys(current: Customizations, keys: seq<string>) returns (next: Customizations)
    ensures next.Keys == current.Keys - set k | k in keys
    ensures forall k :: k in next ==> next[k] == current[k]
  {
    next := current;
    var i := 0;
    while i < |keys|
      invariant 0 <= i <= |keys|
      invariant next.Keys == current.Keys - set k | k in keys[..i]
      invariant forall k :: k in next ==> next[k] == current[k]
    {
      assert keys[..i + 1] == keys[..i] + [keys[i]];
      next := next - {keys[i]};
      i := i + 1;
    }
    assert keys[..i] == keys;
  }

  /** One quick-pick entry of `showColorPicker` (`caption` is its `label`). */
  datatype PickItem = PickItem(caption: string, description: string, detail: Color, color: WorkspaceColorScheme)

  /** The quick-pick entries: the fixed schemes, then the custom ones. */
  function PickerItems(fixed: seq<WorkspaceColorScheme>, custom: seq<WorkspaceColorScheme>): (items: seq<PickItem>)
    ensures |items| == |fixed| + |custom|
    ensures forall k :: 0 <= k < |fixed| ==> items[k].color == fixed[k] && items[k].description == "Fixed"
    ensures forall k :: |fixed| <= k < |items| ==> items[k].color == custom[k - |fixed|] && items[k].description == "Custom"
    ensures forall k :: 0 <= k < |items| ==>
      items[k].caption == items[k].color.name && items[k].detail == items[k].color.activityBar.background
  {
    var all := fixed + custom;
    seq(|all|, k requires 0 <= k < |all| =>
      PickItem(all[k].name, if k < |fixed| then "Fixed" else "Custom", all[k].activityBar.background, all[k]))
  }

  class ColorManager {
    const storage: ProjectStorage
    /** The host's `workbench.colorCustomizations` object. */
    var colorCustomizations: Customizations
    /** `colorspace.autoColor`; None when the user has not set it. */
    var autoColorSetting: Option<bool>
    /** `colorspace.colorElements`; None when the user has not set it. */
    var colorElementsSetting: Option<ColorElements>

    constructor(workspaceOpen: bool, doc: Document, customizations: Customizations,
                autoColor: Option<bool>, colorElements: Option<ColorElements>)
      ensures fresh(storage) && storage.workspaceOpen == workspaceOpen && storage.doc == doc
      ensures colorCustomizations == customizations
      ensures autoColorSetting == autoColor && colorElementsSetting == colorElements
    {
      storage := new ProjectStorage(workspaceOpen, doc);
      colorCustomizations := customizations;
      autoColorSetting := autoColor;
      colorElementsSetting := colorElements;
    }

    function AutoColor(): bool
      reads this
    {
      autoColorSetting.GetOr(DefaultAutoColor)
    }

    function Elements(): ColorElements
      reads this
    {
      colorElementsSetting.GetOr(DefaultColorElements)
    }

    method GetWorkspaceColor() returns (color: Option<WorkspaceColorScheme>)
      ensures color == storage.Loaded().currentColor
    {
      color := storage.GetCurrentColor();
    }

    method GetAllColors() returns (fixed: seq<WorkspaceColorScheme>, custom: seq<WorkspaceColorScheme>)
      ensures fixed == FixedPalette
      ensures custom == storage.Loaded().customColors
    {
      custom := storage.GetCustomColors();
      fixed := FixedPalette;
    }

    method ApplyColor(scheme: WorkspaceColorScheme)
      modifies this`colorCustomizations
      ensures colorCustomizations == Applied(old(colorCustomizations), Elements(), scheme)
    {
      var next := MergeScheme(colorCustomizations, Elements(), scheme);
      colorCustomizations := next;
    }

    /** Without a workspace nothing happens; otherwise the scheme is stored, then applied. */
    method SetWorkspaceColor(color: WorkspaceColorScheme)
      modifies this`colorCustomizations, storage`doc
      ensures !storage.workspaceOpen ==>
        storage.doc == old(storage.doc) && colorCustomizations == old(colorCustomizations)
      ensures storage.workspaceOpen ==>
        && storage.doc == Encode(old(storage.Loaded()).(currentColor := Some(color)))
        && storage.Loaded().currentColor == Some(color)
        && colorCustomizations == Applied(old(colorCustomizations), Elements(), color)
    {
      if !storage.workspaceOpen {
        return;
      }
      var r := storage.SetCurrentColor(color);
      ApplyColor(color);
    }

    /**
     * Runs at start-up and when the workspace folders change: does nothing when
     * disabled, re-applies a stored scheme, or stores and applies palette entry
     * `pick` (the random index).
     */
    method AutoAssignColor(pick: nat)
      requires pick < |FixedPalette|
      modifies this`colorCustomizations, storage`doc
      ensures !AutoColor() ==>
        storage.doc == old(storage.doc) && colorCustomizations == old(colorCustomizations)
      ensures AutoColor() && old(storage.Loaded()).currentColor.Some? ==>
        && storage.doc == old(storage.doc)
        && colorCustomizations == Applied(old(colorCustomizations), Elements(), old(storage.Loaded()).currentColor.value)
      ensures AutoColor() && old(storage.Loaded()).currentColor.None? && storage.workspaceOpen ==>
        && storage.doc == Encode(old(storage.Loaded()).(currentColor := Some(FixedPalette[pick])))
        && colorCustomizations == Applied(old(colorCustomizations), Elements(), FixedPalette[pick])
      ensures !storage.workspaceOpen ==>
        storage.doc == old(storage.doc) && colorCustomizations == old(colorCustomizations)
      ensures AutoColor() && storage.workspaceOpen ==>
        storage.Loaded().currentColor.Some? &&
        (old(storage.Loaded()).currentColor.None? ==> storage.Loaded().currentColor.value in FixedPalette)
    {
      if !AutoColor() {
        return;
      }
      var existing := GetWorkspaceColor();
      if existing.Some? {
        ApplyColor(existing.value);
        return;
      }
      SetWorkspaceColor(FixedPalette[pick]);
    }

    /** Without a workspace nothing happens; otherwise the file is deleted and the nine keys removed. */
    method ResetColor()
      modifies this`colorCustomizations, storage`doc
      ensures !storage.workspaceOpen ==>
        storage.doc == old(storage.doc) && colorCustomizations == old(colorCustomizations)
      ensures storage.workspaceOpen ==>
        storage.doc == Absent && storage.Loaded() == EmptyConfig &&
        colorCustomizations == Cleared(old(colorCustomizations))
    {
      if !storage.workspaceOpen {
        return;
      }
      storage.Reset();
      var current := colorCustomizations;
      current := RemoveKeys(current, KeysToRemove);
      ResetListIsColorKeys();
      colorCustomizations := current;
    }

    method PickRandomColor(pick: nat)
      requires pick < |FixedPalette|
      modifies this`colorCustomizations, storage`doc
      ensures !storage.workspaceOpen ==>
        storage.doc == old(storage.doc) && colorCustomizations == old(colorCustomizations)
      ensures storage.workspaceOpen ==>
        && storage.Loaded().currentColor == Some(FixedPalette[pick])
        && storage.Loaded().customColors == old(storage.Loaded()).customColors
        && colorCustomizations == Applied(old(colorCustomizations), Elements(), FixedPalette[pick])
    {
      SetWorkspaceColor(FixedPalette[pick]);
    }

    /**
     * `showColorPicker` without its user interface: `choice` is the position
     * of the entry the user picked, or None when the picker was dismissed.
     */
    method ShowColorPicker(choice: Option<nat>)
      requires choice.Some? ==> choice.value < |FixedPalette| + |storage.Loaded().customColors|
      modifies this`colorCustomizations, storage`doc
      ensures choice.None? || !storage.workspaceOpen ==>
        storage.doc == old(storage.doc) && colorCustomizations == old(colorCustomizations)
      ensures choice.Some? && storage.workspaceOpen ==>
        var chosen := (FixedPalette + old(storage.Loaded()).customColors)[choice.value];
        && storage.doc == Encode(old(storage.Loaded()).(currentColor := Some(chosen)))
        && storage.Loaded().currentColor == Some(chosen)
        && storage.Loaded().customColors == old(storage.Loaded()).customColors
        && colorCustomizations == Applied(old(colorCustomizations), Elements(), chosen)
    {
      var fixed, custom := GetAllColors();
      var items := PickerItems(fixed, custom);
      if choice.Some? {
        SetWorkspaceColor(items[choice.value].color);
      }
    }

    method AddCustomColor(color: WorkspaceColorScheme) returns (r: Status)
      modifies storage`doc
      ensures r == (if storage.workspaceOpen then Ok else Fail(NoWorkspace))
      ensures r.Ok? ==> storage.Loaded().customColors == old(storage.Loaded()).customColors + [color]
      ensures r.Ok? ==> storage.Loaded().currentColor == old(storage.Loaded()).currentColor
      ensures r.Fail? ==> storage.doc == old(storage.doc)
    {
      r := storage.AddCustomColor(color);
    }

    /** The store's "invalid index" failure propagates to the caller. */
    method UpdateCustomColor(index: int, color: WorkspaceColorScheme) returns (r: Status)
      modifies storage`doc
      ensures r == (if 0 <= index < |old(storage.Loaded()).customColors| then Ok else Fail(InvalidIndex))
      ensures r.Ok? ==> storage.Loaded().customColors == old(storage.Loaded()).customColors[index := color]
      ensures r.Ok? ==> storage.Loaded().currentColor == old(storage.Loaded()).currentColor
      ensures r.Fail? ==> storage.doc == old(storage.doc)
    {
      r := storage.UpdateCustomColor(index, color);
    }

    /** Checks the index first, so an index out of range is a silent no-op, never an error. */
    method DeleteCustomColor(index: int)
      modifies storage`doc
      ensures !(0 <= index < |old(storage.Loaded()).customColors|) ==> storage.doc == old(storage.doc)
      ensures 0 <= index < |old(storage.Loaded()).customColors| ==>
        && storage.doc == Encode(old(storage.Loaded()).(customColors := RemoveAt(old(storage.Loaded()).customColors, index)))
        && storage.Loaded().customColors == RemoveAt(old(storage.Loaded()).customColors, index)
        && storage.Loaded().currentColor == old(storage.Loaded()).currentColor
    {
      var customColors := storage.GetCustomColors();
      if index >= 0 && index < |customColors| {
        var r := storage.DeleteCustomColor(index);
      }
    }
  }

  /** An unrelated key survives setting and then resetting a scheme; the nine keys are gone. */
  method ResetScopeScenario(scheme: WorkspaceColorScheme)
  {
    var before: Customizations := map["foo.bar" := "baz"];
    var manager := new ColorManager(true, Absent, before, None, None);
    manager.SetWorkspaceColor(scheme);
    assert manager.storage.Loaded().currentColor == Some(scheme);
    manager.ResetColor();
    ClearUndoesApply(before, DefaultColorElements, scheme);
    assert manager.colorCustomizations == Cleared(before);
    assert manager.storage.Loaded() == EmptyConfig;
  }
}
