/**
 * The colour-scheme record and the fixed palette of twelve schemes
 * (src/colors.ts). Pure data: no operation here changes anything.
 */
module Colors {
  import opened Wrappers

  /** Colour values are CSS colour strings such as "#1e3a5f". */
  type Color = string

  datatype ActivityBarColors = ActivityBarColors(background: Color, foreground: Color, inactiveForeground: Color)
  datatype SideBarColors = SideBarColors(background: Color, foreground: Color)
  datatype SideBarTitleColors = SideBarTitleColors(foreground: Color)
  datatype StatusBarColors = StatusBarColors(background: Color, foreground: Color)

  /** A named scheme; the status-bar part is optional. */
  datatype WorkspaceColorScheme = WorkspaceColorScheme(
    name: string,
    activityBar: ActivityBarColors,
    sideBar: SideBarColors,
    sideBarTitle: SideBarTitleColors,
    statusBar: Option<StatusBarColors>)

  /** Every colour value the scheme defines is a non-empty string. */
  predicate ColorsNonEmpty(s: WorkspaceColorScheme) {
    && s.activityBar.background != ""
    && s.activityBar.foreground != ""
    && s.activityBar.inactiveForeground != ""
    && s.sideBar.background != ""
    && s.sideBar.foreground != ""
    && s.sideBarTitle.foreground != ""
    && (s.statusBar.Some? ==> s.statusBar.value.background != "" && s.statusBar.value.foreground != "")
  }

  /**
   * The scheme covers the status bar too, and its status bar shares the
   * activity bar's background.
   */
  predicate CoversStatusBar(s: WorkspaceColorScheme) {
    s.statusBar.Some? && s.statusBar.value.background == s.activityBar.background
  }

  /** The built-in palette, in the order the picker lists it. */
  const FixedPalette: seq<WorkspaceColorScheme> := [
    WorkspaceColorScheme(
      "Ocean Blue",
      ActivityBarColors("#1e3a5f", "#ffffff", "#a0b5cc"),
      SideBarColors("#243a52", "#e0e0e0"),
      SideBarTitleColors("#ffffff"),
      Some(StatusBarColors("#1e3a5f", "#ffffff"))),
    WorkspaceColorScheme(
      "Forest Green",
      ActivityBarColors("#2d5016", "#ffffff", "#a8c99c"),
      SideBarColors("#344d20", "#e0e0e0"),
      SideBarTitleColors("#ffffff"),
      Some(StatusBarColors("#2d5016", "#ffffff"))),
    WorkspaceColorScheme(
      "Deep Purple",
      ActivityBarColors("#4a148c", "#ffffff", "#c5a3e0"),
      SideBarColors("#5e1d9e", "#e0e0e0"),
      SideBarTitleColors("#ffffff"),
      Some(StatusBarColors("#4a148c", "#ffffff"))),
    WorkspaceColorScheme(
      "Crimson Red",
      ActivityBarColors("#7f1d1d", "#ffffff", "#f5b5b5"),
      SideBarColors("#8f2626", "#e0e0e0"),
      SideBarTitleColors("#ffffff"),
      Some(StatusBarColors("#7f1d1d", "#ffffff"))),
    WorkspaceColorScheme(
      "Amber Orange",
      ActivityBarColors("#b45309", "#ffffff", "#ffd699"),
      SideBarColors("#c76110", "#e0e0e0"),
      SideBarTitleColors("#ffffff"),
      Some(StatusBarColors("#b45309", "#ffffff"))),
    WorkspaceColorScheme(
      "Teal Cyan",
      ActivityBarColors("#0f5e5e", "#ffffff", "#a0d4d4"),
      SideBarColors("#166e6e", "#e0e0e0"),
      SideBarTitleColors("#ffffff"),
      Some(StatusBarColors("#0f5e5e", "#ffffff"))),
    WorkspaceColorScheme(
      "Magenta Pink",
      ActivityBarColors("#831843", "#ffffff", "#f5a3c7"),
      SideBarColors("#9d1f50", "#e0e0e0"),
      SideBarTitleColors("#ffffff"),
      Some(StatusBarColors("#831843", "#ffffff"))),
    WorkspaceColorScheme(
      "Indigo Blue",
      ActivityBarColors("#1e3a8a", "#ffffff", "#a5b4d4"),
      SideBarColors("#2847a0", "#e0e0e0"),
      SideBarTitleColors("#ffffff"),
      Some(StatusBarColors("#1e3a8a", "#ffffff"))),
    WorkspaceColorScheme(
      "Olive Green",
      ActivityBarColors("#4d5e1f", "#ffffff", "#c9d4a0"),
      SideBarColors("#5a6e26", "#e0e0e0"),
      SideBarTitleColors("#ffffff"),
      Some(StatusBarColors("#4d5e1f", "#ffffff"))),
    WorkspaceColorScheme(
      "Slate Gray",
      ActivityBarColors("#334155", "#ffffff", "#b0b8c4"),
      SideBarColors("#3e4f63", "#e0e0e0"),
      SideBarTitleColors("#ffffff"),
      Some(StatusBarColors("#334155", "#ffffff"))),
    WorkspaceColorScheme(
      "Brown Earth",
      ActivityBarColors("#5d3a1a", "#ffffff", "#d4b89c"),
      SideBarColors("#6e4520", "#e0e0e0"),
      SideBarTitleColors("#ffffff"),
      Some(StatusBarColors("#5d3a1a", "#ffffff"))),
    WorkspaceColorScheme(
      "Navy Blue",
      ActivityBarColors("#172554", "#ffffff", "#9ca8d4"),
      SideBarColors("#1e3163", "#e0e0e0"),
      SideBarTitleColors("#ffffff"),
      Some(StatusBarColors("#172554", "#ffffff")))
  ]

  lemma PaletteSize()
    ensures |FixedPalette| == 12
  {
  }

  lemma PaletteNamesDistinct()
    ensures forall i, j :: 0 <= i < j < |FixedPalette| ==> FixedPalette[i].name != FixedPalette[j].name
  {
  }

  lemma PaletteCoversStatusBar()
    ensures forall i :: 0 <= i < |FixedPalette| ==> CoversStatusBar(FixedPalette[i])
  {
  }

  lemma PaletteColorsNonEmpty()
    ensures forall i :: 0 <= i < |FixedPalette| ==> ColorsNonEmpty(FixedPalette[i])
  {
  }
}
