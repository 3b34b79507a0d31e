# ColorSpace: per-workspace colour assignment, modelled in Dafny

ColorSpace is an editor extension that gives each workspace (project folder) its own colour scheme. It stores the choice in `.vscode/colorspace.json` inside the workspace. It also writes the scheme's colours into the host's `workbench.colorCustomizations` settings object, for the activity bar, the side bar and the status bar.

This project models the three parts that hold the logic:

- `colors.dfy` (module `Colors`): the `WorkspaceColorScheme` record and the fixed palette of twelve schemes, as pure data. Lemmas cover the palette's size, its distinct names, its status-bar coverage and its non-empty colour values.
- `project_storage.dfy` (module `Storage`): the `ProjectStorage` class. It has two fields: `workspaceOpen` (whether the host has a first workspace folder) and `doc` (the configuration file). The file is modelled as `Absent`, `Corrupt`, or `Stored(currentColor, customColors)`, and either property of `Stored` may be missing. `Load` gives what `readConfig` makes of a file. `Encode` gives what `writeConfig` leaves behind. Each mutator reads the configuration, edits it, and writes it back, as the source does. Its contract says what the new file is and what the next read sees. Errors the source throws come back as `Status` values: `Fail(NoWorkspace)` or `Fail(InvalidIndex)`. The client method `DeleteThenUpdateScenario` runs one sequence of calls on a store holding `[A, B, C]` and proves what each call leaves. Deleting from `[A, B, C]` at 0 and then at 1 leaves `[B]`. An update at index 5 then fails and changes nothing. A reset then leaves no file and an empty read.
- `color_manager.dfy` (module `Manager`): the `ColorManager` class. It holds the store, the host's `colorCustomizations` map (setting key to colour string), and the optional `colorspace.autoColor` and `colorspace.colorElements` settings. When unset, these two settings default to `true` and `{activityBar: true, sideBar: true, statusBar: false}`. `applyColor` is modelled in two parts. `Applied` specifies the result: the enabled regions' keys laid over the old map. The method `MergeScheme` assigns those keys one at a time, as the source does, and is proved to compute `Applied`. `resetColor`'s `forEach` deletion is the loop `RemoveKeys`, which is proved to compute `Cleared` (the old map without the nine keys). The random palette index is a parameter `pick < |FixedPalette|`. The quick-pick choice is a parameter too. The client method `ResetScopeScenario` starts from customizations that hold only an unrelated key `foo.bar`. It sets a scheme and then resets. It shows that the map comes back to the unrelated key alone, and that the store reads as empty.

`wrappers.dfy` holds the `Option` type, which stands for properties that may be `undefined`.

## Model

| member | source | states |
|---|---|---|
| Colors.PaletteSize | src/colors.ts:26-255 | The fixed palette has exactly twelve schemes. |
| Colors.PaletteNamesDistinct | src/colors.ts:28-237 | No two palette schemes share a name. |
| Colors.PaletteCoversStatusBar | src/colors.ts:1-45 | Every palette scheme defines the optional status-bar colours, as the header comment promises. Its status-bar background equals its activity-bar background. |
| Colors.PaletteColorsNonEmpty | src/colors.ts:26-255 | Every colour string in every palette scheme is non-empty. |
| Storage.LoadEncode | src/storage/projectStorage.ts:57-94 | Round trip: with a workspace open, reading the file that `writeConfig(c)` leaves gives back exactly `c`. This includes an absent current colour and an empty custom list. |
| Storage.EncodeLoad | src/storage/projectStorage.ts:57-94 | Reading a file and writing the result back reproduces the file exactly when it is a parsed object with a `customColors` list. A missing, corrupt or list-less file is replaced by a different one. |
| Storage.RemoveAt | src/storage/projectStorage.ts:159 | `splice(index, 1)`: the list is one shorter. Elements before `index` stay where they were, and every later element moves down one position. |
| Storage.RemoveAppended | src/storage/projectStorage.ts:124-161 | Deleting at the last position undoes an append. |
| Storage.DeleteRenumbers | src/storage/projectStorage.ts:152-161 | Deleting from `[A, B, C]` at 0 gives `[B, C]`, and then deleting at 1 gives `[B]`. |
| Storage.ResetEmptiesAndIsIdempotent | src/storage/projectStorage.ts:166-196 | After `reset`, the store reads as the empty configuration and `hasConfig` is false. A second reset changes nothing. Without a workspace, reset leaves the file alone. |
| Storage.ProjectStorage.constructor | src/storage/projectStorage.ts:19-34 | The store starts on the host's workspace and the file found there. |
| Storage.ProjectStorage.ReadConfig | src/storage/projectStorage.ts:57-78 | Never fails. With no workspace, a missing file or a corrupt file, it returns no current colour and an empty custom list. It returns a parsed file's current colour, and its custom list, or `[]` when that list is missing. |
| Storage.ProjectStorage.WriteConfig | src/storage/projectStorage.ts:83-94 | With no workspace, it fails with "No workspace folder is open" and leaves the file unchanged. Otherwise the file holds the configuration, and the next read returns it. |
| Storage.ProjectStorage.GetCurrentColor | src/storage/projectStorage.ts:99-102 | Returns the parsed file's current colour. A colour is returned only when a workspace is open and a readable file holds it. |
| Storage.ProjectStorage.SetCurrentColor | src/storage/projectStorage.ts:107-111 | With a workspace open, the current colour becomes the scheme and the custom list is unchanged. Otherwise it fails with NoWorkspace and the file is unchanged. |
| Storage.ProjectStorage.GetCustomColors | src/storage/projectStorage.ts:116-119 | Returns the stored custom list, or `[]` when there is no workspace, no readable file, or no list in the file. |
| Storage.ProjectStorage.AddCustomColor | src/storage/projectStorage.ts:124-133 | With a workspace open, the new list is the old list with the scheme appended, and the current colour is unchanged. Otherwise it fails with NoWorkspace and the file is unchanged. |
| Storage.ProjectStorage.UpdateCustomColor | src/storage/projectStorage.ts:138-147 | An index outside `[0, length)` fails with InvalidIndex and writes nothing. This includes every index when no workspace is open. Otherwise only position `index` changes, to the scheme, and the current colour is kept. |
| Storage.ProjectStorage.DeleteCustomColor | src/storage/projectStorage.ts:152-161 | An index out of range fails with InvalidIndex and writes nothing. Otherwise the list becomes `RemoveAt(old, index)` and the current colour is kept. |
| Storage.ProjectStorage.Reset | src/storage/projectStorage.ts:166-178 | Deletes the file when a workspace is open. Otherwise it is a silent no-op. |
| Storage.ProjectStorage.HasConfig | src/storage/projectStorage.ts:183-196 | True exactly when a workspace is open and the file exists. A corrupt file counts as existing. |
| Manager.RegionKeys | src/colorManager.ts:91-109 | Each region writes exactly its own three keys, and the three key groups are disjoint. |
| Manager.ResetListIsColorKeys | src/colorManager.ts:130-140 | The reset list is exactly the three regions' keys. |
| Manager.ResetListDistinct | src/colorManager.ts:130-140 | The reset list names nine different keys. |
| Manager.RegionWritesAreResetKeys | src/colorManager.ts:88-140 | Every key `applyColor` writes is one that `resetColor` removes. |
| Manager.ApplyKeepsOtherKeys | src/colorManager.ts:86-111 | The merge is non-destructive: a key outside the nine keeps its presence and its value. |
| Manager.ApplyActivityBar | src/colorManager.ts:91-95 | With the activity bar on, its three keys hold the scheme's values. With it off, they keep their old values or stay absent. |
| Manager.ApplySideBar | src/colorManager.ts:98-102 | With the side bar on, `sideBar.background`, `sideBar.foreground` and `sideBarTitle.foreground` hold the scheme's values. With it off, they are untouched. |
| Manager.ApplyStatusBar | src/colorManager.ts:105-109 | The status-bar keys are written only when the flag is on and the scheme has a status bar, and then `statusBar.noFolderBackground` equals `statusBar.background`. Otherwise they are untouched. |
| Manager.SideBarOnlyScheme | src/colorManager.ts:91-109 | With flags `{false, true, true}` and a scheme without a status bar, exactly the three side-bar keys are written. |
| Manager.ApplyIdempotent | src/colorManager.ts:88-109 | Applying a scheme twice gives the same map as applying it once. |
| Manager.ClearedIdempotent | src/colorManager.ts:142-146 | Resetting twice gives the same map as resetting once. |
| Manager.ClearUndoesApply | src/colorManager.ts:88-146 | Reset after apply gives what reset alone gives: the nine keys are absent, and every other key keeps its value from before the apply. |
| Manager.MergeScheme | src/colorManager.ts:85-111 | The key-by-key assignments on the copied object give exactly `Applied(current, elements, scheme)`. |
| Manager.RemoveKeys | src/colorManager.ts:142-144 | Deleting the listed keys one by one removes exactly those keys. Every remaining key keeps its value. |
| Manager.PickerItems | src/colorManager.ts:163-171 | The picker lists the fixed schemes, then the custom ones. Item `k` is marked "Fixed" exactly when `k` is below the number of fixed schemes, and "Custom" otherwise. Each item carries its scheme's name as label and its activity-bar background as detail. |
| Manager.ColorManager.constructor | src/colorManager.ts:11-13 | The manager owns a fresh store over the host's workspace state. |
| Manager.ColorManager.GetWorkspaceColor | src/colorManager.ts:18-20 | Returns the store's current colour. |
| Manager.ColorManager.GetAllColors | src/colorManager.ts:25-31 | Returns the fixed palette and the store's custom list. |
| Manager.ColorManager.ApplyColor | src/colorManager.ts:77-112 | The customizations become `Applied(old, effective flags, scheme)`. |
| Manager.ColorManager.SetWorkspaceColor | src/colorManager.ts:36-49 | With no workspace, neither the file nor the customizations change. Otherwise the stored current colour becomes the scheme, the custom list is kept, and the customizations are the scheme applied to the old map. |
| Manager.ColorManager.AutoAssignColor | src/colorManager.ts:54-72 | With auto-colour off, nothing changes. If a colour is stored, the file is unchanged and that colour is re-applied. Otherwise, with a workspace open, palette entry `pick` is stored and applied, so the stored colour is a palette element. |
| Manager.ColorManager.ResetColor | src/colorManager.ts:117-149 | With no workspace, nothing changes. Otherwise the file is deleted, reads become empty, and the customizations lose exactly the nine keys. |
| Manager.ColorManager.PickRandomColor | src/colorManager.ts:154-157 | Stores and applies palette entry `pick`, keeping the custom list. With no workspace, nothing changes. |
| Manager.ColorManager.ShowColorPicker | src/colorManager.ts:162-180 | A dismissed picker changes nothing. Choosing item `k` stores `(fixed + custom)[k]` as the current colour in a file that keeps the custom list, and applies it to the customizations. |
| Manager.ColorManager.AddCustomColor | src/colorManager.ts:185-188 | Passes through to the store. The store's NoWorkspace failure propagates. |
| Manager.ColorManager.UpdateCustomColor | src/colorManager.ts:193-196 | Passes through to the store. The store's InvalidIndex failure propagates. |
| Manager.ColorManager.DeleteCustomColor | src/colorManager.ts:201-208 | Never fails. An index outside `[0, length)` changes nothing. Otherwise the file is rewritten with exactly element `index` removed and the current colour kept, so the file still exists after the last entry goes. |

## Left out

- File-system effects: path joining, creating `.vscode`, `access`, `unlink`, and the JSON text format. The file is the abstract `Document`. `Corrupt` stands for a file that `readConfig` turns into the empty configuration: one that cannot be read, one that `JSON.parse` rejects, or one that parses to `null` or to a primitive value. `Stored` stands only for a parsed object whose `currentColor`, if present, is a scheme and whose `customColors`, if present, is an array of schemes. Read errors are folded into `Corrupt` and `Absent`. Write failures (IOFailure) are not modelled: with a workspace open, a write always succeeds.
- Deleting the file is not modelled as able to fail. The source ignores every `unlink` error, not only a missing file, so a file that cannot be removed (for example because of a permission error) survives `reset` silently. In the model, `reset` with a workspace open always leaves `Absent`.
- Parsed documents of the wrong shape are not modelled. Examples are a JSON array, a `customColors` that is not an array, and a `currentColor` that is not a scheme. `readConfig` casts the parsed value without checking its shape. For such a file the source can lose a write: a top-level array keeps a `currentColor` property set on it, but `JSON.stringify` drops that property. The source can also throw: a string `customColors` passes the manager's length guard before delete, and then `splice` fails. The store and manager contracts, including "never fails" for the manager's delete, hold only for documents the model represents.
- The `configPath` field is not kept. `updateConfigPath` re-derives it from the first workspace folder before every use, so every store operation consults `workspaceOpen` directly.
- Notifications (`showInformationMessage`, `showErrorMessage`) are not modelled. The store's thrown errors are returned as `Status` values, and the manager's pass-throughs return them unchanged.
- `Math.random()` is replaced by the caller-supplied index `pick`, required to lie in `[0, 12)`. This is the range `Math.floor(Math.random() * 12)` produces.
- The quick-pick interaction is not modelled. `ShowColorPicker` receives the position of the chosen item, which must be one of the listed items, or None.
- Indices are integers. A non-integral JavaScript number as a custom-colour index is not modelled.
- Interleaving of asynchronous read-modify-write calls (last writer wins) is not modelled. Each operation is atomic.
- `Customizations` holds only string values. The host's object can also hold theme-scoped entries such as `"[Theme]": {...}` whose values are objects. `applyColor` and `resetColor` never write or delete those keys, so they would be carried along unchanged like any other key outside the nine.
- The host's settings scopes are not modelled. `colorCustomizations` is one map that the extension reads and replaces as a whole.
- The webview panel (src/panel/ColorSpacePanel.ts) and command registration with its input-box prompts (src/extension.ts) are host glue and are not part of this model.
