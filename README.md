# Eclipse formatter for NetBeans — a verified model of its decision logic

The plug-in formats Java in the NetBeans editor with the Eclipse JDT code formatter. This project
models the three pieces of that plug-in that are sequential decision and map logic. It proves, for
every input, the properties the code promises.

- **Configuration resolution** (`EclipseFormatter.readConfig` and its readers).
  - The reader is chosen by file name: workspace-mechanic first, then XML profile file, then
    project settings.
  - A workspace-mechanic file keeps only the keys under `/instance/org.eclipse.jdt.core/`, with
    that prefix stripped. A project-settings file is copied unchanged.
  - An XML file must hold a profile of the requested name; the first match wins.
  - The file's settings are laid over the Java-conventions baseline, which pins compliance, codegen
    target and source to `1.6`.
  - Any failure, a missing profile included, comes out as a `CannotLoadConfiguration` failure.
- **Format result** (`format`/`forCode`). The result is `Some` edited text, or `None` for "no
  change". It is `None` when there is no code, no edit, an edit without children, or an edit that
  cannot be applied.
- **Format action** (`FormatJavaAction.format`/`formatWithNetBeans`). Each request produces a
  sequence of events:
  - notifications and status lines;
  - error dialogs;
  - a reformat with NetBeans or with Eclipse.

  A gate decides between the two: guarded sections, a non-Java file or a disabled Eclipse formatter
  send the request to NetBeans. The project's `.settings` preference file overrides the global
  location, and a missing file is a silent fallback. The two exceptions map to two dialogs, and only
  the load failure returns early. The status message depends on the file's kind.
- **Options panel** (`EclipseFormatterPanel`).
  - The profile box is a class with items, a selected object and an enabled flag, updated in
    place. Swing's default combo box model behaves the same way.
  - `loadEclipseFormatterFileForPreview` fills the box with the placeholder and the profile names,
    in a loop.
  - `selectProfileOrFallback` pre-selects an entry, and `getSelectedProfile` reads the selection.
  - `valid` decides whether the settings may be stored, and `load` supplies the defaults.

Files: `wrappers.dfy` (Option, Result), `strings.dfy` (prefix, suffix and infix tests),
`preferences.dfy` (file-kind classifier, stored preferences), `eclipse_formatter.dfy`, `format_java_action.dfy`, `eclipse_formatter_panel.dfy`.

Things the plug-in gets from outside enter the model as parameters, so every property holds for any
choice of them:
- the three file-kind predicates;
- the Java-conventions baseline map;
- what a reader gets from a file (a key/value map or a profile list, or `None` when reading throws);
- whether a path exists;
- the Eclipse engine (the formatter's edit, and the application of an edit, which may fail);
- the outcome of the Eclipse reformat inside the action.

Three points where the code's behaviour is easy to misread:
- The file's map is merged over the baseline after the pins are set. A file can therefore override
  the three `1.6` keys (`PinnedVersions`).
- A missing profile is thrown inside `readConfig`'s `try` and re-thrown as
  `CannotLoadConfigurationException`. The action has a separate `ProfileNotFoundException` branch with
  a dialog naming profile and file (FormatJavaAction.java:99-101), which shows that a missing profile
  was meant to reach the user as its own error. That branch cannot be reached from `readConfig`. See
  Findings.
- The action reads `showNotifications` with default `false`, and the panel's `load` uses `true`. The
  action reads the location with no default (`null`), and the panel uses `""`. Both sides are
  modelled (`StoredDefaultsDisagree`).

## Model

| member | source | states |
|---|---|---|
| Preferences.KindOf | src/de/markiewb/netbeans/plugins/eclipse/formatter/EclipseFormatter.java:114-120 | each kind holds iff its test is true and the tests checked before it are false; unrecognised iff all three are false |
| EclipseFormatter.GetFormattingOptions | src/de/markiewb/netbeans/plugins/eclipse/formatter/EclipseFormatter.java:75-90 | keys are the conventions plus the three pinned keys, the pinned keys are "1.6", every other conventions value is unchanged |
| EclipseFormatter.Merge | src/de/markiewb/netbeans/plugins/eclipse/formatter/EclipseFormatter.java:122-123 | key set is the union; an override key takes the override value, any other key keeps the baseline value |
| EclipseFormatter.GetProfileByName | src/de/markiewb/netbeans/plugins/eclipse/formatter/EclipseFormatter.java:96-106 | no name gives none; none iff no non-null entry has that name; otherwise the entry at the first matching position |
| EclipseFormatter.ReadConfigFromFormatterXmlFile | src/de/markiewb/netbeans/plugins/eclipse/formatter/EclipseFormatter.java:132-146 | unreadable file fails; empty list fails with "No profiles found in <file>"; no match fails with "profile <name> not found in <file>"; a matching profile gives success, and success is the first matching profile's settings |
| EclipseFormatter.WorkspaceMechanicSettings | src/de/markiewb/netbeans/plugins/eclipse/formatter/EclipseFormatter.java:154-161 | s is a key iff prefix+s is a property; its value is that property's value |
| EclipseFormatter.ReadConfigFromWorkspaceMechanicFile | src/de/markiewb/netbeans/plugins/eclipse/formatter/EclipseFormatter.java:148-163 | the loop over the property keys yields exactly the prefixed keys, stripped, values unchanged; an unreadable file fails |
| EclipseFormatter.ReadConfigFromProjectSettings | src/de/markiewb/netbeans/plugins/eclipse/formatter/EclipseFormatter.java:165-176 | the loop yields exactly the file's properties, no key filtered or changed; an unreadable file fails |
| EclipseFormatter.ReadConfigFromFile | src/de/markiewb/netbeans/plugins/eclipse/formatter/EclipseFormatter.java:113-120 | the if-chain runs the reader the name selects (workspace-mechanic, then XML, then project settings) and otherwise contributes nothing (ConfigFromFile) |
| EclipseFormatter.ReadConfig | src/de/markiewb/netbeans/plugins/eclipse/formatter/EclipseFormatter.java:108-130 | the catch and the putAll sequence compute the reader's map laid over the baseline, or the reader's failure wrapped as CannotLoadConfiguration (ReadConfigResult) |
| EclipseFormatter.ReadConfigPrecedence | src/de/markiewb/netbeans/plugins/eclipse/formatter/EclipseFormatter.java:109-123 | on success: key set is baseline plus file keys; file values win; baseline supplies only the missing keys |
| EclipseFormatter.PinnedVersions | src/de/markiewb/netbeans/plugins/eclipse/formatter/EclipseFormatter.java:75-123 | every pinned key is present and is "1.6" unless the file sets it, in which case the file's value wins |
| EclipseFormatter.UnrecognisedYieldsBaseline | src/de/markiewb/netbeans/plugins/eclipse/formatter/EclipseFormatter.java:113-123 | a name of no known kind yields exactly the baseline, whatever the file holds |
| EclipseFormatter.KindDispatch | src/de/markiewb/netbeans/plugins/eclipse/formatter/EclipseFormatter.java:114-120 | workspace-mechanic test first, then XML, then project settings selects the matching reader |
| EclipseFormatter.EveryFailureIsCannotLoad | src/de/markiewb/netbeans/plugins/eclipse/formatter/EclipseFormatter.java:111-128 | readConfig fails iff the reader fails, and then with CannotLoadConfiguration wrapping the reader's failure |
| EclipseFormatter.MissingProfileIsWrapped | src/de/markiewb/netbeans/plugins/eclipse/formatter/EclipseFormatter.java:111-142 | a profile list without the requested name makes readConfig fail with a wrapped ProfileNotFound |
| EclipseFormatter.XmlYieldsFirstMatchingProfile | src/de/markiewb/netbeans/plugins/eclipse/formatter/EclipseFormatter.java:132-146 | with the first matching profile at position i, the XML file contributes exactly that profile's settings |
| EclipseFormatter.FirstProfileWins | src/de/markiewb/netbeans/plugins/eclipse/formatter/EclipseFormatter.java:100-104 | example: in the list [first, other, again], where again shares first's name and other does not, looking up that name returns first |
| EclipseFormatter.WorkspaceMechanicFilter | src/de/markiewb/netbeans/plugins/eclipse/formatter/EclipseFormatter.java:154-161 | a prefixed key survives stripped with its value; a key outside the prefix is dropped |
| EclipseFormatter.WorkspaceMechanicFilterExample | src/de/markiewb/netbeans/plugins/eclipse/formatter/EclipseFormatter.java:154-161 | {"/instance/org.eclipse.jdt.core/foo": "1", "/other/bar": "2"} reads as {"foo": "1"} |
| EclipseFormatter.ProjectSettingsScenario | src/de/markiewb/netbeans/plugins/eclipse/formatter/EclipseFormatter.java:165-176 | example: a project-settings file with tabulation.size and indentation.size set to "4" gives a final configuration holding both with value "4" |
| EclipseFormatter.ResolveConfig | src/de/markiewb/netbeans/plugins/eclipse/formatter/EclipseFormatter.java:108-130 | corrected resolution: same success and same map as readConfig; fails with ProfileMissing iff the reader reported a missing profile |
| EclipseFormatter.ResolveReportsMissingProfile | src/de/markiewb/netbeans/plugins/eclipse/formatter/EclipseFormatter.java:136-142 | a profile list without the requested name makes the corrected resolution report ProfileMissing |
| EclipseFormatter.Format | src/de/markiewb/netbeans/plugins/eclipse/formatter/EclipseFormatter.java:54-73 | load failure propagates; otherwise "no change" iff no edit, no children or apply fails, else the applied text |
| EclipseFormatter.ForCode | src/de/markiewb/netbeans/plugins/eclipse/formatter/EclipseFormatter.java:45-51 | no code gives "no change" without reading or formatting; code is passed to Format |
| EclipseFormatter.FormatterCallArguments | src/de/markiewb/netbeans/plugins/eclipse/formatter/EclipseFormatter.java:55-60 | the formatter is called for the compilation unit with comments (0x1008) on the code, from start with length end-start, indentation 0 |
| FormatJavaAction.ReadSettings | src/de/markiewb/netbeans/plugins/eclipse/formatter/FormatJavaAction.java:66-72 | each stored value wins; each missing key takes its own default: enabled false, notifications false, breakpoints true, project prefs true, profile ""; the location has no default |
| FormatJavaAction.EffectiveFormatterFile | src/de/markiewb/netbeans/plugins/eclipse/formatter/FormatJavaAction.java:71-87 | the project's preference file when project prefs are on and the document's project has one; the global location otherwise |
| FormatJavaAction.FallbackDetailReasons | src/de/markiewb/netbeans/plugins/eclipse/formatter/FormatJavaAction.java:44-51 | the detail starts with the guarded-sections reason iff guarded and enabled, ends with the non-Java reason iff not Java, is empty iff neither |
| FormatJavaAction.FormatWithNetBeans | src/de/markiewb/netbeans/plugins/eclipse/formatter/FormatJavaAction.java:43-57 | the events it builds end with the NetBeans reformat and contain a notification iff notifications are on |
| FormatJavaAction.NetBeansEventsShape | src/de/markiewb/netbeans/plugins/eclipse/formatter/FormatJavaAction.java:43-57 | the NetBeans status line is set, every status line is the NetBeans one, and the NetBeans reformat is last; no Eclipse run and no dialog; a notification appears iff notifications are on |
| FormatJavaAction.StatusMessage | src/de/markiewb/netbeans/plugins/eclipse/formatter/FormatJavaAction.java:108-118 | the message is empty iff the file is of no known kind |
| FormatJavaAction.StatusNamesSource | src/de/markiewb/netbeans/plugins/eclipse/formatter/FormatJavaAction.java:108-118 | XML names profile and file; workspace-mechanic and project settings say "Using <file>"; otherwise empty |
| FormatJavaAction.StatusBarTexts | src/de/markiewb/netbeans/plugins/eclipse/formatter/FormatJavaAction.java:53-123 | the Eclipse status bar reads "Format using Eclipse formatter: " followed by the message; the NetBeans one reads only its title |
| FormatJavaAction.LoadDialogNamesFile | src/de/markiewb/netbeans/plugins/eclipse/formatter/FormatJavaAction.java:102-104 | the load-failure dialog's text contains the file path |
| FormatJavaAction.ProfileDialogNamesProfileAndFile | src/de/markiewb/netbeans/plugins/eclipse/formatter/FormatJavaAction.java:99-101 | the missing-profile dialog's text contains both the profile name and the file path |
| FormatJavaAction.EclipseTailShape | src/de/markiewb/netbeans/plugins/eclipse/formatter/FormatJavaAction.java:97-123 | load failure: only the load dialog; profile failure: profile dialog first; status is set iff no load failure; a dialog appears iff the run did not complete |
| FormatJavaAction.Format | src/de/markiewb/netbeans/plugins/eclipse/formatter/FormatJavaAction.java:59-128 | the imperative action emits exactly FormatEvents, which the lemmas below characterise |
| FormatJavaAction.EclipseOnlyWhenGateOpen | src/de/markiewb/netbeans/plugins/eclipse/formatter/FormatJavaAction.java:70-95 | Eclipse runs iff no guarded sections, Java, enabled and the effective file exists; with no run there is no error dialog |
| FormatJavaAction.GateClosedFallsBack | src/de/markiewb/netbeans/plugins/eclipse/formatter/FormatJavaAction.java:125-127 | a closed gate produces exactly the NetBeans fallback with the gate's inputs |
| FormatJavaAction.MissingFileFallsBackSilently | src/de/markiewb/netbeans/plugins/eclipse/formatter/FormatJavaAction.java:89-93 | a missing effective file gives the NetBeans fallback, no dialog, an empty notification detail |
| FormatJavaAction.CannotLoadReturnsEarly | src/de/markiewb/netbeans/plugins/eclipse/formatter/FormatJavaAction.java:102-106 | a load failure gives the run and the dialog naming the file, then nothing: no status, no notification |
| FormatJavaAction.ProfileNotFoundContinues | src/de/markiewb/netbeans/plugins/eclipse/formatter/FormatJavaAction.java:99-123 | a missing profile gives the dialog naming profile and file, and the Eclipse status line is still set last |
| FormatJavaAction.NotificationsAndStatus | src/de/markiewb/netbeans/plugins/eclipse/formatter/FormatJavaAction.java:43-123 | notifications only when enabled; a status line is set unless the gate is open with no location (the `new File(null)` path) or loading the configuration fails; with notifications on, every status has a notification |
| FormatJavaAction.DefaultsUseNetBeans | src/de/markiewb/netbeans/plugins/eclipse/formatter/FormatJavaAction.java:66-70 | with nothing stored, the action only sets the NetBeans status and reformats with NetBeans |
| FormatJavaAction.MissingProfileShowsLoadDialog | src/de/markiewb/netbeans/plugins/eclipse/formatter/FormatJavaAction.java:97-106 | as written, a missing profile reaches the action as a load failure: the "could not find configuration file" dialog only |
| FormatJavaAction.MissingProfileCounterexample | src/de/markiewb/netbeans/plugins/eclipse/formatter/FormatJavaAction.java:97-106 | profile "B" asked of formatter.xml holding only "A": as written a load failure, corrected a profile failure |
| FormatJavaAction.ResolvedMissingProfileShowsProfileDialog | src/de/markiewb/netbeans/plugins/eclipse/formatter/FormatJavaAction.java:99-101 | with the corrected resolution a missing profile reaches the profile dialog and the status is still set |
| EclipseFormatterPanel.IndexOf | src/de/markiewb/netbeans/plugins/eclipse/formatter/options/EclipseFormatterPanel.java:497 | the first position holding the item, -1 iff absent |
| EclipseFormatterPanel.ProfileComboBox.SelectedIndex | src/de/markiewb/netbeans/plugins/eclipse/formatter/options/EclipseFormatterPanel.java:497 | -1 iff nothing selected, else the first position holding the selected item |
| EclipseFormatterPanel.ProfileComboBox.RemoveAllItems | src/de/markiewb/netbeans/plugins/eclipse/formatter/options/EclipseFormatterPanel.java:439 | no items and no selection afterwards |
| EclipseFormatterPanel.ProfileComboBox.AddItem | src/de/markiewb/netbeans/plugins/eclipse/formatter/options/EclipseFormatterPanel.java:447-451 | appends the item; the first item of an empty box with no selection becomes selected |
| EclipseFormatterPanel.ProfileComboBox.SetSelectedItem | src/de/markiewb/netbeans/plugins/eclipse/formatter/options/EclipseFormatterPanel.java:468 | selects the item if the box holds it, otherwise leaves the selection alone |
| EclipseFormatterPanel.ProfileComboBox.SetSelectedIndex | src/de/markiewb/netbeans/plugins/eclipse/formatter/options/EclipseFormatterPanel.java:471-474 | selects the item at the position, items unchanged |
| EclipseFormatterPanel.ProfileComboBox.SetEnabled | src/de/markiewb/netbeans/plugins/eclipse/formatter/options/EclipseFormatterPanel.java:436 | sets the enabled flag, items and selection unchanged |
| EclipseFormatterPanel.GetSelectedProfile | src/de/markiewb/netbeans/plugins/eclipse/formatter/options/EclipseFormatterPanel.java:392-398 | "" when nothing is selected, else the selected item's text |
| EclipseFormatterPanel.Preselection | src/de/markiewb/netbeans/plugins/eclipse/formatter/options/EclipseFormatterPanel.java:448-476 | the active profile if the file has it; else the only profile; else the placeholder |
| EclipseFormatterPanel.SelectProfileOrFallback | src/de/markiewb/netbeans/plugins/eclipse/formatter/options/EclipseFormatterPanel.java:466-476 | an entry to select is selected; else position 1 for exactly one profile; else position 0 |
| EclipseFormatterPanel.LoadEclipseFormatterFileForPreview | src/de/markiewb/netbeans/plugins/eclipse/formatter/options/EclipseFormatterPanel.java:431-464 | for an existing, readable XML file: placeholder then profile names in file order, Preselection selected, box enabled; then the selected index is 0 iff the preselected entry is the placeholder text, and, when no profile is named like the placeholder, it is 0 iff the stored profile is absent and the file does not hold exactly one profile, and otherwise points at the stored profile when present; for any other file the box is empty, disabled, with selected index -1 |
| EclipseFormatterPanel.ValidSettings | src/de/markiewb/netbeans/plugins/eclipse/formatter/options/EclipseFormatterPanel.java:489-515 | valid iff NetBeans, or not (XML with position 0) and (project prefs or an existing file of a known kind); the error text is set iff invalid for a reason other than the placeholder |
| EclipseFormatterPanel.PlaceholderBlocksXml | src/de/markiewb/netbeans/plugins/eclipse/formatter/options/EclipseFormatterPanel.java:489-505 | with Eclipse, an XML file at position 0 is invalid even with project prefs; with NetBeans it is valid |
| EclipseFormatterPanel.PreselectedIndex | src/de/markiewb/netbeans/plugins/eclipse/formatter/options/EclipseFormatterPanel.java:441-476 | after loading a file in which no profile is named like the placeholder, the placeholder stays selected iff the active profile is absent and the file does not hold exactly one profile; otherwise a real profile's position is selected |
| EclipseFormatterPanel.PlaceholderIndexIffPreselected | src/de/markiewb/netbeans/plugins/eclipse/formatter/options/EclipseFormatterPanel.java:441-476 | for any profile list and stored profile, the loaded box's position 0 is selected iff the preselected entry is the placeholder text (so a profile named like the placeholder also selects position 0) |
| EclipseFormatterPanel.SeveralProfilesNeedChoice | src/de/markiewb/netbeans/plugins/eclipse/formatter/options/EclipseFormatterPanel.java:441-500 | several profiles without the stored one leave the Eclipse settings invalid until a profile is chosen |
| EclipseFormatterPanel.PlaceholderNamedProfile | src/de/markiewb/netbeans/plugins/eclipse/formatter/options/EclipseFormatterPanel.java:447-500 | a profile named like the placeholder lands at position 0 and reads as "no profile chosen" |
| EclipseFormatterPanel.Load | src/de/markiewb/netbeans/plugins/eclipse/formatter/options/EclipseFormatterPanel.java:401-408 | each stored value wins; each missing key takes its own default: location "", profile "", NetBeans, notifications on, no save action, breakpoints on, project prefs on |
| EclipseFormatterPanel.StoredDefaultsDisagree | src/de/markiewb/netbeans/plugins/eclipse/formatter/options/EclipseFormatterPanel.java:402-408 | with nothing stored the panel shows notifications on and the action treats them as off; the panel shows location "" and the action has none; profile, enabled, breakpoints and project prefs agree |

## Left out

- The Eclipse `CodeFormatter`, `TextEdit` and `Document` are a foreign library: the edit and its application are parameters of `Engine`.
- `ConfigReader` XML parsing and `Properties.load` are not part of this model. Their output is an abstract profile list or key/value map, and `None` stands for the exception.
- `Preferences.java` is not part of this model. Its three file-kind tests are arbitrary name predicates.
- Host APIs (`GuardedSectionManager`, `FileOwnerQuery`, `NbEditorUtilities`, `DialogDisplayer`, `NotificationDisplayer`, `StatusDisplayer`) are left out. They become boolean inputs and emitted events, and file existence is a predicate on paths.
- `EclipseFormatterUtilities` is not part of this model. Its `reFormatWithEclipse` is an `EclipseOutcome` supplied per file and profile. `EclipseFormatterUtilities.getEclipseFormatter` is folded into the `ReformatWithEclipse` event.
- Icons, dialog message types, and the formatter's `System.err` diagnostics are left out.
- Swing layout, listeners, `enableUI`, the file chooser, the browser links, the labels, the location field and `store` are left out. So are the panel's `fireChangedListener` and the radio-button and check-box state `loadOptionsWindowUI` sets.
- `HashMap` and `Properties` iteration order is unspecified in Java. The readers iterate over the key set in an arbitrary order, and results are maps.
- `null` profile names, `null` profile-box entries and a `null` `FileObject` for an existing file are not modelled. The panel's profiles are non-null records.
- FormatJavaAction.Format: a `null` location with the gate open and no project file makes `new File(null)` throw. This is modelled as a `NullPointerThrown` event, not as an exception.
- EclipseFormatterPanel.LoadEclipseFormatterFileForPreview: the file's base name (`getNameExt`) is passed as a parameter, not derived from the path.
- Exceptions thrown by the Eclipse code formatter itself (as opposed to `apply`) are not caught by the source. They are not modelled.
- Idempotence of formatting, and editing only inside the requested range, depend on the foreign formatter and are not stated.

## Findings

| source | as written | input that shows it | evidently intended | confidence | as-written member | corrected member |
|---|---|---|---|---|---|---|
| src/de/markiewb/netbeans/plugins/eclipse/formatter/EclipseFormatter.java:111-128 | `ProfileNotFoundException` thrown inside `readConfig`'s `try` is caught by `catch (Exception)` and re-thrown as `CannotLoadConfigurationException`. The action's `ProfileNotFoundException` branch (FormatJavaAction.java:99-101) therefore never sees it, and the user is told the file could not be found. | formatter.xml of XML kind holding only profile "A", with profile "B" requested | a missing profile surfaces as its own error and reaches the dialog naming profile and file, and the run is still reported | not executed; medium (`reFormatWithEclipse` is not part of this model) | FormatJavaAction.MissingProfileShowsLoadDialog, FormatJavaAction.MissingProfileCounterexample | EclipseFormatter.ResolveConfig, FormatJavaAction.ResolvedMissingProfileShowsProfileDialog |
