/**
 * The plug-in's preference keys and the three file-kind tests.
 *
 * The tests `isWorkspaceMechanicFile`, `isXMLConfigurationFile` and `isProjectSetting` look at a
 * file name only; their definitions are not part of this model, so a `Classifier` carries them as
 * arbitrary predicates on names. Everything proved here holds for every choice of them.
 */
module Preferences {
  import opened Wrappers

  datatype Classifier = Classifier(
    isWorkspaceMechanicFile: string -> bool,
    isXMLConfigurationFile: string -> bool,
    isProjectSetting: string -> bool)

  /** The reader a configuration file name selects. */
  datatype ConfigKind = WorkspaceMechanic | Xml | ProjectSettings | Unrecognised

  /**
   * The dispatch order used both by `readConfig` and by the status message of the format action:
   * workspace-mechanic first, then XML, then project settings.
   */
  function KindOf(c: Classifier, name: string): (k: ConfigKind)
    ensures k == WorkspaceMechanic <==> c.isWorkspaceMechanicFile(name)
    ensures k == Xml <==> !c.isWorkspaceMechanicFile(name) && c.isXMLConfigurationFile(name)
    ensures k == ProjectSettings <==>
      !c.isWorkspaceMechanicFile(name) && !c.isXMLConfigurationFile(name) && c.isProjectSetting(name)
    ensures k == Unrecognised <==>
      !c.isWorkspaceMechanicFile(name) && !c.isXMLConfigurationFile(name) && !c.isProjectSetting(name)
  {
    if c.isWorkspaceMechanicFile(name) then WorkspaceMechanic
    else if c.isXMLConfigurationFile(name) then Xml
    else if c.isProjectSetting(name) then ProjectSettings
    else Unrecognised
  }

  /**
   * The stored preference node (global or project-specific). `None` means the key was never
   * stored, so each reader falls back to the default it passes to `get`/`getBoolean`.
   */
  datatype Store = Store(
    location: Option<string>,
    activeProfile: Option<string>,
    enabled: Option<bool>,
    showNotifications: Option<bool>,
    enableSaveAction: Option<bool>,
    preserveBreakpoints: Option<bool>,
    useProjectPrefs: Option<bool>)

  const EmptyStore := Store(None, None, None, None, None, None, None)
}
