/**
 * The decision rules of the options panel: which profiles the profile box offers after a
 * configuration file is chosen, which one it pre-selects, and when the settings may be stored.
 *
 * The Swing widgets are reduced to what these rules read and write: the profile box (its items,
 * its selected object and whether it is enabled) and the states of the radio buttons and check
 * boxes, passed as values.
 */
module EclipseFormatterPanel {
  import opened Wrappers
  import opened Preferences
  import EclipseFormatter
  import FormatJavaAction

  /** The placeholder item at position 0 of a populated profile box. */
  const ChooseProfile := "--Choose profile--"

  const NoError := " "
  const InvalidFileMessage := "Invalid file. Please enter a valid configuration file."

  /** The first position of `x` in `items`, or -1. */
  function IndexOf(items: seq<string>, x: string): (i: int)
    ensures -1 <= i < |items|
    ensures i == -1 <==> x !in items
    ensures 0 <= i ==> items[i] == x && forall j :: 0 <= j < i ==> items[j] != x
  {
    if |items| == 0 then -1
    else if items[0] == x then 0
    else
      var r := IndexOf(items[1..], x);
      assert forall j :: 1 <= j < |items| ==> items[j] == items[1..][j - 1];
      if r == -1 then -1 else r + 1
  }

  /**
   * The profile box. As in Swing's default combo box model, the selection is an object, and the
   * selected index is the first position holding an equal item.
   */
  class ProfileComboBox {
    var items: seq<string>
    var selected: Option<string>
    var enabled: bool

    ghost predicate Valid()
      reads this
    {
      selected.Some? ==> selected.value in items
    }

    constructor ()
      ensures Valid() && items == [] && selected == None && enabled
    {
      items := [];
      selected := None;
      enabled := true;
    }

    /** `getSelectedIndex`. */
    function SelectedIndex(): (i: int)
      reads this
      requires Valid()
      ensures -1 <= i < |items|
      ensures i == -1 <==> selected.None?
      ensures 0 <= i ==> items[i] == selected.value && forall j :: 0 <= j < i ==> items[j] != selected.value
    {
      if selected.None? then -1 else IndexOf(items, selected.value)
    }

    /** `removeAllItems`: no items, nothing selected. */
    method RemoveAllItems()
      modifies this
      ensures Valid() && items == [] && selected == None && enabled == old(enabled)
    {
      items := [];
      selected := None;
    }

    /** `addItem`: appends; the first item added to an empty box with no selection becomes selected. */
    method AddItem(item: string)
      requires Valid()
      modifies this
      ensures Valid() && items == old(items) + [item] && enabled == old(enabled)
      ensures selected == if old(items) == [] && old(selected) == None then Some(item) else old(selected)
    {
      items := items + [item];
      if |items| == 1 && selected == None {
        selected := Some(item);
      }
    }

    /** `setSelectedItem`: selects an item the box holds; an item it does not hold is ignored. */
    method SetSelectedItem(item: string)
      requires Valid()
      modifies this
      ensures Valid() && items == old(items) && enabled == old(enabled)
      ensures selected == if item in old(items) then Some(item) else old(selected)
    {
      if item in items {
        selected := Some(item);
      }
    }

    /** `setSelectedIndex`: -1 clears the selection, any other position selects its item. */
    method SetSelectedIndex(i: int)
      requires Valid() && -1 <= i < |items|
      modifies this
      ensures Valid() && items == old(items) && enabled == old(enabled)
      ensures selected == if i == -1 then None else Some(old(items)[i])
    {
      if i == -1 {
        selected := None;
      } else {
        selected := Some(items[i]);
      }
    }

    method SetEnabled(b: bool)
      modifies this
      ensures enabled == b && items == old(items) && selected == old(selected)
    {
      enabled := b;
    }
  }

  /** `getSelectedProfile`: the selected item's text, or "" when nothing is selected. */
  function GetSelectedProfile(combo: ProfileComboBox): (profile: string)
    reads combo
    ensures combo.selected.None? ==> profile == ""
    ensures combo.selected.Some? ==> profile == combo.selected.value
  {
    match combo.selected
    case None => ""
    case Some(item) => item
  }

  function Names(profiles: seq<EclipseFormatter.Profile>): (names: seq<string>)
    ensures |names| == |profiles|
    ensures forall i :: 0 <= i < |profiles| ==> names[i] == profiles[i].name
  {
    seq(|profiles|, i requires 0 <= i < |profiles| => profiles[i].name)
  }

  /**
   * The item `loadEclipseFormatterFileForPreview` leaves selected: the active profile when the file
   * has a profile of that name; else the only profile when there is exactly one; else the placeholder.
   */
  function Preselection(profiles: seq<EclipseFormatter.Profile>, activeProfile: Option<string>): (entry: string)
    ensures activeProfile.Some? && activeProfile.value in Names(profiles) ==> entry == activeProfile.value
    ensures !(activeProfile.Some? && activeProfile.value in Names(profiles)) && |profiles| == 1 ==>
              entry == profiles[0].name
    ensures !(activeProfile.Some? && activeProfile.value in Names(profiles)) && |profiles| != 1 ==>
              entry == ChooseProfile
  {
    if activeProfile.Some? && activeProfile.value in Names(profiles) then activeProfile.value
    else if |profiles| == 1 then profiles[0].name
    else ChooseProfile
  }

  /**
   * `selectProfileOrFallback`: the entry to select when there is one; else position 1 when the file
   * has exactly one profile; else the placeholder at position 0.
   */
  method SelectProfileOrFallback(combo: ProfileComboBox, entryToSelect: Option<string>,
                                 profiles: seq<EclipseFormatter.Profile>)
    requires combo.Valid() && |combo.items| == |profiles| + 1
    modifies combo
    ensures combo.Valid() && combo.items == old(combo.items) && combo.enabled == old(combo.enabled)
    ensures entryToSelect.Some? ==>
              combo.selected == if entryToSelect.value in old(combo.items) then entryToSelect else old(combo.selected)
    ensures entryToSelect.None? && |profiles| == 1 ==> combo.selected == Some(old(combo.items)[1])
    ensures entryToSelect.None? && |profiles| != 1 ==> combo.selected == Some(old(combo.items)[0])
  {
    if entryToSelect.Some? {
      combo.SetSelectedItem(entryToSelect.value);
    } else if |profiles| == 1 {
      combo.SetSelectedIndex(1);
    } else {
      combo.SetSelectedIndex(0);
    }
  }

  /**
   * The profile-list part of `loadEclipseFormatterFileForPreview`. The box is cleared and disabled;
   * only for an existing XML file whose profiles can be read does it receive the placeholder and the
   * profile names in file order, a pre-selection, and become enabled again. `profiles` is `None`
   * when reading the file throws.
   */
  method LoadEclipseFormatterFileForPreview(combo: ProfileComboBox, c: Classifier, nameExt: string, fileExists: bool,
                                            profiles: Option<seq<EclipseFormatter.Profile>>, activeProfile: Option<string>)
    requires combo.Valid()
    modifies combo
    ensures combo.Valid()
    ensures var populated := fileExists && c.isXMLConfigurationFile(nameExt) && profiles.Some?;
            combo.items == (if populated then [ChooseProfile] + Names(profiles.value) else []) &&
            combo.selected == (if populated then Some(Preselection(profiles.value, activeProfile)) else None) &&
            combo.enabled == populated
    ensures !(fileExists && c.isXMLConfigurationFile(nameExt) && profiles.Some?) ==> combo.SelectedIndex() == -1
    ensures fileExists && c.isXMLConfigurationFile(nameExt) && profiles.Some? ==>
              (combo.SelectedIndex() == 0 <==> Preselection(profiles.value, activeProfile) == ChooseProfile)
    ensures fileExists && c.isXMLConfigurationFile(nameExt) && profiles.Some? && ChooseProfile !in Names(profiles.value) ==>
              var matched := activeProfile.Some? && activeProfile.value in Names(profiles.value);
              (combo.SelectedIndex() == 0 <==> !matched && |profiles.value| != 1) &&
              (matched ==> combo.items[combo.SelectedIndex()] == activeProfile.value)
  {
    combo.SetEnabled(false);
    combo.RemoveAllItems();
    if fileExists && c.isXMLConfigurationFile(nameExt) && profiles.Some? {
      var ps := profiles.value;
      combo.AddItem(ChooseProfile);
      var entryToSelect: Option<string> := None;
      var i := 0;
      while i < |ps|
        invariant 0 <= i <= |ps|
        invariant combo.Valid()
        invariant combo.items == [ChooseProfile] + Names(ps[..i])
        invariant combo.selected == Some(ChooseProfile) && !combo.enabled
        invariant entryToSelect == if activeProfile.Some? && activeProfile.value in Names(ps[..i]) then activeProfile else None
      {
        assert Names(ps[..i + 1]) == Names(ps[..i]) + [ps[i].name];
        combo.AddItem(ps[i].name);
        if activeProfile.Some? && activeProfile.value == ps[i].name {
          entryToSelect := Some(ps[i].name);
        }
        i := i + 1;
      }
      assert ps[..i] == ps;
      SelectProfileOrFallback(combo, entryToSelect, ps);
      combo.SetEnabled(true);
      PlaceholderIndexIffPreselected(ps, activeProfile);
      if ChooseProfile !in Names(ps) {
        PreselectedIndex(ps, activeProfile);
      }
    }
  }

  // ---------------------------------------------------------------------------------------------
  // valid()

  /** The outcome of `valid`: whether the settings may be stored, and the error label's text. */
  datatype Validation = Validation(ok: bool, errorText: string)

  /**
   * `valid`: the NetBeans formatter is always valid. With Eclipse, an XML file with the placeholder
   * selected is invalid; else project preferences make it valid; else the file must exist and be of
   * one of the three kinds. `name` is the file's base name, `fileExists` whether the path exists.
   */
  function ValidSettings(c: Classifier, useEclipse: bool, name: string, fileExists: bool, selectedIndex: int,
                         useProjectPrefs: bool): (v: Validation)
    ensures var isXml := c.isXMLConfigurationFile(name);
            var known := isXml || c.isWorkspaceMechanicFile(name) || c.isProjectSetting(name);
            v.ok <==> !useEclipse || (!(isXml && selectedIndex == 0) && (useProjectPrefs || (fileExists && known)))
    ensures v.errorText == InvalidFileMessage <==>
              useEclipse && !v.ok && !(c.isXMLConfigurationFile(name) && selectedIndex == 0)
    ensures v.errorText == NoError || v.errorText == InvalidFileMessage
  {
    if useEclipse then
      var isXml := c.isXMLConfigurationFile(name);
      var isEpf := c.isWorkspaceMechanicFile(name);
      var isProjectSetting := c.isProjectSetting(name);
      if isXml && selectedIndex == 0 then Validation(false, NoError)
      else if useProjectPrefs then Validation(true, NoError)
      else if fileExists && (isXml || isEpf || isProjectSetting) then Validation(true, NoError)
      else Validation(false, InvalidFileMessage)
    else
      Validation(true, NoError)
  }

  /** With the placeholder selected for an XML file, even project preferences do not make it valid. */
  lemma PlaceholderBlocksXml(c: Classifier, name: string, fileExists: bool, useProjectPrefs: bool)
    requires c.isXMLConfigurationFile(name)
    ensures !ValidSettings(c, true, name, fileExists, 0, useProjectPrefs).ok
    ensures ValidSettings(c, false, name, fileExists, 0, useProjectPrefs).ok
  {
  }

  /** Whatever the profiles are called, the placeholder's position is selected iff the placeholder text is preselected. */
  lemma PlaceholderIndexIffPreselected(profiles: seq<EclipseFormatter.Profile>, activeProfile: Option<string>)
    ensures IndexOf([ChooseProfile] + Names(profiles), Preselection(profiles, activeProfile)) == 0 <==>
            Preselection(profiles, activeProfile) == ChooseProfile
  {
  }

  /**
   * After loading an XML file whose profiles are not named like the placeholder, the placeholder
   * stays selected (position 0) exactly when the active profile is not in the file and the file does
   * not hold exactly one profile; otherwise the selected position is that of a real profile.
   */
  lemma PreselectedIndex(profiles: seq<EclipseFormatter.Profile>, activeProfile: Option<string>)
    requires ChooseProfile !in Names(profiles)
    ensures var items := [ChooseProfile] + Names(profiles);
            var matched := activeProfile.Some? && activeProfile.value in Names(profiles);
            var index := IndexOf(items, Preselection(profiles, activeProfile));
            (index == 0 <==> !matched && |profiles| != 1) &&
            (matched ==> 1 <= index && items[index] == activeProfile.value) &&
            (!matched && |profiles| == 1 ==> index == 1)
  {
    var items := [ChooseProfile] + Names(profiles);
    var entry := Preselection(profiles, activeProfile);
    var index := IndexOf(items, entry);
    if entry != ChooseProfile {
      assert entry in Names(profiles) by {
        if !(activeProfile.Some? && activeProfile.value in Names(profiles)) {
          assert Names(profiles)[0] == entry;
        }
      }
      assert entry in items;
      assert items[0] != entry;
      if |profiles| == 1 && !(activeProfile.Some? && activeProfile.value in Names(profiles)) {
        assert items[1] == entry;
      }
    }
  }

  /**
   * Loading an XML file that lacks the stored profile and holds several profiles leaves the
   * placeholder selected, so the Eclipse settings are invalid until the user picks a profile.
   */
  lemma SeveralProfilesNeedChoice(c: Classifier, name: string, profiles: seq<EclipseFormatter.Profile>,
                                  activeProfile: string, fileExists: bool, useProjectPrefs: bool)
    requires c.isXMLConfigurationFile(name)
    requires ChooseProfile !in Names(profiles) && |profiles| >= 2 && activeProfile !in Names(profiles)
    ensures var index := IndexOf([ChooseProfile] + Names(profiles), Preselection(profiles, Some(activeProfile)));
            !ValidSettings(c, true, name, fileExists, index, useProjectPrefs).ok
  {
    PreselectedIndex(profiles, Some(activeProfile));
  }

  /**
   * A profile named like the placeholder is indistinguishable from it: selecting it yields position
   * 0, which `valid` reads as "no profile chosen".
   */
  lemma PlaceholderNamedProfile(c: Classifier, name: string, settings: map<string, string>, fileExists: bool)
    requires c.isXMLConfigurationFile(name)
    ensures var profiles := [EclipseFormatter.Profile(ChooseProfile, settings)];
            var entry := Preselection(profiles, Some(ChooseProfile));
            var index := IndexOf([ChooseProfile] + Names(profiles), entry);
            entry == ChooseProfile && index == 0 && !ValidSettings(c, true, name, fileExists, index, true).ok
  {
    var profiles := [EclipseFormatter.Profile(ChooseProfile, settings)];
    assert Names(profiles) == [ChooseProfile];
  }

  // ---------------------------------------------------------------------------------------------
  // load()

  /** What `load` puts into the panel. */
  datatype PanelSettings = PanelSettings(
    location: string,
    activeProfile: string,
    useEclipse: bool,
    showNotifications: bool,
    enableSaveAction: bool,
    preserveBreakpoints: bool,
    useProjectPrefs: bool)

  /** `load` with its defaults: empty location and profile, NetBeans, notifications on, no save action. */
  function Load(store: Store): (s: PanelSettings)
    ensures store == EmptyStore ==> s == PanelSettings("", "", false, true, false, true, true)
    ensures store.location.Some? ==> s.location == store.location.value
    ensures store.activeProfile.Some? ==> s.activeProfile == store.activeProfile.value
    ensures store.enabled.Some? ==> s.useEclipse == store.enabled.value
    ensures store.showNotifications.Some? ==> s.showNotifications == store.showNotifications.value
    ensures store.enableSaveAction.Some? ==> s.enableSaveAction == store.enableSaveAction.value
    ensures store.preserveBreakpoints.Some? ==> s.preserveBreakpoints == store.preserveBreakpoints.value
    ensures store.useProjectPrefs.Some? ==> s.useProjectPrefs == store.useProjectPrefs.value
    ensures store.location.None? ==> s.location == ""
    ensures store.activeProfile.None? ==> s.activeProfile == ""
    ensures store.enabled.None? ==> !s.useEclipse
    ensures store.showNotifications.None? ==> s.showNotifications
    ensures store.enableSaveAction.None? ==> !s.enableSaveAction
    ensures store.preserveBreakpoints.None? ==> s.preserveBreakpoints
    ensures store.useProjectPrefs.None? ==> s.useProjectPrefs
  {
    PanelSettings(
      store.location.GetOr(""),
      store.activeProfile.GetOr(""),
      store.enabled.GetOr(false),
      store.showNotifications.GetOr(true),
      store.enableSaveAction.GetOr(false),
      store.preserveBreakpoints.GetOr(true),
      store.useProjectPrefs.GetOr(true))
  }

  /**
   * With nothing stored, the panel and the format action disagree on two defaults: the panel shows
   * notifications as switched on while the action treats them as off, and the panel shows an empty
   * location while the action has none at all. The other shared defaults agree.
   */
  lemma StoredDefaultsDisagree()
    ensures Load(EmptyStore).showNotifications
    ensures !FormatJavaAction.ReadSettings(EmptyStore).showNotifications
    ensures Load(EmptyStore).location == ""
    ensures FormatJavaAction.ReadSettings(EmptyStore).location == None
    ensures Load(EmptyStore).useEclipse == FormatJavaAction.ReadSettings(EmptyStore).enabled
    ensures Load(EmptyStore).preserveBreakpoints == FormatJavaAction.ReadSettings(EmptyStore).preserveBreakpoints
    ensures Load(EmptyStore).useProjectPrefs == FormatJavaAction.ReadSettings(EmptyStore).useProjectPrefs
    ensures Load(EmptyStore).activeProfile == FormatJavaAction.ReadSettings(EmptyStore).activeProfile
  {
  }
}
