/**
 * The per-request decision of `FormatJavaAction`: format with the Eclipse formatter or fall back to
 * the NetBeans formatter, which configuration file to use, how the two load failures are reported,
 * and which notification and status texts are shown.
 *
 * The IDE is observed through the events the action produces, in order. Host queries (guarded
 * sections, the file type, the owning project, file existence) are inputs; how
 * `reFormatWithEclipse` ends is an input too, since `EclipseFormatterUtilities` is not part of this
 * model.
 */
module FormatJavaAction {
  import opened Wrappers
  import opened Preferences
  import opened Strings
  import EclipseFormatter

  /** What the action does to the IDE. */
  datatype Event =
    | Notification(title: Title, detail: string)
    | StatusText(title: Title, message: string)
    | ErrorDialog(dialog: Dialog)
    | ReformatWithNetBeans(forSave: bool)
    | ReformatWithEclipse(formatterFile: string, formatterProfile: string, forSave: bool, preserveBreakpoints: bool)
    | NullPointerThrown

  /** How far the document leads to a project preference file under `.settings/`. */
  datatype ProjectContext =
    | NoFileObject
    | NoOwningProject
    | ProjectDirectory(preferenceFile: Option<string>)

  /** How `reFormatWithEclipse` ends. */
  datatype EclipseOutcome = Completed | ProfileNotFoundThrown | CannotLoadConfigurationThrown

  /** One format request: the document's state, its active preferences and the project lookup. */
  datatype Request = Request(
    hasGuardedSections: bool,
    isJava: bool,
    store: Store,
    project: ProjectContext,
    forSave: bool)

  /** The preferences the action reads, after the defaults it passes to the store. */
  datatype ActionSettings = ActionSettings(
    enabled: bool,
    showNotifications: bool,
    preserveBreakpoints: bool,
    useProjectPrefs: bool,
    location: Option<string>,
    activeProfile: string)

  /** The title of a notification or status line names the formatter used. */
  datatype Title = FormatUsingNetBeans | FormatUsingEclipse

  function TitleText(t: Title): string {
    match t
    case FormatUsingNetBeans => "Format using NetBeans formatter"
    case FormatUsingEclipse => "Format using Eclipse formatter"
  }

  /** The text a status event puts in the status bar: the title, and for Eclipse ": " and the message. */
  function StatusBarText(e: Event): string
    requires e.StatusText?
  {
    match e.title
    case FormatUsingNetBeans => TitleText(e.title)
    case FormatUsingEclipse => TitleText(e.title) + ": " + e.message
  }

  /** The two error dialogs. */
  datatype Dialog = ProfileNotFoundDialog(profile: string, file: string) | CannotLoadDialog(file: string)
  const GuardedSectionsReason := "Because file contains guarded sections. "
  const NotJavaReason := "Because file isn't a Java file. "

  const ProfileDialogHead := "<html>Profile '"
  const ProfileDialogMiddle := "' not found in <tt>"
  const ProfileDialogTail :=
    "</tt><br><br>Please configure a valid one in the project properties OR at Tools|Options|Java|Eclipse Formatter!"
  const LoadDialogHead := "<html>Could not find configuration file "
  const LoadDialogTail := ".<br>Make sure the file exists and it can be read."

  function DialogText(d: Dialog): string {
    match d
    case ProfileNotFoundDialog(profile, file) =>
      ProfileDialogHead + profile + ProfileDialogMiddle + file + ProfileDialogTail
    case CannotLoadDialog(file) =>
      LoadDialogHead + file + LoadDialogTail
  }

  /** The preferences with the action's defaults: disabled, silent, breakpoints kept, project prefs used. */
  function ReadSettings(store: Store): (s: ActionSettings)
    ensures store == EmptyStore ==> s == ActionSettings(false, false, true, true, None, "")
    ensures store.enabled.Some? ==> s.enabled == store.enabled.value
    ensures store.showNotifications.Some? ==> s.showNotifications == store.showNotifications.value
    ensures store.preserveBreakpoints.Some? ==> s.preserveBreakpoints == store.preserveBreakpoints.value
    ensures store.useProjectPrefs.Some? ==> s.useProjectPrefs == store.useProjectPrefs.value
    ensures s.location == store.location
    ensures store.activeProfile.Some? ==> s.activeProfile == store.activeProfile.value
    ensures store.enabled.None? ==> !s.enabled
    ensures store.showNotifications.None? ==> !s.showNotifications
    ensures store.preserveBreakpoints.None? ==> s.preserveBreakpoints
    ensures store.useProjectPrefs.None? ==> s.useProjectPrefs
    ensures store.activeProfile.None? ==> s.activeProfile == ""
  {
    ActionSettings(
      store.enabled.GetOr(false),
      store.showNotifications.GetOr(false),
      store.preserveBreakpoints.GetOr(true),
      store.useProjectPrefs.GetOr(true),
      store.location,
      store.activeProfile.GetOr(""))
  }

  /** The Eclipse formatter is tried only for a Java file without guarded sections, when enabled. */
  predicate UsesEclipse(hasGuardedSections: bool, isJava: bool, enabled: bool) {
    !hasGuardedSections && isJava && enabled
  }

  /** The project's preference file, when project preferences are on and it exists; else the global location. */
  function EffectiveFormatterFile(location: Option<string>, useProjectPrefs: bool, project: ProjectContext): (file: Option<string>)
    ensures useProjectPrefs && project.ProjectDirectory? && project.preferenceFile.Some? ==>
              file == project.preferenceFile
    ensures !(useProjectPrefs && project.ProjectDirectory? && project.preferenceFile.Some?) ==>
              file == location
  {
    if useProjectPrefs && project.ProjectDirectory? && project.preferenceFile.Some? then project.preferenceFile
    else location
  }

  /** The notification detail of a fallback: which of the two document conditions caused it. */
  function FallbackDetail(hasGuardedSections: bool, isEclipseFormatterEnabled: bool, isJava: bool): string {
    (if hasGuardedSections && isEclipseFormatterEnabled then GuardedSectionsReason else "") +
    (if !isJava then NotJavaReason else "")
  }

  /** The load-failure dialog names the file. */
  lemma LoadDialogNamesFile(file: string)
    ensures IsInfix(file, DialogText(CannotLoadDialog(file)))
  {
    InfixAtEnd(LoadDialogHead, file);
    InfixExtends(file, LoadDialogHead + file, LoadDialogTail);
  }

  /** The missing-profile dialog names the profile and the file. */
  lemma ProfileDialogNamesProfileAndFile(profile: string, file: string)
    ensures IsInfix(profile, DialogText(ProfileNotFoundDialog(profile, file)))
    ensures IsInfix(file, DialogText(ProfileNotFoundDialog(profile, file)))
  {
    var s1 := ProfileDialogHead + profile;
    var s2 := s1 + ProfileDialogMiddle;
    var s3 := s2 + file;
    InfixAtEnd(ProfileDialogHead, profile);
    InfixExtends(profile, s1, ProfileDialogMiddle);
    InfixExtends(profile, s2, file);
    InfixExtends(profile, s3, ProfileDialogTail);
    InfixAtEnd(s2, file);
    InfixExtends(file, s3, ProfileDialogTail);
  }

  /** The Eclipse status bar reads the title, ": " and the message; the NetBeans one only the title. */
  lemma StatusBarTexts(msg: string)
    ensures var text := StatusBarText(StatusText(FormatUsingEclipse, msg));
            var head := TitleText(FormatUsingEclipse) + ": ";
            StartsWith(text, head) && EndsWith(text, msg) && |text| == |head| + |msg|
    ensures StatusBarText(StatusText(FormatUsingNetBeans, msg)) == TitleText(FormatUsingNetBeans)
  {
    var text := StatusBarText(StatusText(FormatUsingEclipse, msg));
    var head := TitleText(FormatUsingEclipse) + ": ";
    assert text == head + msg;
    assert text[..|head|] == head;
    assert text[|text| - |msg|..] == msg;
  }

  /** The guarded-sections reason leads the detail exactly when it applies; the non-Java one ends it. */
  lemma FallbackDetailReasons(hasGuardedSections: bool, isEclipseFormatterEnabled: bool, isJava: bool)
    ensures var detail := FallbackDetail(hasGuardedSections, isEclipseFormatterEnabled, isJava);
            (StartsWith(detail, GuardedSectionsReason) <==> hasGuardedSections && isEclipseFormatterEnabled) &&
            (EndsWith(detail, NotJavaReason) <==> !isJava) &&
            (detail == "" <==> !(hasGuardedSections && isEclipseFormatterEnabled) && isJava)
  {
    var detail := FallbackDetail(hasGuardedSections, isEclipseFormatterEnabled, isJava);
    var g := GuardedSectionsReason;
    var n := NotJavaReason;
    if hasGuardedSections && isEclipseFormatterEnabled {
      assert detail[..|g|] == g;
      if isJava {
        assert detail == g;
        assert detail[|detail| - |n|] != n[0];
      } else {
        assert detail[|detail| - |n|..] == n;
      }
    } else if !isJava {
      assert detail == n;
      assert |detail| < |g|;
    }
  }

  predicate HasEclipseRun(events: seq<Event>) {
    exists e :: e in events && e.ReformatWithEclipse?
  }

  predicate HasErrorDialog(events: seq<Event>) {
    exists e :: e in events && e.ErrorDialog?
  }

  predicate HasNotification(events: seq<Event>) {
    exists e :: e in events && e.Notification?
  }

  predicate HasStatus(events: seq<Event>) {
    exists e :: e in events && e.StatusText?
  }

  function NetBeansEvents(showNotifications: bool, hasGuardedSections: bool, isEclipseFormatterEnabled: bool,
                          isJava: bool, forSave: bool): seq<Event> {
    (if showNotifications
     then [Notification(FormatUsingNetBeans, FallbackDetail(hasGuardedSections, isEclipseFormatterEnabled, isJava))]
     else []) +
    [StatusText(FormatUsingNetBeans, ""), ReformatWithNetBeans(forSave)]
  }

  /** `formatWithNetBeans`: an optional notification with the reasons, the status line, the NetBeans reformat. */
  method FormatWithNetBeans(showNotifications: bool, hasGuardedSections: bool, isEclipseFormatterEnabled: bool,
                            isJava: bool, forSave: bool) returns (events: seq<Event>)
    ensures events == NetBeansEvents(showNotifications, hasGuardedSections, isEclipseFormatterEnabled, isJava, forSave)
    ensures events[|events| - 1] == ReformatWithNetBeans(forSave)
    ensures HasNotification(events) <==> showNotifications
  {
    events := [];
    if showNotifications {
      var detail := "";
      if hasGuardedSections && isEclipseFormatterEnabled {
        detail := detail + GuardedSectionsReason;
      }
      if !isJava {
        detail := detail + NotJavaReason;
      }
      assert detail == FallbackDetail(hasGuardedSections, isEclipseFormatterEnabled, isJava);
      events := events + [Notification(FormatUsingNetBeans, detail)];
    }
    events := events + [StatusText(FormatUsingNetBeans, "")];
    events := events + [ReformatWithNetBeans(forSave)];
    assert showNotifications ==> events[0].Notification?;
  }

  /** The status text of an Eclipse run, by the kind of the configuration file. */
  function StatusMessage(c: Classifier, file: string, profile: string): (msg: string)
    ensures KindOf(c, file) == Unrecognised <==> msg == ""
  {
    match KindOf(c, file)
    case WorkspaceMechanic => "Using " + file
    case Xml => "Using profile '" + profile + "' from " + file
    case ProjectSettings => "Using " + file
    case Unrecognised => ""
  }

  /** XML status names the profile and the file; the key-value kinds name just the file; else empty. */
  lemma StatusNamesSource(c: Classifier, file: string, profile: string)
    ensures var msg := StatusMessage(c, file, profile);
            (KindOf(c, file) == Xml ==> IsInfix(profile, msg) && IsInfix(file, msg) && EndsWith(msg, file)) &&
            (KindOf(c, file) in {WorkspaceMechanic, ProjectSettings} ==> msg == "Using " + file && EndsWith(msg, file)) &&
            (KindOf(c, file) == Unrecognised ==> msg == "")
  {
    var msg := StatusMessage(c, file, profile);
    match KindOf(c, file)
    case Xml =>
      var head := "Using profile '";
      assert msg == head + profile + ("' from " + file);
      assert msg[|head|..|head| + |profile|] == profile;
      assert msg[|msg| - |file|..|msg|] == file;
    case WorkspaceMechanic =>
      assert msg[|msg| - |file|..] == file;
    case ProjectSettings =>
      assert msg[|msg| - |file|..] == file;
    case Unrecognised =>
  }

  function EclipseReport(c: Classifier, file: string, profile: string, showNotifications: bool): seq<Event> {
    var msg := StatusMessage(c, file, profile);
    (if showNotifications then [Notification(FormatUsingEclipse, msg)] else []) +
    [StatusText(FormatUsingEclipse, msg)]
  }

  /** What follows the Eclipse reformat, by how it ended. */
  function EclipseTail(outcome: EclipseOutcome, c: Classifier, file: string, profile: string, showNotifications: bool)
    : seq<Event>
  {
    match outcome
    case CannotLoadConfigurationThrown => [ErrorDialog(CannotLoadDialog(file))]
    case ProfileNotFoundThrown =>
      [ErrorDialog(ProfileNotFoundDialog(profile, file))] + EclipseReport(c, file, profile, showNotifications)
    case Completed => EclipseReport(c, file, profile, showNotifications)
  }

  /** After an Eclipse run: a load failure ends with its dialog alone; otherwise the run is reported. */
  lemma EclipseTailShape(outcome: EclipseOutcome, c: Classifier, file: string, profile: string, showNotifications: bool)
    ensures var tail := EclipseTail(outcome, c, file, profile, showNotifications);
            var status := StatusText(FormatUsingEclipse, StatusMessage(c, file, profile));
            (outcome == CannotLoadConfigurationThrown ==> tail == [ErrorDialog(CannotLoadDialog(file))]) &&
            (outcome == ProfileNotFoundThrown ==> tail[0] == ErrorDialog(ProfileNotFoundDialog(profile, file))) &&
            (outcome != CannotLoadConfigurationThrown ==> |tail| >= 1 && tail[|tail| - 1] == status) &&
            (HasStatus(tail) <==> outcome != CannotLoadConfigurationThrown) &&
            (HasNotification(tail) <==> outcome != CannotLoadConfigurationThrown && showNotifications) &&
            (HasErrorDialog(tail) <==> outcome != Completed) &&
            !HasEclipseRun(tail)
  {
    var tail := EclipseTail(outcome, c, file, profile, showNotifications);
    var report := EclipseReport(c, file, profile, showNotifications);
    var msg := StatusMessage(c, file, profile);
    assert report[|report| - 1] == StatusText(FormatUsingEclipse, msg);
    assert showNotifications ==> Notification(FormatUsingEclipse, msg) in report;
    assert forall e :: e in report ==> e.Notification? || e.StatusText?;
    assert report[|report| - 1] in report;
    if outcome == CannotLoadConfigurationThrown {
      assert forall e :: e in tail ==> e.ErrorDialog?;
      assert tail[0] in tail;
    } else if outcome == ProfileNotFoundThrown {
      assert tail == [ErrorDialog(ProfileNotFoundDialog(profile, file))] + report;
      assert tail[0] in tail;
      assert tail[|tail| - 1] == report[|report| - 1];
    } else {
      assert tail == report;
    }
  }

  /** Where a request goes. */
  datatype Route = NetBeansFallback | NoLocation | Eclipse(file: string)

  function RouteOf(req: Request, fileExists: string -> bool): Route {
    var s := ReadSettings(req.store);
    if !UsesEclipse(req.hasGuardedSections, req.isJava, s.enabled) then NetBeansFallback
    else match EffectiveFormatterFile(s.location, s.useProjectPrefs, req.project)
      case None => NoLocation
      case Some(file) => if fileExists(file) then Eclipse(file) else NetBeansFallback
  }

  /** The events of one request. */
  function FormatEvents(req: Request, c: Classifier, fileExists: string -> bool, reformat: (string, string) -> EclipseOutcome)
    : seq<Event>
  {
    var s := ReadSettings(req.store);
    match RouteOf(req, fileExists)
    case NetBeansFallback =>
      NetBeansEvents(s.showNotifications, req.hasGuardedSections, s.enabled, req.isJava, req.forSave)
    case NoLocation => [NullPointerThrown]
    case Eclipse(file) =>
      [ReformatWithEclipse(file, s.activeProfile, req.forSave, s.preserveBreakpoints)] +
      EclipseTail(reformat(file, s.activeProfile), c, file, s.activeProfile, s.showNotifications)
  }

  /** `format`: the decision gate, the effective file, the error mapping and the status message. */
  method Format(req: Request, c: Classifier, fileExists: string -> bool, reformat: (string, string) -> EclipseOutcome)
    returns (events: seq<Event>)
    ensures events == FormatEvents(req, c, fileExists, reformat)
  {
    var hasGuardedSections := req.hasGuardedSections;
    var isJava := req.isJava;
    var pref := ReadSettings(req.store);
    var isEclipseFormatterEnabled := pref.enabled;
    var showNotifications := pref.showNotifications;
    var preserveBreakpoints := pref.preserveBreakpoints;
    var useProjectPrefs := pref.useProjectPrefs;
    if !hasGuardedSections && isJava && isEclipseFormatterEnabled {
      var formatterFile := pref.location;
      var formatterProfile := pref.activeProfile;
      if useProjectPrefs {
        if !req.project.NoFileObject? {
          if req.project.ProjectDirectory? {
            if req.project.preferenceFile.Some? {
              formatterFile := req.project.preferenceFile;
            }
          }
        }
      }
      assert formatterFile == EffectiveFormatterFile(pref.location, useProjectPrefs, req.project);
      if formatterFile.None? {
        assert RouteOf(req, fileExists) == NoLocation;
        return [NullPointerThrown];
      }
      var file := formatterFile.value;
      if !fileExists(file) {
        assert RouteOf(req, fileExists) == NetBeansFallback;
        events := FormatWithNetBeans(showNotifications, hasGuardedSections, isEclipseFormatterEnabled, isJava, req.forSave);
        return;
      }
      assert RouteOf(req, fileExists) == Eclipse(file);
      var head := ReformatWithEclipse(file, formatterProfile, req.forSave, preserveBreakpoints);
      events := [head];
      var outcome := reformat(file, formatterProfile);
      if outcome == ProfileNotFoundThrown {
        events := events + [ErrorDialog(ProfileNotFoundDialog(formatterProfile, file))];
      } else if outcome == CannotLoadConfigurationThrown {
        events := events + [ErrorDialog(CannotLoadDialog(file))];
        return;
      }
      var msg := "";
      if c.isWorkspaceMechanicFile(file) {
        msg := "Using " + file;
      } else if c.isXMLConfigurationFile(file) {
        msg := "Using profile '" + formatterProfile + "' from " + file;
      } else if c.isProjectSetting(file) {
        msg := "Using " + file;
      }
      assert msg == StatusMessage(c, file, formatterProfile);
      if showNotifications {
        events := events + [Notification(FormatUsingEclipse, msg)];
      }
      events := events + [StatusText(FormatUsingEclipse, msg)];
      assert events == [head] + EclipseTail(outcome, c, file, formatterProfile, showNotifications);
    } else {
      assert RouteOf(req, fileExists) == NetBeansFallback;
      events := FormatWithNetBeans(showNotifications, hasGuardedSections, isEclipseFormatterEnabled, isJava, req.forSave);
    }
  }

  // ---------------------------------------------------------------------------------------------
  // Properties of the decision

  lemma NetBeansEventsShape(showNotifications: bool, hasGuardedSections: bool, isEclipseFormatterEnabled: bool,
                            isJava: bool, forSave: bool)
    ensures var events := NetBeansEvents(showNotifications, hasGuardedSections, isEclipseFormatterEnabled, isJava, forSave);
            !HasEclipseRun(events) && !HasErrorDialog(events) && HasStatus(events) &&
            StatusText(FormatUsingNetBeans, "") in events &&
            events[|events| - 1] == ReformatWithNetBeans(forSave) &&
            (forall e :: e in events && e.StatusText? ==> e.title == FormatUsingNetBeans) &&
            (HasNotification(events) <==> showNotifications)
  {
    var events := NetBeansEvents(showNotifications, hasGuardedSections, isEclipseFormatterEnabled, isJava, forSave);
    assert events[|events| - 2].StatusText?;
    if showNotifications {
      assert events[0].Notification?;
    }
  }

  /**
   * The Eclipse formatter runs exactly when the gate is open and the effective configuration file
   * exists; otherwise no Eclipse run and no error dialog happen.
   */
  lemma EclipseOnlyWhenGateOpen(req: Request, c: Classifier, fileExists: string -> bool, reformat: (string, string) -> EclipseOutcome)
    ensures var events := FormatEvents(req, c, fileExists, reformat);
            var s := ReadSettings(req.store);
            var file := EffectiveFormatterFile(s.location, s.useProjectPrefs, req.project);
            (HasEclipseRun(events) <==>
               UsesEclipse(req.hasGuardedSections, req.isJava, s.enabled) && file.Some? && fileExists(file.value)) &&
            (!HasEclipseRun(events) ==> !HasErrorDialog(events))
  {
    var s := ReadSettings(req.store);
    var events := FormatEvents(req, c, fileExists, reformat);
    match RouteOf(req, fileExists)
    case NetBeansFallback =>
      NetBeansEventsShape(s.showNotifications, req.hasGuardedSections, s.enabled, req.isJava, req.forSave);
    case NoLocation =>
    case Eclipse(file) =>
      assert events[0].ReformatWithEclipse?;
  }

  /** A closed gate sends the request to NetBeans, with the reasons in the notification detail. */
  lemma GateClosedFallsBack(req: Request, c: Classifier, fileExists: string -> bool, reformat: (string, string) -> EclipseOutcome)
    requires !UsesEclipse(req.hasGuardedSections, req.isJava, ReadSettings(req.store).enabled)
    ensures var s := ReadSettings(req.store);
            FormatEvents(req, c, fileExists, reformat) ==
              NetBeansEvents(s.showNotifications, req.hasGuardedSections, s.enabled, req.isJava, req.forSave)
  {
  }

  /**
   * A missing configuration file is a silent fallback: NetBeans formats, no dialog appears, and the
   * notification (if any) gives no reason, since the gate was open.
   */
  lemma MissingFileFallsBackSilently(req: Request, c: Classifier, fileExists: string -> bool,
                                     reformat: (string, string) -> EclipseOutcome, file: string)
    requires var s := ReadSettings(req.store);
             UsesEclipse(req.hasGuardedSections, req.isJava, s.enabled) &&
             EffectiveFormatterFile(s.location, s.useProjectPrefs, req.project) == Some(file) && !fileExists(file)
    ensures var s := ReadSettings(req.store);
            var events := FormatEvents(req, c, fileExists, reformat);
            events == NetBeansEvents(s.showNotifications, false, true, true, req.forSave) &&
            !HasErrorDialog(events) &&
            (s.showNotifications ==> events[0] == Notification(FormatUsingNetBeans, ""))
  {
    var s := ReadSettings(req.store);
    NetBeansEventsShape(s.showNotifications, false, true, true, req.forSave);
  }

  /** A configuration that cannot be loaded: one dialog naming the file, then the action returns. */
  lemma CannotLoadReturnsEarly(req: Request, c: Classifier, fileExists: string -> bool,
                               reformat: (string, string) -> EclipseOutcome, file: string)
    requires RouteOf(req, fileExists) == Eclipse(file)
    requires reformat(file, ReadSettings(req.store).activeProfile) == CannotLoadConfigurationThrown
    ensures var s := ReadSettings(req.store);
            var events := FormatEvents(req, c, fileExists, reformat);
            events == [ReformatWithEclipse(file, s.activeProfile, req.forSave, s.preserveBreakpoints),
                       ErrorDialog(CannotLoadDialog(file))] &&
            !HasStatus(events) && !HasNotification(events)
  {
  }

  /** A missing profile: a dialog naming profile and file, and the action goes on to report the run. */
  lemma ProfileNotFoundContinues(req: Request, c: Classifier, fileExists: string -> bool,
                                 reformat: (string, string) -> EclipseOutcome, file: string)
    requires RouteOf(req, fileExists) == Eclipse(file)
    requires reformat(file, ReadSettings(req.store).activeProfile) == ProfileNotFoundThrown
    ensures var s := ReadSettings(req.store);
            var events := FormatEvents(req, c, fileExists, reformat);
            |events| >= 3 &&
            events[1] == ErrorDialog(ProfileNotFoundDialog(s.activeProfile, file)) &&
            events[|events| - 1] == StatusText(FormatUsingEclipse, StatusMessage(c, file, s.activeProfile))
  {
  }

  /**
   * Notifications appear only when enabled in the preferences; a status line is set on every path
   * except a load failure and a missing location.
   */
  lemma NotificationsAndStatus(req: Request, c: Classifier, fileExists: string -> bool, reformat: (string, string) -> EclipseOutcome)
    ensures var events := FormatEvents(req, c, fileExists, reformat);
            var s := ReadSettings(req.store);
            var route := RouteOf(req, fileExists);
            (HasNotification(events) ==> s.showNotifications) &&
            (HasStatus(events) <==>
               !route.NoLocation? &&
               !(route.Eclipse? && reformat(route.file, s.activeProfile) == CannotLoadConfigurationThrown)) &&
            (HasStatus(events) && s.showNotifications ==> HasNotification(events))
  {
    var s := ReadSettings(req.store);
    match RouteOf(req, fileExists)
    case NetBeansFallback =>
      NetBeansEventsShape(s.showNotifications, req.hasGuardedSections, s.enabled, req.isJava, req.forSave);
    case NoLocation =>
    case Eclipse(file) =>
      EclipseTailShape(reformat(file, s.activeProfile), c, file, s.activeProfile, s.showNotifications);
  }

  /** Without any stored preference the action leaves formatting to NetBeans. */
  lemma DefaultsUseNetBeans(req: Request, c: Classifier, fileExists: string -> bool, reformat: (string, string) -> EclipseOutcome)
    requires req.store == EmptyStore
    ensures FormatEvents(req, c, fileExists, reformat) == [StatusText(FormatUsingNetBeans, ""), ReformatWithNetBeans(req.forSave)]
  {
  }

  // ---------------------------------------------------------------------------------------------
  // How a missing profile reaches the user

  /** The outcome of the Eclipse reformat when it lets `readConfig`'s exception through. */
  function OutcomeOfReadConfig(r: Result<map<string, string>, EclipseFormatter.CannotLoadConfiguration>): EclipseOutcome {
    if r.Failure? then CannotLoadConfigurationThrown else Completed
  }

  /** The same, for the resolution that keeps a missing profile apart. */
  function OutcomeOfResolveConfig(r: Result<map<string, string>, EclipseFormatter.ResolveError>): EclipseOutcome {
    match r
    case Failure(ProfileMissing(_)) => ProfileNotFoundThrown
    case Failure(ConfigNotReadable) => CannotLoadConfigurationThrown
    case Success(_) => Completed
  }

  /**
   * As written, a profile name absent from a non-empty XML file is reported as an unreadable file:
   * the dialog says the file could not be found, and the status line is never set.
   */
  lemma MissingProfileShowsLoadDialog(env: EclipseFormatter.Environment, f: EclipseFormatter.Formatter, showNotifications: bool)
    requires KindOf(env.classifier, f.formatterFile) == Xml
    requires env.storage(f.formatterFile).profiles.Some?
    requires var ps := env.storage(f.formatterFile).profiles.value;
             forall i :: 0 <= i < |ps| ==> !EclipseFormatter.Matches(ps[i], f.formatterProfile)
    ensures var outcome := OutcomeOfReadConfig(EclipseFormatter.ReadConfigResult(env, f));
            outcome == CannotLoadConfigurationThrown &&
            EclipseTail(outcome, env.classifier, f.formatterFile, f.formatterProfile, showNotifications) ==
              [ErrorDialog(CannotLoadDialog(f.formatterFile))]
  {
    EclipseFormatter.MissingProfileIsWrapped(env, f);
  }

  /** A concrete case: profile "B" asked of a file that holds only profile "A". */
  lemma MissingProfileCounterexample()
    ensures var env := EclipseFormatter.Environment(
              Classifier(n => false, n => true, n => false),
              map[],
              n => EclipseFormatter.ConfigFile(None, Some([Some(EclipseFormatter.Profile("A", map[]))])));
            var f := EclipseFormatter.EclipseFormatter("formatter.xml", "B");
            OutcomeOfReadConfig(EclipseFormatter.ReadConfigResult(env, f)) == CannotLoadConfigurationThrown &&
            OutcomeOfResolveConfig(EclipseFormatter.ResolveConfig(env, f)) == ProfileNotFoundThrown
  {
    var env := EclipseFormatter.Environment(
      Classifier(n => false, n => true, n => false),
      map[],
      n => EclipseFormatter.ConfigFile(None, Some([Some(EclipseFormatter.Profile("A", map[]))])));
    var f := EclipseFormatter.EclipseFormatter("formatter.xml", "B");
    var ps := env.storage(f.formatterFile).profiles.value;
    assert forall i :: 0 <= i < |ps| ==> !EclipseFormatter.Matches(ps[i], f.formatterProfile);
    EclipseFormatter.MissingProfileIsWrapped(env, f);
    EclipseFormatter.ResolveReportsMissingProfile(env, f);
  }

  /**
   * With the resolution that keeps a missing profile apart, the same situation reaches the
   * profile dialog, which names profile and file, and the run is still reported.
   */
  lemma ResolvedMissingProfileShowsProfileDialog(env: EclipseFormatter.Environment, f: EclipseFormatter.Formatter, showNotifications: bool)
    requires KindOf(env.classifier, f.formatterFile) == Xml
    requires env.storage(f.formatterFile).profiles.Some?
    requires var ps := env.storage(f.formatterFile).profiles.value;
             forall i :: 0 <= i < |ps| ==> !EclipseFormatter.Matches(ps[i], f.formatterProfile)
    ensures var outcome := OutcomeOfResolveConfig(EclipseFormatter.ResolveConfig(env, f));
            var tail := EclipseTail(outcome, env.classifier, f.formatterFile, f.formatterProfile, showNotifications);
            outcome == ProfileNotFoundThrown &&
            tail[0] == ErrorDialog(ProfileNotFoundDialog(f.formatterProfile, f.formatterFile)) &&
            HasStatus(tail)
  {
    EclipseFormatter.ResolveReportsMissingProfile(env, f);
    EclipseTailShape(ProfileNotFoundThrown, env.classifier, f.formatterFile, f.formatterProfile, showNotifications);
  }
}
