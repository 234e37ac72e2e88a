// The decisions of startup_browser_creator_impl.cc: which tabs a launch
// opens (DetermineStartupTabs over the tab providers' answers), how the
// browser is opened (DetermineBrowserOpenBehavior and the session-restore
// bitmask), the tab-strip flags each opened tab receives, and the
// '|'-separated URL list of ChromeBrowserFactory::CreateBrowser.
//
// The tab providers, the headless and protocol-handler queries and the
// file-existence check are parameters. The bit values of the three option
// masks live in headers that are not part of this model; they are modelled
// as distinct single bits, which is all the decisions depend on.

module StartupBrowserCreator {

  import opened Strings

  type Url = string

  /** `StartupTab::Type`: only the pinned kind changes what is opened here. */
  datatype TabType = Normal | Pinned

  datatype StartupTab = StartupTab(url: Url, tabType: TabType)

  datatype LaunchResult = Normally | WithGivenUrls

  datatype BrowserOpenBehavior = New | SynchronousRestore | UseExisting

  datatype Disposition = NewForegroundTab | NewBackgroundTab

  /** The `NavigateParams` a tab is opened with. */
  datatype Navigation = Navigation(url: Url, addTypes: bv32, disposition: Disposition)

  // BrowserOpenBehaviorOptions
  const ProcessStartup: bv32 := 0x1
  const IsPostCrashLaunch: bv32 := 0x2
  const HasNewWindowSwitch: bv32 := 0x4
  const HasCmdLineTabs: bv32 := 0x8

  // SessionRestore::BehaviorBitmask
  const Synchronous: bv32 := 0x1
  const AlwaysCreateTabbedBrowser: bv32 := 0x2
  const RestoreApps: bv32 := 0x8
  const RestoreBrowser: bv32 := 0x10

  // AddTabTypes
  const AddNone: bv32 := 0x0
  const AddActive: bv32 := 0x1
  const AddPinned: bv32 := 0x2
  const AddForceIndex: bv32 := 0x4

  // ---------------------------------------------------------------------------
  // Tab list helpers

  /** `UrlsToTabs`: one normal tab per URL, in order. */
  function UrlsToTabs(urls: seq<Url>): (tabs: seq<StartupTab>)
    ensures |tabs| == |urls|
    ensures forall i :: 0 <= i < |urls| ==> tabs[i] == StartupTab(urls[i], Normal)
  {
    if urls == [] then [] else [StartupTab(urls[0], Normal)] + UrlsToTabs(urls[1..])
  }

  /** `AppendTabs(from, &to)`: `to` keeps its tabs in front, `from` follows. */
  function AppendTabs(from: seq<StartupTab>, to: seq<StartupTab>): (r: seq<StartupTab>)
    ensures |r| == |to| + |from|
    ensures r[..|to|] == to && r[|to|..] == from
  {
    to + from
  }

  /** `PrependTabs(from, &to)`: `from` goes in front of `to`. */
  function PrependTabs(from: seq<StartupTab>, to: seq<StartupTab>): (r: seq<StartupTab>)
    ensures |r| == |to| + |from|
    ensures r[..|from|] == from && r[|from|..] == to
  {
    from + to
  }

  // ---------------------------------------------------------------------------
  // DetermineStartupTabs

  /**
   * What the `StartupTabProvider` answers for this launch. The privacy-sandbox
   * provider looks at the tabs gathered so far, so it is a function of them.
   */
  datatype Providers = Providers(
    commandLineTabs: seq<StartupTab>,
    postCrashTabs: seq<StartupTab>,
    resetTriggerTabs: seq<StartupTab>,
    distributionFirstRunTabs: seq<StartupTab>,
    newFeaturesTabs: seq<StartupTab>,
    preferencesTabs: seq<StartupTab>,
    newTabPageTabs: seq<StartupTab>,
    privacySandboxTabs: seq<StartupTab> -> seq<StartupTab>,
    pinnedTabs: seq<StartupTab>,
    newTabUrl: Url)

  /** The single New Tab Page tab used when nothing else may be shown. */
  function NewTabPageOnly(ntp: Url): seq<StartupTab>
  {
    [StartupTab(ntp, Normal)]
  }

  /** The launch reports given URLs exactly when the command line carried tabs. */
  function LaunchResultFor(p: Providers): (r: LaunchResult)
    ensures r == WithGivenUrls <==> |p.commandLineTabs| > 0
    ensures r == Normally <==> p.commandLineTabs == []
  {
    if |p.commandLineTabs| == 0 then Normally else WithGivenUrls
  }

  /** The tabs of an incognito, guest or post-crash launch. */
  function RestrictedLaunchTabs(p: Providers, isPostCrashLaunch: bool): seq<StartupTab>
  {
    if |p.commandLineTabs| > 0 then p.commandLineTabs
    else if isPostCrashLaunch && |p.postCrashTabs| > 0 then p.postCrashTabs
    else NewTabPageOnly(p.newTabUrl)
  }

  /** The tabs a normal launch (no command-line URLs) adds after the reset tabs. */
  function NormalLaunchTabs(p: Providers, promotionsEnabled: bool, hasFirstRunExperience: bool,
                            privacySandboxDialogRequired: bool): seq<StartupTab>
  {
    var withFeatures := p.resetTriggerTabs +
      (if promotionsEnabled && !hasFirstRunExperience && |p.resetTriggerTabs| == 0
       then p.newFeaturesTabs else []);
    var withPrefs := withFeatures + p.preferencesTabs +
      (if |p.preferencesTabs| == 0 then p.newTabPageTabs else []);
    withPrefs + (if privacySandboxDialogRequired then p.privacySandboxTabs(withPrefs) else [])
  }

  /**
   * The tab list `DetermineStartupTabs` answers: a restricted launch never
   * opens an empty list, and every other launch ends with the pinned tabs
   * unless the distribution's first-run tabs stand alone.
   */
  function StartupTabsFor(p: Providers, isIncognitoOrGuest: bool, isPostCrashLaunch: bool,
                          promotionsEnabled: bool, hasFirstRunExperience: bool,
                          privacySandboxDialogRequired: bool): (r: seq<StartupTab>)
    ensures isIncognitoOrGuest || isPostCrashLaunch ==> |r| > 0
    ensures !isIncognitoOrGuest && !isPostCrashLaunch &&
            (|p.commandLineTabs| > 0 || |p.distributionFirstRunTabs| == 0) ==>
              |p.pinnedTabs| <= |r| && r[|r| - |p.pinnedTabs|..] == p.pinnedTabs
  {
    if isIncognitoOrGuest || isPostCrashLaunch then RestrictedLaunchTabs(p, isPostCrashLaunch)
    else if |p.commandLineTabs| > 0 then p.resetTriggerTabs + p.commandLineTabs + p.pinnedTabs
    else if |p.distributionFirstRunTabs| > 0 then p.distributionFirstRunTabs
    else NormalLaunchTabs(p, promotionsEnabled, hasFirstRunExperience, privacySandboxDialogRequired)
         + p.pinnedTabs
  }

  /**
   * `DetermineStartupTabs`. `hasFirstRunExperience` stands for the first-run
   * window of builds with DICE support; the promotions flag is false at the
   * only call site.
   */
  method DetermineStartupTabs(p: Providers, isIncognitoOrGuest: bool, isPostCrashLaunch: bool,
                              promotionsEnabled: bool, hasFirstRunExperience: bool,
                              privacySandboxDialogRequired: bool)
    returns (tabs: seq<StartupTab>, launchResult: LaunchResult)
    ensures launchResult == LaunchResultFor(p)
    ensures tabs == StartupTabsFor(p, isIncognitoOrGuest, isPostCrashLaunch, promotionsEnabled,
                                   hasFirstRunExperience, privacySandboxDialogRequired)
  {
    tabs := p.commandLineTabs;
    launchResult := if |tabs| == 0 then Normally else WithGivenUrls;

    if isIncognitoOrGuest || isPostCrashLaunch {
      if |tabs| > 0 {
        return;
      }
      if isPostCrashLaunch {
        tabs := p.postCrashTabs;
        if |tabs| > 0 {
          return;
        }
      }
      tabs := [StartupTab(p.newTabUrl, Normal)];
      return;
    }

    var resetTabs := p.resetTriggerTabs;
    tabs := PrependTabs(resetTabs, tabs);

    if launchResult == Normally {
      var distributionTabs := p.distributionFirstRunTabs;
      if |distributionTabs| > 0 {
        tabs := distributionTabs;
        return;
      }
      assert tabs == resetTabs;
      if promotionsEnabled {
        if !hasFirstRunExperience && |resetTabs| == 0 {
          tabs := AppendTabs(p.newFeaturesTabs, tabs);
        }
      }
      var prefsTabs := p.preferencesTabs;
      tabs := AppendTabs(prefsTabs, tabs);
      if |prefsTabs| == 0 {
        tabs := AppendTabs(p.newTabPageTabs, tabs);
      }
      ghost var withFeatures := p.resetTriggerTabs +
        (if promotionsEnabled && !hasFirstRunExperience && |p.resetTriggerTabs| == 0
         then p.newFeaturesTabs else []);
      assert tabs == withFeatures + p.preferencesTabs +
        (if |p.preferencesTabs| == 0 then p.newTabPageTabs else []);
      if privacySandboxDialogRequired && launchResult == Normally {
        tabs := AppendTabs(p.privacySandboxTabs(tabs), tabs);
      }
      assert tabs == NormalLaunchTabs(p, promotionsEnabled, hasFirstRunExperience,
                                      privacySandboxDialogRequired);
    }

    tabs := AppendTabs(p.pinnedTabs, tabs);
  }

  /**
   * Incognito, guest and post-crash launches: command-line tabs first, else the
   * post-crash tabs of a post-crash launch, else exactly one New Tab Page.
   */
  lemma RestrictedLaunchPriority(p: Providers, isIncognitoOrGuest: bool, isPostCrashLaunch: bool,
                                 promotionsEnabled: bool, hasFirstRunExperience: bool,
                                 privacySandboxDialogRequired: bool)
    requires isIncognitoOrGuest || isPostCrashLaunch
    ensures var tabs := StartupTabsFor(p, isIncognitoOrGuest, isPostCrashLaunch, promotionsEnabled,
                                       hasFirstRunExperience, privacySandboxDialogRequired);
      |tabs| > 0 &&
      (|p.commandLineTabs| > 0 ==> tabs == p.commandLineTabs) &&
      (|p.commandLineTabs| == 0 && isPostCrashLaunch && |p.postCrashTabs| > 0 ==> tabs == p.postCrashTabs) &&
      (|p.commandLineTabs| == 0 && !(isPostCrashLaunch && |p.postCrashTabs| > 0) ==>
         tabs == [StartupTab(p.newTabUrl, Normal)])
  {
  }

  /** Any other launch with command-line tabs: reset tabs, then the command line, then pinned tabs. */
  lemma GivenUrlsLaunchOrder(p: Providers, promotionsEnabled: bool, hasFirstRunExperience: bool,
                             privacySandboxDialogRequired: bool)
    requires |p.commandLineTabs| > 0
    ensures var tabs := StartupTabsFor(p, false, false, promotionsEnabled,
                                       hasFirstRunExperience, privacySandboxDialogRequired);
      var r := |p.resetTriggerTabs|;
      var c := |p.commandLineTabs|;
      |tabs| == r + c + |p.pinnedTabs| &&
      tabs[..r] == p.resetTriggerTabs &&
      tabs[r..r + c] == p.commandLineTabs &&
      tabs[r + c..] == p.pinnedTabs
  {
    var tabs := StartupTabsFor(p, false, false, promotionsEnabled,
                               hasFirstRunExperience, privacySandboxDialogRequired);
    var r := |p.resetTriggerTabs|;
    var c := |p.commandLineTabs|;
    assert tabs == (p.resetTriggerTabs + p.commandLineTabs) + p.pinnedTabs;
    assert tabs[..r + c] == p.resetTriggerTabs + p.commandLineTabs;
    assert tabs[r..r + c] == (p.resetTriggerTabs + p.commandLineTabs)[r..];
  }

  /** A normal launch with distribution first-run tabs opens those and nothing else. */
  lemma DistributionTabsAlone(p: Providers, promotionsEnabled: bool, hasFirstRunExperience: bool,
                              privacySandboxDialogRequired: bool)
    requires |p.commandLineTabs| == 0 && |p.distributionFirstRunTabs| > 0
    ensures StartupTabsFor(p, false, false, promotionsEnabled, hasFirstRunExperience,
                           privacySandboxDialogRequired) == p.distributionFirstRunTabs
  {
  }

  /**
   * A normal launch without distribution tabs: the reset tabs lead, the
   * preference tabs follow the optional new-features tabs, the New Tab Page
   * tabs are present only when the preferences name no tabs, and the pinned
   * tabs close the list.
   */
  lemma {:induction false} NormalLaunchOrder(p: Providers, hasFirstRunExperience: bool,
                                             privacySandboxDialogRequired: bool)
    requires |p.commandLineTabs| == 0 && |p.distributionFirstRunTabs| == 0
    ensures var tabs := StartupTabsFor(p, false, false, false, hasFirstRunExperience,
                                       privacySandboxDialogRequired);
      |p.resetTriggerTabs| + |p.preferencesTabs| <= |tabs| - |p.pinnedTabs| &&
      tabs[..|p.resetTriggerTabs|] == p.resetTriggerTabs &&
      tabs[|p.resetTriggerTabs|..|p.resetTriggerTabs| + |p.preferencesTabs|] == p.preferencesTabs
    ensures var tabs := StartupTabsFor(p, false, false, false, hasFirstRunExperience,
                                       privacySandboxDialogRequired);
      |p.preferencesTabs| == 0 ==>
        |p.resetTriggerTabs| + |p.newTabPageTabs| <= |tabs| - |p.pinnedTabs| &&
        tabs[|p.resetTriggerTabs|..|p.resetTriggerTabs| + |p.newTabPageTabs|] == p.newTabPageTabs
    ensures var tabs := StartupTabsFor(p, false, false, false, hasFirstRunExperience,
                                       privacySandboxDialogRequired);
      |p.pinnedTabs| <= |tabs| && tabs[|tabs| - |p.pinnedTabs|..] == p.pinnedTabs
  {
    var withPrefs := p.resetTriggerTabs + [] + p.preferencesTabs +
      (if |p.preferencesTabs| == 0 then p.newTabPageTabs else []);
    var sandbox := if privacySandboxDialogRequired then p.privacySandboxTabs(withPrefs) else [];
    var ntp := if |p.preferencesTabs| == 0 then p.newTabPageTabs else [];
    assert StartupTabsFor(p, false, false, false, hasFirstRunExperience, privacySandboxDialogRequired) ==
           p.resetTriggerTabs + p.preferencesTabs + ntp + sandbox + p.pinnedTabs;
    ConcatSlices(p.resetTriggerTabs, p.preferencesTabs, ntp, sandbox, p.pinnedTabs);
  }

  /** Where each part of a five-part concatenation lies. */
  lemma ConcatSlices(a: seq<StartupTab>, b: seq<StartupTab>, c: seq<StartupTab>, d: seq<StartupTab>,
                     e: seq<StartupTab>)
    ensures var t := a + b + c + d + e;
      t[..|a|] == a && t[|a|..|a| + |b|] == b && t[|a| + |b|..|a| + |b| + |c|] == c &&
      t[|t| - |e|..] == e
  {
    var t := a + b + c + d + e;
    assert t == (a + b) + (c + d + e);
    assert t[..|a| + |b|] == a + b;
    assert (a + b)[|a|..] == b;
    assert t[|a| + |b|..] == c + d + e;
    assert (c + d + e)[..|c|] == c;
  }

  /** With preference tabs, no New Tab Page tab is added by the provider. */
  lemma PreferencesOverrideNewTabPage(p: Providers, promotionsEnabled: bool,
                                      hasFirstRunExperience: bool)
    requires |p.commandLineTabs| == 0 && |p.distributionFirstRunTabs| == 0
    requires |p.preferencesTabs| > 0
    ensures StartupTabsFor(p, false, false, promotionsEnabled, hasFirstRunExperience, false) ==
            p.resetTriggerTabs +
            (if promotionsEnabled && !hasFirstRunExperience && |p.resetTriggerTabs| == 0
             then p.newFeaturesTabs else []) +
            p.preferencesTabs + p.pinnedTabs
  {
  }

  // ---------------------------------------------------------------------------
  // Open behaviour and restore options

  /** `DetermineBrowserOpenBehavior`. */
  function DetermineBrowserOpenBehavior(shouldRestoreLastSession: bool, options: bv32)
    : (r: BrowserOpenBehavior)
    ensures options & ProcessStartup == 0 ==>
              r != SynchronousRestore &&
              (r == UseExisting <==> options & HasCmdLineTabs != 0 && options & HasNewWindowSwitch == 0)
    ensures options & ProcessStartup != 0 ==>
              r != UseExisting &&
              (r == SynchronousRestore <==> shouldRestoreLastSession && options & IsPostCrashLaunch == 0)
  {
    if options & ProcessStartup == 0 then
      if options & HasCmdLineTabs != 0 && options & HasNewWindowSwitch == 0 then UseExisting else New
    else if shouldRestoreLastSession && options & IsPostCrashLaunch == 0 then SynchronousRestore
    else New
  }

  /** `DetermineSynchronousRestoreOptions`: exactly the three bits it may set. */
  function DetermineSynchronousRestoreOptions(hasCreateBrowserDefault: bool, hasCreateBrowserSwitch: bool,
                                              wasMacLoginOrResume: bool, restoreTabbedBrowser: bool)
    : (r: bv32)
    ensures r & Synchronous != 0
    ensures r & RestoreBrowser != 0 <==> restoreTabbedBrowser
    ensures r & AlwaysCreateTabbedBrowser != 0 <==>
              !wasMacLoginOrResume && (hasCreateBrowserDefault || hasCreateBrowserSwitch)
    ensures r & !(Synchronous | RestoreBrowser | AlwaysCreateTabbedBrowser) == 0
  {
    var options := Synchronous;
    var options := if restoreTabbedBrowser then options | RestoreBrowser else options;
    if !wasMacLoginOrResume && (hasCreateBrowserDefault || hasCreateBrowserSwitch)
    then options | AlwaysCreateTabbedBrowser else options
  }

  /** The options `DetermineURLsAndLaunch` passes to `DetermineBrowserOpenBehavior`. */
  function BehaviorOptions(isProcessStartup: bool, isPostCrashLaunch: bool, hasNewWindowSwitch: bool,
                           launchResult: LaunchResult): (r: bv32)
    ensures r & ProcessStartup != 0 <==> isProcessStartup
    ensures r & IsPostCrashLaunch != 0 <==> isPostCrashLaunch
    ensures r & HasNewWindowSwitch != 0 <==> hasNewWindowSwitch
    ensures r & HasCmdLineTabs != 0 <==> launchResult == WithGivenUrls
  {
    (if isProcessStartup then ProcessStartup else 0) |
    (if isPostCrashLaunch then IsPostCrashLaunch else 0) |
    (if hasNewWindowSwitch then HasNewWindowSwitch else 0) |
    (if launchResult == WithGivenUrls then HasCmdLineTabs else 0)
  }

  /** A launch after a crash never restores the last session synchronously. */
  lemma {:induction false} PostCrashNeverRestores(shouldRestoreLastSession: bool, isProcessStartup: bool,
                                                  hasNewWindowSwitch: bool, launchResult: LaunchResult)
    ensures DetermineBrowserOpenBehavior(shouldRestoreLastSession,
              BehaviorOptions(isProcessStartup, true, hasNewWindowSwitch, launchResult))
            != SynchronousRestore
  {
    var options := BehaviorOptions(isProcessStartup, true, hasNewWindowSwitch, launchResult);
    assert options & IsPostCrashLaunch != 0;
  }

  /** An already-running browser reuses a window exactly for command-line URLs without --new-window. */
  lemma {:induction false} RunningProcessReusesWindow(shouldRestoreLastSession: bool, isPostCrashLaunch: bool,
                                                      hasNewWindowSwitch: bool, launchResult: LaunchResult)
    ensures DetermineBrowserOpenBehavior(shouldRestoreLastSession,
              BehaviorOptions(false, isPostCrashLaunch, hasNewWindowSwitch, launchResult))
            == (if launchResult == WithGivenUrls && !hasNewWindowSwitch then UseExisting else New)
  {
    var options := BehaviorOptions(false, isPostCrashLaunch, hasNewWindowSwitch, launchResult);
    assert options & ProcessStartup == 0;
  }

  // ---------------------------------------------------------------------------
  // Opening the tabs

  /** `RestoreOrCreateBrowser`'s fallback: never hands an empty list to `OpenTabsInBrowser`. */
  function TabsToOpen(tabs: seq<StartupTab>, ntp: Url): (r: seq<StartupTab>)
    ensures |r| > 0
    ensures |tabs| > 0 ==> r == tabs
    ensures |tabs| == 0 ==> r == [StartupTab(ntp, Normal)]
  {
    if |tabs| == 0 then [StartupTab(ntp, Normal)] else tabs
  }

  /** What `RestoreOrCreateBrowser` ends up doing. */
  datatype BrowserOutcome =
    | RestoredSession
    | OpenedTabs(inExistingBrowser: bool, tabs: seq<StartupTab>)

  /**
   * `RestoreOrCreateBrowser`: a successful synchronous restore ends the launch;
   * otherwise the tabs (or the New Tab Page) are opened, in an existing tabbed
   * browser when the behaviour asks for one and one is found.
   */
  function RestoreOrCreateBrowser(tabs: seq<StartupTab>, behavior: BrowserOpenBehavior,
                                  restoreSucceeds: bool, existingBrowserFound: bool, ntp: Url)
    : (r: BrowserOutcome)
    ensures r.RestoredSession? <==> behavior == SynchronousRestore && restoreSucceeds
    ensures r.OpenedTabs? ==> |r.tabs| > 0 && (|tabs| > 0 ==> r.tabs == tabs)
    ensures r.OpenedTabs? ==> (r.inExistingBrowser <==> behavior == UseExisting && existingBrowserFound)
  {
    if behavior == SynchronousRestore && restoreSucceeds then RestoredSession
    else OpenedTabs(behavior == UseExisting && existingBrowserFound, TabsToOpen(tabs, ntp))
  }

  /** The tab-strip flags of a navigated tab. */
  function AddTypesFor(isFirst: bool, tab: StartupTab, honourPinned: bool): bv32
  {
    (if isFirst then AddActive else AddNone) | AddForceIndex |
    (if honourPinned && tab.tabType == Pinned then AddPinned else AddNone)
  }

  /** The `NavigateParams` of the `index`-th navigated tab. */
  function NavigationFor(index: nat, tab: StartupTab, honourPinned: bool): Navigation
  {
    Navigation(tab.url, AddTypesFor(index == 0, tab, honourPinned),
               if index == 0 then NewForegroundTab else NewBackgroundTab)
  }

  /** The navigations for `tabs`, the first one active. */
  function NavigationsFor(tabs: seq<StartupTab>, honourPinned: bool): (r: seq<Navigation>)
    ensures |r| == |tabs|
  {
    seq(|tabs|, i requires 0 <= i < |tabs| => NavigationFor(i, tabs[i], honourPinned))
  }

  /** Only the first tab is active and in the foreground; every tab is force-indexed; pinning follows the tab. */
  lemma NavigationFlags(tabs: seq<StartupTab>, honourPinned: bool)
    ensures var navs := NavigationsFor(tabs, honourPinned);
      forall i :: 0 <= i < |navs| ==>
        (navs[i].addTypes & AddActive != 0 <==> i == 0) &&
        (navs[i].disposition == NewForegroundTab <==> i == 0) &&
        navs[i].addTypes & AddForceIndex != 0 &&
        (navs[i].addTypes & AddPinned != 0 <==> honourPinned && tabs[i].tabType == Pinned) &&
        navs[i].url == tabs[i].url
  {
    var navs := NavigationsFor(tabs, honourPinned);
    forall i | 0 <= i < |navs|
      ensures navs[i].addTypes & AddActive != 0 <==> i == 0
      ensures navs[i].addTypes & AddForceIndex != 0
      ensures navs[i].addTypes & AddPinned != 0 <==> honourPinned && tabs[i].tabType == Pinned
    {
      var a: bv32 := if i == 0 then AddActive else AddNone;
      var p: bv32 := if honourPinned && tabs[i].tabType == Pinned then AddPinned else AddNone;
      assert navs[i].addTypes == a | AddForceIndex | p;
    }
  }

  /** A tab `OpenTabsInBrowser` does not skip as an external-protocol URL. */
  predicate Admitted(tab: StartupTab, isProcessStartup: bool, handledByChrome: Url -> bool)
  {
    isProcessStartup || handledByChrome(tab.url)
  }

  /** The admitted tabs other than the What's New page: the ones that reach the navigation step. */
  function EligibleTabs(tabs: seq<StartupTab>, isProcessStartup: bool, handledByChrome: Url -> bool,
                        whatsNewUrl: Url): (r: seq<StartupTab>)
    ensures |r| <= |tabs|
    ensures forall t :: t in r ==> t in tabs && Admitted(t, isProcessStartup, handledByChrome) &&
                                   t.url != whatsNewUrl
  {
    if tabs == [] then []
    else
      var rest := EligibleTabs(tabs[1..], isProcessStartup, handledByChrome, whatsNewUrl);
      if Admitted(tabs[0], isProcessStartup, handledByChrome) && tabs[0].url != whatsNewUrl
      then [tabs[0]] + rest else rest
  }

  /** The tab-strip repair after the loop. */
  datatype ActivationFix = NoFix | AddBlankTab | ActivateFirstTab

  /**
   * `OpenTabsInBrowser`'s loop and the repair after it. The browser arrives
   * with `existingTabCount` tabs and possibly an active one. In headless mode
   * every eligible tab goes to the headless command processor (the loop's
   * `first_tab` stays set because those tabs `continue` before it is cleared).
   */
  method OpenTabsInBrowser(tabs: seq<StartupTab>, isProcessStartup: bool, handledByChrome: Url -> bool,
                           whatsNewUrl: Url, processHeadlessCommands: bool,
                           existingTabCount: nat, hasActiveTab: bool)
    returns (navigations: seq<Navigation>, headlessUrls: seq<Url>, whatsNewFetched: bool,
             fix: ActivationFix)
    requires |tabs| > 0
    ensures processHeadlessCommands ==>
              navigations == [] && headlessUrls == UrlsOf(EligibleTabs(tabs, isProcessStartup, handledByChrome, whatsNewUrl))
    ensures !processHeadlessCommands ==>
              headlessUrls == [] && navigations == NavigationsFor(EligibleTabs(tabs, isProcessStartup, handledByChrome, whatsNewUrl), true)
    ensures whatsNewFetched <==> WhatsNewAdmitted(tabs, |tabs|, isProcessStartup, handledByChrome, whatsNewUrl)
    ensures fix == (if hasActiveTab || |navigations| > 0 || processHeadlessCommands then NoFix
                    else if existingTabCount == 0 then AddBlankTab else ActivateFirstTab)
  {
    var firstTab := true;
    navigations := [];
    headlessUrls := [];
    whatsNewFetched := false;
    ghost var eligible: seq<StartupTab> := [];
    var i := 0;
    while i < |tabs|
      invariant 0 <= i <= |tabs|
      invariant eligible == EligibleUpTo(tabs, i, isProcessStartup, handledByChrome, whatsNewUrl)
      invariant processHeadlessCommands ==> firstTab && navigations == [] && headlessUrls == UrlsOf(eligible)
      invariant !processHeadlessCommands ==> headlessUrls == [] && navigations == NavigationsFor(eligible, true)
      invariant !processHeadlessCommands ==> (firstTab <==> |eligible| == 0)
      invariant whatsNewFetched <==> WhatsNewAdmitted(tabs, i, isProcessStartup, handledByChrome, whatsNewUrl)
    {
      var tab := tabs[i];
      LoopStep(tabs, i, isProcessStartup, handledByChrome, whatsNewUrl);
      if !isProcessStartup && !handledByChrome(tab.url) {
      } else if tab.url == whatsNewUrl {
        whatsNewFetched := true;
      } else if firstTab && processHeadlessCommands {
        UrlsOfSnoc(eligible, tab);
        headlessUrls := headlessUrls + [tab.url];
        eligible := eligible + [tab];
      } else {
        NavigationsForSnoc(eligible, tab, true);
        var disposition := if firstTab then NewForegroundTab else NewBackgroundTab;
        navigations := navigations + [Navigation(tab.url, AddTypesFor(firstTab, tab, true), disposition)];
        firstTab := false;
        eligible := eligible + [tab];
      }
      i := i + 1;
    }
    EligibleUpToIsEligibleTabs(tabs, |tabs|, isProcessStartup, handledByChrome, whatsNewUrl);
    assert tabs[..|tabs|] == tabs;
    if !hasActiveTab && |navigations| == 0 && !processHeadlessCommands {
      if existingTabCount == 0 {
        fix := AddBlankTab;
      } else {
        fix := ActivateFirstTab;
      }
    } else {
      fix := NoFix;
    }
  }

  /** The URLs of `tabs`, in order. */
  function UrlsOf(tabs: seq<StartupTab>): (r: seq<Url>)
    ensures |r| == |tabs|
    ensures forall i :: 0 <= i < |tabs| ==> r[i] == tabs[i].url
  {
    seq(|tabs|, i requires 0 <= i < |tabs| => tabs[i].url)
  }

  lemma UrlsOfSnoc(tabs: seq<StartupTab>, tab: StartupTab)
    ensures UrlsOf(tabs + [tab]) == UrlsOf(tabs) + [tab.url]
  {
    assert forall i :: 0 <= i < |tabs| ==> (tabs + [tab])[i] == tabs[i];
  }

  lemma NavigationsForSnoc(tabs: seq<StartupTab>, tab: StartupTab, honourPinned: bool)
    ensures NavigationsFor(tabs + [tab], honourPinned) ==
            NavigationsFor(tabs, honourPinned) + [NavigationFor(|tabs|, tab, honourPinned)]
  {
    assert forall i :: 0 <= i < |tabs| ==> (tabs + [tab])[i] == tabs[i];
  }

  /** Whether one of the first `n` tabs is an admitted What's New page, which is fetched rather than opened. */
  ghost predicate WhatsNewAdmitted(tabs: seq<StartupTab>, n: nat, isProcessStartup: bool,
                                   handledByChrome: Url -> bool, whatsNewUrl: Url)
    requires n <= |tabs|
  {
    exists i :: 0 <= i < n && Admitted(tabs[i], isProcessStartup, handledByChrome) && tabs[i].url == whatsNewUrl
  }

  /** The eligible tabs among the first `n`, collected front to back as the loop does. */
  function EligibleUpTo(tabs: seq<StartupTab>, n: nat, isProcessStartup: bool, handledByChrome: Url -> bool,
                        whatsNewUrl: Url): (r: seq<StartupTab>)
    requires n <= |tabs|
    ensures |r| <= n
  {
    if n == 0 then []
    else
      var tab := tabs[n - 1];
      EligibleUpTo(tabs, n - 1, isProcessStartup, handledByChrome, whatsNewUrl) +
      (if Admitted(tab, isProcessStartup, handledByChrome) && tab.url != whatsNewUrl then [tab] else [])
  }

  /** One more tab for the loop of `OpenTabsInBrowser`: it is collected, or it is the What's New page, or it is skipped. */
  lemma LoopStep(tabs: seq<StartupTab>, i: nat, isProcessStartup: bool, handledByChrome: Url -> bool, whatsNewUrl: Url)
    requires i < |tabs|
    ensures EligibleUpTo(tabs, i + 1, isProcessStartup, handledByChrome, whatsNewUrl) ==
            EligibleUpTo(tabs, i, isProcessStartup, handledByChrome, whatsNewUrl) +
            (if Admitted(tabs[i], isProcessStartup, handledByChrome) && tabs[i].url != whatsNewUrl then [tabs[i]] else [])
    ensures WhatsNewAdmitted(tabs, i + 1, isProcessStartup, handledByChrome, whatsNewUrl) <==>
            WhatsNewAdmitted(tabs, i, isProcessStartup, handledByChrome, whatsNewUrl) ||
            (Admitted(tabs[i], isProcessStartup, handledByChrome) && tabs[i].url == whatsNewUrl)
  {
  }

  /** Collecting front to back gives the filter of the prefix. */
  lemma {:induction false} EligibleUpToIsEligibleTabs(tabs: seq<StartupTab>, n: nat, isProcessStartup: bool,
                                                      handledByChrome: Url -> bool, whatsNewUrl: Url)
    requires n <= |tabs|
    ensures EligibleUpTo(tabs, n, isProcessStartup, handledByChrome, whatsNewUrl) ==
            EligibleTabs(tabs[..n], isProcessStartup, handledByChrome, whatsNewUrl)
  {
    if n == 0 {
      assert tabs[..0] == [];
    } else {
      var prefix, tab := tabs[..n - 1], tabs[n - 1];
      var extra := if Admitted(tab, isProcessStartup, handledByChrome) && tab.url != whatsNewUrl then [tab] else [];
      var before := EligibleUpTo(tabs, n - 1, isProcessStartup, handledByChrome, whatsNewUrl);
      assert EligibleUpTo(tabs, n, isProcessStartup, handledByChrome, whatsNewUrl) == before + extra;
      EligibleUpToIsEligibleTabs(tabs, n - 1, isProcessStartup, handledByChrome, whatsNewUrl);
      assert tabs[..n] == prefix + [tab];
      EligibleTabsSnoc(prefix, tab, isProcessStartup, handledByChrome, whatsNewUrl);
    }
  }

  /** Filtering one more tab adds it at the end exactly when it is eligible. */
  lemma {:induction false} EligibleTabsSnoc(tabs: seq<StartupTab>, tab: StartupTab, isProcessStartup: bool,
                                            handledByChrome: Url -> bool, whatsNewUrl: Url)
    ensures EligibleTabs(tabs + [tab], isProcessStartup, handledByChrome, whatsNewUrl) ==
            EligibleTabs(tabs, isProcessStartup, handledByChrome, whatsNewUrl) +
            (if Admitted(tab, isProcessStartup, handledByChrome) && tab.url != whatsNewUrl
             then [tab] else [])
  {
    if tabs == [] {
      assert [tab][1..] == [];
    } else {
      assert (tabs + [tab])[1..] == tabs[1..] + [tab];
      EligibleTabsSnoc(tabs[1..], tab, isProcessStartup, handledByChrome, whatsNewUrl);
    }
  }

  /** Every opened tab is admitted, so a URL that would need an external handler is never navigated to. */
  lemma NavigatedTabsAreAdmitted(tabs: seq<StartupTab>, isProcessStartup: bool, handledByChrome: Url -> bool,
                                 whatsNewUrl: Url)
    ensures var eligible := EligibleTabs(tabs, isProcessStartup, handledByChrome, whatsNewUrl);
      forall i :: 0 <= i < |eligible| ==>
        NavigationsFor(eligible, true)[i].url != whatsNewUrl &&
        (isProcessStartup || handledByChrome(NavigationsFor(eligible, true)[i].url))
  {
    var eligible := EligibleTabs(tabs, isProcessStartup, handledByChrome, whatsNewUrl);
    forall i | 0 <= i < |eligible|
      ensures NavigationsFor(eligible, true)[i].url != whatsNewUrl
      ensures isProcessStartup || handledByChrome(NavigationsFor(eligible, true)[i].url)
    {
      assert eligible[i] in eligible;
    }
  }

  // ---------------------------------------------------------------------------
  // ChromeBrowserFactory::CreateBrowser: the '|'-separated URL list

  /** The pieces that end in a '|': the text after the last '|' is not among them. */
  function PipeSegments(s: string): (r: seq<string>)
    ensures forall k :: 0 <= k < |r| ==> '|' !in r[k]
    ensures |r| <= |s|
    decreases |s|
  {
    var n := IndexOfChar(s, '|');
    if n == -1 then [] else [s[..n]] + PipeSegments(s[n + 1..])
  }

  /** The text after the last '|', which the splitter drops. */
  function PipeRemainder(s: string): string
    decreases |s|
  {
    var n := IndexOfChar(s, '|');
    if n == -1 then s else PipeRemainder(s[n + 1..])
  }

  /** Each segment followed by its '|'. */
  function JoinWithPipes(segments: seq<string>): string
  {
    if segments == [] then "" else segments[0] + "|" + JoinWithPipes(segments[1..])
  }

  lemma JoinWithPipesCons(segment: string, segments: seq<string>)
    ensures JoinWithPipes([segment] + segments) == segment + "|" + JoinWithPipes(segments)
  {
    assert ([segment] + segments)[1..] == segments;
  }

  /** The first segment ends at the first '|'. */
  lemma PipeSegmentsUnfold(s: string, n: int)
    requires n == IndexOfChar(s, '|') && n != -1
    ensures PipeSegments(s) == [s[..n]] + PipeSegments(s[n + 1..])
  {
  }

  /** Rejoining after the first '|': the first segment, its separator, then the rest rejoined. */
  lemma PipeSegmentsStep(s: string, n: int)
    requires n == IndexOfChar(s, '|') && n != -1
    ensures JoinWithPipes(PipeSegments(s)) == s[..n] + "|" + JoinWithPipes(PipeSegments(s[n + 1..]))
  {
    PipeSegmentsUnfold(s, n);
    JoinWithPipesCons(s[..n], PipeSegments(s[n + 1..]));
  }

  /** The dropped remainder lies after the first '|'. */
  lemma PipeRemainderStep(s: string, n: int)
    requires n == IndexOfChar(s, '|') && n != -1
    ensures PipeRemainder(s) == PipeRemainder(s[n + 1..])
  {
  }

  /** Text before the separator at `n`, the separator, and a split of what follows it. */
  lemma SplitAtSeparator(s: string, n: nat, before: string, after: string)
    requires n < |s| && before + after == s[n + 1..] && s[n] == '|'
    ensures (s[..n] + "|" + before) + after == s
  {
    assert s == s[..n] + "|" + s[n + 1..];
  }

  /** The segments, their separators and the dropped remainder make up the input. */
  lemma {:induction false} PipeSegmentsRoundTrip(s: string)
    ensures JoinWithPipes(PipeSegments(s)) + PipeRemainder(s) == s
    decreases |s|
  {
    var n := IndexOfChar(s, '|');
    if n != -1 {
      var tail := s[n + 1..];
      PipeSegmentsRoundTrip(tail);
      PipeSegmentsStep(s, n);
      PipeRemainderStep(s, n);
      SplitAtSeparator(s, n, JoinWithPipes(PipeSegments(tail)), PipeRemainder(tail));
    }
  }

  /** One segment per '|' in the input. */
  lemma {:induction false} PipeSegmentsCount(s: string)
    ensures |PipeSegments(s)| == CountChar(s, '|')
    decreases |s|
  {
    var n := IndexOfChar(s, '|');
    if n != -1 {
      var tail := s[n + 1..];
      PipeSegmentsCount(tail);
      PipeSegmentsUnfold(s, n);
      CountCharSplit(s, n, '|');
    }
  }

  /** Counting across the first occurrence of `c` at `n`. */
  lemma {:induction false} CountCharSplit(s: string, n: nat, c: char)
    requires n < |s| && s[n] == c && c !in s[..n]
    ensures CountChar(s, c) == 1 + CountChar(s[n + 1..], c)
  {
    if n > 0 {
      assert s[1..][..n - 1] == s[..n][1..];
      assert s[1..][n - 1 + 1..] == s[n + 1..];
      CountCharSplit(s[1..], n - 1, c);
    }
  }

  /** The URL a segment becomes: text with a ':' is kept, a file name becomes app path + name or the New Tab Page. */
  function ResolveSegment(segment: string, appPath: string, fileExists: string -> bool, ntp: Url): (r: Url)
    ensures ':' in segment ==> r == segment
    ensures ':' !in segment ==> r == (if fileExists(appPath + segment) then appPath + segment else ntp)
  {
    if IndexOfChar(segment, ':') == -1 then
      var path := appPath + segment;
      if fileExists(path) then path else ntp
    else segment
  }

  function ResolvedTabs(segments: seq<string>, appPath: string, fileExists: string -> bool, ntp: Url)
    : (r: seq<StartupTab>)
    ensures |r| == |segments|
    ensures forall k :: 0 <= k < |segments| ==>
              r[k] == StartupTab(ResolveSegment(segments[k], appPath, fileExists, ntp), Normal)
  {
    seq(|segments|, k requires 0 <= k < |segments| =>
      StartupTab(ResolveSegment(segments[k], appPath, fileExists, ntp), Normal))
  }

  lemma ResolvedTabsCons(segment: string, segments: seq<string>, appPath: string,
                         fileExists: string -> bool, ntp: Url)
    ensures ResolvedTabs([segment] + segments, appPath, fileExists, ntp) ==
            [StartupTab(ResolveSegment(segment, appPath, fileExists, ntp), Normal)] +
            ResolvedTabs(segments, appPath, fileExists, ntp)
  {
  }

  /**
   * The loop of `CreateBrowser` over a description that is not an XML
   * document: one tab per '|'-terminated segment, and whether any was made.
   */
  method SplitPipeSeparatedUrls(description: string, appPath: string, fileExists: string -> bool, ntp: Url)
    returns (tabs: seq<StartupTab>, anyTab: bool)
    ensures tabs == ResolvedTabs(PipeSegments(description), appPath, fileExists, ntp)
    ensures |tabs| == CountChar(description, '|')
    ensures anyTab <==> |tabs| > 0
  {
    tabs := [];
    anyTab := false;
    var rest := description;
    var nPos := IndexOfChar(rest, '|');
    while nPos != -1
      invariant nPos == IndexOfChar(rest, '|')
      invariant tabs + ResolvedTabs(PipeSegments(rest), appPath, fileExists, ntp) ==
                ResolvedTabs(PipeSegments(description), appPath, fileExists, ntp)
      invariant anyTab <==> |tabs| > 0
      decreases |rest|
    {
      anyTab := true;
      var url := rest[..nPos];
      if IndexOfChar(url, ':') == -1 {
        var path := appPath + url;
        if !fileExists(path) {
          url := ntp;
        } else {
          url := path;
        }
      }
      PipeSegmentsUnfold(rest, nPos);
      ResolvedTabsCons(rest[..nPos], PipeSegments(rest[nPos + 1..]), appPath, fileExists, ntp);
      assert url == ResolveSegment(rest[..nPos], appPath, fileExists, ntp);
      AppendAssoc(tabs, [StartupTab(url, Normal)],
                  ResolvedTabs(PipeSegments(rest[nPos + 1..]), appPath, fileExists, ntp));
      tabs := tabs + [StartupTab(url, Normal)];
      rest := rest[nPos + 1..];
      nPos := IndexOfChar(rest, '|');
    }
    PipeSegmentsCount(description);
  }

  lemma AppendAssoc(a: seq<StartupTab>, b: seq<StartupTab>, c: seq<StartupTab>)
    ensures (a + b) + c == a + (b + c)
  {
  }

  /** `CreateBrowser`'s navigations: pinning is never applied (that line is commented out). */
  lemma CreateBrowserNavigations(tabs: seq<StartupTab>)
    ensures forall i :: 0 <= i < |tabs| ==>
              NavigationsFor(tabs, false)[i].addTypes ==
              (if i == 0 then AddActive | AddForceIndex else AddForceIndex)
  {
  }
}
