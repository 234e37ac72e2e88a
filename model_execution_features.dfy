// The gating of model-execution features by ModelExecutionFeaturesController:
// whether the user may use a feature (sign-in, account capability,
// enterprise policy), whether it is enabled and whether its setting is shown,
// the hardware check of history search, and the two loops that rewrite the
// per-feature opt-in prefs (after an account or policy change, and when the
// main toggle moves).
//
// Feature flags, the settings registry, the prefs service and the identity
// manager are inputs: the fixed configuration is a `Config` value, the prefs
// store a map field. A feature without a stored pref reads as
// `NotInitialized`, the registered default.

module ModelExecutionFeatures {

  import opened Strings

  /** `UserVisibleFeatureKey`: history search is the one key the controller singles out. */
  datatype Feature = HistorySearch | OtherFeature(id: nat)

  /** `prefs::FeatureOptInState`. */
  datatype OptInState = NotInitialized | Enabled | Disabled

  /** `ModelExecutionEnterprisePolicyValue`. */
  datatype PolicyValue = Allow | AllowWithoutLogging | Disable

  datatype UserValidityResult =
    | Valid
    | InvalidUnsignedUser
    | InvalidEnterprisePolicy
    | InvalidModelExecutionCapability

  /** The `SettingsVisibilityResult` values `ShouldHideHistorySearch` can answer. */
  datatype HistorySearchVisibility = Unknown | NotVisibleHardwareUnsupported | NotVisibleEnterprisePolicy

  /** `signin::Tribool`. */
  datatype Tribool = TriUnknown | TriFalse | TriTrue

  /** What the identity manager reports about the primary (sign-in level) account. */
  datatype IdentityManager = IdentityManager(primaryAccountId: string, canUseModelExecution: Tribool)

  /** The controller's fixed inputs: feature lists and flags, policies, local-state values. */
  datatype Config = Config(
    allFeatures: seq<Feature>,
    allowedForUnsignedUser: set<Feature>,
    graduated: set<Feature>,
    enableWhenMainToggleOn: set<Feature>,
    settingsVisibilityFlagEnabled: set<Feature>,
    enterprisePolicy: map<Feature, PolicyValue>,
    builtWithXnnpack: bool,
    componentUpdatesEnabled: bool,
    performanceClassList: string,
    performanceClass: int,
    capabilityCheckDisabled: bool)

  /** The account fields the checks read: `is_signed_in_` and `account_allows_model_execution_features_`. */
  datatype Account = Account(isSignedIn: bool, allowsModelExecution: bool)

  /** An enterprise policy that was never set reads as `Allow`. */
  function PolicyOf(c: Config, f: Feature): PolicyValue
  {
    if f in c.enterprisePolicy then c.enterprisePolicy[f] else Allow
  }

  /** `GetPrefState`: the stored opt-in state, `NotInitialized` when nothing is stored. */
  function PrefOf(prefs: map<Feature, OptInState>, f: Feature): (r: OptInState)
    ensures f !in prefs ==> r == NotInitialized
    ensures r != NotInitialized ==> f in prefs && prefs[f] == r
  {
    if f in prefs then prefs[f] else NotInitialized
  }

  // ---------------------------------------------------------------------------
  // Account capability

  /** `CanUseModelExecutionFeaturesFromAccountInfo`. */
  function CanUseFromAccountInfo(capabilityCheckDisabled: bool, capability: Tribool): (r: bool)
    ensures r <==> capabilityCheckDisabled || capability != TriFalse
  {
    if capabilityCheckDisabled then true else capability != TriFalse
  }

  /** `CanUseModelExecutionFeatures`: needs an identity manager with a primary account. */
  function CanUseModelExecutionFeatures(capabilityCheckDisabled: bool, identity: Option<IdentityManager>)
    : (r: bool)
    ensures capabilityCheckDisabled ==> r
    ensures !capabilityCheckDisabled ==>
              (r <==> identity.Some? && identity.value.primaryAccountId != "" &&
                      identity.value.canUseModelExecution != TriFalse)
  {
    if capabilityCheckDisabled then true
    else if identity.None? then false
    else if identity.value.primaryAccountId == "" then false
    else CanUseFromAccountInfo(capabilityCheckDisabled, identity.value.canUseModelExecution)
  }

  /** Only an explicit "false" capability denies; an unknown capability allows. */
  lemma UnknownCapabilityAllows(capabilityCheckDisabled: bool)
    ensures CanUseFromAccountInfo(capabilityCheckDisabled, TriUnknown)
    ensures CanUseFromAccountInfo(capabilityCheckDisabled, TriTrue)
    ensures !CanUseFromAccountInfo(capabilityCheckDisabled, TriFalse) <==> !capabilityCheckDisabled
  {
  }

  // ---------------------------------------------------------------------------
  // Validity, enabled state, visibility

  /** `GetCurrentUserValidityResult`. */
  function UserValidity(c: Config, a: Account, f: Feature): (r: UserValidityResult)
    ensures f !in c.allowedForUnsignedUser && !a.isSignedIn ==> r == InvalidUnsignedUser
    ensures f !in c.allowedForUnsignedUser && a.isSignedIn && !a.allowsModelExecution ==>
              r == InvalidModelExecutionCapability
    ensures r == Valid <==>
              (f in c.allowedForUnsignedUser || (a.isSignedIn && a.allowsModelExecution)) &&
              PolicyOf(c, f) != Disable
  {
    var requireAccount := f !in c.allowedForUnsignedUser;
    if requireAccount && !a.isSignedIn then InvalidUnsignedUser
    else if requireAccount && !a.allowsModelExecution then InvalidModelExecutionCapability
    else if PolicyOf(c, f) == Disable then InvalidEnterprisePolicy
    else Valid
  }

  /** Features usable without an account are judged on policy alone, whatever the account. */
  lemma UnsignedAllowedIgnoresAccount(c: Config, a: Account, b: Account, f: Feature)
    requires f in c.allowedForUnsignedUser
    ensures UserValidity(c, a, f) == UserValidity(c, b, f)
    ensures UserValidity(c, a, f) == (if PolicyOf(c, f) == Disable then InvalidEnterprisePolicy else Valid)
  {
  }

  /** The enterprise-policy answer is only reached once the account checks pass. */
  lemma PolicyCheckedAfterAccount(c: Config, a: Account, f: Feature)
    ensures UserValidity(c, a, f) == InvalidEnterprisePolicy ==>
              PolicyOf(c, f) == Disable &&
              (f in c.allowedForUnsignedUser || (a.isSignedIn && a.allowsModelExecution))
  {
  }

  /** `ShouldFeatureBeCurrentlyEnabledForUser`, given the feature's stored opt-in state. */
  function CurrentlyEnabled(c: Config, a: Account, f: Feature, pref: OptInState): (r: bool)
    ensures f in c.graduated ==> (r <==> UserValidity(c, a, f) == Valid)
    ensures f !in c.graduated ==> (r <==> pref == Enabled)
  {
    if f in c.graduated then UserValidity(c, a, f) == Valid else pref == Enabled
  }

  /** `ShouldHideHistorySearch`. */
  function ShouldHideHistorySearch(c: Config): (r: HistorySearchVisibility)
    ensures !c.builtWithXnnpack ==> r == NotVisibleHardwareUnsupported
    ensures c.builtWithXnnpack && !c.componentUpdatesEnabled ==> r == NotVisibleEnterprisePolicy
    ensures c.builtWithXnnpack && c.componentUpdatesEnabled ==>
              r != NotVisibleEnterprisePolicy &&
              (c.performanceClassList == "*" || c.performanceClassList == "" ==> r == Unknown) &&
              (c.performanceClassList != "*" && c.performanceClassList != "" ==>
                 (r == Unknown <==> DecimalString(c.performanceClass) in AllowedClasses(c.performanceClassList)))
  {
    if !c.builtWithXnnpack then NotVisibleHardwareUnsupported
    else if !c.componentUpdatesEnabled then NotVisibleEnterprisePolicy
    else if c.performanceClassList == "*" || c.performanceClassList == "" then Unknown
    else if DecimalString(c.performanceClass) in AllowedClasses(c.performanceClassList) then Unknown
    else NotVisibleHardwareUnsupported
  }

  /** `IsSettingVisible`, given the feature's stored opt-in state. */
  function IsSettingVisible(c: Config, a: Account, f: Feature, pref: OptInState): (r: bool)
    ensures UserValidity(c, a, f) != Valid ==> !r
    ensures f in c.graduated ==> !r
    ensures f == HistorySearch && ShouldHideHistorySearch(c) != Unknown ==> !r
    ensures UserValidity(c, a, f) == Valid && f !in c.graduated &&
            (f != HistorySearch || ShouldHideHistorySearch(c) == Unknown) ==>
              (r <==> pref == Enabled || f in c.settingsVisibilityFlagEnabled)
  {
    if UserValidity(c, a, f) != Valid then false
    else if f in c.graduated then false
    else if f == HistorySearch && ShouldHideHistorySearch(c) != Unknown then false
    else if CurrentlyEnabled(c, a, f, pref) then true
    else f in c.settingsVisibilityFlagEnabled
  }

  // ---------------------------------------------------------------------------
  // The two pref-rewriting loops, one feature at a time

  /** The value `ResetInvalidFeaturePrefs` leaves for one feature whose pref read `pref`. */
  function ResetValue(c: Config, a: Account, mainToggleOn: bool, f: Feature, pref: OptInState): (r: OptInState)
    ensures r == Disabled <==> pref == Disabled
    ensures r == Enabled ==> UserValidity(c, a, f) == Valid
    ensures r != pref ==> (pref == Enabled && r == NotInitialized) || (pref == NotInitialized && r == Enabled)
  {
    var raised :=
      if mainToggleOn && IsSettingVisible(c, a, f, pref) && f in c.enableWhenMainToggleOn &&
         pref == NotInitialized
      then Enabled else pref;
    if pref == Enabled && UserValidity(c, a, f) != Valid then NotInitialized else raised
  }

  /** The value `OnMainToggleSettingStatePrefChanged` leaves for one feature whose pref read `pref`. */
  function ToggleValue(c: Config, a: Account, mainToggleOn: bool, f: Feature, pref: OptInState): (r: OptInState)
    ensures r == pref || r == (if mainToggleOn then Enabled else Disabled)
    ensures r != pref ==> IsSettingVisible(c, a, f, pref) && f in c.enableWhenMainToggleOn
    ensures r == Enabled && pref != Enabled ==> mainToggleOn && UserValidity(c, a, f) == Valid
  {
    if IsSettingVisible(c, a, f, pref) && f in c.enableWhenMainToggleOn
    then (if mainToggleOn then Enabled else Disabled)
    else pref
  }

  /**
   * The reset rule: a disabled pref is never touched, an enabled one falls back
   * to `NotInitialized` exactly when the user is not valid for the feature,
   * and an unset one is raised exactly when the main toggle is on, the setting
   * is visible and the feature follows the main toggle.
   */
  lemma ResetValueRule(c: Config, a: Account, mainToggleOn: bool, f: Feature, pref: OptInState)
    ensures var r := ResetValue(c, a, mainToggleOn, f, pref);
      (pref == Disabled ==> r == Disabled) &&
      (pref == Enabled ==> r == (if UserValidity(c, a, f) == Valid then Enabled else NotInitialized)) &&
      (pref == NotInitialized ==>
         (r == Enabled <==> mainToggleOn && IsSettingVisible(c, a, f, NotInitialized) &&
                            f in c.enableWhenMainToggleOn) &&
         r != Disabled)
  {
  }

  /** After a reset, a feature is only enabled for a user who is valid for it. */
  lemma ResetLeavesEnabledValid(c: Config, a: Account, mainToggleOn: bool, f: Feature, pref: OptInState)
    ensures CurrentlyEnabled(c, a, f, ResetValue(c, a, mainToggleOn, f, pref)) ==>
            UserValidity(c, a, f) == Valid
  {
  }

  /** Resetting a feature twice changes nothing more, so a repeated feature key is harmless. */
  lemma ResetValueIdempotent(c: Config, a: Account, mainToggleOn: bool, f: Feature, pref: OptInState)
    ensures var r := ResetValue(c, a, mainToggleOn, f, pref);
      ResetValue(c, a, mainToggleOn, f, r) == r
  {
  }

  /** The main toggle rule: visible features that follow it take its state; all others keep theirs. */
  lemma ToggleValueRule(c: Config, a: Account, mainToggleOn: bool, f: Feature, pref: OptInState)
    ensures var r := ToggleValue(c, a, mainToggleOn, f, pref);
      (IsSettingVisible(c, a, f, pref) && f in c.enableWhenMainToggleOn ==>
         r == (if mainToggleOn then Enabled else Disabled)) &&
      (!(IsSettingVisible(c, a, f, pref) && f in c.enableWhenMainToggleOn) ==> r == pref)
  {
  }

  lemma ToggleValueIdempotent(c: Config, a: Account, mainToggleOn: bool, f: Feature, pref: OptInState)
    ensures var r := ToggleValue(c, a, mainToggleOn, f, pref);
      ToggleValue(c, a, mainToggleOn, f, r) == r
  {
  }

  /** Every listed feature's pref is `step` of its old value; every other pref is unchanged. */
  ghost predicate RewrittenBy(c: Config, a: Account, mainToggleOn: bool, toggle: bool,
                              before: map<Feature, OptInState>, after: map<Feature, OptInState>)
  {
    forall f :: PrefOf(after, f) ==
      if f in c.allFeatures then
        (if toggle then ToggleValue(c, a, mainToggleOn, f, PrefOf(before, f))
         else ResetValue(c, a, mainToggleOn, f, PrefOf(before, f)))
      else PrefOf(before, f)
  }

  /** `OnFeatureSettingPrefChanged`'s check: an enabled feature has a valid user. */
  ghost predicate EnabledFeaturesHaveValidUser(c: Config, a: Account, prefs: map<Feature, OptInState>)
  {
    forall f :: f in c.allFeatures && CurrentlyEnabled(c, a, f, PrefOf(prefs, f)) ==>
      UserValidity(c, a, f) == Valid
  }

  /** Any reset establishes that check for every listed feature, whatever the prefs were before. */
  lemma {:induction false} ResetEstablishesCheck(c: Config, a: Account, mainToggleOn: bool,
                                                 before: map<Feature, OptInState>,
                                                 after: map<Feature, OptInState>)
    requires RewrittenBy(c, a, mainToggleOn, false, before, after)
    ensures EnabledFeaturesHaveValidUser(c, a, after)
  {
    forall f | f in c.allFeatures && CurrentlyEnabled(c, a, f, PrefOf(after, f))
      ensures UserValidity(c, a, f) == Valid
    {
      assert PrefOf(after, f) == ResetValue(c, a, mainToggleOn, f, PrefOf(before, f));
      ResetLeavesEnabledValid(c, a, mainToggleOn, f, PrefOf(before, f));
    }
  }

  /**
   * The main-toggle rewrite keeps `OnFeatureSettingPrefChanged`'s check: it
   * only enables features whose setting is visible, hence valid.
   */
  lemma {:induction false} ToggleKeepsCheck(c: Config, a: Account, mainToggleOn: bool,
                                            before: map<Feature, OptInState>,
                                            after: map<Feature, OptInState>)
    requires RewrittenBy(c, a, mainToggleOn, true, before, after)
    requires EnabledFeaturesHaveValidUser(c, a, before)
    ensures EnabledFeaturesHaveValidUser(c, a, after)
  {
    forall f | f in c.allFeatures && CurrentlyEnabled(c, a, f, PrefOf(after, f))
      ensures UserValidity(c, a, f) == Valid
    {
      var pref := PrefOf(before, f);
      assert PrefOf(after, f) == ToggleValue(c, a, mainToggleOn, f, pref);
      if f !in c.graduated && pref == Enabled {
        assert CurrentlyEnabled(c, a, f, pref);
      }
    }
  }

  // ---------------------------------------------------------------------------
  // The controller

  class Controller {
    const config: Config
    /** The per-feature opt-in prefs of the profile. */
    var prefs: map<Feature, OptInState>
    /** `kModelExecutionMainToggleSettingState`. */
    var mainToggle: OptInState
    var isSignedIn: bool
    var accountAllowsModelExecution: bool

    function CurrentAccount(): (a: Account)
      reads this
      ensures a.isSignedIn == isSignedIn && a.allowsModelExecution == accountAllowsModelExecution
    {
      Account(isSignedIn, accountAllowsModelExecution)
    }

    /**
     * The controller reads the sign-in state from the identity manager, if
     * any; the capability is only asked for when signed in, and is false
     * otherwise (the member's initial value, from a header not modelled).
     */
    constructor (config: Config, prefs: map<Feature, OptInState>, mainToggle: OptInState,
                 identity: Option<IdentityManager>)
      ensures this.config == config && this.prefs == prefs && this.mainToggle == mainToggle
      ensures isSignedIn <==> identity.Some? && identity.value.primaryAccountId != ""
      ensures accountAllowsModelExecution <==>
                isSignedIn && CanUseModelExecutionFeatures(config.capabilityCheckDisabled, identity)
    {
      this.config := config;
      this.prefs := prefs;
      this.mainToggle := mainToggle;
      var signedIn := identity.Some? && identity.value.primaryAccountId != "";
      this.isSignedIn := signedIn;
      this.accountAllowsModelExecution := false;
      if signedIn {
        this.accountAllowsModelExecution := CanUseModelExecutionFeatures(config.capabilityCheckDisabled, identity);
      }
    }

    /** `ResetInvalidFeaturePrefs`. */
    method ResetInvalidFeaturePrefs()
      modifies this`prefs
      ensures RewrittenBy(config, CurrentAccount(), mainToggle == Enabled, false, old(prefs), prefs)
      ensures EnabledFeaturesHaveValidUser(config, CurrentAccount(), prefs)
    {
      var mainToggleEnabled := mainToggle == Enabled;
      var account := CurrentAccount();
      var i := 0;
      while i < |config.allFeatures|
        invariant 0 <= i <= |config.allFeatures|
        invariant forall f ::
                    PrefOf(prefs, f) ==
                    (if f in config.allFeatures[..i]
                     then ResetValue(config, account, mainToggleEnabled, f, PrefOf(old(prefs), f))
                     else PrefOf(old(prefs), f))
      {
        var feature := config.allFeatures[i];
        var prefState := PrefOf(prefs, feature);
        ResetValueIdempotent(config, account, mainToggleEnabled, feature, PrefOf(old(prefs), feature));
        if mainToggleEnabled && IsSettingVisible(config, account, feature, prefState) &&
           feature in config.enableWhenMainToggleOn && prefState == NotInitialized {
          prefs := prefs[feature := Enabled];
        }
        if prefState == Enabled && UserValidity(config, account, feature) != Valid {
          prefs := prefs[feature := NotInitialized];
        }
        assert PrefOf(prefs, feature) == ResetValue(config, account, mainToggleEnabled, feature, prefState);
        assert config.allFeatures[..i + 1] == config.allFeatures[..i] + [feature];
        i := i + 1;
      }
      assert config.allFeatures[..i] == config.allFeatures;
      ResetEstablishesCheck(config, account, mainToggleEnabled, old(prefs), prefs);
    }

    /** `OnMainToggleSettingStatePrefChanged`. */
    method OnMainToggleSettingStatePrefChanged()
      modifies this`prefs
      ensures RewrittenBy(config, CurrentAccount(), mainToggle == Enabled, true, old(prefs), prefs)
      ensures old(EnabledFeaturesHaveValidUser(config, CurrentAccount(), prefs)) ==>
                EnabledFeaturesHaveValidUser(config, CurrentAccount(), prefs)
    {
      var isNowEnabled := mainToggle == Enabled;
      var featureOptInState := if isNowEnabled then Enabled else Disabled;
      var account := CurrentAccount();
      var i := 0;
      while i < |config.allFeatures|
        invariant 0 <= i <= |config.allFeatures|
        invariant forall f ::
                    PrefOf(prefs, f) ==
                    (if f in config.allFeatures[..i]
                     then ToggleValue(config, account, isNowEnabled, f, PrefOf(old(prefs), f))
                     else PrefOf(old(prefs), f))
      {
        var feature := config.allFeatures[i];
        ToggleValueIdempotent(config, account, isNowEnabled, feature, PrefOf(old(prefs), feature));
        assert config.allFeatures[..i + 1] == config.allFeatures[..i] + [feature];
        if !IsSettingVisible(config, account, feature, PrefOf(prefs, feature)) {
          i := i + 1;
          continue;
        }
        if feature !in config.enableWhenMainToggleOn {
          i := i + 1;
          continue;
        }
        prefs := prefs[feature := featureOptInState];
        i := i + 1;
      }
      assert config.allFeatures[..i] == config.allFeatures;
      if EnabledFeaturesHaveValidUser(config, account, old(prefs)) {
        ToggleKeepsCheck(config, account, isNowEnabled, old(prefs), prefs);
      }
    }

    /**
     * `OnPrimaryAccountChanged`: nothing happens unless the signed-in state
     * flips; signing out revokes the capability, signing in re-reads it, and
     * both reset the prefs under the new account state.
     */
    method OnPrimaryAccountChanged(identity: Option<IdentityManager>)
      modifies this`isSignedIn, this`accountAllowsModelExecution, this`prefs
      ensures isSignedIn == (identity.Some? && identity.value.primaryAccountId != "")
      ensures old(isSignedIn) == isSignedIn ==>
                prefs == old(prefs) && accountAllowsModelExecution == old(accountAllowsModelExecution)
      ensures old(isSignedIn) != isSignedIn && !isSignedIn ==> !accountAllowsModelExecution
      ensures old(isSignedIn) != isSignedIn && isSignedIn ==>
                accountAllowsModelExecution ==
                CanUseModelExecutionFeatures(config.capabilityCheckDisabled, identity)
      ensures old(isSignedIn) != isSignedIn ==>
                RewrittenBy(config, CurrentAccount(), mainToggle == Enabled, false, old(prefs), prefs) &&
                EnabledFeaturesHaveValidUser(config, CurrentAccount(), prefs)
    {
      var wasSignedIn := isSignedIn;
      isSignedIn := identity.Some? && identity.value.primaryAccountId != "";
      if wasSignedIn == isSignedIn {
        return;
      }
      if !isSignedIn {
        accountAllowsModelExecution := false;
        ResetInvalidFeaturePrefs();
        return;
      }
      accountAllowsModelExecution := CanUseModelExecutionFeatures(config.capabilityCheckDisabled, identity);
      ResetInvalidFeaturePrefs();
    }

    /** `OnExtendedAccountInfoUpdated`: re-reads the capability from the fresh account info. */
    method OnExtendedAccountInfoUpdated(capability: Tribool)
      modifies this`accountAllowsModelExecution, this`prefs
      ensures accountAllowsModelExecution ==
                (isSignedIn && CanUseFromAccountInfo(config.capabilityCheckDisabled, capability))
      ensures RewrittenBy(config, CurrentAccount(), mainToggle == Enabled, false, old(prefs), prefs)
      ensures EnabledFeaturesHaveValidUser(config, CurrentAccount(), prefs)
    {
      if !isSignedIn {
        accountAllowsModelExecution := false;
        ResetInvalidFeaturePrefs();
        return;
      }
      accountAllowsModelExecution := CanUseFromAccountInfo(config.capabilityCheckDisabled, capability);
      ResetInvalidFeaturePrefs();
    }
  }

  /** Signing out invalidates every feature that needs an account. */
  lemma SignedOutInvalidatesAccountFeatures(c: Config, f: Feature)
    requires f !in c.allowedForUnsignedUser
    ensures UserValidity(c, Account(false, false), f) == InvalidUnsignedUser
    ensures !IsSettingVisible(c, Account(false, false), f, Enabled)
  {
  }

  // ---------------------------------------------------------------------------
  // The performance-class list of history search

  /** `base::kWhitespaceASCII`. */
  predicate IsAsciiWhitespace(ch: char)
  {
    ch == ' ' || ch == '\t' || ch == '\n' || ch == '\U{0B}' || ch == '\U{0C}' || ch == '\r'
  }

  /** `s` split at every `sep` (`SplitResult::SPLIT_WANT_ALL`). */
  function SplitOn(s: string, sep: char): (r: seq<string>)
    ensures |r| > 0
    ensures forall k :: 0 <= k < |r| ==> sep !in r[k]
    decreases |s|
  {
    var n := IndexOfChar(s, sep);
    if n == -1 then [s] else [s[..n]] + SplitOn(s[n + 1..], sep)
  }

  /** The pieces rejoined with the separator. */
  function JoinOn(pieces: seq<string>, sep: char): string
    requires |pieces| > 0
  {
    if |pieces| == 1 then pieces[0] else pieces[0] + [sep] + JoinOn(pieces[1..], sep)
  }

  lemma JoinOnCons(piece: string, pieces: seq<string>, sep: char)
    requires |pieces| > 0
    ensures JoinOn([piece] + pieces, sep) == piece + [sep] + JoinOn(pieces, sep)
  {
    assert ([piece] + pieces)[1..] == pieces;
  }

  lemma ConcatAtSeparator(s: string, n: nat, sep: char, after: string)
    requires n < |s| && s[n] == sep && after == s[n + 1..]
    ensures s[..n] + [sep] + after == s
  {
  }

  /** Splitting loses nothing: rejoining the pieces gives back the list. */
  lemma {:induction false} SplitOnRoundTrip(s: string, sep: char)
    ensures JoinOn(SplitOn(s, sep), sep) == s
    decreases |s|
  {
    var n := IndexOfChar(s, sep);
    if n != -1 {
      SplitOnRoundTrip(s[n + 1..], sep);
      JoinOnCons(s[..n], SplitOn(s[n + 1..], sep), sep);
      ConcatAtSeparator(s, n, sep, JoinOn(SplitOn(s[n + 1..], sep), sep));
    }
  }

  /** The first index at or after `i` that does not hold whitespace, or `|s|`. */
  function SkipWhitespaceFrom(s: string, i: nat): (r: nat)
    requires i <= |s|
    ensures i <= r <= |s|
    ensures forall k :: i <= k < r ==> IsAsciiWhitespace(s[k])
    ensures r == |s| || !IsAsciiWhitespace(s[r])
    decreases |s| - i
  {
    if i < |s| && IsAsciiWhitespace(s[i]) then SkipWhitespaceFrom(s, i + 1) else i
  }

  /** The end of `s[lo..j]` once its trailing whitespace is dropped. */
  function DropWhitespaceBefore(s: string, lo: nat, j: nat): (r: nat)
    requires lo <= j <= |s|
    ensures lo <= r <= j
    ensures forall k :: r <= k < j ==> IsAsciiWhitespace(s[k])
    ensures r == lo || !IsAsciiWhitespace(s[r - 1])
    decreases j
  {
    if lo < j && IsAsciiWhitespace(s[j - 1]) then DropWhitespaceBefore(s, lo, j - 1) else j
  }

  /** `WhitespaceHandling::TRIM_WHITESPACE` on one piece. */
  function Trim(s: string): (r: string)
    ensures |r| <= |s|
    ensures r == [] || (!IsAsciiWhitespace(r[0]) && !IsAsciiWhitespace(r[|r| - 1]))
    ensures forall ch :: ch in r ==> ch in s
  {
    var i := SkipWhitespaceFrom(s, 0);
    var j := DropWhitespaceBefore(s, i, |s|);
    s[i..j]
  }

  /** Trimming removes only whitespace, from both ends: what lies outside the result is whitespace. */
  lemma TrimDropsOnlyWhitespace(s: string)
    ensures exists i, j :: 0 <= i <= j <= |s| && Trim(s) == s[i..j] &&
                           (forall k :: 0 <= k < i ==> IsAsciiWhitespace(s[k])) &&
                           (forall k :: j <= k < |s| ==> IsAsciiWhitespace(s[k]))
  {
    var i := SkipWhitespaceFrom(s, 0);
    var j := DropWhitespaceBefore(s, i, |s|);
    assert Trim(s) == s[i..j];
  }

  /** The non-empty trimmed pieces (`SPLIT_WANT_NONEMPTY`). */
  function NonEmptyTrimmed(pieces: seq<string>): (r: seq<string>)
    ensures forall x :: x in r <==> x != "" && exists k :: 0 <= k < |pieces| && Trim(pieces[k]) == x
  {
    if pieces == [] then []
    else
      var rest := NonEmptyTrimmed(pieces[1..]);
      assert forall k :: 1 <= k < |pieces| ==> pieces[k] == pieces[1..][k - 1];
      assert forall k :: 0 <= k < |pieces[1..]| ==> pieces[1..][k] == pieces[k + 1];
      if Trim(pieces[0]) != "" then [Trim(pieces[0])] + rest else rest
  }

  /** The performance classes named by the comma-separated list. */
  function AllowedClasses(list: string): (r: seq<string>)
    ensures forall x :: x in r ==> x != "" && ',' !in x &&
                                   !IsAsciiWhitespace(x[0]) && !IsAsciiWhitespace(x[|x| - 1])
  {
    var pieces := SplitOn(list, ',');
    TrimmedPiecesShape(pieces, ',');
    NonEmptyTrimmed(pieces)
  }

  /** The kept pieces are non-empty, free of the separator and trimmed at both ends. */
  lemma TrimmedPiecesShape(pieces: seq<string>, sep: char)
    requires forall k :: 0 <= k < |pieces| ==> sep !in pieces[k]
    ensures forall x :: x in NonEmptyTrimmed(pieces) ==>
                          x != "" && sep !in x && !IsAsciiWhitespace(x[0]) && !IsAsciiWhitespace(x[|x| - 1])
  {
    forall x | x in NonEmptyTrimmed(pieces)
      ensures x != "" && sep !in x && !IsAsciiWhitespace(x[0]) && !IsAsciiWhitespace(x[|x| - 1])
    {
      var k :| 0 <= k < |pieces| && Trim(pieces[k]) == x;
      assert sep !in pieces[k];
    }
  }

  /** `base::ToString` of an `int`: decimal digits, with a leading '-' when negative. */
  function DecimalString(n: int): string
  {
    if n < 0 then "-" + NatDecimal(-n) else NatDecimal(n)
  }

  function NatDecimal(n: nat): string
  {
    if n < 10 then [DigitChar(n)] else NatDecimal(n / 10) + [DigitChar(n % 10)]
  }

  function DigitChar(d: nat): char
    requires d < 10
  {
    "0123456789"[d]
  }
}
