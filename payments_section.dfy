// The payments section of the autofill settings page
// (settings/autofill_page/payments_section.ts): whether the migration button
// is shown and with which text, which virtual-card menu entry is offered, which
// CVC-storage labels are shown, the mandatory re-authentication toggle, and the
// menus and dialogs that act on the active card or IBAN.
//
// Calls into the payments manager are recorded in order in `requests`, the
// pages opened in a new tab in `openedPages`; localised strings are
// represented by their message ids; the current date of "add card" is a
// parameter. Metrics, focus handling and the rendering of the menus are left
// out.

module PaymentsSection {

  import opened Strings

  /** The fields of `CreditCardEntry.metadata` the section reads; an absent flag is false. */
  datatype CardMetadata = CardMetadata(
    isLocal: bool,
    isMigratable: bool,
    isVirtualCardEnrollmentEligible: bool,
    isVirtualCardEnrolled: bool)

  /** A `CreditCardEntry`; an absent CVC is the empty string, an absent expiry `None`. */
  datatype CreditCard = CreditCard(
    guid: Option<string>,
    cvc: string,
    metadata: Option<CardMetadata>,
    instrumentId: string,
    expirationMonth: Option<int>,
    expirationYear: Option<int>)

  /** An `IbanEntry`; only its guid matters here. */
  datatype Iban = Iban(guid: Option<string>)

  /** The payments-manager calls the section makes. */
  datatype PaymentsRequest =
    | RemoveCreditCard(cardGuid: string)
    | RemoveIban(ibanGuid: string)
    | AddVirtualCard(addGuid: Option<string>)
    | RemoveVirtualCard(removeId: string)
    | MigrateCreditCards
    | BulkDeleteAllCvcs
    | AuthenticateUserAndFlipMandatoryAuthToggle
    /** `getLocalCard(guid)`; a card without a guid passes `undefined`, which is `None`. */
    | GetLocalCard(localGuid: Option<string>)
    | SaveCreditCard(savedCard: CreditCard)
    | SaveIban(savedIban: Iban)
    | LogServerCardLinkClicked
    | LogServerIbanLinkClicked

  /**
   * A page opened in a new window: `managePaymentMethodsUrl`, with an `id`
   * query parameter when one is given, or the Google Pay help article.
   */
  datatype OpenedPage = ManagePaymentMethodsPage(id: Option<string>) | GooglePayHelpPage

  // ---------------------------------------------------------------------------
  // Migration
  // ---------------------------------------------------------------------------

  /** Every card carries metadata, as `checkIfMigratable_` dereferences it unchecked. */
  predicate AllHaveMetadata(cards: seq<CreditCard>)
  {
    forall k :: 0 <= k < |cards| ==> cards[k].metadata.Some?
  }

  /** The length of `creditCards.filter(card => card.metadata!.isMigratable)`. */
  function CountMigratable(cards: seq<CreditCard>): (r: nat)
    requires AllHaveMetadata(cards)
    ensures r <= |cards|
    ensures r == 0 <==> forall k :: 0 <= k < |cards| ==> !cards[k].metadata.value.isMigratable
    ensures r == |cards| <==> forall k :: 0 <= k < |cards| ==> cards[k].metadata.value.isMigratable
  {
    if cards == [] then 0
    else
      var rest := CountMigratable(cards[1..]);
      assert forall k :: 1 <= k < |cards| ==> cards[k] == cards[1..][k - 1];
      (if cards[0].metadata.value.isMigratable then 1 else 0) + rest
  }

  /** Counting distributes over the concatenation of two card lists. */
  lemma {:induction false} CountMigratableAppend(a: seq<CreditCard>, b: seq<CreditCard>)
    requires AllHaveMetadata(a) && AllHaveMetadata(b)
    ensures AllHaveMetadata(a + b)
    ensures CountMigratable(a + b) == CountMigratable(a) + CountMigratable(b)
  {
    if a == [] {
      assert a + b == b;
    } else {
      assert (a + b)[1..] == a[1..] + b;
      CountMigratableAppend(a[1..], b);
    }
  }

  /** The message id of the migration info text for `count` migratable cards. */
  function MigratableInfoFor(count: nat): (r: string)
    ensures r == "migratableCardsInfoSingle" <==> count == 1
    ensures r == "migratableCardsInfoMultiple" <==> count != 1
  {
    if count == 1 then "migratableCardsInfoSingle" else "migratableCardsInfoMultiple"
  }

  /** Whether `checkIfMigratable_` shows the migration button. */
  function ShowMigrationButton(migrationEnabled: bool, creditCardEnabled: bool, cards: seq<CreditCard>): (r: bool)
    requires migrationEnabled && creditCardEnabled ==> AllHaveMetadata(cards)
    ensures r ==> migrationEnabled && creditCardEnabled
    ensures r <==> migrationEnabled && creditCardEnabled && exists k :: 0 <= k < |cards| && cards[k].metadata.value.isMigratable
  {
    migrationEnabled && creditCardEnabled && CountMigratable(cards) != 0
  }

  // ---------------------------------------------------------------------------
  // Virtual cards
  // ---------------------------------------------------------------------------

  /** `shouldShowAddVirtualCardButton_`. */
  function ShouldShowAddVirtualCardButton(active: Option<CreditCard>): (r: bool)
    ensures r <==> active.Some? && active.value.metadata.Some? &&
                   active.value.metadata.value.isVirtualCardEnrollmentEligible &&
                   !active.value.metadata.value.isVirtualCardEnrolled
  {
    match active
    case None => false
    case Some(card) =>
      match card.metadata
      case None => false
      case Some(m) => m.isVirtualCardEnrollmentEligible && !m.isVirtualCardEnrolled
  }

  /** `shouldShowRemoveVirtualCardButton_`. */
  function ShouldShowRemoveVirtualCardButton(active: Option<CreditCard>): (r: bool)
    ensures r <==> active.Some? && active.value.metadata.Some? &&
                   active.value.metadata.value.isVirtualCardEnrollmentEligible &&
                   active.value.metadata.value.isVirtualCardEnrolled
  {
    match active
    case None => false
    case Some(card) =>
      match card.metadata
      case None => false
      case Some(m) => m.isVirtualCardEnrollmentEligible && m.isVirtualCardEnrolled
  }

  /**
   * The two virtual-card entries are never offered together; one of them is
   * offered exactly when the active card is eligible for enrollment, and
   * neither without an active card with metadata.
   */
  lemma VirtualCardButtonsExclusive(active: Option<CreditCard>)
    ensures !(ShouldShowAddVirtualCardButton(active) && ShouldShowRemoveVirtualCardButton(active))
    ensures ShouldShowAddVirtualCardButton(active) || ShouldShowRemoveVirtualCardButton(active) <==>
              active.Some? && active.value.metadata.Some? && active.value.metadata.value.isVirtualCardEnrollmentEligible
    ensures active.None? || active.value.metadata.None? ==>
              !ShouldShowAddVirtualCardButton(active) && !ShouldShowRemoveVirtualCardButton(active)
  {
  }

  // ---------------------------------------------------------------------------
  // CVC storage labels
  // ---------------------------------------------------------------------------

  /** `creditCards.find(cc => !!cc.cvc)`: the first card with a non-empty CVC. */
  function FindCardWithCvc(cards: seq<CreditCard>): (r: Option<CreditCard>)
    ensures r.Some? <==> exists k :: 0 <= k < |cards| && cards[k].cvc != ""
    ensures r.Some? ==> exists k :: 0 <= k < |cards| && cards[k] == r.value &&
                                    (forall j :: 0 <= j < k ==> cards[j].cvc == "")
    ensures r.Some? ==> r.value.cvc != ""
  {
    if cards == [] then None
    else if cards[0].cvc != "" then Some(cards[0])
    else
      var r := FindCardWithCvc(cards[1..]);
      assert forall k :: 1 <= k < |cards| ==> cards[k] == cards[1..][k - 1];
      if r.Some? then
        var k :| 0 <= k < |cards[1..]| && cards[1..][k] == r.value && (forall j :: 0 <= j < k ==> cards[1..][j].cvc == "");
        assert cards[k + 1] == r.value;
        assert forall j :: 0 <= j < k + 1 ==> cards[j].cvc == "" by {
          forall j | 0 <= j < k + 1
            ensures cards[j].cvc == ""
          {
            if j > 0 {
              assert cards[j] == cards[1..][j - 1];
            }
          }
        }
        r
      else
        r
  }

  /** Whether some saved card has a CVC. */
  ghost predicate SomeCardHasCvc(cards: seq<CreditCard>)
  {
    exists k :: 0 <= k < |cards| && cards[k].cvc != ""
  }

  /** `getCvcStorageSublabel_`: the variant with the bulk-delete link when a CVC is saved. */
  function CvcStorageSublabel(cards: seq<CreditCard>): (r: string)
    ensures r == "enableCvcStorageDeleteDataSublabel" <==> SomeCardHasCvc(cards)
    ensures r == "enableCvcStorageSublabel" <==> !SomeCardHasCvc(cards)
  {
    if FindCardWithCvc(cards).None? then "enableCvcStorageSublabel" else "enableCvcStorageDeleteDataSublabel"
  }

  /** `getCvcStorageAriaLabel_`: the plain label when a CVC is saved, the "no CVC saved" one otherwise. */
  function CvcStorageAriaLabel(cards: seq<CreditCard>): (r: string)
    ensures r == "enableCvcStorageLabel" <==> SomeCardHasCvc(cards)
    ensures r == "enableCvcStorageAriaLabelForNoCvcSaved" <==> !SomeCardHasCvc(cards)
  {
    if FindCardWithCvc(cards).None? then "enableCvcStorageAriaLabelForNoCvcSaved" else "enableCvcStorageLabel"
  }

  /** The sublabel offers deletion exactly when the aria label announces saved CVCs. */
  lemma CvcLabelsAgree(cards: seq<CreditCard>)
    ensures CvcStorageSublabel(cards) == "enableCvcStorageDeleteDataSublabel" <==>
              CvcStorageAriaLabel(cards) == "enableCvcStorageLabel"
  {
  }

  /** Appending a card with a CVC always makes the labels switch to their "CVC saved" variants. */
  lemma {:induction false} AddingCvcSwitchesLabels(cards: seq<CreditCard>, card: CreditCard)
    requires card.cvc != ""
    ensures CvcStorageSublabel(cards + [card]) == "enableCvcStorageDeleteDataSublabel"
    ensures CvcStorageAriaLabel(cards + [card]) == "enableCvcStorageLabel"
  {
    assert (cards + [card])[|cards|] == card;
  }

  // ---------------------------------------------------------------------------
  // Mandatory re-authentication
  // ---------------------------------------------------------------------------

  /** `getMenuEditCardText_`: a local card is edited in place, a server card on the payments site. */
  function MenuEditCardText(isLocalCard: bool): (r: string)
    ensures r == "edit" <==> isLocalCard
    ensures r == "editServerCard" <==> !isLocalCard
  {
    if isLocalCard then "edit" else "editServerCard"
  }

  /** `shouldDisableAuthToggle_`: disabled when card autofill is off or no device authentication exists. */
  function ShouldDisableAuthToggle(creditCardEnabled: bool, deviceAuthAvailable: bool): (r: bool)
    ensures !r <==> creditCardEnabled && deviceAuthAvailable
  {
    !creditCardEnabled || !deviceAuthAvailable
  }

  // ---------------------------------------------------------------------------
  // The element
  // ---------------------------------------------------------------------------

  class SettingsPaymentsSection {
    const migrationEnabled: bool
    /** Load-time value, overwritten by the `checkIfDeviceAuthAvailable` reply. */
    var deviceAuthAvailable: bool
    const showIbanSettingsEnabled: bool
    const cvcStorageAvailable: bool
    var creditCards: seq<CreditCard>
    var ibans: seq<Iban>
    var activeCreditCard: Option<CreditCard>
    var activeIban: Option<Iban>
    var showCreditCardDialog: bool
    var showIbanDialog: bool
    var showLocalCreditCardRemoveConfirmationDialog: bool
    var showLocalIbanRemoveConfirmationDialog: bool
    var showVirtualCardUnenrollDialog: bool
    var showBulkRemoveCvcConfirmationDialog: bool
    /** The message id of the migration text; "" until first set. */
    var migratableCreditCardsInfo: string
    /** The `checked` state of the mandatory re-authentication toggle. */
    var mandatoryAuthToggleChecked: bool
    /** Every payments-manager call, in order. */
    var requests: seq<PaymentsRequest>
    /** Every page opened through the window proxy, in order. */
    var openedPages: seq<OpenedPage>

    constructor (migrationEnabled: bool, deviceAuthAvailable: bool, showIbanSettingsEnabled: bool,
                 cvcStorageAvailable: bool, creditCards: seq<CreditCard>, ibans: seq<Iban>, mandatoryAuthEnabled: bool)
      ensures this.migrationEnabled == migrationEnabled && this.deviceAuthAvailable == deviceAuthAvailable
      ensures this.showIbanSettingsEnabled == showIbanSettingsEnabled && this.cvcStorageAvailable == cvcStorageAvailable
      ensures this.creditCards == creditCards && this.ibans == ibans
      ensures activeCreditCard.None? && activeIban.None?
      ensures !showCreditCardDialog && !showIbanDialog && !showVirtualCardUnenrollDialog
      ensures !showLocalCreditCardRemoveConfirmationDialog && !showLocalIbanRemoveConfirmationDialog
      ensures !showBulkRemoveCvcConfirmationDialog
      ensures migratableCreditCardsInfo == "" && mandatoryAuthToggleChecked == mandatoryAuthEnabled
      ensures requests == [] && openedPages == []
    {
      this.migrationEnabled := migrationEnabled;
      this.deviceAuthAvailable := deviceAuthAvailable;
      this.showIbanSettingsEnabled := showIbanSettingsEnabled;
      this.cvcStorageAvailable := cvcStorageAvailable;
      this.creditCards := creditCards;
      this.ibans := ibans;
      activeCreditCard := None;
      activeIban := None;
      showCreditCardDialog := false;
      showIbanDialog := false;
      showLocalCreditCardRemoveConfirmationDialog := false;
      showLocalIbanRemoveConfirmationDialog := false;
      showVirtualCardUnenrollDialog := false;
      showBulkRemoveCvcConfirmationDialog := false;
      migratableCreditCardsInfo := "";
      mandatoryAuthToggleChecked := mandatoryAuthEnabled;
      requests := [];
      openedPages := [];
    }

    /** The personal-data listener of `connectedCallback`: the lists are replaced by the browser's. */
    method OnPersonalDataChanged(cardList: seq<CreditCard>, ibanList: seq<Iban>)
      modifies this`creditCards, this`ibans
      ensures creditCards == cardList && ibans == ibanList
    {
      creditCards := cardList;
      ibans := ibanList;
    }

    /**
     * The `checkIfDeviceAuthAvailable` reply of `connectedCallback` (Windows
     * and macOS): the answer replaces the load-time value, and the
     * re-authentication toggle is then enabled exactly when card autofill is
     * on and the answer was yes.
     */
    method OnDeviceAuthAvailableReply(result: bool)
      modifies this`deviceAuthAvailable
      ensures deviceAuthAvailable == result
      ensures forall creditCardEnabled: bool ::
        !ShouldDisableAuthToggle(creditCardEnabled, deviceAuthAvailable) <==> creditCardEnabled && result
    {
      deviceAuthAvailable := result;
    }

    /**
     * `checkIfMigratable_`: whether to show the migration button; when it is
     * shown, the info text is chosen by the number of migratable cards.
     */
    method CheckIfMigratable(cards: seq<CreditCard>, creditCardEnabled: bool) returns (r: bool)
      requires migrationEnabled && creditCardEnabled ==> AllHaveMetadata(cards)
      modifies this`migratableCreditCardsInfo
      ensures r == ShowMigrationButton(migrationEnabled, creditCardEnabled, cards)
      ensures r ==> migratableCreditCardsInfo == MigratableInfoFor(CountMigratable(cards))
      ensures !r ==> migratableCreditCardsInfo == old(migratableCreditCardsInfo)
    {
      if !migrationEnabled {
        return false;
      }
      if !creditCardEnabled {
        return false;
      }
      var count := CountMigratable(cards);
      if count == 0 {
        return false;
      }
      migratableCreditCardsInfo := if count == 1 then "migratableCardsInfoSingle" else "migratableCardsInfoMultiple";
      return true;
    }

    /** `onCreditCardDotsMenuClick_`: the clicked card becomes the active one. */
    method OnCreditCardDotsMenuClick(card: CreditCard)
      modifies this`activeCreditCard
      ensures activeCreditCard == Some(card)
    {
      activeCreditCard := Some(card);
    }

    /** `onDotsIbanMenuClick_`: the clicked IBAN becomes the active one. */
    method OnDotsIbanMenuClick(iban: Iban)
      modifies this`activeIban
      ensures activeIban == Some(iban)
    {
      activeIban := Some(iban);
    }

    /**
     * `onAddCreditCardClick_`: a new card expiring in the current month
     * (`zeroBasedMonth` as `Date.getMonth` reports it) opens in the dialog.
     */
    method OnAddCreditCardClick(zeroBasedMonth: int, fullYear: int)
      modifies this`activeCreditCard, this`showCreditCardDialog
      ensures activeCreditCard == Some(CreditCard(None, "", None, "", Some(zeroBasedMonth + 1), Some(fullYear)))
      ensures showCreditCardDialog
    {
      activeCreditCard := Some(CreditCard(None, "", None, "", Some(zeroBasedMonth + 1), Some(fullYear)));
      showCreditCardDialog := true;
    }

    /** `onCreditCardDialogClose_`: hides the dialog and forgets the active card. */
    method OnCreditCardDialogClose()
      modifies this`showCreditCardDialog, this`activeCreditCard
      ensures !showCreditCardDialog && activeCreditCard.None?
    {
      showCreditCardDialog := false;
      activeCreditCard := None;
    }

    /** `onAddIbanClick_`. */
    method OnAddIbanClick()
      modifies this`showIbanDialog
      ensures showIbanDialog
    {
      showIbanDialog := true;
    }

    /** `onIbanDialogClose_`: hides the dialog and forgets the active IBAN. */
    method OnIbanDialogClose()
      modifies this`showIbanDialog, this`activeIban
      ensures !showIbanDialog && activeIban.None?
    {
      showIbanDialog := false;
      activeIban := None;
    }

    /**
     * `onRemoteCreditCardUrlClick_`: logs the click and opens the
     * manage-payment-methods page, naming the active card's instrument id
     * when it has one.
     */
    method OnRemoteCreditCardUrlClick()
      requires activeCreditCard.Some?
      modifies this`requests, this`openedPages
      ensures requests == old(requests) + [LogServerCardLinkClicked]
      ensures var id := activeCreditCard.value.instrumentId;
              openedPages == old(openedPages) + [ManagePaymentMethodsPage(if id != "" then Some(id) else None)]
    {
      requests := requests + [LogServerCardLinkClicked];
      var id := activeCreditCard.value.instrumentId;
      openedPages := openedPages + [ManagePaymentMethodsPage(if id != "" then Some(id) else None)];
    }

    /** `onRemoteEditCreditCardClick_`: the clicked server card becomes active and its page opens. */
    method OnRemoteEditCreditCardClick(card: CreditCard)
      modifies this`activeCreditCard, this`requests, this`openedPages
      ensures activeCreditCard == Some(card)
      ensures requests == old(requests) + [LogServerCardLinkClicked]
      ensures openedPages == old(openedPages) + [ManagePaymentMethodsPage(if card.instrumentId != "" then Some(card.instrumentId) else None)]
    {
      activeCreditCard := Some(card);
      OnRemoteCreditCardUrlClick();
    }

    /** `onRemoteEditIbanMenuClick_`: logs the click and opens the page without an id. */
    method OnRemoteEditIbanMenuClick()
      modifies this`requests, this`openedPages
      ensures requests == old(requests) + [LogServerIbanLinkClicked]
      ensures openedPages == old(openedPages) + [ManagePaymentMethodsPage(None)]
    {
      requests := requests + [LogServerIbanLinkClicked];
      openedPages := openedPages + [ManagePaymentMethodsPage(None)];
    }

    /**
     * `onMenuEditCreditCardClick_`: a local card is fetched unmasked
     * (`unmasked` is the reply to `getLocalCard`) and opens in the dialog; a
     * server card opens its manage-payment-methods page instead.
     */
    method OnMenuEditCreditCardClick(unmasked: CreditCard)
      requires activeCreditCard.Some? && activeCreditCard.value.metadata.Some?
      modifies this`activeCreditCard, this`showCreditCardDialog, this`requests, this`openedPages
      ensures var card := old(activeCreditCard).value;
              card.metadata.value.isLocal ==>
                requests == old(requests) + [GetLocalCard(card.guid)] && activeCreditCard == Some(unmasked)
                && showCreditCardDialog && openedPages == old(openedPages)
      ensures var card := old(activeCreditCard).value;
              !card.metadata.value.isLocal ==>
                requests == old(requests) + [LogServerCardLinkClicked] && activeCreditCard == old(activeCreditCard)
                && showCreditCardDialog == old(showCreditCardDialog)
                && openedPages == old(openedPages) + [ManagePaymentMethodsPage(if card.instrumentId != "" then Some(card.instrumentId) else None)]
    {
      var card := activeCreditCard.value;
      if card.metadata.value.isLocal {
        requests := requests + [GetLocalCard(card.guid)];
        activeCreditCard := Some(unmasked);
        showCreditCardDialog := true;
      } else {
        OnRemoteCreditCardUrlClick();
      }
    }

    /** `onMenuEditIbanClick_`: opens the IBAN dialog on the active IBAN. */
    method OnMenuEditIbanClick()
      modifies this`showIbanDialog
      ensures showIbanDialog
    {
      showIbanDialog := true;
    }

    /** `saveCreditCard_`: hands the card of the save event to the payments manager. */
    method SaveCreditCardEvent(card: CreditCard)
      modifies this`requests
      ensures requests == old(requests) + [SaveCreditCard(card)]
    {
      requests := requests + [SaveCreditCard(card)];
    }

    /** `onSaveIban_`: hands the IBAN of the save event to the payments manager. */
    method OnSaveIban(iban: Iban)
      modifies this`requests
      ensures requests == old(requests) + [SaveIban(iban)]
    {
      requests := requests + [SaveIban(iban)];
    }

    /** `onCardBenefitsSublabelLinkClick_`: opens the card-benefits help article. */
    method OnCardBenefitsSublabelLinkClick()
      modifies this`openedPages
      ensures openedPages == old(openedPages) + [GooglePayHelpPage]
    {
      openedPages := openedPages + [GooglePayHelpPage];
    }

    /** `onMenuRemoveCreditCardClick_`. */
    method OnMenuRemoveCreditCardClick()
      modifies this`showLocalCreditCardRemoveConfirmationDialog
      ensures showLocalCreditCardRemoveConfirmationDialog
    {
      showLocalCreditCardRemoveConfirmationDialog := true;
    }

    /**
     * `onLocalCreditCardRemoveConfirmationDialogClose_`: only a confirmed
     * dialog removes the active card (which must then exist and have a guid)
     * and forgets it; the dialog is hidden either way.
     */
    method OnLocalCreditCardRemoveConfirmationDialogClose(wasConfirmed: bool)
      requires wasConfirmed ==> activeCreditCard.Some? && activeCreditCard.value.guid.Some?
      modifies this`activeCreditCard, this`requests, this`showLocalCreditCardRemoveConfirmationDialog
      ensures !showLocalCreditCardRemoveConfirmationDialog
      ensures wasConfirmed ==> requests == old(requests) + [RemoveCreditCard(old(activeCreditCard).value.guid.value)]
      ensures wasConfirmed ==> activeCreditCard.None?
      ensures !wasConfirmed ==> requests == old(requests) && activeCreditCard == old(activeCreditCard)
    {
      if wasConfirmed {
        requests := requests + [RemoveCreditCard(activeCreditCard.value.guid.value)];
        activeCreditCard := None;
      }
      showLocalCreditCardRemoveConfirmationDialog := false;
    }

    /** `onMenuRemoveIbanClick_`: requires an active IBAN. */
    method OnMenuRemoveIbanClick()
      requires activeIban.Some?
      modifies this`showLocalIbanRemoveConfirmationDialog
      ensures showLocalIbanRemoveConfirmationDialog
    {
      showLocalIbanRemoveConfirmationDialog := true;
    }

    /** `onLocalIbanRemoveConfirmationDialogClose_`: the IBAN counterpart of the card dialog. */
    method OnLocalIbanRemoveConfirmationDialogClose(wasConfirmed: bool)
      requires wasConfirmed ==> activeIban.Some? && activeIban.value.guid.Some?
      modifies this`activeIban, this`requests, this`showLocalIbanRemoveConfirmationDialog
      ensures !showLocalIbanRemoveConfirmationDialog
      ensures wasConfirmed ==> requests == old(requests) + [RemoveIban(old(activeIban).value.guid.value)]
      ensures wasConfirmed ==> activeIban.None?
      ensures !wasConfirmed ==> requests == old(requests) && activeIban == old(activeIban)
    {
      if wasConfirmed {
        requests := requests + [RemoveIban(activeIban.value.guid.value)];
        activeIban := None;
      }
      showLocalIbanRemoveConfirmationDialog := false;
    }

    /** `onMenuAddVirtualCardClick_`: enrolls the active card and forgets it. */
    /** A card without a guid sends `undefined`: the non-null assertion does not check. */
    method OnMenuAddVirtualCardClick()
      requires activeCreditCard.Some?
      modifies this`requests, this`activeCreditCard
      ensures requests == old(requests) + [AddVirtualCard(old(activeCreditCard).value.guid)]
      ensures activeCreditCard.None?
    {
      requests := requests + [AddVirtualCard(activeCreditCard.value.guid)];
      activeCreditCard := None;
    }

    /** `onMenuRemoveVirtualCardClick_`. */
    method OnMenuRemoveVirtualCardClick()
      modifies this`showVirtualCardUnenrollDialog
      ensures showVirtualCardUnenrollDialog
    {
      showVirtualCardUnenrollDialog := true;
    }

    /** `onVirtualCardUnenrollDialogClose_`: hides the dialog and forgets the active card. */
    method OnVirtualCardUnenrollDialogClose()
      modifies this`showVirtualCardUnenrollDialog, this`activeCreditCard
      ensures !showVirtualCardUnenrollDialog && activeCreditCard.None?
    {
      showVirtualCardUnenrollDialog := false;
      activeCreditCard := None;
    }

    /** `unenrollVirtualCard_`. */
    method UnenrollVirtualCard(id: string)
      modifies this`requests
      ensures requests == old(requests) + [RemoveVirtualCard(id)]
    {
      requests := requests + [RemoveVirtualCard(id)];
    }

    /** `onMigrateCreditCardsClick_`. */
    method OnMigrateCreditCardsClick()
      modifies this`requests
      ensures requests == old(requests) + [MigrateCreditCards]
    {
      requests := requests + [MigrateCreditCards];
    }

    /** `onBulkRemoveCvcClick_`. */
    method OnBulkRemoveCvcClick()
      requires cvcStorageAvailable
      modifies this`showBulkRemoveCvcConfirmationDialog
      ensures showBulkRemoveCvcConfirmationDialog
    {
      showBulkRemoveCvcConfirmationDialog := true;
    }

    /** `onShowBulkRemoveCvcConfirmationDialogClose_`: deletes all CVCs only when confirmed. */
    method OnShowBulkRemoveCvcConfirmationDialogClose(wasConfirmed: bool)
      requires cvcStorageAvailable
      modifies this`requests, this`showBulkRemoveCvcConfirmationDialog
      ensures !showBulkRemoveCvcConfirmationDialog
      ensures requests == old(requests) + (if wasConfirmed then [BulkDeleteAllCvcs] else [])
    {
      if wasConfirmed {
        requests := requests + [BulkDeleteAllCvcs];
      }
      showBulkRemoveCvcConfirmationDialog := false;
    }

    /**
     * `onMandatoryAuthToggleChange_`: runs after a click flipped the toggle;
     * it flips the toggle back and asks for authentication, which flips the
     * pref only on success.
     */
    method OnMandatoryAuthToggleChange()
      modifies this`mandatoryAuthToggleChecked, this`requests
      ensures mandatoryAuthToggleChecked == !old(mandatoryAuthToggleChecked)
      ensures requests == old(requests) + [AuthenticateUserAndFlipMandatoryAuthToggle]
    {
      mandatoryAuthToggleChecked := !mandatoryAuthToggleChecked;
      requests := requests + [AuthenticateUserAndFlipMandatoryAuthToggle];
    }
  }

  /** A click on the re-authentication toggle leaves it as it was and requests authentication once. */
  method ClickMandatoryAuthToggle(section: SettingsPaymentsSection)
    modifies section
    ensures section.mandatoryAuthToggleChecked == old(section.mandatoryAuthToggleChecked)
    ensures section.requests == old(section.requests) + [AuthenticateUserAndFlipMandatoryAuthToggle]
  {
    section.mandatoryAuthToggleChecked := !section.mandatoryAuthToggleChecked;
    section.OnMandatoryAuthToggleChange();
  }

  /**
   * Removing a local card through its menu: the card's guid is sent for
   * removal exactly once and the section keeps no active card or open dialog.
   */
  method RemoveLocalCardFlow(section: SettingsPaymentsSection, card: CreditCard)
    requires card.guid.Some?
    modifies section
    ensures section.requests == old(section.requests) + [RemoveCreditCard(card.guid.value)]
    ensures section.activeCreditCard.None? && !section.showLocalCreditCardRemoveConfirmationDialog
  {
    section.OnCreditCardDotsMenuClick(card);
    section.OnMenuRemoveCreditCardClick();
    section.OnLocalCreditCardRemoveConfirmationDialogClose(true);
  }

  /** Cancelling the removal dialog sends nothing and keeps the active card. */
  method CancelRemoveLocalCardFlow(section: SettingsPaymentsSection, card: CreditCard)
    modifies section
    ensures section.requests == old(section.requests)
    ensures section.activeCreditCard == Some(card) && !section.showLocalCreditCardRemoveConfirmationDialog
  {
    section.OnCreditCardDotsMenuClick(card);
    section.OnMenuRemoveCreditCardClick();
    section.OnLocalCreditCardRemoveConfirmationDialogClose(false);
  }
}
