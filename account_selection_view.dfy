// The shared parts of the FedCM account chooser
// (chrome/browser/ui/views/webid/account_selection_view_base.cc): the choice
// of the disclosure sentence, the links placed into it, the fit test against
// the web contents, the identity provider's brand icon (fetched once, cached
// by URL, cropped, drawn on a background circle that follows the button
// colour).
//
// URLs are their text, and an empty text is an empty GURL; whether a URL is
// valid is a parameter. The string formatter `l10n_util::GetStringFUTF16`,
// the image fetcher and the drawing of images are outside the model: the
// formatter is a parameter, a fetch is recorded as a request, and images are
// values that name the operations applied to them.

module AccountSelectionView {

  import opened Strings

  // ---------------------------------------------------------------------------
  // The disclosure sentence

  /** The four resource ids of the data-sharing consent sentence. */
  datatype DisclosureTextId =
    | ConsentNoPpOrTos   // IDS_ACCOUNT_SELECTION_DATA_SHARING_CONSENT_NO_PP_OR_TOS
    | ConsentNoPp        // IDS_ACCOUNT_SELECTION_DATA_SHARING_CONSENT_NO_PP
    | ConsentNoTos       // IDS_ACCOUNT_SELECTION_DATA_SHARING_CONSENT_NO_TOS
    | Consent            // IDS_ACCOUNT_SELECTION_DATA_SHARING_CONSENT

  datatype LinkType = PrivacyPolicy | TermsOfService

  /** `SelectDisclosureTextResourceId`: the sentence names exactly the links whose URL is non-empty. */
  function SelectDisclosureTextResourceId(privacyPolicyUrl: string, termsOfServiceUrl: string): (r: DisclosureTextId)
    ensures (r == Consent || r == ConsentNoTos) <==> privacyPolicyUrl != ""
    ensures (r == Consent || r == ConsentNoPp) <==> termsOfServiceUrl != ""
  {
    if privacyPolicyUrl == "" then
      (if termsOfServiceUrl == "" then ConsentNoPpOrTos else ConsentNoPp)
    else
      (if termsOfServiceUrl == "" then ConsentNoTos else Consent)
  }

  /** Which URLs are empty decides the sentence, and different emptiness gives different sentences. */
  lemma DisclosureIdDeterminedByEmptiness(pp1: string, tos1: string, pp2: string, tos2: string)
    ensures SelectDisclosureTextResourceId(pp1, tos1) == SelectDisclosureTextResourceId(pp2, tos2) <==>
              (pp1 == "") == (pp2 == "") && (tos1 == "") == (tos2 == "")
  {
  }

  /** The links each sentence holds, in the order they appear in its text. */
  function LinksInSentence(id: DisclosureTextId): seq<LinkType>
  {
    match id
    case ConsentNoPpOrTos => []
    case ConsentNoPp => [TermsOfService]
    case ConsentNoTos => [PrivacyPolicy]
    case Consent => [PrivacyPolicy, TermsOfService]
  }

  /** A link of the disclosure: its type and URL. */
  datatype Link = Link(linkType: LinkType, url: string)

  /** A styled range of the disclosure text that opens a link. */
  datatype LinkRange = LinkRange(start: nat, end: nat, link: Link)

  datatype DisclosureLabel = DisclosureLabel(textId: DisclosureTextId, text: string, linkRanges: seq<LinkRange>)

  /** `GetStringFUTF16`: the formatted text and, per replacement, the offset where it landed. */
  type Formatter = (DisclosureTextId, seq<string>) -> (string, seq<nat>)

  /** The formatter answers one offset per replacement. */
  ghost predicate OffsetPerReplacement(format: Formatter)
  {
    forall id, replacements :: |format(id, replacements).1| == |replacements|
  }

  /**
   * `CreateDisclosureLabel`: the links are the privacy policy then the terms
   * of service, each only when its URL is non-empty; the replacements are the
   * identity provider's site and two empty strings per link; link k spans
   * the offsets of replacements 1 + 2k and 2 + 2k.
   */
  method CreateDisclosureLabel(privacyPolicyUrl: string, termsOfServiceUrl: string,
                               idpEtldPlusOne: string, format: Formatter)
    returns (disclosure: DisclosureLabel, linkData: seq<Link>, replacements: seq<string>)
    requires OffsetPerReplacement(format)
    ensures disclosure.textId == SelectDisclosureTextResourceId(privacyPolicyUrl, termsOfServiceUrl)
    ensures |linkData| == |LinksInSentence(disclosure.textId)| <= 2
    ensures Link(PrivacyPolicy, privacyPolicyUrl) in linkData <==> privacyPolicyUrl != ""
    ensures Link(TermsOfService, termsOfServiceUrl) in linkData <==> termsOfServiceUrl != ""
    ensures forall k :: 0 <= k < |linkData| ==> linkData[k].linkType == LinksInSentence(disclosure.textId)[k]
    ensures |replacements| == 1 + 2 * |linkData| && replacements[0] == idpEtldPlusOne
    ensures forall k :: 1 <= k < |replacements| ==> replacements[k] == ""
    ensures disclosure.text == format(disclosure.textId, replacements).0
    ensures |disclosure.linkRanges| == |linkData|
    ensures forall k :: 0 <= k < |linkData| ==>
              var offsets := format(disclosure.textId, replacements).1;
              disclosure.linkRanges[k] == LinkRange(offsets[1 + 2 * k], offsets[2 + 2 * k], linkData[k])
  {
    var disclosureResourceId := SelectDisclosureTextResourceId(privacyPolicyUrl, termsOfServiceUrl);

    linkData := [];
    if privacyPolicyUrl != "" {
      linkData := linkData + [Link(PrivacyPolicy, privacyPolicyUrl)];
    }
    if termsOfServiceUrl != "" {
      linkData := linkData + [Link(TermsOfService, termsOfServiceUrl)];
    }

    replacements := [idpEtldPlusOne] + seq(|linkData| * 2, _ => "");
    var formatted := format(disclosureResourceId, replacements);
    var text := formatted.0;
    var offsets := formatted.1;

    var ranges: seq<LinkRange> := [];
    var offsetIndex := 1;
    for i := 0 to |linkData|
      invariant offsetIndex == 1 + 2 * i
      invariant |ranges| == i
      invariant forall k :: 0 <= k < i ==> ranges[k] == LinkRange(offsets[1 + 2 * k], offsets[2 + 2 * k], linkData[k])
    {
      ranges := ranges + [LinkRange(offsets[offsetIndex], offsets[offsetIndex + 1], linkData[i])];
      offsetIndex := offsetIndex + 2;
    }
    disclosure := DisclosureLabel(disclosureResourceId, text, ranges);
  }

  // ---------------------------------------------------------------------------
  // CanFitInWebContents

  /**
   * `CanFitInWebContents`: the preferred size is strictly below the web
   * contents size less the bubble's right and top margins. The margins are
   * header constants, passed in.
   */
  function CanFitInWebContents(preferredWidth: int, preferredHeight: int,
                               contentsWidth: int, contentsHeight: int,
                               rightMargin: int, topMargin: int): (r: bool)
    ensures r <==> preferredWidth + rightMargin < contentsWidth && preferredHeight + topMargin < contentsHeight
    ensures preferredWidth + rightMargin >= contentsWidth ==> !r
  {
    preferredWidth < contentsWidth - rightMargin && preferredHeight < contentsHeight - topMargin
  }

  /** A dialog that fits still fits in larger contents, and a smaller dialog fits too. */
  lemma CanFitMonotone(w: int, h: int, cw: int, ch: int, w2: int, h2: int, cw2: int, ch2: int,
                       rightMargin: int, topMargin: int)
    requires CanFitInWebContents(w, h, cw, ch, rightMargin, topMargin)
    requires w2 <= w && h2 <= h && cw <= cw2 && ch <= ch2
    ensures CanFitInWebContents(w2, h2, cw2, ch2, rightMargin, topMargin)
  {
  }

  /** Fitting exactly up to the margin is not fitting: both comparisons are strict. */
  lemma CanFitIsStrict(cw: int, ch: int, rightMargin: int, topMargin: int)
    ensures !CanFitInWebContents(cw - rightMargin, 0, cw, ch, rightMargin, topMargin)
    ensures !CanFitInWebContents(0, ch - topMargin, cw, ch, rightMargin, topMargin)
  {
  }

  // ---------------------------------------------------------------------------
  // The brand icon

  /** A fetched image, known by its size and an identity. */
  datatype Image = Image(width: int, height: int, id: nat)

  /** The cropped icon: nothing yet, circle-cropped, or resized to a square. */
  datatype CroppedImage = NoImage | CircleCropped(source: Image, size: int) | Resized(source: Image, size: int)

  /** What the view shows. */
  datatype ShownImage = NothingShown | Plain(image: CroppedImage) | OnCircle(radius: int, color: int, image: CroppedImage)

  /** `kIdpBorderRadius`. */
  const IdpBorderRadius := 10

  /**
   * `image.Width() < image_size_ / kMaskableWebIconSafeZoneRatio` with the
   * ratio 0.8 taken exactly: the icon is too small for the safe zone.
   */
  predicate TooSmallForSafeZone(width: int, imageSize: int)
  {
    4 * width < 5 * imageSize
  }

  /** The button states that pick a background colour. */
  datatype ButtonState = StateNormal | StateHovered | StatePressed | StateDisabled

  datatype ColorId = DialogBackground | MenuButtonBackgroundSelected

  /** The colour `AccountHoverButton::StateChanged` passes to the icon; none when disabled. */
  function BackgroundColorFor(state: ButtonState): (r: Option<ColorId>)
    ensures r.None? <==> state == StateDisabled
    ensures r == Some(DialogBackground) <==> state == StateNormal
  {
    match state
    case StateNormal => Some(DialogBackground)
    case StateHovered => Some(MenuButtonBackgroundSelected)
    case StatePressed => Some(MenuButtonBackgroundSelected)
    case StateDisabled => None
  }

  class BrandIconImageView {
    const imageSize: int
    const shouldCircleCrop: bool
    var backgroundColor: Option<int>
    var croppedIdpImage: CroppedImage
    var shown: ShownImage
    /** `add_image_` has not been run yet (a once-callback). */
    var addImagePending: bool
    /** The URLs this view asked the image fetcher for. */
    var fetchRequests: seq<string>

    constructor (imageSize: int, shouldCircleCrop: bool, backgroundColor: Option<int>)
      ensures this.imageSize == imageSize && this.shouldCircleCrop == shouldCircleCrop
      ensures this.backgroundColor == backgroundColor
      ensures croppedIdpImage == NoImage && shown == NothingShown && addImagePending && fetchRequests == []
    {
      this.imageSize := imageSize;
      this.shouldCircleCrop := shouldCircleCrop;
      this.backgroundColor := backgroundColor;
      croppedIdpImage := NoImage;
      shown := NothingShown;
      addImagePending := true;
      fetchRequests := [];
    }

    /** `FetchImage`. */
    method FetchImage(iconUrl: string)
      modifies this`fetchRequests
      ensures fetchRequests == old(fetchRequests) + [iconUrl]
    {
      fetchRequests := fetchRequests + [iconUrl];
    }

    /** `CropAndSetImage`: crop (or resize), then show, on the background circle if there is a colour. */
    method CropAndSetImage(original: Image)
      modifies this`croppedIdpImage, this`shown
      ensures croppedIdpImage == if shouldCircleCrop then CircleCropped(original, imageSize)
                                 else Resized(original, imageSize)
      ensures shown == if backgroundColor.Some? then OnCircle(IdpBorderRadius, backgroundColor.value, croppedIdpImage)
                       else Plain(croppedIdpImage)
    {
      croppedIdpImage := if shouldCircleCrop then CircleCropped(original, imageSize) else Resized(original, imageSize);
      shown := if backgroundColor.Some? then OnCircle(IdpBorderRadius, backgroundColor.value, croppedIdpImage)
               else Plain(croppedIdpImage);
    }

    /**
     * `OnImageFetched`: a non-square or too small icon is ignored; otherwise
     * it is shown and, the first time only, handed to the owner's cache
     * (`added`).
     */
    method OnImageFetched(imageUrl: string, image: Image) returns (added: Option<(string, Image)>)
      modifies this`croppedIdpImage, this`shown, this`addImagePending
      ensures image.width != image.height || TooSmallForSafeZone(image.width, imageSize) ==>
                added.None? && croppedIdpImage == old(croppedIdpImage) && shown == old(shown) &&
                addImagePending == old(addImagePending)
      ensures image.width == image.height && !TooSmallForSafeZone(image.width, imageSize) ==>
                added == (if old(addImagePending) then Some((imageUrl, image)) else None) &&
                !addImagePending
      ensures image.width == image.height && !TooSmallForSafeZone(image.width, imageSize) ==>
                croppedIdpImage == (if shouldCircleCrop then CircleCropped(image, imageSize)
                                    else Resized(image, imageSize))
      ensures image.width == image.height && !TooSmallForSafeZone(image.width, imageSize) ==>
                shown == (if backgroundColor.Some? then OnCircle(IdpBorderRadius, backgroundColor.value, croppedIdpImage)
                          else Plain(croppedIdpImage))
    {
      if image.width != image.height || 4 * image.width < 5 * imageSize {
        return None;
      }
      CropAndSetImage(image);
      if !addImagePending {
        return None;
      }
      addImagePending := false;
      added := Some((imageUrl, image));
    }

    /** `OnBackgroundColorUpdated`: without a configured colour nothing changes. */
    method OnBackgroundColorUpdated(color: int)
      modifies this`backgroundColor, this`shown
      ensures old(backgroundColor).None? ==> backgroundColor == old(backgroundColor) && shown == old(shown)
      ensures old(backgroundColor).Some? ==> backgroundColor == Some(color)
      ensures old(backgroundColor).Some? ==> shown == OnCircle(IdpBorderRadius, color, croppedIdpImage)
    {
      if backgroundColor.None? {
        return;
      }
      backgroundColor := Some(color);
      shown := OnCircle(IdpBorderRadius, color, croppedIdpImage);
    }
  }

  class AccountSelectionViewBase {
    /** `brand_icon_images_`. */
    var brandIconImages: map<string, Image>

    constructor ()
      ensures brandIconImages == map[]
    {
      brandIconImages := map[];
    }

    /** `AddIdpImage`: inserts or overwrites the entry of the URL. */
    method AddIdpImage(imageUrl: string, image: Image)
      modifies this`brandIconImages
      ensures brandIconImages == old(brandIconImages)[imageUrl := image]
    {
      brandIconImages := brandIconImages[imageUrl := image];
    }

    /**
     * `ConfigureBrandImageView`: nothing for an invalid URL; a cached icon is
     * shown without fetching; otherwise the icon is fetched.
     */
    method ConfigureBrandImageView(imageView: BrandIconImageView, brandIconUrl: string, isValidUrl: bool)
      modifies imageView`croppedIdpImage, imageView`shown, imageView`fetchRequests
      ensures !isValidUrl ==>
                imageView.fetchRequests == old(imageView.fetchRequests) &&
                imageView.shown == old(imageView.shown) && imageView.croppedIdpImage == old(imageView.croppedIdpImage)
      ensures isValidUrl && brandIconUrl in brandIconImages ==>
                imageView.fetchRequests == old(imageView.fetchRequests)
      ensures isValidUrl && brandIconUrl in brandIconImages ==>
                imageView.croppedIdpImage ==
                  (if imageView.shouldCircleCrop then CircleCropped(brandIconImages[brandIconUrl], imageView.imageSize)
                   else Resized(brandIconImages[brandIconUrl], imageView.imageSize))
      ensures isValidUrl && brandIconUrl in brandIconImages ==>
                imageView.shown ==
                  (if imageView.backgroundColor.Some?
                   then OnCircle(IdpBorderRadius, imageView.backgroundColor.value, imageView.croppedIdpImage)
                   else Plain(imageView.croppedIdpImage))
      ensures isValidUrl && brandIconUrl !in brandIconImages ==>
                imageView.fetchRequests == old(imageView.fetchRequests) + [brandIconUrl] &&
                imageView.shown == old(imageView.shown) && imageView.croppedIdpImage == old(imageView.croppedIdpImage)
    {
      if !isValidUrl {
        return;
      }
      if brandIconUrl in brandIconImages {
        imageView.CropAndSetImage(brandIconImages[brandIconUrl]);
        return;
      }
      imageView.FetchImage(brandIconUrl);
    }
  }

  /**
   * The fetcher's answer reaching a view: the view shows it and, through its
   * once-callback, the owner caches it, so a later view with the same URL
   * needs no fetch.
   */
  method DeliverFetchedIcon(owner: AccountSelectionViewBase, view: BrandIconImageView, imageUrl: string, image: Image)
    modifies owner`brandIconImages, view`croppedIdpImage, view`shown, view`addImagePending
    ensures old(view.addImagePending) && image.width == image.height && !TooSmallForSafeZone(image.width, view.imageSize) ==>
              owner.brandIconImages == old(owner.brandIconImages)[imageUrl := image]
    ensures image.width != image.height || TooSmallForSafeZone(image.width, view.imageSize) ==>
              owner.brandIconImages == old(owner.brandIconImages) &&
              view.croppedIdpImage == old(view.croppedIdpImage) && view.shown == old(view.shown)
    ensures !old(view.addImagePending) ==> owner.brandIconImages == old(owner.brandIconImages)
    ensures image.width == image.height && !TooSmallForSafeZone(image.width, view.imageSize) ==>
              view.croppedIdpImage == (if view.shouldCircleCrop then CircleCropped(image, view.imageSize)
                                       else Resized(image, view.imageSize)) &&
              !view.addImagePending
  {
    var added := view.OnImageFetched(imageUrl, image);
    if added.Some? {
      owner.AddIdpImage(added.value.0, added.value.1);
    }
  }
}
