# Browser front-end and startup logic, modelled in Dafny

This project models eleven components of a Chromium-based desktop browser
(the "Tangram" patch set over Chromium) and proves properties of each:

- **Downloads page** (`downloads/manager.ts`): the list of downloads kept in
  place by insertions, removals and updates, the "hide the date when the
  previous entry shows the same date" flag, the derived flags of the toolbar,
  and the bypass prompt for dangerous downloads (`downloads_manager.dfy`).
  The lemmas about the list compare lists through `DataOf`, the entries as
  the browser sent them, without the `hideDate` flag the page computes.
- **Startup** (`ui/startup/startup_browser_creator_impl.cc`): the composition
  of the startup tab list from its providers, the browser-open behaviour and
  the session-restore options, the fallback that never opens an empty list,
  the flags each opened tab gets, and the pipe-separated URL list that
  `ChromeBrowserFactory::CreateBrowser` accepts (`startup_browser_creator.dfy`).
- **Model-execution feature settings**
  (`optimization_guide/.../model_execution_features_controller.cc`): user
  validity, enablement and visibility of each feature, the history-search
  hardware check with its comma-separated class list, and the pref rewrites on
  account and main-toggle changes (`model_execution_features.dfy`).
- **PDF viewer** (`pdf/pdf_viewer.ts`) and its **download button**
  (`pdf/elements/viewer-download-controls.ts`): the file name taken from the
  URL, the save mode, the `.pdf` suffix, the sidenav state in local storage,
  the password dialog, edits and beeps, "reset view", and the download menu
  (`pdf_viewer.dfy`, `viewer_download_controls.dfy`).
- **CSS image helpers** (`ui/webui/resources/js/icon.ts`): `url("...")`
  escaping, `image-set(...)` per scale factor, theme images (`icon.dfy`).
- **Tab Search** (`tab_search/app.ts`): sections and tab-strip indices
  (`tab_search_app.dfy`).
- **Starter-pack search engines** (`template_url_starter_pack_data.cc`): the
  engine table and the lookup by id (`starter_pack_data.dfy`).
- **FedCM account chooser** (`webid/account_selection_view_base.cc`): the
  disclosure sentence and its links, the fit test, the brand-icon cache
  (`account_selection_view.dfy`).
- **Payments settings** (`settings/autofill_page/payments_section.ts`): card
  migration, virtual cards, CVC labels, the re-authentication toggle, and the
  menus and dialogs of cards and IBANs (`payments_section.dfy`).
- **Customize-toolbar side panel** (`customize_toolbar/toolbar.ts`): pinning
  actions in place, "reset to default", listener bookkeeping
  (`customize_toolbar.dfy`).

`strings.dfy` holds the string and option helpers the modules share.

Code that updates objects in place is modelled as Dafny classes whose methods
state the new state in full (the downloads list, the startup loops, the pref
rewrites, the PDF viewer, the toolbar's action objects, the dialogs of the
payments page); decisions and text computations are functions. Each method
that loops is proved against a specification function, and the properties the
components promise are lemmas about those functions. Calls a component makes
into browser services (mojo handlers, the payments manager, the page handler)
are recorded, in order, in a field, and the answers of those services are
parameters.

## Model

| member | source | states |
|---|---|---|
| PdfViewer.MainUrl | src/AIGCBrowserSrc/ChromiumSrcPatch/chrome/browser/resources/pdf/pdf_viewer.ts:96-97 | the result is the longest prefix of the URL holding no '#' or '?', so it ends just before the first of them or at the end |
| PdfViewer.LastComponent | src/AIGCBrowserSrc/ChromiumSrcPatch/chrome/browser/resources/pdf/pdf_viewer.ts:98-99 | the result is the longest suffix holding no '/' or '\', so it starts just after the last separator |
| PdfViewer.GetFilenameFromUrl | src/AIGCBrowserSrc/ChromiumSrcPatch/chrome/browser/resources/pdf/pdf_viewer.ts:95-107 | the name is the decoded last path component of the URL without query and fragment, or that component undecoded when decoding throws a URIError |
| PdfViewer.FilenameDecomposition | src/AIGCBrowserSrc/ChromiumSrcPatch/chrome/browser/resources/pdf/pdf_viewer.ts:96-99 | the URL is exactly directories, then the raw file name, then the query or fragment, and the name holds no separator, '#' or '?' |
| PdfViewer.SaveModeFor | src/AIGCBrowserSrc/ChromiumSrcPatch/chrome/browser/resources/pdf/pdf_viewer.ts:1066-1073 | the mode is "annotation" exactly when annotation mode was ever entered, "edited" exactly when it was not but there are edits, "original" otherwise |
| PdfViewer.EnsurePdfExtension | src/AIGCBrowserSrc/ChromiumSrcPatch/chrome/browser/resources/pdf/pdf_viewer.ts:1171-1174 | the saved name always ends in ".pdf" ignoring case; a name that already did is kept, any other gets exactly ".pdf" appended |
| PdfViewer.EnsurePdfExtensionIdempotent | src/AIGCBrowserSrc/ChromiumSrcPatch/chrome/browser/resources/pdf/pdf_viewer.ts:1171-1174 | fixing an already fixed name changes nothing |
| PdfViewer.ShouldExitAnnotationMode | src/AIGCBrowserSrc/ChromiumSrcPatch/chrome/browser/resources/pdf/pdf_viewer.ts:1148-1156 | annotation mode is left before saving exactly for an "original" save while in annotation mode with Ink2 disabled |
| PdfViewer.Viewer.ExitAnnotationModeBeforeSave | src/AIGCBrowserSrc/ChromiumSrcPatch/chrome/browser/resources/pdf/pdf_viewer.ts:1148-1161 | the save prelude leaves annotation mode (restoring the sidenav) exactly when ShouldExitAnnotationMode holds and changes nothing otherwise, so an "original" save without Ink2 never runs in annotation mode |
| PdfViewer.SidenavCollapsedText | src/AIGCBrowserSrc/ChromiumSrcPatch/chrome/browser/resources/pdf/pdf_viewer.ts:1118-1120 | the stored text is "1" or "0" |
| PdfViewer.ParseSingleDigit | src/AIGCBrowserSrc/ChromiumSrcPatch/chrome/browser/resources/pdf/pdf_viewer.ts:331-334 | `Number.parseInt` of one decimal digit gives that digit's value |
| PdfViewer.ParseNullIsNaN | src/AIGCBrowserSrc/ChromiumSrcPatch/chrome/browser/resources/pdf/pdf_viewer.ts:331-334 | a missing entry, read as the text "null", parses to NaN |
| PdfViewer.SidenavStorageRoundTrip | src/AIGCBrowserSrc/ChromiumSrcPatch/chrome/browser/resources/pdf/pdf_viewer.ts:331-334 | the state written by the toggle is the state the constructor reads back, and an empty storage reads as expanded |
| PdfViewer.Viewer.constructor | src/AIGCBrowserSrc/ChromiumSrcPatch/chrome/browser/resources/pdf/pdf_viewer.ts:327-335 | the sidenav state is read from storage and every other flag starts false |
| PdfViewer.Viewer.Init | src/AIGCBrowserSrc/ChromiumSrcPatch/chrome/browser/resources/pdf/pdf_viewer.ts:369-371 | after `init` the sidenav is collapsed exactly when the URL parameters say not to show it |
| PdfViewer.Viewer.OnSidenavToggleClick | src/AIGCBrowserSrc/ChromiumSrcPatch/chrome/browser/resources/pdf/pdf_viewer.ts:1105-1121 | the state flips, only the sidenav key of the storage changes, and the storage reads back as the new state |
| PdfViewer.Viewer.EnterAnnotationMode | src/AIGCBrowserSrc/ChromiumSrcPatch/chrome/browser/resources/pdf/pdf_viewer.ts:536-558 | entering Ink annotation mode parks the old sidenav state, collapses the sidenav and marks annotation mode as on and as entered |
| PdfViewer.Viewer.ToggleAnnotationModeInk2 | src/AIGCBrowserSrc/ChromiumSrcPatch/chrome/browser/resources/pdf/pdf_viewer.ts:523-532 | with Ink2 the toggle only sets the annotation mode, and the sidenav is untouched |
| PdfViewer.Viewer.RestoreSidenav | src/AIGCBrowserSrc/ChromiumSrcPatch/chrome/browser/resources/pdf/pdf_viewer.ts:511-515 | the sidenav takes the parked state back |
| PdfViewer.Viewer.ExitAnnotationMode | src/AIGCBrowserSrc/ChromiumSrcPatch/chrome/browser/resources/pdf/pdf_viewer.ts:591-598 | outside annotation mode nothing changes; inside, the mode ends and the parked sidenav state comes back |
| PdfViewer.Viewer.SetIsEditing | src/AIGCBrowserSrc/ChromiumSrcPatch/chrome/browser/resources/pdf/pdf_viewer.ts:888-891 | the edited flag becomes true and there is no way back |
| PdfViewer.Viewer.HandleBeep | src/AIGCBrowserSrc/ChromiumSrcPatch/chrome/browser/resources/pdf/pdf_viewer.ts:942-945 | each beep adds exactly one to the count |
| PdfViewer.Viewer.HandlePasswordRequest | src/AIGCBrowserSrc/ChromiumSrcPatch/chrome/browser/resources/pdf/pdf_viewer.ts:948-961 | the first request shows the dialog and prompts; a request while it is shown is denied; the dialog is shown afterwards either way |
| PdfViewer.Viewer.OnPasswordDialogClose | src/AIGCBrowserSrc/ChromiumSrcPatch/chrome/browser/resources/pdf/pdf_viewer.ts:761-763 | closing the dialog clears the shown flag |
| PdfViewer.Viewer.OnSave | src/AIGCBrowserSrc/ChromiumSrcPatch/chrome/browser/resources/pdf/pdf_viewer.ts:1061-1076 | a request for another stream is ignored; one for this stream saves with the mode `SaveModeFor` picks |
| PdfViewer.Viewer.RotateClockwise | src/AIGCBrowserSrc/ChromiumSrcPatch/chrome/browser/resources/pdf/pdf_viewer.ts:491-492 | one clockwise quarter turn, counted modulo 4 as the viewport (not part of this model) is assumed to count |
| PdfViewer.Viewer.RotateCounterclockwise | src/AIGCBrowserSrc/ChromiumSrcPatch/chrome/browser/resources/pdf/pdf_viewer.ts:484-489 | one counter-clockwise quarter turn, counted modulo 4 as the viewport (not part of this model) is assumed to count |
| PdfViewer.Viewer.OnResetView | src/AIGCBrowserSrc/ChromiumSrcPatch/chrome/browser/resources/pdf/pdf_viewer.ts:474-497 | reset view ends two-up view and brings the rotation back to 0 from each of the four rotation counts |
| PdfViewer.AnnotationModeRoundTrip | src/AIGCBrowserSrc/ChromiumSrcPatch/chrome/browser/resources/pdf/pdf_viewer.ts:536-584 | entering and then leaving annotation mode gives the sidenav back its old state |
| PdfViewer.AnnotationAvailable | src/AIGCBrowserSrc/ChromiumSrcPatch/chrome/browser/resources/pdf/pdf_viewer.ts:1250-1252 | annotation is offered exactly for a document that can be serialised and had no password |
| PdfViewer.Viewer.SetDocumentMetadata | src/AIGCBrowserSrc/ChromiumSrcPatch/chrome/browser/resources/pdf/pdf_viewer.ts:980-996 | the document's serialisability is adopted from the metadata |
| PdfViewer.MetadataDecidesAnnotation | src/AIGCBrowserSrc/ChromiumSrcPatch/chrome/browser/resources/pdf/pdf_viewer.ts:144-149 | a new viewer offers no annotation; since no handler sets the password flag, after the metadata arrives annotation is offered exactly for a serialisable document |
| PdfViewer.ParseIntBase10Shape | src/AIGCBrowserSrc/ChromiumSrcPatch/chrome/browser/resources/pdf/pdf_viewer.ts:331-334 | `Number.parseInt(s, 10)` is NaN for a text without any digit, and a non-negative number for a text that starts with a digit |
| ViewerDownloadControls.EditsToSave | src/AIGCBrowserSrc/ChromiumSrcPatch/chrome/browser/resources/pdf/elements/viewer-download-controls.ts:94-101 | there is something to save exactly when annotation mode was entered, there are edits, or (only in an Ink2 build) there are Ink2 edits |
| ViewerDownloadControls.DownloadHasPopup | src/AIGCBrowserSrc/ChromiumSrcPatch/chrome/browser/resources/pdf/elements/viewer-download-controls.ts:106-108 | the attribute is "menu" exactly when there are edits to save, "false" otherwise |
| ViewerDownloadControls.ClickSignal | src/AIGCBrowserSrc/ChromiumSrcPatch/chrome/browser/resources/pdf/elements/viewer-download-controls.ts:120-126 | a click with edits shows the menu and one without edits asks for an ORIGINAL save, never both |
| ViewerDownloadControls.EditedRequest | src/AIGCBrowserSrc/ChromiumSrcPatch/chrome/browser/resources/pdf/elements/viewer-download-controls.ts:163-168 | the "edited" item never asks for the original; it asks for the annotated document exactly when annotation mode was entered |
| ViewerDownloadControls.EditedRequestMatchesViewerSave | src/AIGCBrowserSrc/ChromiumSrcPatch/chrome/browser/resources/pdf/elements/viewer-download-controls.ts:163-168 | with edits, the "edited" item asks for the same document the viewer's own save picks (`PdfViewer.SaveModeFor`) |
| ViewerDownloadControls.PopupAnnouncesMenu | src/AIGCBrowserSrc/ChromiumSrcPatch/chrome/browser/resources/pdf/elements/viewer-download-controls.ts:106-126 | the button announces a popup exactly when a click with no focused form field shows the menu |
| ViewerDownloadControls.DownloadControls.constructor | src/AIGCBrowserSrc/ChromiumSrcPatch/chrome/browser/resources/pdf/elements/viewer-download-controls.ts:72-80 | no edits, no focused field, menu closed, no pending resolver, nothing sent |
| ViewerDownloadControls.DownloadControls.WaitForEdits | src/AIGCBrowserSrc/ChromiumSrcPatch/chrome/browser/resources/pdf/elements/viewer-download-controls.ts:133-142 | with edits the answer is true at once; without edits and without a focused field it is false at once; otherwise a resolver is left pending |
| ViewerDownloadControls.DownloadControls.OnEditsKnown | src/AIGCBrowserSrc/ChromiumSrcPatch/chrome/browser/resources/pdf/elements/viewer-download-controls.ts:120-126 | the continuation sends one signal for the answer and opens the menu only for a true answer |
| ViewerDownloadControls.DownloadControls.OnDownloadClick | src/AIGCBrowserSrc/ChromiumSrcPatch/chrome/browser/resources/pdf/elements/viewer-download-controls.ts:119-127 | a click shows the menu with edits, asks for an ORIGINAL save without edits and focus, and otherwise sends nothing yet and waits |
| ViewerDownloadControls.DownloadControls.OnFormFieldFocusedChanged | src/AIGCBrowserSrc/ChromiumSrcPatch/chrome/browser/resources/pdf/elements/viewer-download-controls.ts:144-151 | called only when the focus flag changes, a pending resolver is answered once with `hasEdits` and dropped; without one nothing is sent |
| ViewerDownloadControls.DownloadControls.OnDownloadOriginalClick | src/AIGCBrowserSrc/ChromiumSrcPatch/chrome/browser/resources/pdf/elements/viewer-download-controls.ts:158-161 | the original is asked for and the menu closes |
| ViewerDownloadControls.DownloadControls.OnDownloadEditedClick | src/AIGCBrowserSrc/ChromiumSrcPatch/chrome/browser/resources/pdf/elements/viewer-download-controls.ts:163-168 | the edited or annotated document is asked for and the menu closes |
| ViewerDownloadControls.WaitingClickResolvesOnce | src/AIGCBrowserSrc/ChromiumSrcPatch/chrome/browser/resources/pdf/elements/viewer-download-controls.ts:119-151 | a click that had to wait sends exactly one signal, for what the field committed, once the field loses focus, and focusing it again sends nothing |
| Icon.GetSupportedScaleFactors | src/AIGCBrowserSrc/ChromiumSrcPatch/ui/webui/resources/js/icon.ts:10-31 | desktop gets 1 and 2, Android gets 1 and the device pixel ratio, iOS only the device pixel ratio; never an empty list |
| Icon.EscapeForCss | src/AIGCBrowserSrc/ChromiumSrcPatch/ui/webui/resources/js/icon.ts:42 | the escaped text is one backslash longer per special character |
| Icon.UnescapeEscape | src/AIGCBrowserSrc/ChromiumSrcPatch/ui/webui/resources/js/icon.ts:42 | dropping each inserted backslash gives back the original URL |
| Icon.EscapeInjective | src/AIGCBrowserSrc/ChromiumSrcPatch/ui/webui/resources/js/icon.ts:42 | different URLs never escape to the same text |
| Icon.EscapeIsWellEscaped | src/AIGCBrowserSrc/ChromiumSrcPatch/ui/webui/resources/js/icon.ts:39-42 | in the escaped text every parenthesis, comma, white space, quote and backslash is preceded by a backslash that escapes it |
| Icon.GetUrlForCss | src/AIGCBrowserSrc/ChromiumSrcPatch/ui/webui/resources/js/icon.ts:38-44 | the value is `url("`, then the escaped URL, then `")` |
| Icon.UrlForCssRoundTrip | src/AIGCBrowserSrc/ChromiumSrcPatch/ui/webui/resources/js/icon.ts:38-44 | the text between `url("` and `")` reads back as the URL |
| Icon.ScaledPath | src/AIGCBrowserSrc/ChromiumSrcPatch/ui/webui/resources/js/icon.ts:77-78 | the scaled path keeps the text before the placeholder and after it, with the factor in its place |
| Icon.ImageSetEntry | src/AIGCBrowserSrc/ChromiumSrcPatch/ui/webui/resources/js/icon.ts:80 | an entry is the CSS URL of the scaled path followed by " <factor>x" |
| Icon.ImageSetEntries | src/AIGCBrowserSrc/ChromiumSrcPatch/ui/webui/resources/js/icon.ts:75-80 | one entry per scale factor, in order |
| Icon.NoPlaceholderGivesPlainUrl | src/AIGCBrowserSrc/ChromiumSrcPatch/ui/webui/resources/js/icon.ts:69-72 | a path without the placeholder gives a plain `url()` |
| Icon.OnlyFirstPlaceholderReplaced | src/AIGCBrowserSrc/ChromiumSrcPatch/ui/webui/resources/js/icon.ts:69-78 | only the first placeholder is replaced: the kept prefix holds none, and each entry ends in its factor |
| Icon.GetImageSet | src/AIGCBrowserSrc/ChromiumSrcPatch/ui/webui/resources/js/icon.ts:66-87 | the loop builds the entries joined by ", " inside `image-set(...)`, or a plain `url()` without the placeholder |
| Icon.ThemePathHasPlaceholder | src/AIGCBrowserSrc/ChromiumSrcPatch/ui/webui/resources/js/icon.ts:100 | a theme path with `@SCALEFACTORx` appended always holds the placeholder |
| Icon.ImageSetStartsWithImageSet | src/AIGCBrowserSrc/ChromiumSrcPatch/ui/webui/resources/js/icon.ts:86 | with the placeholder the value starts with `image-set(` |
| Icon.UrlForCssIsNotImageSet | src/AIGCBrowserSrc/ChromiumSrcPatch/ui/webui/resources/js/icon.ts:43 | a plain `url()` value never starts with `image-set(` |
| Icon.GetImage | src/AIGCBrowserSrc/ChromiumSrcPatch/ui/webui/resources/js/icon.ts:96-102 | theme resources get the image set of the path with `@SCALEFACTORx`, other paths a plain `url()`; the result is an image set exactly for theme resources |
| TabSearchApp.SectionToIndex | src/AIGCBrowserSrc/ChromiumSrcPatch/chrome/browser/resources/tab_search/app.ts:93-104 | the index is -1, 0 or 1, and -1 exactly for "no section" |
| TabSearchApp.IndexToSection | src/AIGCBrowserSrc/ChromiumSrcPatch/chrome/browser/resources/tab_search/app.ts:106-117 | a section exists exactly for the indices -1, 0 and 1; any other index is the `assertNotReached` case |
| TabSearchApp.SectionIndexRoundTrip | src/AIGCBrowserSrc/ChromiumSrcPatch/chrome/browser/resources/tab_search/app.ts:93-117 | every section survives the trip to an index and back |
| TabSearchApp.IndexSectionRoundTrip | src/AIGCBrowserSrc/ChromiumSrcPatch/chrome/browser/resources/tab_search/app.ts:93-117 | every index of the tab strip survives the trip to a section and back |
| TabSearchApp.SectionToIndexInjective | src/AIGCBrowserSrc/ChromiumSrcPatch/chrome/browser/resources/tab_search/app.ts:93-104 | two sections with the same index are the same section |
| TabSearchApp.TabSearchAppElement.constructor | src/AIGCBrowserSrc/ChromiumSrcPatch/chrome/browser/resources/tab_search/app.ts:38-49 | no section selected, no listeners and nothing persisted or removed; the two flags come from load-time data |
| TabSearchApp.TabSearchAppElement.ConnectedCallback | src/AIGCBrowserSrc/ChromiumSrcPatch/chrome/browser/resources/tab_search/app.ts:64-69 | the section listener's id, then the organization listener's id, are appended |
| TabSearchApp.TabSearchAppElement.OnTabSearchSectionReply | src/AIGCBrowserSrc/ChromiumSrcPatch/chrome/browser/resources/tab_search/app.ts:62-63 | the section the browser answers becomes the selection |
| TabSearchApp.TabSearchAppElement.DisconnectedCallback | src/AIGCBrowserSrc/ChromiumSrcPatch/chrome/browser/resources/tab_search/app.ts:72-76 | every registered listener is removed, in order, and the ids stay listed |
| TabSearchApp.TabSearchAppElement.OnTabSectionChanged | src/AIGCBrowserSrc/ChromiumSrcPatch/chrome/browser/resources/tab_search/app.ts:78-79 | the pushed section becomes the selection |
| TabSearchApp.TabSearchAppElement.OnTabOrganizationEnabledChanged | src/AIGCBrowserSrc/ChromiumSrcPatch/chrome/browser/resources/tab_search/app.ts:89-91 | the flag takes the pushed value |
| TabSearchApp.TabSearchAppElement.OnSelectedTabIndexChanged | src/AIGCBrowserSrc/ChromiumSrcPatch/chrome/browser/resources/tab_search/app.ts:119-130 | a valid index selects its section and persists it unless it is "no section"; an invalid one stops at `assertNotReached` with nothing changed |
| TabSearchApp.ReselectKeepsSection | src/AIGCBrowserSrc/ChromiumSrcPatch/chrome/browser/resources/tab_search/app.ts:93-130 | selecting the current section's tab again keeps the selection and persists that same section |
| StarterPackData.GetDataVersion | src/AIGCBrowserSrc/ChromiumSrcPatch/components/search_engines/template_url_starter_pack_data.cc:74-76 | the current data version is 10, never below the first compatible one |
| StarterPackData.GetFirstCompatibleDataVersion | src/AIGCBrowserSrc/ChromiumSrcPatch/components/search_engines/template_url_starter_pack_data.cc:78-80 | the first compatible version is 10 |
| StarterPackData.EngineIdsDistinct | src/AIGCBrowserSrc/ChromiumSrcPatch/components/search_engines/template_url_starter_pack_data.cc:24-72 | no two engines of the table share an id |
| StarterPackData.FindEngine | src/AIGCBrowserSrc/ChromiumSrcPatch/components/search_engines/template_url_starter_pack_data.cc:91-96 | a found engine is in the table and has the id; nothing is found exactly when no engine has the id |
| StarterPackData.GetDestinationUrlForStarterPackId | src/AIGCBrowserSrc/ChromiumSrcPatch/components/search_engines/template_url_starter_pack_data.cc:91-99 | the loop answers the first matching engine's destination URL, or "" |
| StarterPackData.DestinationUrlLookup | src/AIGCBrowserSrc/ChromiumSrcPatch/components/search_engines/template_url_starter_pack_data.cc:91-99 | each engine's id leads to that engine's destination, and an id no engine has leads to "" |
| StarterPackData.BookmarksDestination | src/AIGCBrowserSrc/ChromiumSrcPatch/components/search_engines/template_url_starter_pack_data.cc:24-32 | the bookmarks id leads to "tangram://bookmarks" and an unknown id to "" |
| StarterPackData.GetStarterPackEngines | src/AIGCBrowserSrc/ChromiumSrcPatch/components/search_engines/template_url_starter_pack_data.cc:82-89 | one converted entry per table engine, in table order |
| CustomizeToolbar.Action.constructor | src/AIGCBrowserSrc/ChromiumSrcPatch/chrome/browser/resources/side_panel/customize_chrome/customize_toolbar/toolbar.ts:52 | an action keeps the id, name, icon and pin state it was made with |
| CustomizeToolbar.Snapshot | src/AIGCBrowserSrc/ChromiumSrcPatch/chrome/browser/resources/side_panel/customize_chrome/customize_toolbar/toolbar.ts:52 | what a list of actions shows: one id and pin state per action, in order |
| CustomizeToolbar.WithPinned | src/AIGCBrowserSrc/ChromiumSrcPatch/chrome/browser/resources/side_panel/customize_chrome/customize_toolbar/toolbar.ts:100-107 | the list keeps its length and ids; every action with the id takes the new pin state and every other action is unchanged |
| CustomizeToolbar.WithPinnedNoOp | src/AIGCBrowserSrc/ChromiumSrcPatch/chrome/browser/resources/side_panel/customize_chrome/customize_toolbar/toolbar.ts:100-107 | pinning actions to the state they already have changes nothing |
| CustomizeToolbar.WithPinnedLastWins | src/AIGCBrowserSrc/ChromiumSrcPatch/chrome/browser/resources/side_panel/customize_chrome/customize_toolbar/toolbar.ts:100-107 | a later pin of the same action overrides an earlier one |
| CustomizeToolbar.WithPinnedCommutes | src/AIGCBrowserSrc/ChromiumSrcPatch/chrome/browser/resources/side_panel/customize_chrome/customize_toolbar/toolbar.ts:100-107 | pins of two different actions can be applied in either order |
| CustomizeToolbar.Removals | src/AIGCBrowserSrc/ChromiumSrcPatch/chrome/browser/resources/side_panel/customize_chrome/customize_toolbar/toolbar.ts:79 | one `removeListener` call per id, in order |
| CustomizeToolbar.RemovalsAppend | src/AIGCBrowserSrc/ChromiumSrcPatch/chrome/browser/resources/side_panel/customize_chrome/customize_toolbar/toolbar.ts:79 | removing one more listener adds exactly its call at the end |
| CustomizeToolbar.ToolbarElement.constructor | src/AIGCBrowserSrc/ChromiumSrcPatch/chrome/browser/resources/side_panel/customize_chrome/customize_toolbar/toolbar.ts:50-61 | nothing listed, reset disabled, no listeners, and the three calls of `populateUi_` made |
| CustomizeToolbar.ToolbarElement.ConnectedCallback | src/AIGCBrowserSrc/ChromiumSrcPatch/chrome/browser/resources/side_panel/customize_chrome/customize_toolbar/toolbar.ts:63-71 | the pin listener's id, then the actions-updated listener's id, are appended |
| CustomizeToolbar.ToolbarElement.DisconnectedCallback | src/AIGCBrowserSrc/ChromiumSrcPatch/chrome/browser/resources/side_panel/customize_chrome/customize_toolbar/toolbar.ts:75-81 | every registered listener is removed in order and the list of ids is emptied |
| CustomizeToolbar.ToolbarElement.OnResetToDefaultClicked | src/AIGCBrowserSrc/ChromiumSrcPatch/chrome/browser/resources/side_panel/customize_chrome/customize_toolbar/toolbar.ts:91-93 | exactly one `resetToDefault` call is made |
| CustomizeToolbar.ToolbarElement.OnActionToggled | src/AIGCBrowserSrc/ChromiumSrcPatch/chrome/browser/resources/side_panel/customize_chrome/customize_toolbar/toolbar.ts:95-98 | the toggle's handler makes exactly one `pinAction` call with the action's id and the new state |
| CustomizeToolbar.ToolbarElement.SetActionPinned | src/AIGCBrowserSrc/ChromiumSrcPatch/chrome/browser/resources/side_panel/customize_chrome/customize_toolbar/toolbar.ts:100-110 | the list keeps its objects and order, the pin states become `WithPinned` of the old ones, and "is customized" is asked again |
| CustomizeToolbar.PinMatching | src/AIGCBrowserSrc/ChromiumSrcPatch/chrome/browser/resources/side_panel/customize_chrome/customize_toolbar/toolbar.ts:101-107 | the loop sets every action with the id to the new state and leaves every other action's state as it was |
| CustomizeToolbar.SnapshotIsWithPinned | src/AIGCBrowserSrc/ChromiumSrcPatch/chrome/browser/resources/side_panel/customize_chrome/customize_toolbar/toolbar.ts:100-107 | the per-action facts after the loop amount to `WithPinned` of the state before it |
| CustomizeToolbar.ToolbarElement.PopulateUi | src/AIGCBrowserSrc/ChromiumSrcPatch/chrome/browser/resources/side_panel/customize_chrome/customize_toolbar/toolbar.ts:112-124 | the actions, the categories and whether the toolbar is customized are asked for, in that order |
| CustomizeToolbar.ToolbarElement.OnListActionsReply | src/AIGCBrowserSrc/ChromiumSrcPatch/chrome/browser/resources/side_panel/customize_chrome/customize_toolbar/toolbar.ts:113-117 | the reply replaces the actions, and the icon check holds exactly when every icon is a `data:` URL |
| CustomizeToolbar.ToolbarElement.OnListCategoriesReply | src/AIGCBrowserSrc/ChromiumSrcPatch/chrome/browser/resources/side_panel/customize_chrome/customize_toolbar/toolbar.ts:119-121 | the reply replaces the categories |
| CustomizeToolbar.ToolbarElement.OnIsCustomizedReply | src/AIGCBrowserSrc/ChromiumSrcPatch/chrome/browser/resources/side_panel/customize_chrome/customize_toolbar/toolbar.ts:126-130 | reset to default is disabled exactly when the toolbar is not customized |
| CustomizeToolbar.ConnectDisconnect | src/AIGCBrowserSrc/ChromiumSrcPatch/chrome/browser/resources/side_panel/customize_chrome/customize_toolbar/toolbar.ts:63-81 | connecting then disconnecting removes exactly the two listeners just registered and leaves none |
| PaymentsSection.CountMigratable | src/AIGCBrowserSrc/ChromiumSrcPatch/chrome/browser/resources/settings/autofill_page/payments_section.ts:531-532 | the count of cards flagged migratable is at most the number of cards, zero exactly when none is migratable and full exactly when all are |
| PaymentsSection.CountMigratableAppend | src/AIGCBrowserSrc/ChromiumSrcPatch/chrome/browser/resources/settings/autofill_page/payments_section.ts:531-532 | counting migratable cards distributes over concatenating two card lists |
| PaymentsSection.MigratableInfoFor | src/AIGCBrowserSrc/ChromiumSrcPatch/chrome/browser/resources/settings/autofill_page/payments_section.ts:540-542 | the single-card text is chosen exactly for one card, the multiple-card text otherwise |
| PaymentsSection.ShowMigrationButton | src/AIGCBrowserSrc/ChromiumSrcPatch/chrome/browser/resources/settings/autofill_page/payments_section.ts:518-545 | the button shows exactly when migration and card autofill are enabled and some card is migratable |
| PaymentsSection.ShouldShowAddVirtualCardButton | src/AIGCBrowserSrc/ChromiumSrcPatch/chrome/browser/resources/settings/autofill_page/payments_section.ts:551-558 | "add virtual card" is offered exactly for an active card with metadata that is eligible and not yet enrolled |
| PaymentsSection.ShouldShowRemoveVirtualCardButton | src/AIGCBrowserSrc/ChromiumSrcPatch/chrome/browser/resources/settings/autofill_page/payments_section.ts:560-567 | "remove virtual card" is offered exactly for an active card with metadata that is eligible and enrolled |
| PaymentsSection.VirtualCardButtonsExclusive | src/AIGCBrowserSrc/ChromiumSrcPatch/chrome/browser/resources/settings/autofill_page/payments_section.ts:551-567 | the two entries are never offered together; one is offered exactly when the active card is eligible; none without an active card with metadata |
| PaymentsSection.FindCardWithCvc | src/AIGCBrowserSrc/ChromiumSrcPatch/chrome/browser/resources/settings/autofill_page/payments_section.ts:659 | the search finds a card exactly when some card has a CVC, and then the first such card |
| PaymentsSection.CvcStorageSublabel | src/AIGCBrowserSrc/ChromiumSrcPatch/chrome/browser/resources/settings/autofill_page/payments_section.ts:658-663 | the sublabel with the bulk-delete link is chosen exactly when some card has a CVC |
| PaymentsSection.CvcStorageAriaLabel | src/AIGCBrowserSrc/ChromiumSrcPatch/chrome/browser/resources/settings/autofill_page/payments_section.ts:677-682 | the "CVC saved" aria label is chosen exactly when some card has a CVC, the "no CVC saved" one otherwise |
| PaymentsSection.CvcLabelsAgree | src/AIGCBrowserSrc/ChromiumSrcPatch/chrome/browser/resources/settings/autofill_page/payments_section.ts:658-682 | the sublabel offers deletion exactly when the aria label announces saved CVCs |
| PaymentsSection.AddingCvcSwitchesLabels | src/AIGCBrowserSrc/ChromiumSrcPatch/chrome/browser/resources/settings/autofill_page/payments_section.ts:658-682 | once a card with a CVC is added, both labels take their "CVC saved" variants |
| PaymentsSection.MenuEditCardText | src/AIGCBrowserSrc/ChromiumSrcPatch/chrome/browser/resources/settings/autofill_page/payments_section.ts:547-549 | local cards get the "edit" text and exactly the server cards get "editServerCard" |
| PaymentsSection.ShouldDisableAuthToggle | src/AIGCBrowserSrc/ChromiumSrcPatch/chrome/browser/resources/settings/autofill_page/payments_section.ts:585-587 | the toggle is enabled exactly when card autofill is on and device authentication is available |
| PaymentsSection.SettingsPaymentsSection.constructor | src/AIGCBrowserSrc/ChromiumSrcPatch/chrome/browser/resources/settings/autofill_page/payments_section.ts:95-220 | the flags come from the page's load-time data; no card or IBAN is active, every dialog is closed, no call has been made |
| PaymentsSection.SettingsPaymentsSection.OnPersonalDataChanged | src/AIGCBrowserSrc/ChromiumSrcPatch/chrome/browser/resources/settings/autofill_page/payments_section.ts:233-236 | the personal-data listener replaces both the card list and the IBAN list |
| PaymentsSection.SettingsPaymentsSection.OnDeviceAuthAvailableReply | src/AIGCBrowserSrc/ChromiumSrcPatch/chrome/browser/resources/settings/autofill_page/payments_section.ts:254-257 | the device-authentication answer replaces the load-time value, and the re-authentication toggle is then enabled exactly when card autofill is on and the answer was yes |
| PaymentsSection.SettingsPaymentsSection.CheckIfMigratable | src/AIGCBrowserSrc/ChromiumSrcPatch/chrome/browser/resources/settings/autofill_page/payments_section.ts:518-545 | the result is ShowMigrationButton; when the button shows, the info text fits the migratable count; otherwise the text is unchanged |
| PaymentsSection.SettingsPaymentsSection.OnCreditCardDotsMenuClick | src/AIGCBrowserSrc/ChromiumSrcPatch/chrome/browser/resources/settings/autofill_page/payments_section.ts:299-304 | the clicked card becomes the active card |
| PaymentsSection.SettingsPaymentsSection.OnDotsIbanMenuClick | src/AIGCBrowserSrc/ChromiumSrcPatch/chrome/browser/resources/settings/autofill_page/payments_section.ts:309-314 | the clicked IBAN becomes the active IBAN |
| PaymentsSection.SettingsPaymentsSection.OnAddCreditCardClick | src/AIGCBrowserSrc/ChromiumSrcPatch/chrome/browser/resources/settings/autofill_page/payments_section.ts:319-335 | a blank card that expires in the current month (one-based) and year becomes active, and the dialog opens |
| PaymentsSection.SettingsPaymentsSection.OnCreditCardDialogClose | src/AIGCBrowserSrc/ChromiumSrcPatch/chrome/browser/resources/settings/autofill_page/payments_section.ts:337-340 | the dialog closes and no card stays active |
| PaymentsSection.SettingsPaymentsSection.OnAddIbanClick | src/AIGCBrowserSrc/ChromiumSrcPatch/chrome/browser/resources/settings/autofill_page/payments_section.ts:345-353 | the IBAN dialog opens |
| PaymentsSection.SettingsPaymentsSection.OnIbanDialogClose | src/AIGCBrowserSrc/ChromiumSrcPatch/chrome/browser/resources/settings/autofill_page/payments_section.ts:355-358 | the IBAN dialog closes and no IBAN stays active |
| PaymentsSection.SettingsPaymentsSection.OnRemoteCreditCardUrlClick | src/AIGCBrowserSrc/ChromiumSrcPatch/chrome/browser/resources/settings/autofill_page/payments_section.ts:384-392 | the click is logged, and the manage-payment-methods page opens with the active card's instrument id when it has one |
| PaymentsSection.SettingsPaymentsSection.OnRemoteEditCreditCardClick | src/AIGCBrowserSrc/ChromiumSrcPatch/chrome/browser/resources/settings/autofill_page/payments_section.ts:379-382 | the clicked server card becomes active, the click is logged, and its page opens |
| PaymentsSection.SettingsPaymentsSection.OnRemoteEditIbanMenuClick | src/AIGCBrowserSrc/ChromiumSrcPatch/chrome/browser/resources/settings/autofill_page/payments_section.ts:394-398 | the IBAN link click is logged and the page opens without an id |
| PaymentsSection.SettingsPaymentsSection.OnMenuEditCreditCardClick | src/AIGCBrowserSrc/ChromiumSrcPatch/chrome/browser/resources/settings/autofill_page/payments_section.ts:363-377 | a local card is fetched by its guid (undefined when it has none), its unmasked copy becomes active and the dialog opens; a server card opens its page and nothing else changes |
| PaymentsSection.SettingsPaymentsSection.OnMenuEditIbanClick | src/AIGCBrowserSrc/ChromiumSrcPatch/chrome/browser/resources/settings/autofill_page/payments_section.ts:433-437 | the IBAN dialog opens |
| PaymentsSection.SettingsPaymentsSection.SaveCreditCardEvent | src/AIGCBrowserSrc/ChromiumSrcPatch/chrome/browser/resources/settings/autofill_page/payments_section.ts:506-509 | the card of the save event is handed to the payments manager |
| PaymentsSection.SettingsPaymentsSection.OnSaveIban | src/AIGCBrowserSrc/ChromiumSrcPatch/chrome/browser/resources/settings/autofill_page/payments_section.ts:511-513 | the IBAN of the save event is handed to the payments manager |
| PaymentsSection.SettingsPaymentsSection.OnCardBenefitsSublabelLinkClick | src/AIGCBrowserSrc/ChromiumSrcPatch/chrome/browser/resources/settings/autofill_page/payments_section.ts:669-671 | the Google Pay help article opens |
| PaymentsSection.SettingsPaymentsSection.OnMenuRemoveCreditCardClick | src/AIGCBrowserSrc/ChromiumSrcPatch/chrome/browser/resources/settings/autofill_page/payments_section.ts:425-428 | the removal confirmation dialog opens |
| PaymentsSection.SettingsPaymentsSection.OnLocalCreditCardRemoveConfirmationDialogClose | src/AIGCBrowserSrc/ChromiumSrcPatch/chrome/browser/resources/settings/autofill_page/payments_section.ts:400-420 | only a confirmed dialog removes the active card by guid and forgets it; a cancelled one changes nothing; the dialog closes either way |
| PaymentsSection.SettingsPaymentsSection.OnMenuRemoveIbanClick | src/AIGCBrowserSrc/ChromiumSrcPatch/chrome/browser/resources/settings/autofill_page/payments_section.ts:464-468 | with an active IBAN, the IBAN removal dialog opens |
| PaymentsSection.SettingsPaymentsSection.OnLocalIbanRemoveConfirmationDialogClose | src/AIGCBrowserSrc/ChromiumSrcPatch/chrome/browser/resources/settings/autofill_page/payments_section.ts:439-459 | only a confirmed dialog removes the active IBAN by guid and forgets it; the dialog closes either way |
| PaymentsSection.SettingsPaymentsSection.OnMenuAddVirtualCardClick | src/AIGCBrowserSrc/ChromiumSrcPatch/chrome/browser/resources/settings/autofill_page/payments_section.ts:470-474 | the active card's guid, or `undefined` for a card without one, is sent for virtual-card enrollment and no card stays active |
| PaymentsSection.SettingsPaymentsSection.OnMenuRemoveVirtualCardClick | src/AIGCBrowserSrc/ChromiumSrcPatch/chrome/browser/resources/settings/autofill_page/payments_section.ts:476-479 | the unenroll dialog opens |
| PaymentsSection.SettingsPaymentsSection.OnVirtualCardUnenrollDialogClose | src/AIGCBrowserSrc/ChromiumSrcPatch/chrome/browser/resources/settings/autofill_page/payments_section.ts:481-484 | the unenroll dialog closes and no card stays active |
| PaymentsSection.SettingsPaymentsSection.UnenrollVirtualCard | src/AIGCBrowserSrc/ChromiumSrcPatch/chrome/browser/resources/settings/autofill_page/payments_section.ts:572-574 | the id from the event is sent for unenrollment |
| PaymentsSection.SettingsPaymentsSection.OnMigrateCreditCardsClick | src/AIGCBrowserSrc/ChromiumSrcPatch/chrome/browser/resources/settings/autofill_page/payments_section.ts:490-492 | migration is requested once |
| PaymentsSection.SettingsPaymentsSection.OnBulkRemoveCvcClick | src/AIGCBrowserSrc/ChromiumSrcPatch/chrome/browser/resources/settings/autofill_page/payments_section.ts:613-620 | with CVC storage available, the bulk-delete dialog opens |
| PaymentsSection.SettingsPaymentsSection.OnShowBulkRemoveCvcConfirmationDialogClose | src/AIGCBrowserSrc/ChromiumSrcPatch/chrome/browser/resources/settings/autofill_page/payments_section.ts:625-650 | all CVCs are deleted exactly when the dialog was confirmed; the dialog closes |
| PaymentsSection.SettingsPaymentsSection.OnMandatoryAuthToggleChange | src/AIGCBrowserSrc/ChromiumSrcPatch/chrome/browser/resources/settings/autofill_page/payments_section.ts:601-608 | the toggle is flipped back, and authentication is requested before the pref may flip |
| PaymentsSection.ClickMandatoryAuthToggle | src/AIGCBrowserSrc/ChromiumSrcPatch/chrome/browser/resources/settings/autofill_page/payments_section.ts:601-608 | a click leaves the toggle as it was and asks for authentication exactly once |
| PaymentsSection.RemoveLocalCardFlow | src/AIGCBrowserSrc/ChromiumSrcPatch/chrome/browser/resources/settings/autofill_page/payments_section.ts:400-428 | removing a local card through its menu sends its guid for removal exactly once; no card stays active and no dialog stays open |
| PaymentsSection.CancelRemoveLocalCardFlow | src/AIGCBrowserSrc/ChromiumSrcPatch/chrome/browser/resources/settings/autofill_page/payments_section.ts:400-428 | cancelling the removal sends nothing and keeps the card active |
| DownloadsManager.HideDatesUpdated | src/AIGCBrowserSrc/ChromiumSrcPatch/chrome/browser/resources/downloads/manager.ts:530-539 | recomputing the flags over a range keeps the length of the list |
| DownloadsManager.AnyClearable | src/AIGCBrowserSrc/ChromiumSrcPatch/chrome/browser/resources/downloads/manager.ts:394-399 | the list holds a clearable download exactly when some entry is in a clearable state |
| DownloadsManager.FindById | src/AIGCBrowserSrc/ChromiumSrcPatch/chrome/browser/resources/downloads/manager.ts:218-222 | a found entry belongs to the list and carries the id |
| DownloadsManager.FindByIdFirst | src/AIGCBrowserSrc/ChromiumSrcPatch/chrome/browser/resources/downloads/manager.ts:218-222 | nothing is found exactly when no entry carries the id, and otherwise the first such entry |
| DownloadsManager.Manager.constructor | src/AIGCBrowserSrc/ChromiumSrcPatch/chrome/browser/resources/downloads/manager.ts:64-135 | the page starts loading with an empty list, no bypass prompt and the flags in agreement with the list |
| DownloadsManager.Manager.ItemsChanged | src/AIGCBrowserSrc/ChromiumSrcPatch/chrome/browser/resources/downloads/manager.ts:392-399 | the observer leaves hasDownloads and hasClearableDownloads in agreement with the list |
| DownloadsManager.Manager.UpdateHideDates | src/AIGCBrowserSrc/ChromiumSrcPatch/chrome/browser/resources/downloads/manager.ts:530-539 | the loop leaves the list as HideDatesUpdated describes it |
| DownloadsManager.Manager.ClearAll | src/AIGCBrowserSrc/ChromiumSrcPatch/chrome/browser/resources/downloads/manager.ts:360-362 | the list is emptied and both derived flags become false |
| DownloadsManager.Manager.InsertItems | src/AIGCBrowserSrc/ChromiumSrcPatch/chrome/browser/resources/downloads/manager.ts:370-390 | the list becomes the spliced list with recomputed flags; loading ends, the spinner stops, the bypass id is kept, and the flags agree with the list |
| DownloadsManager.Manager.RemoveItem | src/AIGCBrowserSrc/ChromiumSrcPatch/chrome/browser/resources/downloads/manager.ts:504-518 | the spliced-out entries are answered and the list loses them; the bypass prompt closes exactly when a removed entry carried its id |
| DownloadsManager.Manager.UpdateItem | src/AIGCBrowserSrc/ChromiumSrcPatch/chrome/browser/resources/downloads/manager.ts:541-551 | the entry at the index is replaced and its flag recomputed; the derived flags agree with the list |
| DownloadsManager.Manager.HideBypassWarningPrompt | src/AIGCBrowserSrc/ChromiumSrcPatch/chrome/browser/resources/downloads/manager.ts:310-312 | the bypass prompt closes |
| DownloadsManager.Manager.OnSaveDangerousClick | src/AIGCBrowserSrc/ChromiumSrcPatch/chrome/browser/resources/downloads/manager.ts:218-233 | the prompt opens, and its opening is recorded for the dialog or the interstitial, exactly when a listed download carries the id; otherwise nothing changes |
| DownloadsManager.Manager.ShouldShowBypassWarningPrompt | src/AIGCBrowserSrc/ChromiumSrcPatch/chrome/browser/resources/downloads/manager.ts:268-270 | the prompt is shown exactly when its id is non-empty |
| DownloadsManager.Manager.BypassWarningDialogFileName | src/AIGCBrowserSrc/ChromiumSrcPatch/chrome/browser/resources/downloads/manager.ts:272-276 | the file name of the first entry carrying the prompt's id, and empty when no entry carries it |
| DownloadsManager.Manager.OnBypassWarningConfirmationDialogClose | src/AIGCBrowserSrc/ChromiumSrcPatch/chrome/browser/resources/downloads/manager.ts:314-330 | a confirmed dialog saves the dangerous download, a cancelled one records the cancel; the prompt closes either way |
| DownloadsManager.Manager.OnDangerousDownloadInterstitialClose | src/AIGCBrowserSrc/ChromiumSrcPatch/chrome/browser/resources/downloads/manager.ts:344-351 | the download is saved with the survey response and the prompt closes |
| DownloadsManager.Manager.OnDangerousDownloadInterstitialCancel | src/AIGCBrowserSrc/ChromiumSrcPatch/chrome/browser/resources/downloads/manager.ts:353-358 | the cancel is recorded and the prompt closes |
| DownloadsManager.HideDatesUpdatedEffect | src/AIGCBrowserSrc/ChromiumSrcPatch/chrome/browser/resources/downloads/manager.ts:530-539 | recomputing changes no browser data, makes the rule hold at every existing index in the range, and writes nothing outside it |
| DownloadsManager.InsertPlacesItems | src/AIGCBrowserSrc/ChromiumSrcPatch/chrome/browser/resources/downloads/manager.ts:370-374 | the new downloads sit at the index with the old ones before and after them, and the length grows by their number |
| DownloadsManager.InsertNothing | src/AIGCBrowserSrc/ChromiumSrcPatch/chrome/browser/resources/downloads/manager.ts:370-372 | inserting no downloads leaves the list as it was |
| DownloadsManager.InsertPreservesHideDates | src/AIGCBrowserSrc/ChromiumSrcPatch/chrome/browser/resources/downloads/manager.ts:370-382 | when every entry obeys the hideDate rule before an insertion, every entry obeys it after |
| DownloadsManager.RemoveDeletesEntry | src/AIGCBrowserSrc/ChromiumSrcPatch/chrome/browser/resources/downloads/manager.ts:504-506 | removal deletes exactly the entry at the index and answers it |
| DownloadsManager.RemovePreservesHideDates | src/AIGCBrowserSrc/ChromiumSrcPatch/chrome/browser/resources/downloads/manager.ts:504-518 | when every entry obeys the hideDate rule before a removal, every entry obeys it after |
| DownloadsManager.UpdateReplacesOnlyEntry | src/AIGCBrowserSrc/ChromiumSrcPatch/chrome/browser/resources/downloads/manager.ts:541-543 | an update keeps the length, puts the new data at the index and leaves every other entry alone |
| DownloadsManager.UpdateSameDatePreservesHideDates | src/AIGCBrowserSrc/ChromiumSrcPatch/chrome/browser/resources/downloads/manager.ts:541-551 | an update that keeps the entry's date keeps every flag right |
| DownloadsManager.UpdateDoesNotRevisitNext | src/AIGCBrowserSrc/ChromiumSrcPatch/chrome/browser/resources/downloads/manager.ts:541-543 | an update that changes an entry's date can leave the next entry's flag stale, as only the updated index is recomputed |
| DownloadsManager.ClearableFlagMeaning | src/AIGCBrowserSrc/ChromiumSrcPatch/chrome/browser/resources/downloads/manager.ts:394-399 | hasClearableDownloads holds exactly when deleting history is allowed and some download is not dangerous, insecure, in progress or paused |
| DownloadsManager.InsertKeepsBypassId | src/AIGCBrowserSrc/ChromiumSrcPatch/chrome/browser/resources/downloads/manager.ts:370-374 | an insertion keeps the bypass prompt's download in the list |
| DownloadsManager.RemoveKeepsBypassId | src/AIGCBrowserSrc/ChromiumSrcPatch/chrome/browser/resources/downloads/manager.ts:504-509 | removing a download other than the prompt's keeps the prompt's download in the list |
| StartupBrowserCreator.UrlsToTabs | src/AIGCBrowserSrc/ChromiumSrcPatch/chrome/browser/ui/startup/startup_browser_creator_impl.cc:135-139 | one normal tab per URL, in the URLs' order |
| StartupBrowserCreator.AppendTabs | src/AIGCBrowserSrc/ChromiumSrcPatch/chrome/browser/ui/startup/startup_browser_creator_impl.cc:141-144 | the destination keeps its tabs in front and the source follows |
| StartupBrowserCreator.PrependTabs | src/AIGCBrowserSrc/ChromiumSrcPatch/chrome/browser/ui/startup/startup_browser_creator_impl.cc:146-149 | the source goes in front of the destination's tabs |
| StartupBrowserCreator.DetermineStartupTabs | src/AIGCBrowserSrc/ChromiumSrcPatch/chrome/browser/ui/startup/startup_browser_creator_impl.cc:709-815 | the method composes the launch result and the tab list as LaunchResultFor and StartupTabsFor describe them |
| StartupBrowserCreator.LaunchResultFor | src/AIGCBrowserSrc/ChromiumSrcPatch/chrome/browser/ui/startup/startup_browser_creator_impl.cc:718-721 | the launch reports given URLs exactly when the command line carried tabs, and a normal launch exactly when it carried none |
| StartupBrowserCreator.StartupTabsFor | src/AIGCBrowserSrc/ChromiumSrcPatch/chrome/browser/ui/startup/startup_browser_creator_impl.cc:709-815 | an incognito, guest or post-crash launch never gets an empty list; every other launch ends with the pinned tabs unless the distribution's first-run tabs are returned alone |
| StartupBrowserCreator.RestrictedLaunchPriority | src/AIGCBrowserSrc/ChromiumSrcPatch/chrome/browser/ui/startup/startup_browser_creator_impl.cc:731-745 | an incognito, guest or post-crash launch opens the command-line tabs, else the post-crash tabs of a post-crash launch, else exactly one New Tab Page; never nothing |
| StartupBrowserCreator.GivenUrlsLaunchOrder | src/AIGCBrowserSrc/ChromiumSrcPatch/chrome/browser/ui/startup/startup_browser_creator_impl.cc:750-753 | with command-line tabs, the reset tabs come first, the command-line tabs next and the pinned tabs last, and nothing else is added |
| StartupBrowserCreator.DistributionTabsAlone | src/AIGCBrowserSrc/ChromiumSrcPatch/chrome/browser/ui/startup/startup_browser_creator_impl.cc:755-763 | a normal launch with distribution first-run tabs opens those alone, without reset or pinned tabs |
| StartupBrowserCreator.NormalLaunchOrder | src/AIGCBrowserSrc/ChromiumSrcPatch/chrome/browser/ui/startup/startup_browser_creator_impl.cc:748-812 | a normal launch puts the reset tabs first, then the preference tabs (or the New Tab Page tabs when there are none), and the pinned tabs last |
| StartupBrowserCreator.PreferencesOverrideNewTabPage | src/AIGCBrowserSrc/ChromiumSrcPatch/chrome/browser/ui/startup/startup_browser_creator_impl.cc:772-799 | with preference tabs the list is reset tabs, the What's New tabs when promotions allow them, the preference tabs and the pinned tabs; no New Tab Page tab is added |
| StartupBrowserCreator.DetermineBrowserOpenBehavior | src/AIGCBrowserSrc/ChromiumSrcPatch/chrome/browser/ui/startup/startup_browser_creator_impl.cc:893-915 | a running process reuses a window exactly for command-line tabs without the new-window switch; at process startup it restores synchronously exactly when the pref asks for it and the launch is not post-crash |
| StartupBrowserCreator.DetermineSynchronousRestoreOptions | src/AIGCBrowserSrc/ChromiumSrcPatch/chrome/browser/ui/startup/startup_browser_creator_impl.cc:919-938 | the options always include SYNCHRONOUS, RESTORE_BROWSER exactly when the tabbed browser is restored, ALWAYS_CREATE_TABBED_BROWSER exactly when not a Mac login or resume and the default or the switch asks for it, and no other bit |
| StartupBrowserCreator.BehaviorOptions | src/AIGCBrowserSrc/ChromiumSrcPatch/chrome/browser/ui/startup/startup_browser_creator_impl.cc:651-664 | each of the four option bits is set exactly when its launch condition holds |
| StartupBrowserCreator.PostCrashNeverRestores | src/AIGCBrowserSrc/ChromiumSrcPatch/chrome/browser/ui/startup/startup_browser_creator_impl.cc:906-914 | a post-crash launch never restores the last session synchronously |
| StartupBrowserCreator.RunningProcessReusesWindow | src/AIGCBrowserSrc/ChromiumSrcPatch/chrome/browser/ui/startup/startup_browser_creator_impl.cc:896-904 | a launch into a running process reuses a window exactly for command-line URLs without --new-window, and otherwise opens a new one |
| StartupBrowserCreator.TabsToOpen | src/AIGCBrowserSrc/ChromiumSrcPatch/chrome/browser/ui/startup/startup_browser_creator_impl.cc:870-878 | the list handed on is never empty: the tabs themselves, or a single New Tab Page when there are none |
| StartupBrowserCreator.RestoreOrCreateBrowser | src/AIGCBrowserSrc/ChromiumSrcPatch/chrome/browser/ui/startup/startup_browser_creator_impl.cc:842-889 | a session is restored exactly for a synchronous restore that succeeds; otherwise a non-empty list of tabs opens, in an existing browser exactly when one was asked for and found |
| StartupBrowserCreator.NavigationsFor | src/AIGCBrowserSrc/ChromiumSrcPatch/chrome/browser/ui/startup/startup_browser_creator_impl.cc:528-546 | one navigation per tab |
| StartupBrowserCreator.NavigationFlags | src/AIGCBrowserSrc/ChromiumSrcPatch/chrome/browser/ui/startup/startup_browser_creator_impl.cc:528-546 | only the first navigated tab is active and in the foreground, every tab is force-indexed, a tab is pinned exactly when pinning is honoured and it is a pinned tab, and each navigation goes to its tab's URL |
| StartupBrowserCreator.EligibleTabs | src/AIGCBrowserSrc/ChromiumSrcPatch/chrome/browser/ui/startup/startup_browser_creator_impl.cc:476-499 | the tabs that reach navigation are tabs of the list that are admitted and are not the What's New page |
| StartupBrowserCreator.OpenTabsInBrowser | src/AIGCBrowserSrc/ChromiumSrcPatch/chrome/browser/ui/startup/startup_browser_creator_impl.cc:430-565 | headless mode hands every eligible URL to the headless processor and navigates nothing; otherwise the eligible tabs are navigated in order; What's New is fetched exactly when it is admitted; an empty tab strip gets a blank tab and one without an active tab activates its first |
| StartupBrowserCreator.UrlsOf | src/AIGCBrowserSrc/ChromiumSrcPatch/chrome/browser/ui/startup/startup_browser_creator_impl.cc:509-510 | the URLs of the tabs, in order |
| StartupBrowserCreator.EligibleUpToIsEligibleTabs | src/AIGCBrowserSrc/ChromiumSrcPatch/chrome/browser/ui/startup/startup_browser_creator_impl.cc:476-499 | the tabs the loop collects front to back are the eligible tabs of the prefix it has seen |
| StartupBrowserCreator.EligibleTabsSnoc | src/AIGCBrowserSrc/ChromiumSrcPatch/chrome/browser/ui/startup/startup_browser_creator_impl.cc:476-499 | filtering one more tab adds it at the end exactly when it is admitted and is not What's New |
| StartupBrowserCreator.NavigatedTabsAreAdmitted | src/AIGCBrowserSrc/ChromiumSrcPatch/chrome/browser/ui/startup/startup_browser_creator_impl.cc:476-499 | no navigated URL is the What's New page, and outside process startup none needs an external protocol handler |
| StartupBrowserCreator.PipeSegments | src/AIGCBrowserSrc/ChromiumSrcPatch/chrome/browser/ui/startup/startup_browser_creator_impl.cc:216-238 | no segment holds a pipe character, and there are no more segments than characters |
| StartupBrowserCreator.PipeSegmentsRoundTrip | src/AIGCBrowserSrc/ChromiumSrcPatch/chrome/browser/ui/startup/startup_browser_creator_impl.cc:216-238 | the segments, each followed by a pipe separator, and the text after the last pipe make up the input exactly |
| StartupBrowserCreator.PipeSegmentsCount | src/AIGCBrowserSrc/ChromiumSrcPatch/chrome/browser/ui/startup/startup_browser_creator_impl.cc:216-238 | the splitter yields one segment per pipe character in the input |
| StartupBrowserCreator.ResolveSegment | src/AIGCBrowserSrc/ChromiumSrcPatch/chrome/browser/ui/startup/startup_browser_creator_impl.cc:224-232 | text with a ':' is kept as the URL; a file name becomes the application path plus the name when that file exists, else the New Tab Page |
| StartupBrowserCreator.ResolvedTabs | src/AIGCBrowserSrc/ChromiumSrcPatch/chrome/browser/ui/startup/startup_browser_creator_impl.cc:224-235 | one normal tab per segment, with the segment's resolved URL |
| StartupBrowserCreator.SplitPipeSeparatedUrls | src/AIGCBrowserSrc/ChromiumSrcPatch/chrome/browser/ui/startup/startup_browser_creator_impl.cc:216-241 | the loop answers the resolved tabs of the segments, one per pipe character, and reports a tab exactly when it produced one |
| StartupBrowserCreator.CreateBrowserNavigations | src/AIGCBrowserSrc/ChromiumSrcPatch/chrome/browser/ui/startup/startup_browser_creator_impl.cc:249-264 | the browser built from the description activates only its first tab and force-indexes every tab, and pins none |
| AccountSelectionView.SelectDisclosureTextResourceId | src/AIGCBrowserSrc/ChromiumSrcPatch/chrome/browser/ui/views/webid/account_selection_view_base.cc:40-51 | the chosen sentence mentions the privacy policy exactly when its URL is non-empty and the terms of service exactly when theirs is |
| AccountSelectionView.DisclosureIdDeterminedByEmptiness | src/AIGCBrowserSrc/ChromiumSrcPatch/chrome/browser/ui/views/webid/account_selection_view_base.cc:40-51 | two URL pairs get the same sentence exactly when the same URLs are empty |
| AccountSelectionView.CreateDisclosureLabel | src/AIGCBrowserSrc/ChromiumSrcPatch/chrome/browser/ui/views/webid/account_selection_view_base.cc:587-642 | the sentence is the one selected; one link per non-empty URL, in the sentence's order, at most two; the replacements are the identity provider's name then two empty strings per link; each link's range spans the two offsets reserved for it |
| AccountSelectionView.CanFitInWebContents | src/AIGCBrowserSrc/ChromiumSrcPatch/chrome/browser/ui/views/webid/account_selection_view_base.cc:654-668 | a dialog fits exactly when, with the right and top margins added, it is narrower and shorter than the contents; one that wide does not fit whatever its height |
| AccountSelectionView.CanFitMonotone | src/AIGCBrowserSrc/ChromiumSrcPatch/chrome/browser/ui/views/webid/account_selection_view_base.cc:654-668 | a dialog that fits still fits in larger contents, and a smaller dialog fits too |
| AccountSelectionView.CanFitIsStrict | src/AIGCBrowserSrc/ChromiumSrcPatch/chrome/browser/ui/views/webid/account_selection_view_base.cc:654-668 | reaching exactly up to a margin is not fitting: both comparisons are strict |
| AccountSelectionView.BackgroundColorFor | src/AIGCBrowserSrc/ChromiumSrcPatch/chrome/browser/ui/views/webid/account_selection_view_base.cc:241-271 | a disabled button gives no colour, a normal one the dialog background, hovered and pressed the selected-menu colour |
| AccountSelectionView.BrandIconImageView.constructor | src/AIGCBrowserSrc/ChromiumSrcPatch/chrome/browser/ui/views/webid/account_selection_view_base.cc:309-317 | the view keeps its size, crop mode and optional background colour; it shows nothing, has fetched nothing and its callback is still pending |
| AccountSelectionView.BrandIconImageView.FetchImage | src/AIGCBrowserSrc/ChromiumSrcPatch/chrome/browser/ui/views/webid/account_selection_view_base.cc:321-331 | one fetch of the icon URL is requested |
| AccountSelectionView.BrandIconImageView.CropAndSetImage | src/AIGCBrowserSrc/ChromiumSrcPatch/chrome/browser/ui/views/webid/account_selection_view_base.cc:333-345 | the image is circle-cropped or resized to the view's size, and shown on a background circle exactly when a colour is configured |
| AccountSelectionView.BrandIconImageView.OnImageFetched | src/AIGCBrowserSrc/ChromiumSrcPatch/chrome/browser/ui/views/webid/account_selection_view_base.cc:347-364 | a non-square or too-small image changes nothing; otherwise it is circle-cropped or resized to the view's size, shown on the background circle exactly when a colour is set, and handed to the callback only the first time |
| AccountSelectionView.BrandIconImageView.OnBackgroundColorUpdated | src/AIGCBrowserSrc/ChromiumSrcPatch/chrome/browser/ui/views/webid/account_selection_view_base.cc:366-375 | without a configured colour nothing changes; otherwise the new colour is kept and the cropped image is shown on a circle of it |
| AccountSelectionView.AccountSelectionViewBase.constructor | src/AIGCBrowserSrc/ChromiumSrcPatch/chrome/browser/ui/views/webid/account_selection_view_base.cc:380-392 | the icon cache starts empty |
| AccountSelectionView.AccountSelectionViewBase.AddIdpImage | src/AIGCBrowserSrc/ChromiumSrcPatch/chrome/browser/ui/views/webid/account_selection_view_base.cc:564-567 | the URL's cache entry is inserted or overwritten and every other entry is kept |
| AccountSelectionView.AccountSelectionViewBase.ConfigureBrandImageView | src/AIGCBrowserSrc/ChromiumSrcPatch/chrome/browser/ui/views/webid/account_selection_view_base.cc:569-584 | an invalid URL changes nothing; a cached icon is cropped and shown (on the circle iff a colour is set) without a fetch; an uncached one is fetched while the cropped and shown images stay as they were |
| AccountSelectionView.DeliverFetchedIcon | src/AIGCBrowserSrc/ChromiumSrcPatch/chrome/browser/ui/views/webid/account_selection_view_base.cc:347-364 | a usable icon reaching a view whose callback is pending is cached under its URL and cropped into the view; a non-square or too-small icon changes neither the cache nor the view; once the callback has run, the cache never changes |
| ModelExecutionFeatures.CanUseFromAccountInfo | src/AIGCBrowserSrc/ChromiumSrcPatch/components/optimization_guide/core/model_execution/model_execution_features_controller.cc:113-122 | the account may use model execution exactly when the capability check is disabled or its capability is not "false" |
| ModelExecutionFeatures.CanUseModelExecutionFeatures | src/AIGCBrowserSrc/ChromiumSrcPatch/components/optimization_guide/core/model_execution/model_execution_features_controller.cc:124-140 | a disabled capability check allows; otherwise it needs an identity manager with a primary account whose capability is not "false" |
| ModelExecutionFeatures.UnknownCapabilityAllows | src/AIGCBrowserSrc/ChromiumSrcPatch/components/optimization_guide/core/model_execution/model_execution_features_controller.cc:113-122 | an unknown or true capability allows, and a false one denies exactly when the check is enabled |
| ModelExecutionFeatures.UserValidity | src/AIGCBrowserSrc/ChromiumSrcPatch/components/optimization_guide/core/model_execution/model_execution_features_controller.cc:244-275 | an account-bound feature is invalid for a signed-out user, then for an account without the capability; the user is valid exactly when the account checks pass and policy does not disable the feature |
| ModelExecutionFeatures.UnsignedAllowedIgnoresAccount | src/AIGCBrowserSrc/ChromiumSrcPatch/components/optimization_guide/core/model_execution/model_execution_features_controller.cc:244-275 | a feature allowed without an account gets the same answer for every account, decided by policy alone |
| ModelExecutionFeatures.PolicyCheckedAfterAccount | src/AIGCBrowserSrc/ChromiumSrcPatch/components/optimization_guide/core/model_execution/model_execution_features_controller.cc:244-275 | the enterprise-policy answer comes only when policy disables the feature and the account checks pass |
| ModelExecutionFeatures.CurrentlyEnabled | src/AIGCBrowserSrc/ChromiumSrcPatch/components/optimization_guide/core/model_execution/model_execution_features_controller.cc:174-209 | a graduated feature is enabled exactly for a valid user; any other exactly when its pref is Enabled |
| ModelExecutionFeatures.ShouldHideHistorySearch | src/AIGCBrowserSrc/ChromiumSrcPatch/components/optimization_guide/core/model_execution/model_execution_features_controller.cc:278-303 | without XNNPACK the hardware is unsupported; with component updates off policy hides it; with a "*" or empty class list it is not hidden; otherwise it is not hidden exactly when the device's class is listed |
| ModelExecutionFeatures.IsSettingVisible | src/AIGCBrowserSrc/ChromiumSrcPatch/components/optimization_guide/core/model_execution/model_execution_features_controller.cc:305-363 | never visible for an invalid user, a graduated feature or a hidden history search; otherwise visible exactly when the pref is Enabled or the feature's visibility flag is on |
| ModelExecutionFeatures.PrefOf | src/AIGCBrowserSrc/ChromiumSrcPatch/components/optimization_guide/core/model_execution/model_execution_features_controller.cc:235-241 | a feature without a stored pref reads NotInitialized, and any other state read is the stored one |
| ModelExecutionFeatures.ResetValue | src/AIGCBrowserSrc/ChromiumSrcPatch/components/optimization_guide/core/model_execution/model_execution_features_controller.cc:489-509 | the per-feature reset keeps Disabled exactly, leaves Enabled only for a valid user, and changes a pref only from Enabled to NotInitialized or from NotInitialized to Enabled |
| ModelExecutionFeatures.ResetValueRule | src/AIGCBrowserSrc/ChromiumSrcPatch/components/optimization_guide/core/model_execution/model_execution_features_controller.cc:480-510 | a reset keeps Disabled, keeps Enabled only for a valid user (else NotInitialized), and turns NotInitialized into Enabled exactly when the main toggle is on and the feature is visible and follows it |
| ModelExecutionFeatures.ResetLeavesEnabledValid | src/AIGCBrowserSrc/ChromiumSrcPatch/components/optimization_guide/core/model_execution/model_execution_features_controller.cc:480-510 | after a reset a feature is only enabled for a user who is valid for it |
| ModelExecutionFeatures.ResetValueIdempotent | src/AIGCBrowserSrc/ChromiumSrcPatch/components/optimization_guide/core/model_execution/model_execution_features_controller.cc:480-510 | resetting a feature a second time changes nothing |
| ModelExecutionFeatures.ToggleValue | src/AIGCBrowserSrc/ChromiumSrcPatch/components/optimization_guide/core/model_execution/model_execution_features_controller.cc:522-536 | the per-feature toggle either keeps the pref or sets the toggle's state, changes only visible features that follow the toggle, and newly enables only for a valid user when the toggle is on |
| ModelExecutionFeatures.ToggleKeepsCheck | src/AIGCBrowserSrc/ChromiumSrcPatch/components/optimization_guide/core/model_execution/model_execution_features_controller.cc:389-401 | when every enabled feature had a valid user before the main-toggle rewrite, it still does afterwards |
| ModelExecutionFeatures.ToggleValueRule | src/AIGCBrowserSrc/ChromiumSrcPatch/components/optimization_guide/core/model_execution/model_execution_features_controller.cc:512-537 | visible features that follow the main toggle take its state; every other feature keeps its pref |
| ModelExecutionFeatures.ToggleValueIdempotent | src/AIGCBrowserSrc/ChromiumSrcPatch/components/optimization_guide/core/model_execution/model_execution_features_controller.cc:512-537 | applying the main toggle a second time changes nothing |
| ModelExecutionFeatures.ResetEstablishesCheck | src/AIGCBrowserSrc/ChromiumSrcPatch/components/optimization_guide/core/model_execution/model_execution_features_controller.cc:389-416 | after any reset, every enabled feature has a valid user, as the pref-change check demands |
| ModelExecutionFeatures.Controller.constructor | src/AIGCBrowserSrc/ChromiumSrcPatch/components/optimization_guide/core/model_execution/model_execution_features_controller.cc:144-170 | the user is signed in exactly when a primary account exists; the capability is true exactly when signed in and the account may use model execution |
| ModelExecutionFeatures.Controller.ResetInvalidFeaturePrefs | src/AIGCBrowserSrc/ChromiumSrcPatch/components/optimization_guide/core/model_execution/model_execution_features_controller.cc:480-510 | every listed feature's pref becomes its reset value, every other pref is kept, and every enabled feature then has a valid user |
| ModelExecutionFeatures.Controller.OnMainToggleSettingStatePrefChanged | src/AIGCBrowserSrc/ChromiumSrcPatch/components/optimization_guide/core/model_execution/model_execution_features_controller.cc:512-537 | every listed feature's pref becomes its toggle value and every other pref is kept, and the enabled-implies-valid check survives the rewrite |
| ModelExecutionFeatures.Controller.OnPrimaryAccountChanged | src/AIGCBrowserSrc/ChromiumSrcPatch/components/optimization_guide/core/model_execution/model_execution_features_controller.cc:443-464 | without a change of sign-in state nothing else changes; signing out clears the capability; signing in re-reads it; either change resets the prefs so that enabled features have a valid user |
| ModelExecutionFeatures.Controller.OnExtendedAccountInfoUpdated | src/AIGCBrowserSrc/ChromiumSrcPatch/components/optimization_guide/core/model_execution/model_execution_features_controller.cc:466-478 | the capability becomes "signed in and allowed by the account info", and the prefs are reset so that enabled features have a valid user |
| ModelExecutionFeatures.SignedOutInvalidatesAccountFeatures | src/AIGCBrowserSrc/ChromiumSrcPatch/components/optimization_guide/core/model_execution/model_execution_features_controller.cc:244-275 | a signed-out user is invalid for every feature that needs an account, whose setting is then never visible |
| ModelExecutionFeatures.SplitOn | src/AIGCBrowserSrc/ChromiumSrcPatch/components/optimization_guide/core/model_execution/model_execution_features_controller.cc:296-298 | splitting answers at least one piece, and no piece holds the separator |
| ModelExecutionFeatures.SplitOnRoundTrip | src/AIGCBrowserSrc/ChromiumSrcPatch/components/optimization_guide/core/model_execution/model_execution_features_controller.cc:296-298 | rejoining the pieces with the separator gives back the input |
| ModelExecutionFeatures.SkipWhitespaceFrom | src/AIGCBrowserSrc/ChromiumSrcPatch/components/optimization_guide/core/model_execution/model_execution_features_controller.cc:296-298 | the scan stops at the first non-whitespace character at or after the start, or at the end |
| ModelExecutionFeatures.DropWhitespaceBefore | src/AIGCBrowserSrc/ChromiumSrcPatch/components/optimization_guide/core/model_execution/model_execution_features_controller.cc:296-298 | the scan backs up over exactly the trailing whitespace |
| ModelExecutionFeatures.Trim | src/AIGCBrowserSrc/ChromiumSrcPatch/components/optimization_guide/core/model_execution/model_execution_features_controller.cc:296-298 | the trimmed piece is no longer than the piece, uses only its characters and neither starts nor ends with whitespace |
| ModelExecutionFeatures.TrimDropsOnlyWhitespace | src/AIGCBrowserSrc/ChromiumSrcPatch/components/optimization_guide/core/model_execution/model_execution_features_controller.cc:296-298 | trimming removes only whitespace, and only from the two ends |
| ModelExecutionFeatures.NonEmptyTrimmed | src/AIGCBrowserSrc/ChromiumSrcPatch/components/optimization_guide/core/model_execution/model_execution_features_controller.cc:296-298 | the kept pieces are exactly the non-empty trimmed pieces |
| ModelExecutionFeatures.AllowedClasses | src/AIGCBrowserSrc/ChromiumSrcPatch/components/optimization_guide/core/model_execution/model_execution_features_controller.cc:294-299 | every listed class is non-empty, free of commas and trimmed at both ends |
| ModelExecutionFeatures.TrimmedPiecesShape | src/AIGCBrowserSrc/ChromiumSrcPatch/components/optimization_guide/core/model_execution/model_execution_features_controller.cc:296-298 | the kept pieces of a split are non-empty, free of the separator and trimmed |

## Left out

- Asynchronous order: promises, microtasks, timers, debouncers and events are modelled by what their continuations do; a reply that arrives later is a method of its own.
- The DOM, rendering, focus handling, scrolling, the screen-reader announcer and all metrics and histograms.
- Localised strings are represented by their message ids; `loadTimeData` values are constructor parameters.
- `decodeURIComponent`, `URL`/`URLSearchParams`, the string formatter `GetStringFUTF16`, file existence, the protocol-handler registry, image fetching and drawing: parameters or recorded requests, with no model of their own.
- `getFileIconUrl`, `getFavicon` and `getFaviconForPageURL` in `icon.ts`: they are built on the URL API, which is not modelled.
- Floating point: `devicePixelRatio` is a parameter carried as the text JavaScript prints for it; the scale of circle-cropped icons is not modelled.
- AccountSelectionView.TooSmallForSafeZone: the ratio 0.8 is taken exactly, so float rounding at the boundary is not modelled.
- Header constants that are not part of this model: the bit values of the startup option masks (`PROCESS_STARTUP` and the others, `SessionRestore` options, `AddTabTypes`) are modelled as distinct single bits, the `StarterPackID` values as 1 to 4 in table order, and `kRightMargin`/`kTopMargin` are parameters.
- String case: `toLowerCase` is modelled on ASCII letters only.
- `ChromeBrowserFactory::CreateBrowser`: only the pipe-separated branch is modelled; the XML branch (`CMarkup`), the window handles and the host callbacks are Windows plumbing outside the model.
- StartupBrowserCreator.OpenTabsInBrowser: the creation of a new browser (and its failure, which returns no browser), the window title and RLZ headers are not modelled; the result covers the tabs and the tab-strip repair.
- `MaybeAsyncRestore`, `AddInfoBarsIfNecessary`, `Launch` and the rest of `DetermineURLsAndLaunch` beyond the option bits are not modelled.
- StartupBrowserCreator.RestoreOrCreateBrowser: whether a session restore succeeds and whether an existing browser is found are parameters.
- DownloadsManager.Manager.UpdateItem: requires an index inside the list; JavaScript would extend the array with holes for an index past the end, which the page never passes.
- DownloadsManager.InsertPreservesHideDates: stated for an index within the list; for a larger index `splice` appends while the flags are recomputed past the end, which the browser never asks for.
- The downloads page's search announcements, the ESB promotion, the interstitial's trust-site lines, keyboard and toast handlers are not modelled.
- ModelExecutionFeatures: `OnFeatureSettingPrefChanged` is modelled by the check it makes (EnabledFeaturesHaveValidUser); `OnFeatureEnterprisePolicyPrefChanged` is `ResetInvalidFeaturePrefs`; observers, histograms and `InitializeFeatureSettings` are not modelled.
- PaymentsSection.CountMigratable: requires every card to carry metadata; `card.metadata!.isMigratable` throws a TypeError for a card without it, and that error path is not modelled.
- PaymentsSection.ShowMigrationButton: requires metadata on every card when both flags are on, for the same TypeError, which is not modelled.
- PaymentsSection.SettingsPaymentsSection.CheckIfMigratable: requires metadata on every card when both flags are on, for the same TypeError, which is not modelled.
- PaymentsSection.SettingsPaymentsSection.OnMenuEditCreditCardClick: requires the active card to carry metadata; `metadata!.isLocal` throws a TypeError otherwise, and that error path is not modelled.
- PdfViewer.Viewer.OnResetView: clears `twoUpViewEnabled` itself, where the source asks the controller for `setTwoUpView(false)` and the flag is read back from the viewport later.
- PaymentsSection: the opened URLs are modelled as the page they name (the manage-payment-methods page with an optional id, or the help article) rather than as URL text; `onAddPaymentMethodClick_` and the menu showings are DOM work.
- PdfViewer: `exitAnnotationMode_` and `onSave_` read the viewer's own annotation flag; the plugin, the Ink controllers, zoom, presentation and fullscreen handling, and plugin messages other than the beep and edit notifications are not modelled.
- ViewerDownloadControls: `onOpenChanged_`, `isMenuOpen` and `closeMenu` are DOM glue and are not modelled.
- CustomizeToolbar: `focusOnBackButton`, `onBackClick_` and the theme-change listener are DOM glue and are not modelled.
