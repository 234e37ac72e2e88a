// The top-level Tab Search element (tab_search/app.ts): the mapping between
// the selected section and the index of the tab strip, the handling of an
// index change (persisted through the page handler unless no section is
// selected), the section pushed by the browser, and the listener ids kept
// between connecting and disconnecting.
//
// The calls into the page handler are recorded in `persistedSections` and
// `removedListeners`; listener ids are handed in by the callback router, so
// they are parameters. The asynchronous first reply of `getTabSearchSection`
// is its own method.

module TabSearchApp {

  import opened Strings

  /** The sections `TabSearchSection` names here. */
  datatype TabSearchSection = NoSection | Search | Organize

  /** `sectionToIndex_`: no section is -1, search 0, organize 1. */
  function SectionToIndex(section: TabSearchSection): (r: int)
    ensures -1 <= r <= 1
    ensures r == -1 <==> section == NoSection
  {
    match section
    case NoSection => -1
    case Search => 0
    case Organize => 1
  }

  /** `indexToSection`; `None` where the source reaches `assertNotReached`. */
  function IndexToSection(index: int): (r: Option<TabSearchSection>)
    ensures r.Some? <==> -1 <= index <= 1
  {
    if index == -1 then Some(NoSection)
    else if index == 0 then Some(Search)
    else if index == 1 then Some(Organize)
    else None
  }

  /** Every section survives the trip to an index and back. */
  lemma SectionIndexRoundTrip(section: TabSearchSection)
    ensures IndexToSection(SectionToIndex(section)) == Some(section)
  {
  }

  /** Every index the tab strip can report survives the trip to a section and back. */
  lemma IndexSectionRoundTrip(index: int)
    requires -1 <= index <= 1
    ensures IndexToSection(index).Some? && SectionToIndex(IndexToSection(index).value) == index
  {
  }

  /** So the two are inverse bijections between the sections and {-1, 0, 1}. */
  lemma SectionToIndexInjective(a: TabSearchSection, b: TabSearchSection)
    ensures SectionToIndex(a) == SectionToIndex(b) ==> a == b
  {
    SectionIndexRoundTrip(a);
    SectionIndexRoundTrip(b);
  }

  class TabSearchAppElement {
    const declutterEnabled: bool
    var selectedTabSection: TabSearchSection
    var tabOrganizationEnabled: bool
    var listenerIds: seq<int>
    /** Every `setTabSearchSection` call, in order. */
    var persistedSections: seq<TabSearchSection>
    /** Every `removeListener` call, in order. */
    var removedListeners: seq<int>

    constructor (tabOrganizationEnabled: bool, declutterEnabled: bool)
      ensures selectedTabSection == NoSection && listenerIds == []
      ensures this.tabOrganizationEnabled == tabOrganizationEnabled && this.declutterEnabled == declutterEnabled
      ensures persistedSections == [] && removedListeners == []
    {
      this.declutterEnabled := declutterEnabled;
      this.tabOrganizationEnabled := tabOrganizationEnabled;
      selectedTabSection := NoSection;
      listenerIds := [];
      persistedSections := [];
      removedListeners := [];
    }

    /** `connectedCallback`: registers the two listeners, section changes first. */
    method ConnectedCallback(sectionChangedId: int, organizationEnabledChangedId: int)
      modifies this`listenerIds
      ensures listenerIds == old(listenerIds) + [sectionChangedId, organizationEnabledChangedId]
    {
      listenerIds := listenerIds + [sectionChangedId];
      listenerIds := listenerIds + [organizationEnabledChangedId];
    }

    /** The reply to `getTabSearchSection` sent while connecting. */
    method OnTabSearchSectionReply(section: TabSearchSection)
      modifies this`selectedTabSection
      ensures selectedTabSection == section
    {
      selectedTabSection := section;
    }

    /** `disconnectedCallback`: removes every registered listener, in order; the ids stay listed. */
    method DisconnectedCallback()
      modifies this`removedListeners
      ensures removedListeners == old(removedListeners) + listenerIds
    {
      var i := 0;
      while i < |listenerIds|
        invariant 0 <= i <= |listenerIds|
        invariant removedListeners == old(removedListeners) + listenerIds[..i]
      {
        assert listenerIds[..i + 1] == listenerIds[..i] + [listenerIds[i]];
        removedListeners := removedListeners + [listenerIds[i]];
        i := i + 1;
      }
      assert listenerIds[..|listenerIds|] == listenerIds;
    }

    /** `onTabSectionChanged_`: the browser selects a section. */
    method OnTabSectionChanged(section: TabSearchSection)
      modifies this`selectedTabSection
      ensures selectedTabSection == section
    {
      selectedTabSection := section;
    }

    /** `onTabOrganizationEnabledChanged_`. */
    method OnTabOrganizationEnabledChanged(enabled: bool)
      modifies this`tabOrganizationEnabled
      ensures tabOrganizationEnabled == enabled
    {
      tabOrganizationEnabled := enabled;
    }

    /**
     * `onSelectedTabIndexChanged_`: the section of the new index becomes the
     * selection and is persisted unless it is "no section". An index outside
     * -1..1 stops at `assertNotReached` (`ok` false) with nothing changed.
     */
    method OnSelectedTabIndexChanged(index: int) returns (ok: bool)
      modifies this`selectedTabSection, this`persistedSections
      ensures ok <==> IndexToSection(index).Some?
      ensures !ok ==> selectedTabSection == old(selectedTabSection) && persistedSections == old(persistedSections)
      ensures ok ==> selectedTabSection == IndexToSection(index).value
      ensures ok && selectedTabSection != NoSection ==> persistedSections == old(persistedSections) + [selectedTabSection]
      ensures ok && selectedTabSection == NoSection ==> persistedSections == old(persistedSections)
    {
      var section := IndexToSection(index);
      if section.None? {
        return false;
      }
      selectedTabSection := section.value;
      if selectedTabSection != NoSection {
        persistedSections := persistedSections + [selectedTabSection];
      }
      ok := true;
    }
  }

  /** Selecting the tab of the current section again persists that same section and keeps the selection. */
  method ReselectKeepsSection(app: TabSearchAppElement)
    modifies app
    ensures app.selectedTabSection == old(app.selectedTabSection)
    ensures old(app.selectedTabSection) != NoSection ==>
              app.persistedSections == old(app.persistedSections) + [old(app.selectedTabSection)]
  {
    SectionIndexRoundTrip(app.selectedTabSection);
    var ok := app.OnSelectedTabIndexChanged(SectionToIndex(app.selectedTabSection));
  }
}
