// The built-in "starter pack" search engines
// (components/search_engines/template_url_starter_pack_data.cc): the table of
// four engines, the data versions, the conversion of every table entry into
// engine data, and the lookup of an engine's destination URL by its id.
//
// The conversion into `TemplateURLData` lives in another file and is a
// parameter here. The numeric values of `StarterPackID` come from a header
// that is not part of this model; they are taken as 1 to 4 in table order.

module StarterPackData {

  import opened Strings

  datatype EngineType = StarterPackBookmarks | StarterPackHistory | StarterPackTabs | StarterPackAskGoogle

  /** `StarterPackEngine`: message ids, URLs (the favicon URL is null for all four), id and type. */
  datatype StarterPackEngine = StarterPackEngine(
    nameMessageId: string,
    keywordMessageId: string,
    searchUrl: string,
    destinationUrl: string,
    id: int,
    engineType: EngineType)

  const BookmarksId := 1
  const HistoryId := 2
  const TabsId := 3
  const AskGoogleId := 4

  /** `kCurrentDataVersion`. */
  const CurrentDataVersion := 10
  /** `kFirstCompatibleDataVersion`. */
  const FirstCompatibleDataVersion := 10

  const Bookmarks := StarterPackEngine(
    "IDS_SEARCH_ENGINES_STARTER_PACK_BOOKMARKS_NAME",
    "IDS_SEARCH_ENGINES_STARTER_PACK_BOOKMARKS_KEYWORD",
    "tangram://bookmarks/?q={searchTerms}",
    "tangram://bookmarks",
    BookmarksId,
    StarterPackBookmarks)

  const History := StarterPackEngine(
    "IDS_SEARCH_ENGINES_STARTER_PACK_HISTORY_NAME",
    "IDS_SEARCH_ENGINES_STARTER_PACK_HISTORY_KEYWORD",
    "tangram://history/?q={searchTerms}",
    "tangram://history",
    HistoryId,
    StarterPackHistory)

  /** The tabs engine; its search URL is a placeholder, the engine only offers open tabs. */
  const Tabs := StarterPackEngine(
    "IDS_SEARCH_ENGINES_STARTER_PACK_TABS_NAME",
    "IDS_SEARCH_ENGINES_STARTER_PACK_TABS_KEYWORD",
    "tangram://tabs/?q={searchTerms}",
    "http://support.google.com/chrome/?p=tab_search",
    TabsId,
    StarterPackTabs)

  const AskGoogle := StarterPackEngine(
    "IDS_SEARCH_ENGINES_STARTER_PACK_GEMINI_NAME",
    "IDS_SEARCH_ENGINES_STARTER_PACK_GEMINI_KEYWORD",
    "https://gemini.google.com/app?q={searchTerms}",
    "https://gemini.google.com",
    AskGoogleId,
    StarterPackAskGoogle)

  /** `engines[]`, in table order. */
  const Engines: seq<StarterPackEngine> := [Bookmarks, History, Tabs, AskGoogle]

  /** `GetDataVersion`. */
  function GetDataVersion(): (r: int)
    ensures r == 10 && r >= GetFirstCompatibleDataVersion()
  {
    CurrentDataVersion
  }

  /** `GetFirstCompatibleDataVersion`. */
  function GetFirstCompatibleDataVersion(): (r: int)
    ensures r == 10
  {
    FirstCompatibleDataVersion
  }

  /** No two engines of the table share an id, so a lookup by id is unambiguous. */
  lemma EngineIdsDistinct()
    ensures forall i, j :: 0 <= i < j < |Engines| ==> Engines[i].id != Engines[j].id
  {
  }

  /** The first engine of `engines` whose id is `id`. */
  function FindEngine(engines: seq<StarterPackEngine>, id: int): (r: Option<StarterPackEngine>)
    ensures r.Some? ==> r.value in engines && r.value.id == id
    ensures r.None? <==> forall k :: 0 <= k < |engines| ==> engines[k].id != id
  {
    if engines == [] then None
    else if engines[0].id == id then Some(engines[0])
    else
      var r := FindEngine(engines[1..], id);
      assert forall k :: 1 <= k < |engines| ==> engines[k] == engines[1..][k - 1];
      r
  }

  /** What `GetDestinationUrlForStarterPackID` answers: the matching engine's destination, else "". */
  function DestinationUrlFor(id: int): string
  {
    match FindEngine(Engines, id)
    case Some(engine) => engine.destinationUrl
    case None => ""
  }

  /** `GetDestinationUrlForStarterPackID`: the first engine of the table with the id wins. */
  method GetDestinationUrlForStarterPackId(id: int) returns (url: string)
    ensures url == DestinationUrlFor(id)
  {
    var i := 0;
    while i < |Engines|
      invariant 0 <= i <= |Engines|
      invariant FindEngine(Engines, id) == FindEngine(Engines[i..], id)
    {
      var engine := Engines[i];
      if engine.id == id {
        return engine.destinationUrl;
      }
      assert Engines[i..][1..] == Engines[i + 1..];
      i := i + 1;
    }
    return "";
  }

  /** The lookup answers each table engine's own destination, and "" for any other id. */
  lemma DestinationUrlLookup(id: int)
    ensures forall k :: 0 <= k < |Engines| && Engines[k].id == id ==> DestinationUrlFor(id) == Engines[k].destinationUrl
    ensures (forall k :: 0 <= k < |Engines| ==> Engines[k].id != id) ==> DestinationUrlFor(id) == ""
  {
    EngineIdsDistinct();
    if FindEngine(Engines, id).Some? {
      var e := FindEngine(Engines, id).value;
      forall k | 0 <= k < |Engines| && Engines[k].id == id
        ensures e == Engines[k]
      {
        var j :| 0 <= j < |Engines| && Engines[j] == e;
        assert Engines[j].id == id;
      }
    }
  }

  /** The bookmarks id leads to the bookmarks page; an unknown id leads nowhere. */
  lemma BookmarksDestination()
    ensures DestinationUrlFor(BookmarksId) == "tangram://bookmarks"
    ensures DestinationUrlFor(0) == ""
  {
    DestinationUrlLookup(BookmarksId);
    DestinationUrlLookup(0);
  }

  /** `GetStarterPackEngines`: one converted entry per table engine, in table order. */
  method GetStarterPackEngines<D>(toTemplateUrlData: StarterPackEngine -> D) returns (urls: seq<D>)
    ensures |urls| == |Engines|
    ensures forall k :: 0 <= k < |Engines| ==> urls[k] == toTemplateUrlData(Engines[k])
  {
    urls := [];
    var i := 0;
    while i < |Engines|
      invariant 0 <= i <= |Engines|
      invariant |urls| == i
      invariant forall k :: 0 <= k < i ==> urls[k] == toTemplateUrlData(Engines[k])
    {
      urls := urls + [toTemplateUrlData(Engines[i])];
      i := i + 1;
    }
  }
}
