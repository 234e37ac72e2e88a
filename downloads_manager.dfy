// The list bookkeeping of the downloads page (downloads/manager.ts): the
// `items_` array that the browser edits through insert/remove/update/clear
// calls, the per-entry `hideDate` flag, the derived `hasDownloads_` and
// `hasClearableDownloads` flags, and the id of the download whose
// bypass-warning prompt is open.

module DownloadsManager {

  import opened Strings

  /** The download states of the downloads mojo interface. */
  datatype State = InProgress | Cancelled | Complete | Paused | Dangerous | Interrupted | Insecure

  /** One entry of `items_` (the fields of the mojo data this page reads or writes). */
  datatype Item = Item(id: string, fileName: string, dateString: string, state: State,
                       isDangerous: bool, isInsecure: bool, hideDate: bool)

  /** The mojo call a closing bypass dialog or interstitial makes. */
  datatype BypassOutcome =
    | SaveDangerousFromDialog(id: string)
    | CancelBypassDialog(id: string)
    | SaveDangerousFromInterstitial(id: string, surveyResponse: int)
    | CancelBypassInterstitial(id: string)

  /** The metric `onSaveDangerousClick_` records when it opens a prompt. */
  datatype BypassOpenRecord = OpenedInterstitial(id: string) | OpenedDialog(id: string)

  // ---------------------------------------------------------------------------
  // The hideDate rule

  /** The value `updateHideDates_` gives entry `i`: a predecessor exists and shows the same date. */
  predicate ShouldHideDate(s: seq<Item>, i: int)
    requires 0 <= i < |s|
  {
    i > 0 && s[i - 1].dateString == s[i].dateString
  }

  /** Entry `i` carries the flag the rule asks for. */
  predicate HideDateHolds(s: seq<Item>, i: int)
    requires 0 <= i < |s|
  {
    s[i].hideDate == ShouldHideDate(s, i)
  }

  /** Every entry of the list carries the flag the rule asks for. */
  ghost predicate HideDatesValid(s: seq<Item>)
  {
    forall i :: 0 <= i < |s| ==> HideDateHolds(s, i)
  }

  /** The list after recomputing the flag at every existing index in [start, end]. */
  function HideDatesUpdated(s: seq<Item>, start: int, end: int): (r: seq<Item>)
    ensures |r| == |s|
  {
    seq(|s|, i requires 0 <= i < |s| =>
      if start <= i <= end then s[i].(hideDate := ShouldHideDate(s, i)) else s[i])
  }

  /** The entry without its page-computed flag: what the browser sent. */
  function Data(it: Item): Item
  {
    it.(hideDate := false)
  }

  function DataOf(s: seq<Item>): (r: seq<Item>)
    ensures |r| == |s|
    ensures forall i :: 0 <= i < |s| ==> r[i] == Data(s[i])
  {
    seq(|s|, i requires 0 <= i < |s| => Data(s[i]))
  }

  /** `Array#splice(index, 0, ...items)` with a non-negative index: JS clamps it to the length. */
  function SpliceInsert(s: seq<Item>, index: nat, items: seq<Item>): (r: seq<Item>)
  {
    var p := if index <= |s| then index else |s|;
    s[..p] + items + s[p..]
  }

  /** `Array#splice(index, 1)` with a non-negative index: removes nothing past the end. */
  function SpliceRemove(s: seq<Item>, index: nat): (r: seq<Item>)
  {
    if index < |s| then s[..index] + s[index + 1..] else s
  }

  /** The entries `splice(index, 1)` returns. */
  function SpliceRemoved(s: seq<Item>, index: nat): (r: seq<Item>)
  {
    if index < |s| then [s[index]] else []
  }

  /** The whole effect of `insertItems_` on the list. */
  function InsertedList(s: seq<Item>, index: nat, items: seq<Item>): seq<Item>
  {
    if |items| > 0 then HideDatesUpdated(SpliceInsert(s, index, items), index, index + |items|)
    else s
  }

  /** The whole effect of `removeItem_` on the list. */
  function RemovedList(s: seq<Item>, index: nat): seq<Item>
  {
    HideDatesUpdated(SpliceRemove(s, index), index, index)
  }

  /** The whole effect of `updateItem_` on the list. */
  function UpdatedList(s: seq<Item>, index: nat, data: Item): seq<Item>
    requires index < |s|
  {
    HideDatesUpdated(s[index := data], index, index)
  }

  // ---------------------------------------------------------------------------
  // Derived flags

  /** A download that the "clear all" command can remove. */
  predicate IsClearable(st: State)
  {
    st != Dangerous && st != Insecure && st != InProgress && st != Paused
  }

  /** `items_.some(...)` in `itemsChanged_`. */
  function AnyClearable(s: seq<Item>): (r: bool)
    ensures r <==> exists i :: 0 <= i < |s| && IsClearable(s[i].state)
  {
    if s == [] then false
    else if IsClearable(s[0].state) then true
    else
      var rest := AnyClearable(s[1..]);
      assert forall i :: 1 <= i < |s| ==> s[i] == s[1..][i - 1];
      rest
  }

  /** The first entry carrying `id` (`items_.find(item => item.id === id)`). */
  function FindById(s: seq<Item>, id: string): (r: Option<Item>)
    ensures r.Some? ==> r.value in s && r.value.id == id
  {
    if s == [] then None
    else if s[0].id == id then Some(s[0])
    else FindById(s[1..], id)
  }

  /** `find` answers nothing exactly when no entry carries `id`, and otherwise the first such entry. */
  lemma {:induction false} FindByIdFirst(s: seq<Item>, id: string)
    ensures FindById(s, id).None? <==> forall i :: 0 <= i < |s| ==> s[i].id != id
    ensures FindById(s, id).Some? ==>
              exists i :: 0 <= i < |s| && s[i] == FindById(s, id).value &&
                          forall j :: 0 <= j < i ==> s[j].id != id
  {
    if s != [] && s[0].id != id {
      FindByIdFirst(s[1..], id);
      assert forall i :: 1 <= i < |s| ==> s[i] == s[1..][i - 1];
      var r := FindById(s, id);
      if r.Some? {
        var k :| 0 <= k < |s[1..]| && s[1..][k] == r.value &&
                 forall j :: 0 <= j < k ==> s[1..][j].id != id;
        assert s[k + 1] == r.value;
        forall j | 0 <= j < k + 1 ensures s[j].id != id {
          if j > 0 { assert s[j] == s[1..][j - 1]; }
        }
      }
    }
  }

  /** Some entry of the list carries `id`. */
  ghost predicate HasId(s: seq<Item>, id: string)
  {
    exists i :: 0 <= i < |s| && s[i].id == id
  }

  /** The bypass prompt is closed, or it names a download of the list. */
  ghost predicate BypassIdPresent(s: seq<Item>, bypassId: string)
  {
    bypassId == "" || HasId(s, bypassId)
  }

  // ---------------------------------------------------------------------------
  // The page element

  class Manager {
    var items: seq<Item>
    var hasDownloads: bool
    var hasClearableDownloads: bool
    var bypassPromptItemId: string
    var spinnerActive: bool
    var loading: bool
    /** `loadTimeData.getBoolean('allowDeletingHistory')`. */
    const allowDeletingHistory: bool
    /** Whether the bypass prompt is the interstitial rather than the dialog. */
    const dangerousDownloadInterstitial: bool

    /** The derived flags agree with the list, as `itemsChanged_` leaves them. */
    ghost predicate Valid()
      reads this
    {
      hasDownloads == (|items| > 0) &&
      hasClearableDownloads == (allowDeletingHistory && AnyClearable(items))
    }

    constructor (allowDeletingHistory: bool, dangerousDownloadInterstitial: bool)
      ensures Valid()
      ensures items == [] && bypassPromptItemId == "" && loading && !spinnerActive
      ensures this.allowDeletingHistory == allowDeletingHistory
      ensures this.dangerousDownloadInterstitial == dangerousDownloadInterstitial
    {
      items := [];
      hasDownloads := false;
      hasClearableDownloads := false;
      bypassPromptItemId := "";
      spinnerActive := false;
      loading := true;
      this.allowDeletingHistory := allowDeletingHistory;
      this.dangerousDownloadInterstitial := dangerousDownloadInterstitial;
    }

    /** `itemsChanged_`: the observer that recomputes the derived flags. */
    method ItemsChanged()
      modifies this`hasDownloads, this`hasClearableDownloads
      ensures Valid()
    {
      hasDownloads := |items| > 0;
      hasClearableDownloads := allowDeletingHistory && AnyClearable(items);
    }

    /** `updateHideDates_(start, end)`. */
    method UpdateHideDates(start: int, end: int)
      modifies this`items
      ensures items == HideDatesUpdated(old(items), start, end)
    {
      ghost var s := items;
      var i := start;
      while i <= end
        invariant start <= i <= if start <= end then end + 1 else start
        invariant |items| == |s|
        invariant forall k :: 0 <= k < |s| ==>
          items[k] == if start <= k < i then s[k].(hideDate := ShouldHideDate(s, k)) else s[k]
        decreases end - i
      {
        if 0 <= i < |items| {
          var hidden := i > 0 && items[i - 1].dateString == items[i].dateString;
          items := items[i := items[i].(hideDate := hidden)];
        }
        i := i + 1;
      }
    }

    /** `clearAll_`. */
    method ClearAll()
      requires Valid()
      modifies this`items, this`hasDownloads, this`hasClearableDownloads
      ensures Valid() && items == [] && !hasDownloads && !hasClearableDownloads
    {
      items := [];
      ItemsChanged();
    }

    /** `insertItems_(index, items)`. */
    method InsertItems(index: nat, newItems: seq<Item>)
      modifies this
      ensures Valid()
      ensures items == InsertedList(old(items), index, newItems)
      ensures bypassPromptItemId == old(bypassPromptItemId)
      ensures !loading && !spinnerActive
    {
      if |newItems| > 0 {
        var p := if index <= |items| then index else |items|;
        items := items[..p] + newItems + items[p..];
        UpdateHideDates(index, index + |newItems|);
      }
      loading := false;
      spinnerActive := false;
      ItemsChanged();
    }

    /** `removeItem_(index)`; answers the entries `splice` removed. */
    method RemoveItem(index: nat) returns (removed: seq<Item>)
      modifies this
      ensures Valid()
      ensures removed == SpliceRemoved(old(items), index)
      ensures items == RemovedList(old(items), index)
      ensures bypassPromptItemId ==
                (if exists k :: 0 <= k < |removed| && removed[k].id == old(bypassPromptItemId)
                 then "" else old(bypassPromptItemId))
      ensures loading == old(loading) && spinnerActive == old(spinnerActive)
    {
      removed := if index < |items| then [items[index]] else [];
      items := if index < |items| then items[..index] + items[index + 1..] else items;
      UpdateHideDates(index, index);
      if exists k :: 0 <= k < |removed| && removed[k].id == bypassPromptItemId {
        HideBypassWarningPrompt();
      }
      ItemsChanged();
    }

    /** `updateItem_(index, data)`. */
    method UpdateItem(index: nat, data: Item)
      requires index < |items|
      modifies this`items, this`hasDownloads, this`hasClearableDownloads
      ensures Valid()
      ensures items == UpdatedList(old(items), index, data)
    {
      items := items[index := data];
      UpdateHideDates(index, index);
      ItemsChanged();
    }

    /** `hideBypassWarningPrompt_`. */
    method HideBypassWarningPrompt()
      modifies this`bypassPromptItemId
      ensures bypassPromptItemId == ""
    {
      bypassPromptItemId := "";
    }

    /** `onSaveDangerousClick_`: opens the prompt for a listed download only. */
    method OnSaveDangerousClick(id: string) returns (record: Option<BypassOpenRecord>)
      modifies this`bypassPromptItemId
      ensures HasId(items, id) ==> bypassPromptItemId == id
      ensures !HasId(items, id) ==> bypassPromptItemId == old(bypassPromptItemId)
      ensures record.Some? <==> HasId(items, id)
      ensures record.Some? ==>
                record.value == if dangerousDownloadInterstitial then OpenedInterstitial(id)
                                else OpenedDialog(id)
    {
      var bypassItem := FindById(items, id);
      FindByIdFirst(items, id);
      record := None;
      if bypassItem.Some? {
        bypassPromptItemId := bypassItem.value.id;
        record := Some(if dangerousDownloadInterstitial then OpenedInterstitial(bypassPromptItemId)
                       else OpenedDialog(bypassPromptItemId));
      }
    }

    /** `shouldShowBypassWarningPrompt_`. */
    function ShouldShowBypassWarningPrompt(): (r: bool)
      reads this
      ensures r <==> bypassPromptItemId != ""
    {
      |bypassPromptItemId| > 0
    }

    /** `computeBypassWarningDialogFileName_`. */
    function BypassWarningDialogFileName(): (r: string)
      reads this
      ensures (forall i :: 0 <= i < |items| ==> items[i].id != bypassPromptItemId) ==> r == ""
      ensures r != "" ==> exists i :: 0 <= i < |items| && items[i].id == bypassPromptItemId &&
                                      items[i].fileName == r
      ensures forall i :: 0 <= i < |items| && items[i].id == bypassPromptItemId &&
                          (forall j :: 0 <= j < i ==> items[j].id != bypassPromptItemId) ==>
                            r == items[i].fileName
    {
      FindByIdFirst(items, bypassPromptItemId);
      var found := FindById(items, bypassPromptItemId);
      if found.Some? then found.value.fileName else ""
    }

    /** `onBypassWarningConfirmationDialogClose_`. */
    method OnBypassWarningConfirmationDialogClose(wasConfirmed: bool) returns (call: BypassOutcome)
      requires bypassPromptItemId != ""
      modifies this`bypassPromptItemId
      ensures call == if wasConfirmed then SaveDangerousFromDialog(old(bypassPromptItemId))
                      else CancelBypassDialog(old(bypassPromptItemId))
      ensures bypassPromptItemId == ""
    {
      if wasConfirmed {
        call := SaveDangerousFromDialog(bypassPromptItemId);
      } else {
        call := CancelBypassDialog(bypassPromptItemId);
      }
      HideBypassWarningPrompt();
    }

    /** `onDangerousDownloadInterstitialClose_`. */
    method OnDangerousDownloadInterstitialClose(surveyResponse: int) returns (call: BypassOutcome)
      requires bypassPromptItemId != ""
      modifies this`bypassPromptItemId
      ensures call == SaveDangerousFromInterstitial(old(bypassPromptItemId), surveyResponse)
      ensures bypassPromptItemId == ""
    {
      call := SaveDangerousFromInterstitial(bypassPromptItemId, surveyResponse);
      HideBypassWarningPrompt();
    }

    /** `onDangerousDownloadInterstitialCancel_`. */
    method OnDangerousDownloadInterstitialCancel() returns (call: BypassOutcome)
      requires bypassPromptItemId != ""
      modifies this`bypassPromptItemId
      ensures call == CancelBypassInterstitial(old(bypassPromptItemId))
      ensures bypassPromptItemId == ""
    {
      call := CancelBypassInterstitial(bypassPromptItemId);
      HideBypassWarningPrompt();
    }
  }

  // ---------------------------------------------------------------------------
  // Properties of the list operations

  /** `updateHideDates_` writes the rule inside [start, end] and nothing elsewhere. */
  lemma HideDatesUpdatedEffect(s: seq<Item>, start: int, end: int)
    ensures var r := HideDatesUpdated(s, start, end);
      DataOf(r) == DataOf(s) &&
      (forall i :: 0 <= i < |s| && start <= i <= end ==> HideDateHolds(r, i)) &&
      (forall i :: 0 <= i < |s| && !(start <= i <= end) ==> r[i] == s[i])
  {
    var r := HideDatesUpdated(s, start, end);
    assert DataOf(r) == DataOf(s);
    forall i | 0 <= i < |s| && start <= i <= end ensures HideDateHolds(r, i) {
      assert i > 0 ==> r[i - 1].dateString == s[i - 1].dateString;
    }
  }

  /** `DataOf` distributes over a three-way concatenation. */
  lemma DataOfConcat(a: seq<Item>, b: seq<Item>, c: seq<Item>)
    ensures DataOf(a + b + c) == DataOf(a) + DataOf(b) + DataOf(c)
  {
    var l := DataOf(a + b + c);
    var r := DataOf(a) + DataOf(b) + DataOf(c);
    assert |l| == |r|;
    forall i | 0 <= i < |l|
      ensures l[i] == r[i]
    {
      if i < |a| {
        assert (a + b + c)[i] == a[i];
      } else if i < |a| + |b| {
        assert (a + b + c)[i] == b[i - |a|];
      } else {
        assert (a + b + c)[i] == c[i - |a| - |b|];
      }
    }
  }

  /** `insertItems_` places the new downloads at the (clamped) index, the old ones around them. */
  lemma {:induction false} InsertPlacesItems(s: seq<Item>, index: nat, items: seq<Item>)
    requires index <= |s|
    ensures |InsertedList(s, index, items)| == |s| + |items|
    ensures DataOf(InsertedList(s, index, items)) == DataOf(s[..index]) + DataOf(items) + DataOf(s[index..])
  {
    if |items| > 0 {
      var t := SpliceInsert(s, index, items);
      assert t == s[..index] + items + s[index..];
      HideDatesUpdatedEffect(t, index, index + |items|);
      DataOfConcat(s[..index], items, s[index..]);
    } else {
      assert s == s[..index] + [] + s[index..];
      DataOfConcat(s[..index], [], s[index..]);
    }
  }

  /** Inserting nothing leaves the list as it was. */
  lemma InsertNothing(s: seq<Item>, index: nat)
    ensures InsertedList(s, index, []) == s
  {
  }

  /** `insertItems_` keeps every entry's hideDate flag right, when the index is within the list. */
  lemma InsertPreservesHideDates(s: seq<Item>, index: nat, items: seq<Item>)
    requires index <= |s|
    requires HideDatesValid(s)
    ensures HideDatesValid(InsertedList(s, index, items))
  {
    if |items| > 0 {
      var r := InsertedList(s, index, items);
      forall i | 0 <= i < |r| ensures HideDateHolds(r, i) {
        InsertFlagAt(s, index, items, i);
      }
    }
  }

  /** One entry of the list after `insertItems_` carries the right flag. */
  lemma InsertFlagAt(s: seq<Item>, index: nat, items: seq<Item>, i: nat)
    requires index <= |s| && |items| > 0 && i < |s| + |items|
    requires HideDatesValid(s)
    ensures HideDateHolds(InsertedList(s, index, items), i)
  {
    var t := SpliceInsert(s, index, items);
    var e := index + |items|;
    if index <= i <= e {
      HideDatesUpdatedInside(t, index, e, i);
    } else {
      var k := if i < index then i else i - |items|;
      SpliceInsertAt(s, index, items, i);
      assert HideDateHolds(s, k);
      HideDatesUpdatedOutside(t, index, e, i);
      if i > 0 {
        SpliceInsertAt(s, index, items, i - 1);
        HideDatesUpdatedKeepsDate(t, index, e, i - 1);
      }
    }
  }

  /** Outside the inserted run, the spliced list holds the old entries, shifted past the run. */
  lemma SpliceInsertAt(s: seq<Item>, index: nat, items: seq<Item>, i: nat)
    requires index <= |s| && i < |s| + |items|
    requires !(index <= i < index + |items|)
    ensures i < index ==> SpliceInsert(s, index, items)[i] == s[i]
    ensures i >= index + |items| ==> SpliceInsert(s, index, items)[i] == s[i - |items|]
  {
    var t := s[..index] + items + s[index..];
    if i < index {
      assert t[i] == s[..index][i];
    } else {
      assert t[i] == s[index..][i - |items| - index];
    }
  }

  /** Recomputing the flags sets the flag right at every index in [start, end]. */
  lemma HideDatesUpdatedInside(s: seq<Item>, start: int, end: int, i: nat)
    requires i < |s| && start <= i <= end
    ensures HideDateHolds(HideDatesUpdated(s, start, end), i)
  {
    var r := HideDatesUpdated(s, start, end);
    assert i > 0 ==> r[i - 1].dateString == s[i - 1].dateString;
  }

  /** Recomputing the flags leaves the entries outside [start, end] as they were. */
  lemma HideDatesUpdatedOutside(s: seq<Item>, start: int, end: int, i: nat)
    requires i < |s| && !(start <= i <= end)
    ensures HideDatesUpdated(s, start, end)[i] == s[i]
  {
  }

  /** Recomputing the flags leaves every entry's date alone. */
  lemma HideDatesUpdatedKeepsDate(s: seq<Item>, start: int, end: int, i: nat)
    requires i < |s|
    ensures HideDatesUpdated(s, start, end)[i].dateString == s[i].dateString
  {
  }

  /** `removeItem_` deletes exactly the entry at `index`. */
  lemma RemoveDeletesEntry(s: seq<Item>, index: nat)
    requires index < |s|
    ensures DataOf(RemovedList(s, index)) == DataOf(s[..index]) + DataOf(s[index + 1..])
    ensures SpliceRemoved(s, index) == [s[index]]
  {
    HideDatesUpdatedEffect(SpliceRemove(s, index), index, index);
  }

  /** `removeItem_` keeps every entry's hideDate flag right. */
  lemma RemovePreservesHideDates(s: seq<Item>, index: nat)
    requires HideDatesValid(s)
    ensures HideDatesValid(RemovedList(s, index))
  {
    var t := SpliceRemove(s, index);
    var r := RemovedList(s, index);
    HideDatesUpdatedEffect(t, index, index);
    forall i | 0 <= i < |r| ensures HideDateHolds(r, i) {
      if i != index {
        if i < index || index >= |s| {
          assert r[i] == s[i];
          assert HideDateHolds(s, i);
          assert i > 0 ==> r[i - 1] == s[i - 1];
        } else {
          assert r[i] == s[i + 1];
          assert HideDateHolds(s, i + 1);
          assert r[i - 1].dateString == s[i].dateString;
        }
      }
    }
  }

  /** `updateItem_` replaces only the entry at `index` and keeps the length. */
  lemma UpdateReplacesOnlyEntry(s: seq<Item>, index: nat, data: Item)
    requires index < |s|
    ensures var r := UpdatedList(s, index, data);
      |r| == |s| && Data(r[index]) == Data(data) &&
      forall i :: 0 <= i < |s| && i != index ==> r[i] == s[i]
  {
  }

  /** When the update keeps the entry's date, the hideDate flags stay right. */
  lemma UpdateSameDatePreservesHideDates(s: seq<Item>, index: nat, data: Item)
    requires index < |s|
    requires HideDatesValid(s)
    requires data.dateString == s[index].dateString
    ensures HideDatesValid(UpdatedList(s, index, data))
  {
    var t := s[index := data];
    var r := UpdatedList(s, index, data);
    HideDatesUpdatedEffect(t, index, index);
    forall i | 0 <= i < |r| ensures HideDateHolds(r, i) {
      if i != index {
        assert r[i] == s[i];
        assert HideDateHolds(s, i);
        assert i > 0 ==> r[i - 1].dateString == s[i - 1].dateString;
      }
    }
  }

  /** `updateItem_` does not revisit entry `index + 1`: a changed date can leave it stale. */
  lemma UpdateDoesNotRevisitNext()
    ensures var a := Item("a", "a.pdf", "Today", Complete, false, false, false);
            var b := Item("b", "b.pdf", "Today", Complete, false, false, true);
            var a' := Item("a", "a.pdf", "Yesterday", Complete, false, false, false);
            HideDatesValid([a, b]) && !HideDatesValid(UpdatedList([a, b], 0, a'))
  {
    var a := Item("a", "a.pdf", "Today", Complete, false, false, false);
    var b := Item("b", "b.pdf", "Today", Complete, false, false, true);
    var a' := Item("a", "a.pdf", "Yesterday", Complete, false, false, false);
    var r := UpdatedList([a, b], 0, a');
    assert r[1] == b;
    assert !HideDateHolds(r, 1);
  }

  /** `hasClearableDownloads` needs deleting history to be allowed and one settled download. */
  lemma ClearableFlagMeaning(allow: bool, s: seq<Item>)
    ensures (allow && AnyClearable(s)) <==>
            allow && exists i :: 0 <= i < |s| && s[i].state !in {Dangerous, Insecure, InProgress, Paused}
  {
  }

  /** `insertItems_` and `removeItem_` keep the bypass id pointing at a listed download. */
  lemma InsertKeepsBypassId(s: seq<Item>, index: nat, items: seq<Item>, bypassId: string)
    requires BypassIdPresent(s, bypassId)
    ensures BypassIdPresent(InsertedList(s, index, items), bypassId)
  {
    if bypassId != "" && |items| > 0 {
      var k :| 0 <= k < |s| && s[k].id == bypassId;
      var j := SpliceInsertKeeps(s, index, items, k);
      HideDatesUpdatedKeepsId(SpliceInsert(s, index, items), index, index + |items|, j);
    }
  }

  /** An entry of the list stays in it after an insertion, shifted past the new entries if it came after them. */
  lemma SpliceInsertKeeps(s: seq<Item>, index: nat, items: seq<Item>, k: nat) returns (j: nat)
    requires k < |s|
    ensures j < |SpliceInsert(s, index, items)| && SpliceInsert(s, index, items)[j] == s[k]
  {
    var p := if index <= |s| then index else |s|;
    var t := s[..p] + items + s[p..];
    if k < p {
      j := k;
      assert t[j] == s[..p][k];
    } else {
      j := k + |items|;
      assert t[j] == s[p..][k - p];
    }
  }

  lemma RemoveKeepsBypassId(s: seq<Item>, index: nat, bypassId: string)
    requires BypassIdPresent(s, bypassId)
    requires !(index < |s| && s[index].id == bypassId)
    ensures BypassIdPresent(RemovedList(s, index), bypassId)
  {
    if bypassId != "" {
      var k :| 0 <= k < |s| && s[k].id == bypassId;
      var j := SpliceRemoveKeeps(s, index, k);
      HideDatesUpdatedKeepsId(SpliceRemove(s, index), index, index, j);
    }
  }

  /** An entry other than the removed one stays in the list, one place earlier if it came after it. */
  lemma SpliceRemoveKeeps(s: seq<Item>, index: nat, k: nat) returns (j: nat)
    requires k < |s| && !(index == k)
    ensures j < |SpliceRemove(s, index)| && SpliceRemove(s, index)[j] == s[k]
  {
    if index < |s| {
      var t := s[..index] + s[index + 1..];
      if k < index {
        j := k;
        assert t[j] == s[..index][k];
      } else {
        j := k - 1;
        assert t[j] == s[index + 1..][k - 1 - index];
      }
    } else {
      j := k;
    }
  }

  /** Recomputing the date flags leaves every entry's id alone. */
  lemma HideDatesUpdatedKeepsId(s: seq<Item>, start: int, end: int, i: nat)
    requires i < |s|
    ensures HideDatesUpdated(s, start, end)[i].id == s[i].id
  {
  }
}
