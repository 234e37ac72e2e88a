// The toolbar page of the Customize Chrome side panel
// (side_panel/customize_chrome/customize_toolbar/toolbar.ts): the list of
// pinnable actions, the pin state pushed by the browser, whether "reset to
// default" is disabled, and the listener ids kept between connecting and
// disconnecting.
//
// The actions are objects that `setActionPinned_` updates in place, so
// `Action` is a class and `actions` holds references. Calls into the page
// handler and the callback router are recorded in `calls`; the asynchronous
// replies to `listActions`, `listCategories` and `getIsCustomized` are methods
// of their own.

module CustomizeToolbar {

  import opened Strings

  /** An `Action` of the mojo interface; only `pinned` ever changes. */
  class Action {
    const id: int
    const displayName: string
    const iconUrl: string
    var pinned: bool

    constructor (id: int, displayName: string, iconUrl: string, pinned: bool)
      ensures this.id == id && this.displayName == displayName && this.iconUrl == iconUrl
      ensures this.pinned == pinned
    {
      this.id := id;
      this.displayName := displayName;
      this.iconUrl := iconUrl;
      this.pinned := pinned;
    }
  }

  /** What the page shows of an action: its id and whether it is pinned. */
  datatype ActionState = ActionState(id: int, pinned: bool)

  /** The calls the element makes into the page handler and the callback router. */
  datatype HandlerCall =
    | ListActions
    | ListCategories
    | GetIsCustomized
    | ResetToDefault
    | PinAction(actionId: int, pin: bool)
    | RemoveListener(listenerId: int)

  /** The state a list of actions shows. */
  function Snapshot(actions: seq<Action>): (r: seq<ActionState>)
    reads set a | a in actions
    ensures |r| == |actions|
    ensures forall k :: 0 <= k < |actions| ==> r[k] == ActionState(actions[k].id, actions[k].pinned)
  {
    if actions == [] then []
    else
      var rest := Snapshot(actions[1..]);
      assert forall k :: 1 <= k < |actions| ==> actions[k] == actions[1..][k - 1];
      [ActionState(actions[0].id, actions[0].pinned)] + rest
  }

  /**
   * The state after `setActionPinned_(actionId, pinned)`: same actions in the
   * same order, every action with that id set to `pinned`, the others as they were.
   */
  function WithPinned(states: seq<ActionState>, actionId: int, pinned: bool): (r: seq<ActionState>)
    ensures |r| == |states|
    ensures forall k :: 0 <= k < |states| ==> r[k].id == states[k].id
    ensures forall k :: 0 <= k < |states| && states[k].id == actionId ==> r[k].pinned == pinned
    ensures forall k :: 0 <= k < |states| && states[k].id != actionId ==> r[k] == states[k]
  {
    if states == [] then []
    else
      var head := if states[0].id == actionId then ActionState(actionId, pinned) else states[0];
      var rest := WithPinned(states[1..], actionId, pinned);
      assert forall k :: 1 <= k < |states| ==> states[k] == states[1..][k - 1];
      [head] + rest
  }

  /** Pinning an action to the state it already has in every occurrence changes nothing. */
  lemma {:induction false} WithPinnedNoOp(states: seq<ActionState>, actionId: int, pinned: bool)
    requires forall k :: 0 <= k < |states| && states[k].id == actionId ==> states[k].pinned == pinned
    ensures WithPinned(states, actionId, pinned) == states
  {
    var r := WithPinned(states, actionId, pinned);
    forall k | 0 <= k < |states|
      ensures r[k] == states[k]
    {
      if states[k].id == actionId {
        assert r[k] == ActionState(r[k].id, r[k].pinned);
      }
    }
  }

  /** A later pin of the same action overrides an earlier one. */
  lemma {:induction false} WithPinnedLastWins(states: seq<ActionState>, actionId: int, first: bool, second: bool)
    ensures WithPinned(WithPinned(states, actionId, first), actionId, second) == WithPinned(states, actionId, second)
  {
    var a := WithPinned(WithPinned(states, actionId, first), actionId, second);
    var b := WithPinned(states, actionId, second);
    forall k | 0 <= k < |states|
      ensures a[k] == b[k]
    {
      if states[k].id == actionId {
        assert a[k] == ActionState(a[k].id, a[k].pinned);
        assert b[k] == ActionState(b[k].id, b[k].pinned);
      }
    }
  }

  /** Pins of two different actions can arrive in either order. */
  lemma {:induction false} WithPinnedCommutes(states: seq<ActionState>, id1: int, p1: bool, id2: int, p2: bool)
    requires id1 != id2
    ensures WithPinned(WithPinned(states, id1, p1), id2, p2) == WithPinned(WithPinned(states, id2, p2), id1, p1)
  {
    var a := WithPinned(WithPinned(states, id1, p1), id2, p2);
    var b := WithPinned(WithPinned(states, id2, p2), id1, p1);
    forall k | 0 <= k < |states|
      ensures a[k] == b[k]
    {
      if states[k].id == id1 || states[k].id == id2 {
        assert a[k] == ActionState(a[k].id, a[k].pinned);
        assert b[k] == ActionState(b[k].id, b[k].pinned);
      }
    }
  }

  /** The `removeListener` calls for `ids`, in order. */
  function Removals(ids: seq<int>): (r: seq<HandlerCall>)
    ensures |r| == |ids|
    ensures forall k :: 0 <= k < |ids| ==> r[k] == RemoveListener(ids[k])
  {
    if ids == [] then []
    else
      var rest := Removals(ids[1..]);
      assert forall k :: 1 <= k < |ids| ==> ids[k] == ids[1..][k - 1];
      [RemoveListener(ids[0])] + rest
  }

  /** Removing one more listener extends the removals by its call. */
  lemma RemovalsAppend(ids: seq<int>, id: int)
    ensures Removals(ids + [id]) == Removals(ids) + [RemoveListener(id)]
  {
    var a := Removals(ids + [id]);
    var b := Removals(ids) + [RemoveListener(id)];
    assert |a| == |b|;
    forall k | 0 <= k < |a|
      ensures a[k] == b[k]
    {
      assert (ids + [id])[k] == if k < |ids| then ids[k] else id;
    }
  }

  /** Whether every action icon is a `data:` URL, as `populateUi_` asserts. */
  predicate AllIconsAreDataUrls(actions: seq<Action>)
  {
    forall k :: 0 <= k < |actions| ==> StartsWith(actions[k].iconUrl, "data:")
  }

  class ToolbarElement {
    var actions: seq<Action>
    var categories: seq<string>
    var resetToDefaultDisabled: bool
    var listenerIds: seq<int>
    /** Every call into the page handler and the callback router, in order. */
    var calls: seq<HandlerCall>

    /** The constructor: starts with nothing listed and reset disabled, then `populateUi_`. */
    constructor ()
      ensures actions == [] && categories == [] && resetToDefaultDisabled && listenerIds == []
      ensures calls == [ListActions, ListCategories, GetIsCustomized]
    {
      actions := [];
      categories := [];
      resetToDefaultDisabled := true;
      listenerIds := [];
      calls := [ListActions, ListCategories, GetIsCustomized];
    }

    /** `connectedCallback`: registers the pin listener, then the actions-updated listener. */
    method ConnectedCallback(setActionPinnedId: int, notifyActionsUpdatedId: int)
      modifies this`listenerIds
      ensures listenerIds == old(listenerIds) + [setActionPinnedId, notifyActionsUpdatedId]
    {
      listenerIds := listenerIds + [setActionPinnedId];
      listenerIds := listenerIds + [notifyActionsUpdatedId];
    }

    /** `disconnectedCallback`: removes every registered listener in order and forgets them. */
    method DisconnectedCallback()
      modifies this`calls, this`listenerIds
      ensures calls == old(calls) + Removals(old(listenerIds))
      ensures listenerIds == []
    {
      var i := 0;
      while i < |listenerIds|
        invariant 0 <= i <= |listenerIds|
        invariant calls == old(calls) + Removals(listenerIds[..i])
        invariant listenerIds == old(listenerIds)
      {
        RemovalsAppend(listenerIds[..i], listenerIds[i]);
        assert listenerIds[..i + 1] == listenerIds[..i] + [listenerIds[i]];
        calls := calls + [RemoveListener(listenerIds[i])];
        i := i + 1;
      }
      assert listenerIds[..|listenerIds|] == listenerIds;
      listenerIds := [];
    }

    /** `onResetToDefaultClicked_`. */
    method OnResetToDefaultClicked()
      modifies this`calls
      ensures calls == old(calls) + [ResetToDefault]
    {
      calls := calls + [ResetToDefault];
    }

    /** The handler returned by `getActionToggleHandler_`, run with the toggle's new state. */
    method OnActionToggled(actionId: int, checked: bool)
      modifies this`calls
      ensures calls == old(calls) + [PinAction(actionId, checked)]
    {
      calls := calls + [PinAction(actionId, checked)];
    }

    /**
     * `setActionPinned_`: every listed action with the id takes the new pin
     * state in place, the list keeps its objects and order, and whether the
     * toolbar is customized is asked again.
     */
    method SetActionPinned(actionId: int, pinned: bool)
      modifies set a | a in actions
      modifies this`calls
      ensures actions == old(actions)
      ensures Snapshot(actions) == WithPinned(old(Snapshot(actions)), actionId, pinned)
      ensures calls == old(calls) + [GetIsCustomized]
    {
      ghost var before := Snapshot(actions);
      PinMatching(actions, before, actionId, pinned);
      calls := calls + [GetIsCustomized];
      SnapshotIsWithPinned(actions, before, actionId, pinned);
    }

    /** `populateUi_`: asks for the actions, the categories and whether the toolbar is customized. */
    method PopulateUi()
      modifies this`calls
      ensures calls == old(calls) + [ListActions, ListCategories, GetIsCustomized]
    {
      calls := calls + [ListActions, ListCategories, GetIsCustomized];
    }

    /** The reply to `listActions`; `ok` is what the `data:` icon assertion finds. */
    method OnListActionsReply(newActions: seq<Action>) returns (ok: bool)
      modifies this`actions
      ensures actions == newActions
      ensures ok <==> AllIconsAreDataUrls(newActions)
    {
      actions := newActions;
      ok := forall k :: 0 <= k < |newActions| ==> StartsWith(newActions[k].iconUrl, "data:");
    }

    /** The reply to `listCategories`. */
    method OnListCategoriesReply(newCategories: seq<string>)
      modifies this`categories
      ensures categories == newCategories
    {
      categories := newCategories;
    }

    /** The reply to `getIsCustomized` in `updateResetToDefaultDisabled`: reset is offered only when customized. */
    method OnIsCustomizedReply(customized: bool)
      modifies this`resetToDefaultDisabled
      ensures resetToDefaultDisabled <==> !customized
    {
      resetToDefaultDisabled := !customized;
    }
  }

  /** The loop of `setActionPinned_`: each action of the list with the id takes `pinned`, the others keep theirs. */
  method PinMatching(list: seq<Action>, ghost before: seq<ActionState>, actionId: int, pinned: bool)
    requires |before| == |list|
    requires forall k :: 0 <= k < |list| ==> before[k] == ActionState(list[k].id, list[k].pinned)
    modifies set a | a in list
    ensures forall k :: 0 <= k < |list| && list[k].id == actionId ==> list[k].pinned == pinned
    ensures forall k :: 0 <= k < |list| && list[k].id != actionId ==> list[k].pinned == before[k].pinned
  {
    var i := 0;
    while i < |list|
      invariant 0 <= i <= |list|
      invariant forall k :: 0 <= k < i && list[k].id == actionId ==> list[k].pinned == pinned
      invariant forall k :: 0 <= k < |list| && list[k].id != actionId ==> list[k].pinned == before[k].pinned
    {
      var action := list[i];
      if action.id == actionId {
        action.pinned := pinned;
      }
      i := i + 1;
    }
  }

  /** The final per-action facts of `SetActionPinned` amount to `WithPinned`. */
  lemma SnapshotIsWithPinned(actions: seq<Action>, before: seq<ActionState>, actionId: int, pinned: bool)
    requires |before| == |actions|
    requires forall k :: 0 <= k < |actions| ==> before[k].id == actions[k].id
    requires forall k :: 0 <= k < |actions| && actions[k].id == actionId ==> actions[k].pinned == pinned
    requires forall k :: 0 <= k < |actions| && actions[k].id != actionId ==> actions[k].pinned == before[k].pinned
    ensures Snapshot(actions) == WithPinned(before, actionId, pinned)
  {
    var a := Snapshot(actions);
    var b := WithPinned(before, actionId, pinned);
    forall k | 0 <= k < |actions|
      ensures a[k] == b[k]
    {
      assert b[k] == ActionState(b[k].id, b[k].pinned);
      assert before[k] == ActionState(before[k].id, before[k].pinned);
    }
  }

  /** Connecting then disconnecting removes exactly the two listeners just registered and leaves none. */
  method ConnectDisconnect(toolbar: ToolbarElement, pinnedId: int, updatedId: int)
    requires toolbar.listenerIds == []
    modifies toolbar
    ensures toolbar.listenerIds == []
    ensures toolbar.calls == old(toolbar.calls) + [RemoveListener(pinnedId), RemoveListener(updatedId)]
  {
    toolbar.ConnectedCallback(pinnedId, updatedId);
    toolbar.DisconnectedCallback();
    assert Removals([pinnedId, updatedId]) == [RemoveListener(pinnedId), RemoveListener(updatedId)];
  }
}
