/**
 * The client-side notification state: the list the inbox shows, the loading flag, the
 * unread badge count and the mark-as-read update.
 */
module Hooks {
  import opened Wrappers

  /** One inbox entry as the client receives it. */
  datatype NotificationItem = NotificationItem(id: string, message: string, createdAt: string, read: bool)

  // ---------------------------------------------------------------------------------------
  // The pure parts: the filter count and the map update

  /** The unread badge: how many items are not yet read. */
  function CountUnread(items: seq<NotificationItem>): (n: nat)
    ensures n <= |items|
  {
    if items == [] then 0
    else CountUnread(items[..|items| - 1]) + (if items[|items| - 1].read then 0 else 1)
  }

  /** Positions of the unread items. */
  function UnreadPositions(items: seq<NotificationItem>): set<nat>
  {
    set i: nat | i < |items| && !items[i].read
  }

  /** The number of unread items that carry the given id. */
  function CountUnreadWithId(items: seq<NotificationItem>, id: string): (n: nat)
    ensures n <= CountUnread(items)
  {
    if items == [] then 0
    else
      var last := items[|items| - 1];
      CountUnreadWithId(items[..|items| - 1], id) + (if !last.read && last.id == id then 1 else 0)
  }

  /** The list update after an acknowledgement: every item with the id becomes read, all else is kept. */
  function MarkRead(items: seq<NotificationItem>, id: string): (r: seq<NotificationItem>)
    ensures |r| == |items|
    ensures forall k :: 0 <= k < |r| ==>
              r[k].id == items[k].id && r[k].message == items[k].message && r[k].createdAt == items[k].createdAt
    ensures forall k :: 0 <= k < |r| ==> r[k].read == (items[k].read || items[k].id == id)
  {
    if items == [] then []
    else
      var last := items[|items| - 1];
      MarkRead(items[..|items| - 1], id) + [if last.id == id then last.(read := true) else last]
  }

  /** The badge counts exactly the positions holding an unread item. */
  lemma {:induction false} CountUnreadIsUnreadPositions(items: seq<NotificationItem>)
    ensures CountUnread(items) == |UnreadPositions(items)|
  {
    if items != [] {
      var n := |items|;
      CountUnreadIsUnreadPositions(items[..n - 1]);
      UnreadPositionsSnoc(items);
    }
  }

  lemma UnreadPositionsSnoc(items: seq<NotificationItem>)
    requires items != []
    ensures var n := |items|;
            && UnreadPositions(items)
               == UnreadPositions(items[..n - 1]) + (if items[n - 1].read then {} else {n - 1})
            && n - 1 !in UnreadPositions(items[..n - 1])
  {
    var n := |items|;
    var prefix := items[..n - 1];
    forall i: nat | i < n - 1 ensures items[i] == prefix[i] {
    }
  }

  /** Items whose id differs are untouched; every item with the id ends up read. */
  lemma MarkReadEffect(items: seq<NotificationItem>, id: string)
    ensures forall k :: 0 <= k < |items| && items[k].id != id ==> MarkRead(items, id)[k] == items[k]
    ensures forall k :: 0 <= k < |items| && items[k].id == id ==> MarkRead(items, id)[k].read
  {
  }

  /** Applying the update twice is the same as applying it once. */
  lemma MarkReadIdempotent(items: seq<NotificationItem>, id: string)
    ensures MarkRead(MarkRead(items, id), id) == MarkRead(items, id)
  {
    var once := MarkRead(items, id);
    var twice := MarkRead(once, id);
    forall k | 0 <= k < |items| ensures twice[k] == once[k] {
    }
  }

  /** Marking two ids in either order gives the same list. */
  lemma MarkReadCommutes(items: seq<NotificationItem>, a: string, b: string)
    ensures MarkRead(MarkRead(items, a), b) == MarkRead(MarkRead(items, b), a)
  {
    var ab := MarkRead(MarkRead(items, a), b);
    var ba := MarkRead(MarkRead(items, b), a);
    forall k | 0 <= k < |items| ensures ab[k] == ba[k] {
    }
  }

  /** When no unread item has the id, the update changes nothing. */
  lemma MarkReadNoUnreadMatch(items: seq<NotificationItem>, id: string)
    requires forall k :: 0 <= k < |items| && items[k].id == id ==> items[k].read
    ensures MarkRead(items, id) == items
  {
    var r := MarkRead(items, id);
    forall k | 0 <= k < |items| ensures r[k] == items[k] {
    }
  }

  /** The badge goes down by exactly the number of unread items carrying the id. */
  lemma {:induction false} MarkReadLowersCount(items: seq<NotificationItem>, id: string)
    ensures CountUnread(MarkRead(items, id)) == CountUnread(items) - CountUnreadWithId(items, id)
  {
    if items != [] {
      var n := |items|;
      var prefix := items[..n - 1];
      MarkReadLowersCount(prefix, id);
      var r := MarkRead(items, id);
      assert r[..n - 1] == MarkRead(prefix, id);
    }
  }

  lemma {:induction false} CountUnreadWithIdNone(items: seq<NotificationItem>, id: string)
    requires forall k :: 0 <= k < |items| && items[k].id == id ==> items[k].read
    ensures CountUnreadWithId(items, id) == 0
  {
    if items != [] {
      var n := |items|;
      var prefix := items[..n - 1];
      forall k | 0 <= k < |prefix| && prefix[k].id == id ensures prefix[k].read {
        assert prefix[k] == items[k];
      }
      CountUnreadWithIdNone(prefix, id);
    }
  }

  lemma {:induction false} CountUnreadWithIdUnique(items: seq<NotificationItem>, id: string, k: nat)
    requires k < |items| && items[k].id == id && !items[k].read
    requires forall j :: 0 <= j < |items| && j != k ==> items[j].id != id
    ensures CountUnreadWithId(items, id) == 1
  {
    var n := |items|;
    var prefix := items[..n - 1];
    if k == n - 1 {
      forall j | 0 <= j < |prefix| ensures prefix[j].id != id {
        assert prefix[j] == items[j];
      }
      CountUnreadWithIdNone(prefix, id);
    } else {
      forall j | 0 <= j < |prefix| && j != k ensures prefix[j].id != id {
        assert prefix[j] == items[j];
      }
      assert prefix[k] == items[k];
      CountUnreadWithIdUnique(prefix, id, k);
    }
  }

  /**
   * For an id that one unread item carries and no other item does, the badge drops by
   * one; for an id that is absent or only on read items, it does not move.
   */
  lemma MarkReadBadgeCases(items: seq<NotificationItem>, id: string)
    ensures (exists k :: 0 <= k < |items| && items[k].id == id && !items[k].read
                         && forall j :: 0 <= j < |items| && j != k ==> items[j].id != id)
            ==> CountUnread(MarkRead(items, id)) == CountUnread(items) - 1
    ensures (forall k :: 0 <= k < |items| && items[k].id == id ==> items[k].read)
            ==> CountUnread(MarkRead(items, id)) == CountUnread(items)
  {
    MarkReadLowersCount(items, id);
    if exists k :: 0 <= k < |items| && items[k].id == id && !items[k].read
                   && forall j :: 0 <= j < |items| && j != k ==> items[j].id != id {
      var k :| 0 <= k < |items| && items[k].id == id && !items[k].read
               && forall j :: 0 <= j < |items| && j != k ==> items[j].id != id;
      CountUnreadWithIdUnique(items, id, k);
    }
    if forall k :: 0 <= k < |items| && items[k].id == id ==> items[k].read {
      CountUnreadWithIdNone(items, id);
    }
  }

  // ---------------------------------------------------------------------------------------
  // The stateful hook

  /** A state update or a remote call, in the order the hook makes them. */
  datatype HookStep =
    | LoadingSet(on: bool)
    | FetchRequested
    | ListReplaced(items: seq<NotificationItem>)
    | AckRequested(id: string)

  /**
   * The hook's two state cells. The remote calls are parameters: the list the fetch
   * resolves with, or the error it throws; whether the read acknowledgement resolves.
   */
  class NotificationsHook {
    var notifications: seq<NotificationItem>
    var loading: bool
    /** Every state update and remote call so far, oldest first. */
    ghost var log: seq<HookStep>

    /** Initial state: an empty list, not loading. */
    constructor ()
      ensures notifications == [] && !loading && log == []
    {
      notifications := [];
      loading := false;
      log := [];
    }

    /** The derived badge count, recomputed from the current list. */
    function UnreadCount(): (n: nat)
      reads this
      ensures n <= |notifications|
    {
      CountUnread(notifications)
    }

    /** The `setLoading` setter. */
    method SetLoading(on: bool)
      modifies this
      ensures loading == on && notifications == old(notifications)
      ensures log == old(log) + [LoadingSet(on)]
    {
      loading := on;
      log := log + [LoadingSet(on)];
    }

    /** The `setNotifications` setter: the list is replaced as a whole. */
    method SetNotifications(items: seq<NotificationItem>)
      modifies this
      ensures notifications == items && loading == old(loading)
      ensures log == old(log) + [ListReplaced(items)]
    {
      notifications := items;
      log := log + [ListReplaced(items)];
    }

    /**
     * `loadNotifications` (also `reload`, and what the mount effect runs): loading on, fetch,
     * replace the list, loading off. A fetch that throws ends the call after the first step,
     * so the list is kept and the flag stays on.
     */
    method LoadNotifications(fetched: Result<seq<NotificationItem>, string>) returns (outcome: Outcome<string>)
      modifies this
      ensures fetched.Success? ==>
                && notifications == fetched.value && !loading && outcome == Pass
                && log == old(log) + [LoadingSet(true), FetchRequested, ListReplaced(fetched.value), LoadingSet(false)]
      ensures fetched.Failure? ==>
                && notifications == old(notifications) && loading && outcome == Fail(fetched.error)
                && log == old(log) + [LoadingSet(true), FetchRequested]
    {
      SetLoading(true);
      log := log + [FetchRequested];
      if fetched.Failure? {
        return Fail(fetched.error);
      }
      SetNotifications(fetched.value);
      SetLoading(false);
      outcome := Pass;
    }

    /**
     * `markAsRead`: the remote acknowledgement first; only once it resolves is the list
     * updated, and then only the items with that id change.
     */
    method MarkAsRead(id: string, ack: Outcome<string>) returns (outcome: Outcome<string>)
      modifies this
      ensures loading == old(loading) && outcome == ack
      ensures ack.Pass? ==>
                && notifications == MarkRead(old(notifications), id)
                && log == old(log) + [AckRequested(id), ListReplaced(notifications)]
                && UnreadCount() == old(UnreadCount()) - CountUnreadWithId(old(notifications), id)
      ensures ack.Fail? ==> notifications == old(notifications) && log == old(log) + [AckRequested(id)]
    {
      log := log + [AckRequested(id)];
      if ack.Fail? {
        return ack;
      }
      MarkReadLowersCount(notifications, id);
      SetNotifications(MarkRead(notifications, id));
      outcome := Pass;
    }
  }
}
