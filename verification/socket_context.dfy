/** The session binding and notification store: reacts to the signed-in user's `_id` by
    driving the one socket (connect, join the user's room, disconnect) and keeps the list of
    received notifications. */
module SocketContext {
  import opened Common
  import opened Entities

  /** A call the binding makes on the socket. */
  datatype SocketCall = Connect | Disconnect | Join(room: string)

  /** Whether the socket is connected after `calls`, starting disconnected. */
  function LinkUp(calls: seq<SocketCall>): bool {
    if calls == [] then false
    else match calls[|calls| - 1]
      case Connect => true
      case Disconnect => false
      case Join(_) => LinkUp(calls[..|calls| - 1])
  }

  /** Connect is only issued on a disconnected socket, disconnect and join only on a
      connected one: the calls never open a second connection. */
  predicate WellBracketed(calls: seq<SocketCall>) {
    calls == [] ||
    var prefix := calls[..|calls| - 1];
    WellBracketed(prefix) &&
    match calls[|calls| - 1]
      case Connect => !LinkUp(prefix)
      case Disconnect => LinkUp(prefix)
      case Join(_) => LinkUp(prefix)
  }

  /** `prev.some(n => n._id === key)`. */
  predicate Listed(prev: seq<Notification>, key: Option<string>) {
    exists i :: 0 <= i < |prev| && prev[i].id == key
  }

  /** No `_id` occurs twice in the list (a missing `_id` counts as one value). */
  predicate UniqueNotificationIds(s: seq<Notification>) {
    forall i, j :: 0 <= i < j < |s| ==> s[i].id != s[j].id
  }

  /** The `handleNotification` updater: a notification whose `_id` is already listed is
      dropped, any other is put first. */
  function Ingest(prev: seq<Notification>, n: Notification): (r: seq<Notification>)
    ensures r == prev || (|r| == |prev| + 1 && r[0] == n && r[1..] == prev)
    ensures |r| == |prev| + 1 <==> !Listed(prev, n.id)
    ensures Listed(r, n.id)
  {
    if Listed(prev, n.id) then prev
    else
      var r := [n] + prev;
      assert r[0].id == n.id;
      r
  }

  /** A later notification with the id of an earlier one is dropped: the first arrival stays,
      in its place. */
  lemma RedeliveryKeepsFirst(prev: seq<Notification>, first: Notification, again: Notification)
    requires again.id == first.id
    ensures Ingest(Ingest(prev, first), again) == Ingest(prev, first)
  {
    assert Listed(Ingest(prev, first), again.id);
  }

  /** Two notifications that both lack `_id` have equal keys, so the second is dropped. */
  lemma MissingIdsCollide(prev: seq<Notification>, a: Notification, b: Notification)
    requires a.id == None && b.id == None
    ensures Ingest(Ingest(prev, a), b) == Ingest(prev, a)
    ensures |Ingest(Ingest([], a), b)| == 1
  {
    RedeliveryKeepsFirst(prev, a, b);
    RedeliveryKeepsFirst([], a, b);
  }

  /** Ingesting keeps the listed ids distinct. */
  lemma IngestKeepsUnique(prev: seq<Notification>, n: Notification)
    requires UniqueNotificationIds(prev)
    ensures UniqueNotificationIds(Ingest(prev, n))
  {
    var r := Ingest(prev, n);
    if r != prev {
      forall i, j | 0 <= i < j < |r| ensures r[i].id != r[j].id {
        assert r[j] == prev[j - 1];
        if i > 0 {
          assert r[i] == prev[i - 1];
        }
      }
    }
  }

  class SessionBinding {
    /** `socket.connected`. */
    var connected: bool
    /** `activeUserId.current`: the user whose room was last joined. */
    var activeUserId: Option<string>
    var notifications: seq<Notification>
    /** Every connect, disconnect and join issued so far, in order. */
    var calls: seq<SocketCall>

    ghost predicate Valid()
      reads this
    {
      connected == LinkUp(calls) && WellBracketed(calls)
      && (activeUserId.Some? ==> connected && Truthy(activeUserId))
    }

    constructor ()
      ensures Valid()
      ensures !connected && activeUserId == None && notifications == [] && calls == []
    {
      connected, activeUserId, notifications, calls := false, None, [], [];
    }

    /** The effect that runs whenever `user?._id` changes. A falsy id logs out: disconnect if
        connected, forget the active user, empty the notifications. A truthy id that is not the
        active one connects if needed and joins its room, with no disconnect in between when
        another user was active. The same id again does nothing. */
    method OnUserChange(userId: Option<string>)
      requires Valid()
      modifies this
      ensures Valid()
      ensures !Truthy(userId) ==>
        !connected && activeUserId == None && notifications == []
        && calls == old(calls) + (if old(connected) then [Disconnect] else [])
      ensures Truthy(userId) && old(activeUserId) == userId ==>
        connected == old(connected) && activeUserId == old(activeUserId)
        && notifications == old(notifications) && calls == old(calls)
      ensures Truthy(userId) && old(activeUserId) != userId ==>
        connected && activeUserId == userId && notifications == old(notifications)
        && calls == old(calls) + (if old(connected) then [] else [Connect]) + [Join(userId.value)]
    {
      if !(userId.Some? && userId.value != "") {
        if connected {
          calls := calls + [Disconnect];
          connected := false;
        }
        activeUserId := None;
        notifications := [];
        return;
      }
      if activeUserId != userId {
        if !connected {
          calls := calls + [Connect];
          connected := true;
        }
        assert LinkUp(calls);
        calls := calls + [Join(userId.value)];
        activeUserId := userId;
      }
    }

    /** A `notification` event. The listener is registered only while a user is signed in,
        which is exactly when a room is active. */
    method HandleNotification(n: Notification)
      modifies this`notifications
      ensures notifications == (if activeUserId.Some? then Ingest(old(notifications), n) else old(notifications))
    {
      if activeUserId.Some? {
        notifications := Ingest(notifications, n);
      }
    }

    /** `clearNotifications`. */
    method ClearNotifications()
      modifies this`notifications
      ensures notifications == []
    {
      notifications := [];
    }
  }

  /** Switching directly from one signed-in user to another joins the second room on the
      same connection: no disconnect happens in between. */
  method DirectSwitchCalls(x: string, y: string) returns (calls: seq<SocketCall>)
    requires x != "" && y != "" && x != y
    ensures calls == [Connect, Join(x), Join(y)]
    ensures Disconnect !in calls
  {
    var b := new SessionBinding();
    b.OnUserChange(Some(x));
    b.OnUserChange(Some(y));
    calls := b.calls;
  }

  /** Signing in, a re-run for the same user, signing out and signing in again: one join per
      sign-in, and a disconnect at sign-out. */
  method SignOutAndBackCalls(x: string) returns (calls: seq<SocketCall>, count: nat)
    requires x != ""
    ensures calls == [Connect, Join(x), Disconnect, Connect, Join(x)]
    ensures count == 0
  {
    var b := new SessionBinding();
    b.OnUserChange(Some(x));
    b.OnUserChange(Some(x));
    b.HandleNotification(Notification(Some("n1"), None, "liked your post", "t0"));
    b.OnUserChange(None);
    count := |b.notifications|;
    b.OnUserChange(Some(x));
    calls := b.calls;
  }
}
