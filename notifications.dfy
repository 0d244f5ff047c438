/**
 * The toast-notification store behind `useNotifications()`: one ordered list
 * shared by every caller, entries appended by `addNotification`, dropped by
 * `removeNotification` (by hand or when a one-shot expiry timer fires), and
 * the whole list reset by `clearAll`.
 *
 * Ids are chosen by the caller of the model: the source draws them from
 * `Date.now() + Math.random()`, which promises no uniqueness, so every
 * statement that needs distinct ids says so.  The event loop's pending
 * timers are the multiset `armed`; a timer firing is the method `Expire`.
 */
module Notifications {
  import opened Lists

  type Id = int

  /** The `type` field; it only selects the presentation. */
  datatype Kind = Success | Error | Warning | Info

  datatype Notification = Notification(id: Id, message: string, kind: Kind, duration: int)

  /** Default `duration` of addNotification, in milliseconds. */
  const DefaultDuration := 3000

  /*
   * IdIs, Holds and DistinctIds have twins over Signer in MockApi: the two
   * record types are unrelated, and each predicate stays over `.id` so that
   * the verifier sees a plain field rather than a key function.
   */

  /** The callback `n => n.id === id` given to findIndex. */
  function IdIs(id: Id): Notification -> bool {
    (n: Notification) => n.id == id
  }

  predicate Holds(list: seq<Notification>, id: Id) {
    exists i :: 0 <= i < |list| && list[i].id == id
  }

  predicate DistinctIds(list: seq<Notification>) {
    forall i, j :: 0 <= i < j < |list| ==> list[i].id != list[j].id
  }

  /**
   * removeNotification on the list: the first entry with that id is spliced
   * out and the others keep their order; an absent id changes nothing.
   */
  function Remove(list: seq<Notification>, id: Id): (r: seq<Notification>)
    ensures !Holds(list, id) ==> r == list
    ensures Holds(list, id) ==> |r| == |list| - 1
    ensures multiset(r) <= multiset(list)
  {
    var index := FindIndex(list, IdIs(id));
    if index > -1 then
      assert IdIs(id)(list[index]);
      Splice(list, index)
    else
      assert forall i :: 0 <= i < |list| ==> !IdIs(id)(list[i]);
      list
  }

  /** Remove takes out exactly the first entry with the id; everything before and after keeps its order. */
  lemma RemoveFirst(list: seq<Notification>, id: Id)
    requires Holds(list, id)
    ensures exists i :: 0 <= i < |list| && list[i].id == id &&
              (forall j :: 0 <= j < i ==> list[j].id != id) &&
              Remove(list, id) == list[..i] + list[i + 1..]
  {
    var i := FindIndex(list, IdIs(id));
    assert IdIs(id)(list[i]);
    assert forall j :: 0 <= j < i ==> !IdIs(id)(list[j]);
    assert Remove(list, id) == Splice(list, i) == list[..i] + list[i + 1..];
    assert 0 <= i < |list| && list[i].id == id;
  }

  /** Remove on a list with one entry in front. */
  lemma RemoveCons(n: Notification, list: seq<Notification>, id: Id)
    ensures Remove([n] + list, id) == if n.id == id then list else [n] + Remove(list, id)
  {
    FindIndexCons(n, list, IdIs(id));
    var k := FindIndex(list, IdIs(id));
    if n.id != id && k != -1 {
      assert ([n] + list)[..k + 1] == [n] + list[..k];
      assert ([n] + list)[k + 2..] == list[k + 1..];
    }
  }

  /**
   * Two removals commute: whichever of two timers (or a timer and a close
   * click) runs first, the list ends the same.
   */
  lemma {:induction false} RemoveCommutes(list: seq<Notification>, a: Id, b: Id)
    ensures Remove(Remove(list, a), b) == Remove(Remove(list, b), a)
  {
    if list != [] {
      var n, rest := list[0], list[1..];
      assert list == [n] + rest;
      RemoveCons(n, rest, a);
      RemoveCons(n, rest, b);
      if n.id != a {
        RemoveCons(n, Remove(rest, a), b);
      }
      if n.id != b {
        RemoveCons(n, Remove(rest, b), a);
      }
      RemoveCommutes(rest, a, b);
    }
  }

  /** With distinct ids, a removal removes every entry with that id and keeps the ids distinct. */
  lemma RemoveDistinct(list: seq<Notification>, id: Id)
    requires DistinctIds(list)
    ensures !Holds(Remove(list, id), id)
    ensures DistinctIds(Remove(list, id))
  {
  }

  /**
   * With distinct ids, removing twice is removing once.  This is about the
   * list alone: a timer that fires after its entry was removed is harmless
   * only while no entry added since carries its id (see StaleTimerRemovesNewer).
   */
  lemma RemoveTwice(list: seq<Notification>, id: Id)
    requires DistinctIds(list)
    ensures Remove(Remove(list, id), id) == Remove(list, id)
  {
    RemoveDistinct(list, id);
  }

  /** Appending an entry with a fresh id keeps the ids distinct. */
  lemma AppendFresh(list: seq<Notification>, n: Notification)
    requires DistinctIds(list) && !Holds(list, n.id)
    ensures DistinctIds(list + [n])
  {
  }

  /** Adding an entry with a fresh id and then removing that id gives back the list. */
  lemma AddThenRemove(list: seq<Notification>, n: Notification)
    requires !Holds(list, n.id)
    ensures Remove(list + [n], n.id) == list
  {
    var r := list + [n];
    assert r[|list|].id == n.id;
    assert forall j :: 0 <= j < |list| ==> r[j].id != n.id;
    assert r[..|list|] == list;
  }

  class NotificationCenter {
    /** The shared, ordered list the view renders (`notifications.value`). */
    var notifications: seq<Notification>
    /** The ids of the expiry timers scheduled and not yet fired. */
    var armed: multiset<Id>

    /** The module-level `ref([])`. */
    constructor()
      ensures notifications == [] && armed == multiset{}
    {
      notifications := [];
      armed := multiset{};
    }

    /**
     * addNotification: appends one entry at the end and returns its id; a
     * positive duration arms a one-shot timer that will remove that id.
     */
    method AddNotification(id: Id, message: string, kind: Kind := Info, duration: int := DefaultDuration)
      returns (r: Id)
      modifies this
      ensures r == id
      ensures notifications == old(notifications) + [Notification(id, message, kind, duration)]
      ensures armed == if duration > 0 then old(armed) + multiset{id} else old(armed)
      ensures old(DistinctIds(notifications)) && !old(Holds(notifications, id)) ==> DistinctIds(notifications)
    {
      var notification := Notification(id, message, kind, duration);
      AppendFreshIfFresh(notifications, notification);
      notifications := notifications + [notification];
      if duration > 0 {
        armed := armed + multiset{id};
      }
      r := id;
    }

    /** removeNotification: splices out the first entry with that id, if any. */
    method RemoveNotification(id: Id)
      modifies this
      ensures notifications == Remove(old(notifications), id)
      ensures armed == old(armed)
      ensures old(DistinctIds(notifications)) ==> DistinctIds(notifications) && !Holds(notifications, id)
    {
      var index := FindIndex(notifications, IdIs(id));
      if index > -1 {
        notifications := Splice(notifications, index);
      }
      if DistinctIds(old(notifications)) {
        RemoveDistinct(old(notifications), id);
      }
    }

    /** An armed timer fires: the timer is spent and its id is removed. */
    method Expire(id: Id)
      requires id in armed
      modifies this
      ensures armed == old(armed) - multiset{id}
      ensures notifications == Remove(old(notifications), id)
    {
      armed := armed - multiset{id};
      RemoveNotification(id);
    }

    method ShowSuccess(id: Id, message: string) returns (r: Id)
      modifies this
      ensures r == id
      ensures notifications == old(notifications) + [Notification(id, message, Success, DefaultDuration)]
      ensures armed == old(armed) + multiset{id}
    {
      r := AddNotification(id, message, Success);
    }

    method ShowError(id: Id, message: string) returns (r: Id)
      modifies this
      ensures r == id
      ensures notifications == old(notifications) + [Notification(id, message, Error, DefaultDuration)]
      ensures armed == old(armed) + multiset{id}
    {
      r := AddNotification(id, message, Error);
    }

    method ShowWarning(id: Id, message: string) returns (r: Id)
      modifies this
      ensures r == id
      ensures notifications == old(notifications) + [Notification(id, message, Warning, DefaultDuration)]
      ensures armed == old(armed) + multiset{id}
    {
      r := AddNotification(id, message, Warning);
    }

    method ShowInfo(id: Id, message: string) returns (r: Id)
      modifies this
      ensures r == id
      ensures notifications == old(notifications) + [Notification(id, message, Info, DefaultDuration)]
      ensures armed == old(armed) + multiset{id}
    {
      r := AddNotification(id, message);
    }

    /** clearAll: the list becomes empty; pending timers are not cancelled. */
    method ClearAll()
      modifies this
      ensures notifications == []
      ensures armed == old(armed)
    {
      notifications := [];
    }
  }

  lemma AppendFreshIfFresh(list: seq<Notification>, n: Notification)
    ensures DistinctIds(list) && !Holds(list, n.id) ==> DistinctIds(list + [n])
  {
    if DistinctIds(list) && !Holds(list, n.id) {
      AppendFresh(list, n);
    }
  }

  /** Success, error and warning toasts shown in a row appear in call order. */
  method ShownInCallOrder() returns (shown: seq<Notification>)
    ensures shown == [Notification(1, "Success message", Success, DefaultDuration),
                      Notification(2, "Error message", Error, DefaultDuration),
                      Notification(3, "Warning message", Warning, DefaultDuration)]
  {
    var center := new NotificationCenter();
    var a := center.ShowSuccess(1, "Success message");
    var b := center.ShowError(2, "Error message");
    var c := center.ShowWarning(3, "Warning message");
    shown := center.notifications;
  }

  /**
   * Closing the one toast shown by hand empties the list; its timer is still
   * armed, and since nothing was added since, its firing later changes nothing.
   */
  method CloseRemovesToast() returns (afterClose: seq<Notification>, afterTimer: seq<Notification>)
    ensures afterClose == []
    ensures afterTimer == []
  {
    var center := new NotificationCenter();
    var id := center.ShowSuccess(1, "Test message");
    center.RemoveNotification(id);
    afterClose := center.notifications;
    center.Expire(id);
    afterTimer := center.notifications;
  }

  /**
   * A toast with a positive duration and no manual close is gone once its
   * timer fires; a timer still armed when clearAll ran fires later and,
   * with no entry added since under its id, changes nothing.
   */
  method ExpiresOnItsOwn() returns (before: seq<Notification>, after: seq<Notification>, afterLate: seq<Notification>)
    ensures before == [Notification(7, "x", Info, 50)]
    ensures after == []
    ensures afterLate == []
  {
    var center := new NotificationCenter();
    var x := center.AddNotification(7, "x", Info, 50);
    before := center.notifications;
    center.Expire(x);
    after := center.notifications;
    var y := center.AddNotification(8, "y", Info, 50);
    center.ClearAll();
    center.Expire(y);
    afterLate := center.notifications;
  }

  /**
   * A stale timer removes a newer toast that reuses its id: the first toast
   * is closed by hand (or dropped by clearAll), a second one with the same id
   * and no timer of its own is added, and the first toast's timer then
   * removes the second.  The ids stay distinct at every step.
   */
  method StaleTimerRemovesNewer() returns (reused: seq<Notification>, afterStale: seq<Notification>,
                                           reusedAfterClear: seq<Notification>, afterStaleClear: seq<Notification>)
    ensures reused == [Notification(1, "b", Info, 0)] && DistinctIds(reused)
    ensures afterStale == []
    ensures reusedAfterClear == [Notification(1, "b", Info, 0)] && DistinctIds(reusedAfterClear)
    ensures afterStaleClear == []
  {
    var center := new NotificationCenter();
    var first := center.AddNotification(1, "a", Info, 50);
    center.RemoveNotification(first);
    var second := center.AddNotification(1, "b", Info, 0);
    reused := center.notifications;
    center.Expire(first);
    afterStale := center.notifications;

    var other := new NotificationCenter();
    first := other.AddNotification(1, "a", Info, 50);
    other.ClearAll();
    second := other.AddNotification(1, "b", Info, 0);
    reusedAfterClear := other.notifications;
    other.Expire(first);
    afterStaleClear := other.notifications;
  }
}
