/** The notification list (src/components/NotificationList.tsx): the loaded
    notifications held as state, the all/unread/read filter, the counters and
    the two local read-state updates made after the store accepts them. */
module NotificationList {
  import opened Lists
  import opened Records

  predicate IsUnread(n: Notification) {
    !n.isRead
  }

  predicate IsRead(n: Notification) {
    n.isRead
  }

  /** The list shown for a filter value: 'unread' and 'read' keep those
      notifications, any other value keeps the whole list. */
  function ReadFilter(ns: seq<Notification>, filter: string): (r: seq<Notification>)
    ensures filter == "unread" ==> forall n :: n in r <==> n in ns && !n.isRead
    ensures filter == "read" ==> forall n :: n in r <==> n in ns && n.isRead
    ensures filter != "unread" && filter != "read" ==> r == ns
    ensures Subseq(r, ns)
  {
    if filter == "unread" then Filter(ns, IsUnread)
    else if filter == "read" then Filter(ns, IsRead)
    else
      SubseqRefl(ns);
      ns
  }

  /** `unreadCount`. */
  function UnreadCount(ns: seq<Notification>): nat {
    |Filter(ns, IsUnread)|
  }

  /** The 'Leídas' counter is the total less the unread ones, and it is the
      length of the 'read' list: the two filters split the list. */
  lemma ReadCountsPartition(ns: seq<Notification>)
    ensures UnreadCount(ns) + |ReadFilter(ns, "read")| == |ns|
    ensures |ReadFilter(ns, "unread")| == UnreadCount(ns)
  {
    FilterPartition(ns, IsUnread, IsRead);
  }

  /** The list after `markAsRead(id)`: the notifications with that id are read. */
  function MarkedRead(ns: seq<Notification>, id: string): (r: seq<Notification>)
    ensures |r| == |ns|
    ensures forall i :: 0 <= i < |ns| ==> r[i] == if ns[i].id == id then ns[i].(isRead := true) else ns[i]
  {
    seq(|ns|, i requires 0 <= i < |ns| => if ns[i].id == id then ns[i].(isRead := true) else ns[i])
  }

  /** The list after `markAllAsRead`: every notification is read. */
  function AllRead(ns: seq<Notification>): (r: seq<Notification>)
    ensures |r| == |ns|
    ensures forall i :: 0 <= i < |ns| ==> r[i] == ns[i].(isRead := true)
  {
    seq(|ns|, i requires 0 <= i < |ns| => ns[i].(isRead := true))
  }

  /** Marking one notification touches nothing but the read flag of the
      entries with its id: no entry with that id stays unread, and every other
      entry is as it was. */
  lemma MarkedReadOnlyMatching(ns: seq<Notification>, id: string)
    ensures forall i :: 0 <= i < |ns| && ns[i].id != id ==> MarkedRead(ns, id)[i] == ns[i]
    ensures forall i :: 0 <= i < |ns| && ns[i].id == id ==> MarkedRead(ns, id)[i].isRead
    ensures forall i :: 0 <= i < |ns| ==> MarkedRead(ns, id)[i].(isRead := ns[i].isRead) == ns[i]
  {
  }

  /** Marking the same notification twice is marking it once. */
  lemma MarkedReadIdempotent(ns: seq<Notification>, id: string)
    ensures MarkedRead(MarkedRead(ns, id), id) == MarkedRead(ns, id)
  {
  }

  /** Marking one notification never raises the unread count. */
  lemma {:induction false} MarkedReadLowersUnread(ns: seq<Notification>, id: string)
    ensures UnreadCount(MarkedRead(ns, id)) <= UnreadCount(ns)
  {
    if ns != [] {
      MarkedReadLowersUnread(ns[1..], id);
      assert MarkedRead(ns, id)[1..] == MarkedRead(ns[1..], id);
    }
  }

  /** After marking all, nothing is unread and every field but the flag is kept. */
  lemma {:induction false} AllReadNoneUnread(ns: seq<Notification>)
    ensures UnreadCount(AllRead(ns)) == 0
    ensures ReadFilter(AllRead(ns), "read") == AllRead(ns)
  {
    FilterPartition(AllRead(ns), IsUnread, IsRead);
    FilterKeepsAll(AllRead(ns), IsRead);
  }

  /** `getNotificationTypeLabel`. */
  function TypeLabel(notificationType: string): string {
    match notificationType
    case "vencimiento" => "Vencimiento"
    case "renovacion" => "Renovación"
    case "pago_pendiente" => "Pago Pendiente"
    case _ => "Notificación"
  }

  /** The three known types get distinct labels, none of them the default. */
  lemma TypeLabelsDistinct(t: string)
    ensures t != "vencimiento" && t != "renovacion" && t != "pago_pendiente" ==> TypeLabel(t) == "Notificación"
    ensures t == "vencimiento" || t == "renovacion" || t == "pago_pendiente" ==>
      TypeLabel(t) != "Notificación" && forall u :: TypeLabel(u) == TypeLabel(t) ==> u == t
  {
  }

  /** The component's state: the loaded notifications and the filter value. */
  class NotificationState {
    var notifications: seq<Notification>
    var filter: string

    constructor (loaded: seq<Notification>)
      ensures notifications == loaded && filter == "all"
    {
      notifications := loaded;
      filter := "all";
    }

    /** The list on screen. */
    function Shown(): seq<Notification>
      reads this
    {
      ReadFilter(notifications, filter)
    }

    method SetFilter(f: string)
      modifies this
      ensures filter == f && notifications == old(notifications)
    {
      filter := f;
    }

    /** `markAsRead(id)`: once the store has accepted the update
        (`storeFailed` false) the matching entries are marked locally; a store
        error leaves the list as it was. */
    method MarkAsRead(id: string, storeFailed: bool)
      modifies this
      ensures notifications == if storeFailed then old(notifications) else MarkedRead(old(notifications), id)
      ensures filter == old(filter)
    {
      if storeFailed {
        return;
      }
      notifications := MarkedRead(notifications, id);
    }

    /** `markAllAsRead`: on success every entry is marked locally. */
    method MarkAllAsRead(storeFailed: bool)
      modifies this
      ensures notifications == if storeFailed then old(notifications) else AllRead(old(notifications))
      ensures !storeFailed ==> UnreadCount(notifications) == 0
      ensures filter == old(filter)
    {
      if storeFailed {
        return;
      }
      notifications := AllRead(notifications);
      AllReadNoneUnread(old(notifications));
    }
  }
}
