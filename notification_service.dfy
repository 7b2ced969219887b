/** In-app notifications (notification.service): every toast shown is also
    kept as a notification, newest first, at most fifty of them, mirrored to
    the browser's storage under 'app_notifications'. */
module Notifications {
  import opened Common
  import opened Models
  import opened DataSync

  const MaxNotifications: nat := 50
  /** How long a toast stays on screen, in milliseconds. */
  const ToastLife: nat := 5000

  datatype Kind = Success | Info | Warn | Error

  function Severity(k: Kind): (s: string)
    ensures s in {"success", "info", "warn", "error"}
  {
    match k
    case Success => "success"
    case Info => "info"
    case Warn => "warn"
    case Error => "error"
  }

  function Icon(k: Kind): (s: string)
    ensures s in {"pi-check-circle", "pi-info-circle", "pi-exclamation-triangle", "pi-exclamation-circle"}
  {
    match k
    case Success => "pi-check-circle"
    case Info => "pi-info-circle"
    case Warn => "pi-exclamation-triangle"
    case Error => "pi-exclamation-circle"
  }

  /** The toast and the notification of one kind differ in icon and severity. */
  lemma KindsDistinct(a: Kind, b: Kind)
    ensures Severity(a) == Severity(b) <==> a == b
    ensures Icon(a) == Icon(b) <==> a == b
  {
  }

  datatype Toast = Toast(severity: string, summary: string, detail: string, life: nat)

  datatype Notification = Notification(
    id: string,
    title: string,
    message: string,
    kind: Kind,
    timestamp: Instant,
    read: bool,
    icon: string)

  predicate Unread(n: Notification) { !n.read }

  /** `unreadCount$`: the number of unread notifications. */
  function UnreadCount(ns: seq<Notification>): nat
  {
    Count(ns, Unread)
  }

  /** The list after `markAsRead(id)`: every notification with that id is read. */
  function MarkedRead(ns: seq<Notification>, id: string): (r: seq<Notification>)
    ensures |r| == |ns|
    ensures forall i :: 0 <= i < |ns| ==> r[i] == if ns[i].id == id then ns[i].(read := true) else ns[i]
  {
    seq(|ns|, i requires 0 <= i < |ns| => if ns[i].id == id then ns[i].(read := true) else ns[i])
  }

  /** Marking as read never raises the unread count, lowers it by the number of
      unread notifications with that id, and marking twice is marking once. */
  lemma {:induction false} MarkedReadCount(ns: seq<Notification>, id: string)
    ensures UnreadCount(MarkedRead(ns, id)) == UnreadCount(ns) - Count(ns, (n: Notification) => n.id == id && !n.read)
    ensures MarkedRead(MarkedRead(ns, id), id) == MarkedRead(ns, id)
  {
    if ns != [] {
      MarkedReadCount(ns[1..], id);
      assert MarkedRead(ns, id) == MarkedRead(ns[..1], id) + MarkedRead(ns[1..], id);
      assert ns == ns[..1] + ns[1..];
      CountAppend(MarkedRead(ns[..1], id), MarkedRead(ns[1..], id), Unread);
      CountAppend(ns[..1], ns[1..], Unread);
      CountAppend(ns[..1], ns[1..], (n: Notification) => n.id == id && !n.read);
    }
  }

  /** A new notification raises the unread count by one, unless the list was full. */
  lemma PushUnread(n: Notification, ns: seq<Notification>)
    requires !n.read && |ns| < MaxNotifications
    ensures UnreadCount(PushFront(n, ns, MaxNotifications)) == UnreadCount(ns) + 1
  {
    assert PushFront(n, ns, MaxNotifications) == [n] + ns;
    CountAppend([n], ns, Unread);
  }

  class NotificationService {
    /** The notifications, newest first (the service's `notificationsSubject`). */
    var notifications: seq<Notification>
    /** What was last written to storage under 'app_notifications'. */
    var stored: seq<Notification>
    /** The toasts handed to the message service, oldest first. */
    var toasts: seq<Toast>

    /** Starts from the saved notifications; a missing or unparsable entry
        gives an empty list. */
    constructor(saved: Cell<seq<Notification>>)
      ensures notifications == (if saved.Json? then saved.value else [])
      ensures toasts == [] && stored == (if saved.Json? then saved.value else [])
    {
      notifications := if saved.Json? then saved.value else [];
      stored := notifications;
      toasts := [];
    }

    /** `showSuccess`, `showInfo`, `showWarning` and `showError`: a toast with
        the kind's severity, and an unread notification with the kind's icon at
        the front of the list. */
    method Show(kind: Kind, summary: string, detail: string, id: string, now: Instant)
      modifies this
      ensures toasts == old(toasts) + [Toast(Severity(kind), summary, detail, ToastLife)]
      ensures notifications == PushFront(Notification(id, summary, detail, kind, now, false, Icon(kind)), old(notifications), MaxNotifications)
      ensures stored == notifications
      ensures |notifications| <= MaxNotifications
      ensures |old(notifications)| < MaxNotifications ==> UnreadCount(notifications) == UnreadCount(old(notifications)) + 1
    {
      toasts := toasts + [Toast(Severity(kind), summary, detail, ToastLife)];
      var n := Notification(id, summary, detail, kind, now, false, Icon(kind));
      if |notifications| < MaxNotifications {
        PushUnread(n, notifications);
      }
      notifications := PushFront(n, notifications, MaxNotifications);
      stored := notifications;
    }

    /** `markAsRead(id)`. */
    method MarkAsRead(id: string)
      modifies this`notifications, this`stored
      ensures notifications == MarkedRead(old(notifications), id) && stored == notifications
      ensures UnreadCount(notifications) <= UnreadCount(old(notifications))
      ensures forall i :: 0 <= i < |notifications| && notifications[i].id == id ==> notifications[i].read
    {
      MarkedReadCount(notifications, id);
      notifications := MarkedRead(notifications, id);
      stored := notifications;
    }

    /** `clearAll()`. */
    method ClearAll()
      modifies this`notifications, this`stored
      ensures notifications == [] && stored == [] && UnreadCount(notifications) == 0
    {
      notifications := [];
      stored := [];
    }
  }
}
