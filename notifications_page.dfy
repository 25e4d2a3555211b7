/**
 * The notifications page: a list of notifications filtered by type and read status,
 * an unread counter, mark-as-read, delete and a checkbox selection for bulk delete.
 */
module Notifications {
  import opened Wrappers
  import opened Text
  import opened Toasts
  import Seqs

  /** One notification; `kind` is the source's `type` field. */
  datatype Notification = Notification(
    id: string,
    kind: string,
    title: string,
    message: string,
    timestamp: string,
    isRead: bool,
    actionUrl: string,
    priority: string,
    category: string,
    expiresAt: Option<string>)

  /** The page's initial `mockNotifications`. */
  const MockNotifications: seq<Notification> := [
    Notification("1", "reviews", "New review on your favorite business",
      "Priya Sharma left a 5-star review for Sharma Ji Ka Dhaba", "2 minutes ago", false,
      "/business/1", "high", "review", None),
    Notification("2", "likes", "Your review got liked!",
      "5 people liked your review of Chai Tapri", "1 hour ago", false,
      "/reviews/my-reviews", "medium", "engagement", None),
    Notification("3", "offers", "Special offer near you!",
      "Gold's Gym is offering 50% off on annual membership", "3 hours ago", true,
      "/business/3", "high", "promotion", Some("2024-02-20")),
    Notification("4", "comments", "Someone replied to your review",
      "Business owner responded to your review at Lakme Salon", "1 day ago", true,
      "/business/4", "medium", "interaction", None),
    Notification("5", "updates", "Business hours updated",
      "Sharma Ji Ka Dhaba updated their opening hours", "2 days ago", true,
      "/business/1", "low", "update", None),
    Notification("6", "reviews", "Weekly review summary",
      "You've written 3 reviews this week. Keep sharing your experiences!", "3 days ago", true,
      "/dashboard/user", "low", "summary", None),
    Notification("7", "offers", "Flash sale alert!",
      "Your wishlist item Chai Tapri is having a flash sale - 30% off", "1 week ago", true,
      "/business/2", "high", "promotion", Some("2024-02-15"))
  ]

  // ---------------------------------------------------------------------------
  // The filtered view and the unread counter

  /** The view's test: type "all" or equal, and unread-only off or the entry unread. */
  predicate Shown(n: Notification, selectedType: string, onlyUnread: bool) {
    (selectedType == "all" || n.kind == selectedType) && (!onlyUnread || !n.isRead)
  }

  function ShownBy(selectedType: string, onlyUnread: bool): Notification -> bool {
    (n: Notification) => Shown(n, selectedType, onlyUnread)
  }

  /** `filteredNotifications`: exactly the shown entries, in list order. */
  function FilteredNotifications(ns: seq<Notification>, selectedType: string, onlyUnread: bool): (r: seq<Notification>)
    ensures forall i :: 0 <= i < |r| ==> r[i] in ns && Shown(r[i], selectedType, onlyUnread)
    ensures forall i :: 0 <= i < |ns| && Shown(ns[i], selectedType, onlyUnread) ==> ns[i] in r
    ensures Seqs.IsSubsequence(r, ns)
    ensures forall x :: multiset(r)[x] == if Shown(x, selectedType, onlyUnread) then multiset(ns)[x] else 0
    ensures selectedType == "all" && !onlyUnread ==> r == ns
  {
    Seqs.FilterIsSubsequence(ns, ShownBy(selectedType, onlyUnread));
    Seqs.FilterMultiset(ns, ShownBy(selectedType, onlyUnread));
    Seqs.Filter(ns, ShownBy(selectedType, onlyUnread))
  }

  function IsUnread(n: Notification): bool {
    !n.isRead
  }

  /** `unreadCount`: the number of unread entries. */
  function UnreadCount(ns: seq<Notification>): (n: nat)
    ensures n <= |ns|
    ensures n == 0 <==> forall i :: 0 <= i < |ns| ==> ns[i].isRead
    ensures n == |set i | 0 <= i < |ns| && !ns[i].isRead|
  {
    var r := Seqs.Filter(ns, IsUnread);
    assert |r| == |set i | 0 <= i < |ns| && !ns[i].isRead| by {
      Seqs.FilterCountsIndices(ns, IsUnread);
      assert Seqs.PassingIndices(ns, IsUnread, |ns|) == set i | 0 <= i < |ns| && !ns[i].isRead;
    }
    assert r == [] ==> forall i :: 0 <= i < |ns| ==> ns[i].isRead by {
      if r == [] {
        forall i | 0 <= i < |ns| ensures ns[i].isRead {
          assert ns[i] !in r;
        }
      }
    }
    |r|
  }

  /**
   * Reading more entries never raises the counter, and reading an unread entry lowers it:
   * `b` is `a` with some entries turned read.
   */
  lemma {:induction false} UnreadCountMonotone(a: seq<Notification>, b: seq<Notification>)
    requires |a| == |b|
    requires forall i :: 0 <= i < |a| ==> a[i].isRead ==> b[i].isRead
    ensures UnreadCount(b) <= UnreadCount(a)
    ensures (exists i :: 0 <= i < |a| && !a[i].isRead && b[i].isRead) ==> UnreadCount(b) < UnreadCount(a)
    decreases |a|
  {
    if a != [] {
      UnreadCountMonotone(a[1..], b[1..]);
      assert UnreadCount(a) == (if IsUnread(a[0]) then 1 else 0) + UnreadCount(a[1..]);
      assert UnreadCount(b) == (if IsUnread(b[0]) then 1 else 0) + UnreadCount(b[1..]);
      if exists i :: 0 <= i < |a| && !a[i].isRead && b[i].isRead {
        var i :| 0 <= i < |a| && !a[i].isRead && b[i].isRead;
        if i > 0 {
          assert !a[1..][i - 1].isRead && b[1..][i - 1].isRead;
        }
      }
    }
  }

  // ---------------------------------------------------------------------------
  // Editing the list

  /** `markAsRead(id)`'s update: entries with that id become read. */
  function MarkedRead(ns: seq<Notification>, id: string): (r: seq<Notification>)
    ensures |r| == |ns|
    ensures forall i :: 0 <= i < |ns| ==> r[i].isRead == (ns[i].isRead || ns[i].id == id)
    ensures forall i :: 0 <= i < |ns| ==> r[i].(isRead := ns[i].isRead) == ns[i]
  {
    seq(|ns|, i requires 0 <= i < |ns| => if ns[i].id == id then ns[i].(isRead := true) else ns[i])
  }

  lemma MarkedReadIdempotent(ns: seq<Notification>, id: string)
    ensures MarkedRead(MarkedRead(ns, id), id) == MarkedRead(ns, id)
  {
  }

  /** An id no entry has changes nothing. */
  lemma MarkedReadUnknownId(ns: seq<Notification>, id: string)
    requires forall i :: 0 <= i < |ns| ==> ns[i].id != id
    ensures MarkedRead(ns, id) == ns
  {
  }

  /** Marking an unread entry read lowers the counter; marking never raises it. */
  lemma MarkedReadLowersCount(ns: seq<Notification>, id: string)
    ensures UnreadCount(MarkedRead(ns, id)) <= UnreadCount(ns)
    ensures (exists i :: 0 <= i < |ns| && ns[i].id == id && !ns[i].isRead) ==>
              UnreadCount(MarkedRead(ns, id)) < UnreadCount(ns)
  {
    UnreadCountMonotone(ns, MarkedRead(ns, id));
  }

  /** `markAllAsRead`'s update: every entry becomes read, nothing else changes. */
  function AllMarkedRead(ns: seq<Notification>): (r: seq<Notification>)
    ensures |r| == |ns|
    ensures forall i :: 0 <= i < |ns| ==> r[i].isRead && r[i].(isRead := ns[i].isRead) == ns[i]
    ensures UnreadCount(r) == 0
  {
    seq(|ns|, i requires 0 <= i < |ns| => ns[i].(isRead := true))
  }

  function NotId(id: string): Notification -> bool {
    (n: Notification) => n.id != id
  }

  /** `deleteNotification(id)`'s update: the entries with that id go, the rest keep their order. */
  function WithoutNotification(ns: seq<Notification>, id: string): (r: seq<Notification>)
    ensures forall i :: 0 <= i < |r| ==> r[i].id != id && r[i] in ns
    ensures forall i :: 0 <= i < |ns| && ns[i].id != id ==> ns[i] in r
    ensures Seqs.IsSubsequence(r, ns)
    ensures forall x :: multiset(r)[x] == if x.id != id then multiset(ns)[x] else 0
    ensures (forall i :: 0 <= i < |ns| ==> ns[i].id != id) ==> r == ns
  {
    Seqs.FilterIsSubsequence(ns, NotId(id));
    Seqs.FilterMultiset(ns, NotId(id));
    Seqs.Filter(ns, NotId(id))
  }

  function NotSelected(selected: seq<string>): Notification -> bool {
    (n: Notification) => n.id !in selected
  }

  /** `deleteSelected`'s update: every entry whose id is selected goes, the rest keep their order. */
  function WithoutSelected(ns: seq<Notification>, selected: seq<string>): (r: seq<Notification>)
    ensures forall i :: 0 <= i < |r| ==> r[i].id !in selected && r[i] in ns
    ensures forall i :: 0 <= i < |ns| && ns[i].id !in selected ==> ns[i] in r
    ensures Seqs.IsSubsequence(r, ns)
    ensures forall x :: multiset(r)[x] == if x.id !in selected then multiset(ns)[x] else 0
    ensures selected == [] ==> r == ns
  {
    Seqs.FilterIsSubsequence(ns, NotSelected(selected));
    Seqs.FilterMultiset(ns, NotSelected(selected));
    Seqs.Filter(ns, NotSelected(selected))
  }

  /** Deleting a one-entry selection is deleting that one notification. */
  lemma DeleteOneSelected(ns: seq<Notification>, id: string)
    ensures WithoutSelected(ns, [id]) == WithoutNotification(ns, id)
  {
    Seqs.FilterCongruent(ns, NotSelected([id]), NotId(id));
  }

  const AllReadToast: ToastRequest := ToastRequest("All notifications marked as read", None, Some(Success), None)
  const DeletedToast: ToastRequest := ToastRequest("Notification deleted", None, Some(Success), None)

  /** The bulk-delete toast: "<n> notifications deleted". */
  function DeletedManyToast(n: nat): ToastRequest {
    ToastRequest(NatToString(n) + " notifications deleted", None, Some(Success), None)
  }

  // ---------------------------------------------------------------------------
  // Page state

  class NotificationsPage {
    var notifications: seq<Notification>
    var selectedType: string
    var selectedNotifications: seq<string>
    var showOnlyUnread: bool

    constructor ()
      ensures notifications == MockNotifications && selectedType == "all"
      ensures selectedNotifications == [] && !showOnlyUnread
    {
      notifications := MockNotifications;
      selectedType := "all";
      selectedNotifications := [];
      showOnlyUnread := false;
    }

    function Filtered(): seq<Notification>
      reads this
    {
      FilteredNotifications(notifications, selectedType, showOnlyUnread)
    }

    method MarkAsRead(id: string)
      modifies this`notifications
      ensures notifications == MarkedRead(old(notifications), id)
      ensures UnreadCount(notifications) <= UnreadCount(old(notifications))
    {
      MarkedReadLowersCount(notifications, id);
      notifications := MarkedRead(notifications, id);
    }

    method MarkAllAsRead(toasts: ToastProvider, toastId: string)
      modifies this`notifications, toasts
      ensures notifications == AllMarkedRead(old(notifications)) && UnreadCount(notifications) == 0
      ensures toasts.toasts == old(toasts.toasts) + [WithId(AllReadToast, toastId)]
    {
      notifications := AllMarkedRead(notifications);
      toasts.Toast(AllReadToast, toastId);
    }

    method DeleteNotification(toasts: ToastProvider, toastId: string, id: string)
      modifies this`notifications, toasts
      ensures notifications == WithoutNotification(old(notifications), id)
      ensures toasts.toasts == old(toasts.toasts) + [WithId(DeletedToast, toastId)]
    {
      notifications := WithoutNotification(notifications, id);
      toasts.Toast(DeletedToast, toastId);
    }

    /** `deleteSelected`: the toast counts the selection as it was before it is emptied. */
    method DeleteSelected(toasts: ToastProvider, toastId: string)
      modifies this`notifications, this`selectedNotifications, toasts
      ensures notifications == WithoutSelected(old(notifications), old(selectedNotifications))
      ensures selectedNotifications == []
      ensures toasts.toasts == old(toasts.toasts) + [WithId(DeletedManyToast(|old(selectedNotifications)|), toastId)]
    {
      var count := |selectedNotifications|;
      notifications := WithoutSelected(notifications, selectedNotifications);
      selectedNotifications := [];
      toasts.Toast(DeletedManyToast(count), toastId);
    }

    method SelectType(t: string)
      modifies this`selectedType
      ensures selectedType == t
    {
      selectedType := t;
    }

    method SetShowOnlyUnread(checked: bool)
      modifies this`showOnlyUnread
      ensures showOnlyUnread == checked
    {
      showOnlyUnread := checked;
    }

    /** An entry's checkbox `onChange`. */
    method SetChecked(id: string, checked: bool)
      modifies this`selectedNotifications
      ensures selectedNotifications == Seqs.Checked(old(selectedNotifications), id, checked)
    {
      selectedNotifications := Seqs.Checked(selectedNotifications, id, checked);
    }
  }
}
