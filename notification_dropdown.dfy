/**
 * The two notification menus of the navigation bar: messages and
 * everything else. Each shows the notifications of its kind, a badge with
 * its unread count and a "mark all as read" button when that count is not
 * zero.
 */
module NotificationDropdown {
  import opened Wrappers
  import opened Text
  import opened Lists

  datatype Notification = Notification(
    id: string, kind: string, title: string, message: string, read: bool, actionUrl: Option<string>, createdAt: string)

  predicate IsMessage(n: Notification) {
    n.kind == "message"
  }

  predicate IsOther(n: Notification) {
    n.kind != "message"
  }

  predicate IsUnread(n: Notification) {
    !n.read
  }

  predicate UnreadMessage(n: Notification) {
    !n.read && n.kind == "message"
  }

  predicate UnreadOther(n: Notification) {
    !n.read && n.kind != "message"
  }

  /** `unreadCount`: the unread notifications that are not messages. */
  function UnreadCount(ns: seq<Notification>): nat {
    |Filter(UnreadOther, ns)|
  }

  /** `messageCount`: the unread messages. */
  function MessageCount(ns: seq<Notification>): nat {
    |Filter(UnreadMessage, ns)|
  }

  /** The two counts split the unread notifications between them, and neither exceeds the list. */
  lemma CountsSplitUnread(ns: seq<Notification>)
    ensures UnreadCount(ns) + MessageCount(ns) == |Filter(IsUnread, ns)|
    ensures UnreadCount(ns) <= |ns| && MessageCount(ns) <= |ns|
  {
    FilterSplitCount(IsUnread, IsMessage, UnreadMessage, UnreadOther, ns);
  }

  /** The messages menu lists the messages, the bell menu the rest. */
  function MessageList(ns: seq<Notification>): seq<Notification> {
    Filter(IsMessage, ns)
  }

  function BellList(ns: seq<Notification>): seq<Notification> {
    Filter(IsOther, ns)
  }

  /** Every notification appears in exactly one of the two menus, in its order. */
  lemma MenusPartition(ns: seq<Notification>)
    ensures |MessageList(ns)| + |BellList(ns)| == |ns|
    ensures forall n :: n in ns ==> (n in MessageList(ns) <==> n !in BellList(ns))
    ensures IsSubsequence(MessageList(ns), ns) && IsSubsequence(BellList(ns), ns)
  {
    FilterPartition(IsMessage, IsOther, ns);
    FilterMembership(IsMessage, ns);
    FilterMembership(IsOther, ns);
    FilterIsSubsequence(IsMessage, ns);
    FilterIsSubsequence(IsOther, ns);
  }

  /** What the two menu buttons and headers show: a badge with a count, and whether "mark all as read" appears. */
  datatype Header = Header(badge: Option<nat>, markAll: bool)
  datatype Menus = Menus(messages: Header, bell: Header)

  function Render(ns: seq<Notification>): (m: Menus)
    ensures m.messages.badge.Some? <==> MessageCount(ns) > 0
    ensures m.messages.badge.Some? ==> m.messages.badge.value == MessageCount(ns)
    ensures m.messages.markAll <==> MessageCount(ns) > 0
    ensures m.bell.badge.Some? <==> UnreadCount(ns) > 0
    ensures m.bell.badge.Some? ==> m.bell.badge.value == UnreadCount(ns)
    ensures m.bell.markAll <==> UnreadCount(ns) > 0
  {
    var mc, uc := MessageCount(ns), UnreadCount(ns);
    Menus(Header(if mc > 0 then Some(mc) else None, mc > 0), Header(if uc > 0 then Some(uc) else None, uc > 0))
  }

  /** The notifications after `markAllAsRead`: every one of them read. */
  function AllRead(ns: seq<Notification>): (r: seq<Notification>)
    ensures |r| == |ns| && forall i :: 0 <= i < |ns| ==> r[i] == ns[i].(read := true)
  {
    seq(|ns|, i requires 0 <= i < |ns| => ns[i].(read := true))
  }

  /** Once everything is read no badge and no "mark all as read" button is shown. */
  lemma {:induction false} AllReadClearsBadges(ns: seq<Notification>)
    ensures Render(AllRead(ns)) == Menus(Header(None, false), Header(None, false))
  {
    var r := AllRead(ns);
    forall n | n in r ensures n.read {
      var i :| 0 <= i < |r| && r[i] == n;
    }
    FilterNone(UnreadMessage, r);
    FilterNone(UnreadOther, r);
  }

  /** Clicking an item marks it read and follows its link, if it has one. */
  datatype Click = Click(markRead: string, navigateTo: Option<string>)

  function ItemClick(n: Notification): (c: Click)
    ensures c.markRead == n.id
    ensures c.navigateTo.Some? <==> Truthy(n.actionUrl)
    ensures c.navigateTo.Some? ==> c.navigateTo == n.actionUrl
  {
    Click(n.id, if Truthy(n.actionUrl) then n.actionUrl else None)
  }
}
