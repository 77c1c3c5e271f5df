/** The notifications page (src/pages/Notifications.tsx): the generated
    notification list, the unread count, and marking one or all as read. */
module Notifications {
  import opened Seqs
  import opened Strings
  import opened Types

  datatype Kind = HighRisk | Declining | MissedAssignments

  /** A notification. The message text, which renders JavaScript numbers,
      is not modelled. */
  datatype Notification = Notification(
    id: string,
    kind: Kind,
    studentId: StudentId,
    studentName: string,
    studentAvatar: string,
    timestamp: string,
    read: bool)

  /** `notif-${index}-1`. */
  function HighRiskId(index: nat): string
  {
    "notif-" + NatToString(index) + "-1"
  }

  /** `notif-declining-${index}`. */
  function DecliningId(index: nat): string
  {
    "notif-declining-" + NatToString(index)
  }

  function HighRiskNotification(s: Student, index: nat): Notification
  {
    Notification(HighRiskId(index), HighRisk, s.studentId, s.name, s.avatar, "2 hours ago", false)
  }

  function DecliningNotification(s: Student, index: nat): Notification
  {
    Notification(DecliningId(index), Declining, s.studentId, s.name, s.avatar, "5 hours ago", true)
  }

  /** `xs.slice(0, n)`. */
  function Take<T>(xs: seq<T>, n: nat): (r: seq<T>)
    ensures |r| == if n <= |xs| then n else |xs|
    ensures forall i :: 0 <= i < |r| ==> r[i] == xs[i]
  {
    if n <= |xs| then xs[..n] else xs
  }

  /** The list `generateNotifications` builds from a roster: one unread
      high-risk entry per High student, in roster order, then read
      "declining" entries for the first two Medium students. */
  function Generated(roster: seq<Student>): seq<Notification>
  {
    var high := AtLevel(roster, High);
    var declining := Take(AtLevel(roster, Medium), 2);
    seq(|high|, i requires 0 <= i < |high| => HighRiskNotification(high[i], i))
    + seq(|declining|, i requires 0 <= i < |declining| => DecliningNotification(declining[i], i))
  }

  /** `notifications.filter(n => !n.read).length`. */
  function UnreadCount(ns: seq<Notification>): nat
  {
    Count(ns, (n: Notification) => !n.read)
  }

  /** The shape of the generated list: all high-risk entries, unread, come
      before all declining entries, read, of which there are at most two. */
  lemma GeneratedShape(roster: seq<Student>)
    ensures var ns := Generated(roster); var h := |AtLevel(roster, High)|;
      && |ns| == h + (if |AtLevel(roster, Medium)| < 2 then |AtLevel(roster, Medium)| else 2)
      && (forall i :: 0 <= i < h ==> ns[i].kind == HighRisk && !ns[i].read && ns[i].studentId == AtLevel(roster, High)[i].studentId)
      && (forall i :: h <= i < |ns| ==> ns[i].kind == Declining && ns[i].read && ns[i].studentId == AtLevel(roster, Medium)[i - h].studentId)
  {
  }

  /** The unread count of the generated list is the number of High students. */
  lemma {:induction false} GeneratedUnread(roster: seq<Student>)
    ensures UnreadCount(Generated(roster)) == |AtLevel(roster, High)|
  {
    var high := AtLevel(roster, High);
    var declining := Take(AtLevel(roster, Medium), 2);
    var hs := seq(|high|, i requires 0 <= i < |high| => HighRiskNotification(high[i], i));
    var ds := seq(|declining|, i requires 0 <= i < |declining| => DecliningNotification(declining[i], i));
    var unread := (n: Notification) => !n.read;
    FilterConcat(hs, ds, unread);
    FilterKeepsAll(hs, unread);
    FilterDropsAll(ds, unread);
  }

  /** The id rendered for a notification splits back into its index. */
  lemma HighRiskIdInjective(i: nat, j: nat)
    requires HighRiskId(i) == HighRiskId(j)
    ensures i == j
  {
    var a, b := NatToString(i), NatToString(j);
    assert |a| == |b|;
    assert a == HighRiskId(i)[6..6 + |a|];
    assert b == HighRiskId(j)[6..6 + |b|];
    NatToStringInjective(i, j);
  }

  lemma DecliningIdInjective(i: nat, j: nat)
    requires DecliningId(i) == DecliningId(j)
    ensures i == j
  {
    assert NatToString(i) == DecliningId(i)[16..];
    assert NatToString(j) == DecliningId(j)[16..];
    NatToStringInjective(i, j);
  }

  /** A high-risk id never equals a declining id: the former has a digit
      where the latter has the "d" of "declining". */
  lemma IdKindsDiffer(i: nat, j: nat)
    ensures HighRiskId(i) != DecliningId(j)
  {
    assert HighRiskId(i)[6] == NatToString(i)[0];
    assert DecliningId(j)[6] == 'd';
  }

  /** The generated ids are pairwise distinct, so marking one as read
      touches exactly one entry. */
  lemma GeneratedIdsDistinct(roster: seq<Student>)
    ensures var ns := Generated(roster);
      forall i, j :: 0 <= i < j < |ns| ==> ns[i].id != ns[j].id
  {
    var ns := Generated(roster);
    var h := |AtLevel(roster, High)|;
    forall i, j | 0 <= i < j < |ns|
      ensures ns[i].id != ns[j].id
    {
      if j < h {
        if ns[i].id == ns[j].id { HighRiskIdInjective(i, j); }
      } else if i >= h {
        if ns[i].id == ns[j].id { DecliningIdInjective(i - h, j - h); }
      } else {
        IdKindsDiffer(i, j - h);
      }
    }
  }

  /** `prev.map(n => n.id === id ? { ...n, read: true } : n)`. */
  function MarkedRead(ns: seq<Notification>, id: string): (r: seq<Notification>)
    ensures |r| == |ns|
    ensures forall i :: 0 <= i < |ns| ==> r[i] == if ns[i].id == id then ns[i].(read := true) else ns[i]
  {
    if ns == [] then [] else [if ns[0].id == id then ns[0].(read := true) else ns[0]] + MarkedRead(ns[1..], id)
  }

  /** `prev.map(n => ({ ...n, read: true }))`. */
  function AllRead(ns: seq<Notification>): (r: seq<Notification>)
    ensures |r| == |ns|
    ensures forall i :: 0 <= i < |ns| ==> r[i] == ns[i].(read := true)
  {
    if ns == [] then [] else [ns[0].(read := true)] + AllRead(ns[1..])
  }

  /** Marking the same id twice is marking it once. */
  lemma MarkIdempotent(ns: seq<Notification>, id: string)
    ensures MarkedRead(MarkedRead(ns, id), id) == MarkedRead(ns, id)
  {
  }

  /** Marking as read never raises the unread count, and lowers it by the
      number of unread entries carrying the id. */
  lemma {:induction false} MarkNeverRaisesUnread(ns: seq<Notification>, id: string)
    ensures UnreadCount(MarkedRead(ns, id)) == UnreadCount(ns) - Count(ns, (n: Notification) => !n.read && n.id == id)
    ensures UnreadCount(MarkedRead(ns, id)) <= UnreadCount(ns)
  {
    if ns != [] {
      MarkNeverRaisesUnread(ns[1..], id);
      assert MarkedRead(ns, id)[1..] == MarkedRead(ns[1..], id);
    }
  }

  /** After marking all as read, nothing is unread, and only the flags changed. */
  lemma {:induction false} AllReadClearsUnread(ns: seq<Notification>)
    ensures UnreadCount(AllRead(ns)) == 0
    ensures forall i :: 0 <= i < |ns| ==> AllRead(ns)[i].(read := ns[i].read) == ns[i]
  {
    FilterDropsAll(AllRead(ns), (n: Notification) => !n.read);
  }

  /** The page's notification state. */
  class NotificationCenter {
    var notifications: seq<Notification>

    /** `useState(generateNotifications)` over the given roster. */
    constructor (roster: seq<Student>)
      ensures notifications == Generated(roster)
    {
      var generated := GenerateNotifications(roster);
      notifications := generated;
    }

    function Unread(): nat
      reads this
    {
      UnreadCount(notifications)
    }

    method MarkAsRead(id: string)
      modifies this
      ensures notifications == MarkedRead(old(notifications), id)
      ensures Unread() <= old(Unread())
    {
      MarkNeverRaisesUnread(notifications, id);
      notifications := MarkedRead(notifications, id);
    }

    method MarkAllAsRead()
      modifies this
      ensures notifications == AllRead(old(notifications))
      ensures Unread() == 0
    {
      AllReadClearsUnread(notifications);
      notifications := AllRead(notifications);
    }
  }

  /** `generateNotifications`: the two `forEach` loops pushing entries. */
  method GenerateNotifications(roster: seq<Student>) returns (notifications: seq<Notification>)
    ensures notifications == Generated(roster)
  {
    var highRiskStudents := AtLevel(roster, High);
    var declining := Take(AtLevel(roster, Medium), 2);
    ghost var hs := seq(|highRiskStudents|, k requires 0 <= k < |highRiskStudents| => HighRiskNotification(highRiskStudents[k], k));
    ghost var ds := seq(|declining|, k requires 0 <= k < |declining| => DecliningNotification(declining[k], k));
    notifications := [];
    var index := 0;
    while index < |highRiskStudents|
      invariant 0 <= index <= |highRiskStudents|
      invariant notifications == hs[..index]
    {
      notifications := notifications + [HighRiskNotification(highRiskStudents[index], index)];
      index := index + 1;
    }
    assert hs[..index] == hs;
    index := 0;
    while index < |declining|
      invariant 0 <= index <= |declining|
      invariant notifications == hs + ds[..index]
    {
      notifications := notifications + [DecliningNotification(declining[index], index)];
      index := index + 1;
    }
    assert ds[..index] == ds;
  }
}
