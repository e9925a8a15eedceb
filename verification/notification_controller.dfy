/**
 * The notification controller: a user's own notifications, newest first, and
 * marking one of them read.
 */
module NotificationController {
  import opened Common
  import opened Query
  import opened NotificationStore

  const FETCH_FAILED := "Failed to fetch notifications"
  const MARKED_READ := "Notification marked as read"

  /** `WHERE receiver_id = ? AND receiver_role = ?`. */
  predicate Addressee(n: Notification, userId: nat, role: string)
  {
    n.receiverId == userId && n.receiverRole == role
  }

  /** `ORDER BY created_at DESC`. */
  predicate NewestFirst(a: Notification, b: Notification)
  {
    a.createdAt >= b.createdAt
  }

  lemma NewestFirstIsPreorder()
    ensures TotalPreorder(NewestFirst)
  {
  }

  /** The rows of one user in one role, newest first. */
  function MyNotifications(rows: seq<Notification>, userId: nat, role: string): (r: seq<Notification>)
    ensures multiset(r) == multiset(Filter(rows, n => Addressee(n, userId, role)))
    ensures forall n :: n in r <==> n in rows && Addressee(n, userId, role)
    ensures SortedBy(r, NewestFirst)
  {
    NewestFirstIsPreorder();
    var mine := Filter(rows, n => Addressee(n, userId, role));
    var r := SortBy(mine, NewestFirst);
    forall n ensures n in r <==> n in mine {
      SortByMembers(mine, NewestFirst, n);
    }
    r
  }

  datatype Reply = Listed(notifications: seq<Notification>) | Failure(code: nat, message: string)

  /** getMyNotifications; `queryFails` is a failing SELECT, answered with 500. */
  function GetMyNotifications(rows: seq<Notification>, userId: nat, role: string, queryFails: bool): (r: Reply)
    ensures queryFails <==> r == Failure(SERVER_ERROR, FETCH_FAILED)
    ensures r.Listed? ==> r.notifications == MyNotifications(rows, userId, role)
  {
    if queryFails then Failure(SERVER_ERROR, FETCH_FAILED) else Listed(MyNotifications(rows, userId, role))
  }

  /** `WHERE id = ? AND receiver_id = ?`: the row must be the caller's own. */
  predicate Targets(n: Notification, id: nat, userId: nat)
  {
    n.id == id && n.receiverId == userId
  }

  /** The table after `UPDATE notifications SET is_read = 1 WHERE id = ? AND receiver_id = ?`. */
  function MarkedRead(rows: seq<Notification>, id: nat, userId: nat): (r: seq<Notification>)
    ensures |r| == |rows|
    ensures forall i :: 0 <= i < |rows| ==> r[i] == if Targets(rows[i], id, userId) then rows[i].(isRead := true) else rows[i]
  {
    seq(|rows|, i requires 0 <= i < |rows| => if Targets(rows[i], id, userId) then rows[i].(isRead := true) else rows[i])
  }

  /** Marking twice is marking once. */
  lemma MarkedReadIdempotent(rows: seq<Notification>, id: nat, userId: nat)
    ensures MarkedRead(MarkedRead(rows, id, userId), id, userId) == MarkedRead(rows, id, userId)
  {
  }

  /**
   * With ids unique, at most one row changes, and it is the caller's row with
   * that id; a row of another receiver is never marked.
   */
  lemma MarkedReadChangesOneRow(rows: seq<Notification>, nextId: nat, id: nat, userId: nat)
    requires NotificationIds(rows, nextId)
    ensures forall i, j :: 0 <= i < j < |rows| && MarkedRead(rows, id, userId)[i] != rows[i] ==>
      MarkedRead(rows, id, userId)[j] == rows[j]
    ensures forall i :: 0 <= i < |rows| && rows[i].receiverId != userId ==> MarkedRead(rows, id, userId)[i] == rows[i]
  {
  }

  /** markAsRead: the same answer whether or not a row matched. */
  method MarkAsRead(db: NotificationDb, id: nat, userId: nat) returns (message: string)
    requires db.Valid()
    modifies db
    ensures db.Valid()
    ensures message == MARKED_READ
    ensures db.notifications == MarkedRead(old(db.notifications), id, userId)
    ensures db.logs == old(db.logs) && db.nextId == old(db.nextId)
  {
    db.notifications := MarkedRead(db.notifications, id, userId);
    message := MARKED_READ;
  }
}
