/**
 * The two append-only tables behind the notification pipeline: `notifications`
 * (what the app shows a user) and `notification_logs` (one row per delivery
 * attempt, the dedup log). isNotificationAlreadySent is an existence query on
 * the log; logNotification and createAppNotification each append one row and
 * swallow a failing insert.
 */
module NotificationStore {
  import opened Common
  import opened Query

  datatype Channel = App | Email

  /** The `channel` column. */
  function ChannelName(c: Channel): string
  {
    match c
    case App => "APP"
    case Email => "EMAIL"
  }

  /** The `status` column: "SUCCESS" or "FAILED". */
  datatype Outcome = Success | Failed

  /** The four columns isNotificationAlreadySent compares; NULL as `None`. */
  datatype Key = Key(eventType: string, userId: Option<nat>, entityId: Option<nat>, channel: Channel)

  /** A row of `notification_logs` (its id is never read back, so it is not kept). */
  datatype LogRow = LogRow(
    eventType: string,
    userId: Option<nat>,
    entityId: Option<nat>,
    channel: Channel,
    status: Outcome,
    errorMessage: Option<string>,
    createdAt: int)

  function KeyOf(row: LogRow): Key
  {
    Key(row.eventType, row.userId, row.entityId, row.channel)
  }

  /** A key SQL can match at all: `col = NULL` is never true. */
  predicate Keyed(k: Key)
  {
    k.userId.Some? && k.entityId.Some?
  }

  /** `event_type = ? AND user_id = ? AND entity_id = ? AND channel = ?`. */
  predicate Matches(row: LogRow, k: Key)
  {
    Keyed(k) && KeyOf(row) == k
  }

  /**
   * isNotificationAlreadySent: some log row carries the key, whatever its
   * status or error message. A key with a NULL user or entity is never found.
   */
  function AlreadySent(logs: seq<LogRow>, k: Key): (r: bool)
    ensures r <==> exists i :: 0 <= i < |logs| && Matches(logs[i], k)
    ensures r ==> Keyed(k)
  {
    FirstWhere(logs, (row: LogRow) => Matches(row, k)).Some?
  }

  /** A key found in the log is still found after more rows are appended. */
  lemma SentStaysSent(logs: seq<LogRow>, more: seq<LogRow>, k: Key)
    requires AlreadySent(logs, k)
    ensures AlreadySent(logs + more, k)
  {
    var i :| 0 <= i < |logs| && Matches(logs[i], k);
    assert (logs + more)[i] == logs[i];
  }

  /** Round trip: once a row for a matchable key is logged, the key counts as sent. */
  lemma LoggedIsSent(logs: seq<LogRow>, row: LogRow)
    requires Keyed(KeyOf(row))
    ensures AlreadySent(logs + [row], KeyOf(row))
  {
    assert (logs + [row])[|logs|] == row;
  }

  /** After one more row, a key is sent when it was sent before or the new row carries it. */
  lemma SentAfterAppend(logs: seq<LogRow>, row: LogRow, k: Key)
    ensures AlreadySent(logs + [row], k) <==> AlreadySent(logs, k) || Matches(row, k)
  {
    var all := logs + [row];
    assert all[|logs|] == row;
    if AlreadySent(all, k) && !Matches(row, k) {
      var i :| 0 <= i < |all| && Matches(all[i], k);
      assert all[i] == logs[i];
    }
    if AlreadySent(logs, k) {
      var i :| 0 <= i < |logs| && Matches(logs[i], k);
      assert all[i] == logs[i];
    }
  }

  /** Status and error message are not part of the key: a FAILED row blocks as a SUCCESS row does. */
  lemma StatusIsNotKey(logs: seq<LogRow>, row: LogRow, status: Outcome, errorMessage: Option<string>, k: Key)
    ensures AlreadySent(logs + [row], k)
            == AlreadySent(logs + [row.(status := status, errorMessage := errorMessage)], k)
  {
    var other := row.(status := status, errorMessage := errorMessage);
    assert KeyOf(other) == KeyOf(row);
    SentAfterAppend(logs, row, k);
    SentAfterAppend(logs, other, k);
  }

  /** What the check-then-log discipline keeps: no matchable key is logged twice. */
  ghost predicate LoggedOnce(logs: seq<LogRow>)
  {
    forall i, j :: 0 <= i < j < |logs| ==> !Matches(logs[j], KeyOf(logs[i]))
  }

  /** Appending a row whose key is not yet sent keeps every matchable key logged once. */
  lemma {:induction false} AppendUnsentKeepsOnce(logs: seq<LogRow>, row: LogRow)
    requires LoggedOnce(logs)
    requires !AlreadySent(logs, KeyOf(row))
    ensures LoggedOnce(logs + [row])
  {
    var all := logs + [row];
    forall i, j | 0 <= i < j < |all| ensures !Matches(all[j], KeyOf(all[i])) {
      if j < |logs| {
        assert all[i] == logs[i] && all[j] == logs[j];
      } else {
        assert all[i] == logs[i] && all[j] == row;
        assert !Matches(logs[i], KeyOf(row));
      }
    }
  }

  /** A row of `notifications`. */
  datatype Notification = Notification(
    id: nat,
    receiverId: nat,
    receiverRole: string,
    title: string,
    message: string,
    appointmentId: Option<nat>,
    isRead: bool,
    createdAt: int)

  /** Both tables and the AUTO_INCREMENT counter of `notifications.id`. */
  datatype Tables = Tables(notifications: seq<Notification>, nextId: nat, logs: seq<LogRow>)

  ghost predicate NotificationIds(rows: seq<Notification>, nextId: nat)
  {
    && (forall i :: 0 <= i < |rows| ==> rows[i].id < nextId)
    && (forall i, j :: 0 <= i < j < |rows| ==> rows[i].id != rows[j].id)
  }

  /**
   * The tables after logNotification: one row with the given key, status and
   * error message, stamped `now`; a failing insert is swallowed and appends
   * nothing. The notifications table is untouched.
   */
  function Log(t: Tables, k: Key, status: Outcome, errorMessage: Option<string>, now: int, insertOk: bool): (r: Tables)
    ensures r.notifications == t.notifications && r.nextId == t.nextId
    ensures insertOk ==> |r.logs| == |t.logs| + 1 && r.logs[..|t.logs|] == t.logs
    ensures insertOk ==> KeyOf(r.logs[|t.logs|]) == k && r.logs[|t.logs|].status == status
                         && r.logs[|t.logs|].errorMessage == errorMessage
    ensures !insertOk ==> r == t
  {
    if insertOk
    then t.(logs := t.logs + [LogRow(k.eventType, k.userId, k.entityId, k.channel, status, errorMessage, now)])
    else t
  }

  /**
   * The tables after createAppNotification: one unread row for the receiver
   * with the next id; a failing insert is swallowed and appends nothing. The
   * log is untouched.
   */
  function Notify(t: Tables, userId: nat, role: string, title: string, message: string,
                  appointmentId: Option<nat>, now: int, insertOk: bool): (r: Tables)
    ensures r.logs == t.logs
    ensures NotificationIds(t.notifications, t.nextId) ==> NotificationIds(r.notifications, r.nextId)
    ensures insertOk ==> |r.notifications| == |t.notifications| + 1 && r.notifications[..|t.notifications|] == t.notifications
    ensures insertOk ==>
      var n := r.notifications[|t.notifications|];
      n.receiverId == userId && n.receiverRole == role && n.title == title && n.message == message
      && n.appointmentId == appointmentId && !n.isRead
    ensures !insertOk ==> r == t
  {
    if insertOk
    then Tables(t.notifications + [Notification(t.nextId, userId, role, title, message, appointmentId, false, now)],
                t.nextId + 1, t.logs)
    else t
  }

  /** The database connection the logger and the notification writer share. */
  class NotificationDb {
    var notifications: seq<Notification>
    var nextId: nat
    var logs: seq<LogRow>

    ghost predicate Valid()
      reads this
    {
      NotificationIds(notifications, nextId)
    }

    function State(): Tables
      reads this
    {
      Tables(notifications, nextId, logs)
    }

    constructor ()
      ensures Valid() && notifications == [] && logs == [] && nextId == 1
    {
      notifications := [];
      nextId := 1;
      logs := [];
    }

    /** logNotification; `errorMessage` is `None` where the caller leaves it at its null default. */
    method LogNotification(k: Key, status: Outcome, errorMessage: Option<string>, now: int, insertOk: bool)
      requires Valid()
      modifies this
      ensures Valid()
      ensures State() == Log(old(State()), k, status, errorMessage, now, insertOk)
    {
      if insertOk {
        logs := logs + [LogRow(k.eventType, k.userId, k.entityId, k.channel, status, errorMessage, now)];
      }
    }

    /** createAppNotification; `appointmentId` is `None` where the caller leaves it at its null default. */
    method CreateAppNotification(userId: nat, role: string, title: string, message: string,
                                 appointmentId: Option<nat>, now: int, insertOk: bool)
      requires Valid()
      modifies this
      ensures Valid()
      ensures State() == Notify(old(State()), userId, role, title, message, appointmentId, now, insertOk)
    {
      if insertOk {
        notifications := notifications + [Notification(nextId, userId, role, title, message, appointmentId, false, now)];
        nextId := nextId + 1;
      }
    }
  }
}
