/**
 * The notification handlers. sendApp and sendEmail each look the delivery up
 * in the dedup log first and return if it is there; otherwise sendApp writes
 * an in-app notification and logs SUCCESS, and sendEmail calls the mailer and
 * logs SUCCESS or, if the mailer threw, FAILED. Each event handler reads its
 * texts from the message table and makes one or two such sends.
 *
 * The database and the mailer are not under the model's control: an
 * `Attempt` says, for one send, whether each insert succeeds, what the mailer
 * did and what `NOW()` reads.
 */
module NotificationHandler {
  import opened Common
  import opened NotificationMessages
  import opened NotificationStore

  /** How `emailService.sendEmail` ended: it resolved with a value, or it threw. */
  datatype EmailOutcome = Returned(delivered: bool) | Threw(message: string)

  /** The environment during one send. */
  datatype Attempt = Attempt(notificationInsertOk: bool, email: EmailOutcome, logInsertOk: bool, now: int)

  /**
   * One call of sendApp or sendEmail. For an e-mail `title` is the subject;
   * the address and the HTML body are not modelled.
   */
  datatype Send = Send(channel: Channel, eventType: string, userId: Option<nat>, role: Option<string>,
                       entityId: Option<nat>, title: string, message: string)

  function SendKey(s: Send): Key
  {
    Key(s.eventType, s.userId, s.entityId, s.channel)
  }

  /**
   * The tables after sendApp: nothing without a user id and a role or when the
   * log already holds the delivery; otherwise the notification, then its
   * SUCCESS row.
   */
  function AppDelivered(t: Tables, eventType: string, userId: Option<nat>, role: Option<string>,
                        entityId: Option<nat>, title: string, message: string, a: Attempt): (r: Tables)
    ensures !GivenId(userId) || !Given(role) || AlreadySent(t.logs, Key(eventType, userId, entityId, App)) ==> r == t
    ensures NotificationIds(t.notifications, t.nextId) ==> NotificationIds(r.notifications, r.nextId)
  {
    var k := Key(eventType, userId, entityId, App);
    if !GivenId(userId) || !Given(role) || AlreadySent(t.logs, k) then t
    else
      var notified := Notify(t, userId.value, role.value, title, message, entityId, a.now, a.notificationInsertOk);
      Log(notified, k, Success, None, a.now, a.logInsertOk)
  }

  /**
   * The tables after sendEmail: nothing when the log already holds the
   * delivery; otherwise one log row, FAILED with the error's message if the
   * mailer threw and SUCCESS whatever it returned. No notification is written.
   */
  function EmailDelivered(t: Tables, k: Key, a: Attempt): (r: Tables)
    requires k.channel == Email
    ensures AlreadySent(t.logs, k) ==> r == t
    ensures r.notifications == t.notifications && r.nextId == t.nextId
    ensures (!AlreadySent(t.logs, k) && a.email.Returned? && a.logInsertOk)
            ==> r.logs == t.logs + [LogRow(k.eventType, k.userId, k.entityId, Email, Success, None, a.now)]
    ensures (!AlreadySent(t.logs, k) && a.email.Threw? && a.logInsertOk)
            ==> r.logs == t.logs + [LogRow(k.eventType, k.userId, k.entityId, Email, Failed, Some(a.email.message), a.now)]
    ensures !a.logInsertOk ==> r == t
  {
    if AlreadySent(t.logs, k) then t
    else match a.email
      case Threw(m) => Log(t, k, Failed, Some(m), a.now, a.logInsertOk)
      case Returned(_) => Log(t, k, Success, None, a.now, a.logInsertOk)
  }

  /** sendApp's early return for a missing user id or role. */
  predicate Skipped(s: Send)
  {
    s.channel == App && (!GivenId(s.userId) || !Given(s.role))
  }

  /** A send that will change nothing, whatever the environment does. */
  predicate Settled(t: Tables, s: Send)
  {
    Skipped(s) || AlreadySent(t.logs, SendKey(s))
  }

  /**
   * One send on its own channel. A settled send changes nothing; otherwise
   * the log grows by at most one row, which carries the send's key.
   */
  function Delivered(t: Tables, s: Send, a: Attempt): (r: Tables)
    ensures Settled(t, s) ==> r == t
    ensures t.logs <= r.logs && |r.logs| <= |t.logs| + 1
    ensures |r.logs| > |t.logs| ==> KeyOf(r.logs[|t.logs|]) == SendKey(s)
    ensures NotificationIds(t.notifications, t.nextId) ==> NotificationIds(r.notifications, r.nextId)
  {
    match s.channel
    case App => AppDelivered(t, s.eventType, s.userId, s.role, s.entityId, s.title, s.message, a)
    case Email => EmailDelivered(t, SendKey(s), a)
  }

  /** A delivered app send wrote the notification for its receiver and then logged SUCCESS. */
  lemma AppDelivery(t: Tables, s: Send, a: Attempt)
    requires s.channel == App && !Settled(t, s)
    requires a.notificationInsertOk && a.logInsertOk
    ensures Delivered(t, s, a).notifications
            == t.notifications + [Notification(t.nextId, s.userId.value, s.role.value, s.title, s.message, s.entityId, false, a.now)]
    ensures Delivered(t, s, a).logs == t.logs + [LogRow(s.eventType, s.userId, s.entityId, App, Success, None, a.now)]
  {
  }

  /** Once a matchable send has been logged, repeating it changes nothing. */
  lemma DeliveredSettles(t: Tables, s: Send, a: Attempt)
    requires Keyed(SendKey(s)) && a.logInsertOk
    ensures Settled(Delivered(t, s, a), s)
  {
    var r := Delivered(t, s, a);
    if !Settled(t, s) && !Skipped(s) {
      assert |r.logs| == |t.logs| + 1;
      assert Matches(r.logs[|t.logs|], SendKey(s));
    }
  }

  /** A settled send stays settled while the log only grows. */
  lemma SettledPersists(t: Tables, u: Tables, s: Send)
    requires Settled(t, s) && t.logs <= u.logs
    ensures Settled(u, s)
  {
    if !Skipped(s) {
      assert u.logs == t.logs + u.logs[|t.logs|..];
      SentStaysSent(t.logs, u.logs[|t.logs|..], SendKey(s));
    }
  }

  /**
   * A failed e-mail is logged FAILED with the error's message, and that row
   * blocks every later attempt at the same delivery: there is no retry. This
   * is the handler's catch branch; the repository's own mailer catches its
   * errors and returns false (src/utils/email.service.js:12-27), so with that
   * mailer no FAILED row is written and the case below applies instead.
   */
  lemma FailedEmailBlocksRetry(t: Tables, s: Send, a: Attempt, b: Attempt)
    requires s.channel == Email && Keyed(SendKey(s)) && !AlreadySent(t.logs, SendKey(s))
    requires a.email.Threw? && a.logInsertOk
    ensures Delivered(t, s, a).logs
            == t.logs + [LogRow(s.eventType, s.userId, s.entityId, Email, Failed, Some(a.email.message), a.now)]
    ensures Delivered(Delivered(t, s, a), s, b) == Delivered(t, s, a)
  {
    DeliveredSettles(t, s, a);
  }

  /**
   * A normal return from the mailer is logged SUCCESS, whatever it returned:
   * a delivered mail (`true`) and the mailer's own swallowed failure
   * (`false`) leave the same row.
   */
  lemma ReturnLoggedSuccess(t: Tables, s: Send, a: Attempt)
    requires s.channel == Email && !AlreadySent(t.logs, SendKey(s))
    requires a.email.Returned? && a.logInsertOk
    ensures Delivered(t, s, a).logs == t.logs + [LogRow(s.eventType, s.userId, s.entityId, Email, Success, None, a.now)]
  {
  }

  /**
   * An app send whose entity is NULL never matches its own log row, so
   * sending it again writes a second notification.
   */
  lemma NullEntityRepeats(t: Tables, s: Send, a: Attempt, b: Attempt)
    requires s.channel == App && GivenId(s.userId) && Given(s.role) && s.entityId.None?
    requires a.notificationInsertOk && b.notificationInsertOk
    ensures |Delivered(Delivered(t, s, a), s, b).notifications| == |t.notifications| + 2
  {
    var u := Delivered(t, s, a);
    assert !AlreadySent(t.logs, SendKey(s)) && !AlreadySent(u.logs, SendKey(s));
  }

  /** A send that logs nothing new for a key already logged keeps every key logged once. */
  lemma DeliveredKeepsLoggedOnce(t: Tables, s: Send, a: Attempt)
    requires LoggedOnce(t.logs)
    ensures LoggedOnce(Delivered(t, s, a).logs)
  {
    var r := Delivered(t, s, a);
    if |r.logs| > |t.logs| {
      assert !AlreadySent(t.logs, SendKey(s));
      assert r.logs == t.logs + [r.logs[|t.logs|]];
      AppendUnsentKeepsOnce(t.logs, r.logs[|t.logs|]);
    }
  }

  /** The sends of one handler call, in order, each with its own environment. */
  function Dispatched(t: Tables, sends: seq<Send>, attempts: seq<Attempt>): (r: Tables)
    requires |sends| <= |attempts|
    ensures t.logs <= r.logs
    ensures NotificationIds(t.notifications, t.nextId) ==> NotificationIds(r.notifications, r.nextId)
    decreases |sends|
  {
    if |sends| == 0 then t
    else Dispatched(Delivered(t, sends[0], attempts[0]), sends[1..], attempts[1..])
  }

  /** After a run whose log inserts all succeed, its `i`-th send is settled, if it is matchable. */
  lemma {:induction false} DispatchedSettlesAt(t: Tables, sends: seq<Send>, attempts: seq<Attempt>, i: nat)
    requires |sends| <= |attempts| && i < |sends|
    requires forall s :: s in sends ==> Keyed(SendKey(s))
    requires forall a :: a in attempts ==> a.logInsertOk
    ensures Settled(Dispatched(t, sends, attempts), sends[i])
    decreases i
  {
    assert sends[0] in sends && attempts[0] in attempts;
    var u := Delivered(t, sends[0], attempts[0]);
    var more, later := sends[1..], attempts[1..];
    var r := Dispatched(u, more, later);
    assert r == Dispatched(t, sends, attempts);
    if i == 0 {
      DeliveredSettles(t, sends[0], attempts[0]);
      SettledPersists(u, r, sends[0]);
    } else {
      assert forall s :: s in more ==> s in sends;
      assert forall a :: a in later ==> a in attempts;
      DispatchedSettlesAt(u, more, later, i - 1);
      assert more[i - 1] == sends[i];
    }
  }

  /** After a run whose log inserts all succeed, every matchable send of it is settled. */
  lemma DispatchedSettles(t: Tables, sends: seq<Send>, attempts: seq<Attempt>)
    requires |sends| <= |attempts|
    requires forall s :: s in sends ==> Keyed(SendKey(s))
    requires forall a :: a in attempts ==> a.logInsertOk
    ensures forall i :: 0 <= i < |sends| ==> Settled(Dispatched(t, sends, attempts), sends[i])
  {
    forall i | 0 <= i < |sends| ensures Settled(Dispatched(t, sends, attempts), sends[i]) {
      DispatchedSettlesAt(t, sends, attempts, i);
    }
  }

  /** A run of settled sends changes nothing. */
  lemma {:induction false} SettledRunIsIdle(t: Tables, sends: seq<Send>, attempts: seq<Attempt>)
    requires |sends| <= |attempts|
    requires forall i :: 0 <= i < |sends| ==> Settled(t, sends[i])
    ensures Dispatched(t, sends, attempts) == t
    decreases |sends|
  {
    if |sends| > 0 {
      assert forall i :: 0 <= i < |sends[1..]| ==> sends[1..][i] == sends[i + 1];
      SettledRunIsIdle(t, sends[1..], attempts[1..]);
    }
  }

  /**
   * Delivering the same event twice is delivering it once: when the first run
   * logs every send and every send has a user and an entity to match on, the
   * second run finds each in the log and writes nothing.
   */
  lemma DispatchedTwiceIsOnce(t: Tables, sends: seq<Send>, first: seq<Attempt>, second: seq<Attempt>)
    requires |sends| <= |first| && |sends| <= |second|
    requires forall s :: s in sends ==> Keyed(SendKey(s))
    requires forall a :: a in first ==> a.logInsertOk
    ensures Dispatched(Dispatched(t, sends, first), sends, second) == Dispatched(t, sends, first)
  {
    DispatchedSettles(t, sends, first);
    SettledRunIsIdle(Dispatched(t, sends, first), sends, second);
  }

  /** No run of sends ever logs a matchable key twice. */
  lemma {:induction false} DispatchedKeepsLoggedOnce(t: Tables, sends: seq<Send>, attempts: seq<Attempt>)
    requires |sends| <= |attempts|
    requires LoggedOnce(t.logs)
    ensures LoggedOnce(Dispatched(t, sends, attempts).logs)
    decreases |sends|
  {
    if |sends| > 0 {
      DeliveredKeepsLoggedOnce(t, sends[0], attempts[0]);
      DispatchedKeepsLoggedOnce(Delivered(t, sends[0], attempts[0]), sends[1..], attempts[1..]);
    }
  }

  /* ---------------- routing ---------------- */

  /** The ids an event payload carries (`doctor.id`, `patient.id`, `appointmentId`). */
  datatype Payload = Payload(doctorId: Option<nat>, patientId: Option<nat>, appointmentId: Option<nat>)

  /** One send a handler makes: a channel and the role of its recipient. */
  datatype Route = Route(channel: Channel, recipient: Role)

  /**
   * The sends of each handler, in order. Every handler starts with an app
   * send; an e-mail, where there is one, goes to the same recipient after it.
   */
  function Routes(e: Event): (r: seq<Route>)
    ensures 1 <= |r| <= 2 && r[0].channel == App
    ensures forall i :: 0 <= i < |r| ==> r[i].recipient == Patient || r[i].recipient == Doctor
    ensures |r| == 2 && r[1].channel == Email ==> r[1].recipient == r[0].recipient
    ensures (exists i :: 0 <= i < |r| && r[i].channel == Email) <==>
            e in {DoctorApproved, DoctorRejected, AppointmentConfirmed, AppointmentRejected, AppointmentReminder}
  {
    match e
    case DoctorApproved | DoctorRejected => [Route(App, Doctor), Route(Email, Doctor)]
    case AppointmentRequested => [Route(App, Doctor)]
    case AppointmentConfirmed | AppointmentRejected | AppointmentReminder => [Route(App, Patient), Route(Email, Patient)]
    case AppointmentCancelledByPatient | AppointmentCancelledByAdmin => [Route(App, Doctor), Route(App, Patient)]
    case AppointmentCompleted | VisitSummaryAdded => [Route(App, Patient)]
  }

  function RecipientId(p: Payload, role: Role): Option<nat>
  {
    if role == Doctor then p.doctorId else p.patientId
  }

  /** The onboarding events are about the doctor; every other event about the appointment. */
  function EntityOf(e: Event, p: Payload): Option<nat>
  {
    if e == DoctorApproved || e == DoctorRejected then p.doctorId else p.appointmentId
  }

  /** The send of one route, with the texts the table gives the recipient's role. */
  function SendFor(e: Event, p: Payload, route: Route, n: Notice): Send
  {
    Send(route.channel, EventName(e), RecipientId(p, route.recipient), Some(RoleName(route.recipient)),
         EntityOf(e, p), n.title, n.message)
  }

  /** The sends a handler gets through, and whether it returns normally. */
  datatype Plan = Plan(sends: seq<Send>, complete: bool)

  /**
   * Route by route, the handler reads `messages[eventType].<role>` as it
   * builds the send; reading a member of `undefined` throws, and the handler
   * stops there with the sends before it made.
   */
  function PlanRoutes(e: Event, p: Payload, routes: seq<Route>): (r: Plan)
    ensures |r.sends| <= |routes|
    ensures r.complete <==> forall i :: 0 <= i < |routes| ==> Lookup(e, routes[i].recipient).Some?
    ensures r.complete ==> |r.sends| == |routes|
    ensures !r.complete ==> |r.sends| < |routes| && Lookup(e, routes[|r.sends|].recipient).None?
    ensures forall i :: 0 <= i < |r.sends| ==>
      Lookup(e, routes[i].recipient).Some? && r.sends[i] == SendFor(e, p, routes[i], Lookup(e, routes[i].recipient).value)
    decreases |routes|
  {
    if |routes| == 0 then Plan([], true)
    else match Lookup(e, routes[0].recipient)
      case None => Plan([], false)
      case Some(n) =>
        var rest := PlanRoutes(e, p, routes[1..]);
        assert forall i :: 1 <= i < |routes| ==> routes[i] == routes[1..][i - 1];
        Plan([SendFor(e, p, routes[0], n)] + rest.sends, rest.complete)
  }

  function PlanFor(e: Event, p: Payload): Plan
  {
    PlanRoutes(e, p, Routes(e))
  }

  /**
   * The admin-cancellation and visit-summary handlers read a table entry that
   * does not exist: they throw before their first send and write nothing.
   */
  lemma MissingEntriesSendNothing(p: Payload)
    ensures PlanFor(AppointmentCancelledByAdmin, p) == Plan([], false)
    ensures PlanFor(VisitSummaryAdded, p) == Plan([], false)
  {
  }

  /** Every other handler finds all its texts and makes all its sends. */
  lemma OtherEventsComplete(e: Event, p: Payload)
    requires e != AppointmentCancelledByAdmin && e != VisitSummaryAdded
    ensures PlanFor(e, p).complete && |PlanFor(e, p).sends| == |Routes(e)|
    ensures forall i :: 0 <= i < |Routes(e)| ==>
      PlanFor(e, p).sends[i].channel == Routes(e)[i].channel
      && PlanFor(e, p).sends[i].userId == RecipientId(p, Routes(e)[i].recipient)
      && PlanFor(e, p).sends[i].entityId == EntityOf(e, p)
  {
    var routes := Routes(e);
    forall i | 0 <= i < |routes| ensures Lookup(e, routes[i].recipient).Some? {
      assert Addressed(e, routes[i].recipient);
    }
  }

  /* ---------------- the methods ---------------- */

  /** sendApp. */
  method SendApp(db: NotificationDb, eventType: string, userId: Option<nat>, role: Option<string>,
                 entityId: Option<nat>, title: string, message: string, a: Attempt)
    requires db.Valid()
    modifies db
    ensures db.Valid()
    ensures db.State() == AppDelivered(old(db.State()), eventType, userId, role, entityId, title, message, a)
  {
    if !GivenId(userId) || !Given(role) {
      return;
    }
    var alreadySent := AlreadySent(db.logs, Key(eventType, userId, entityId, App));
    if alreadySent {
      return;
    }
    db.CreateAppNotification(userId.value, role.value, title, message, entityId, a.now, a.notificationInsertOk);
    db.LogNotification(Key(eventType, userId, entityId, App), Success, None, a.now, a.logInsertOk);
  }

  /** sendEmail; the mailer's behaviour is `a.email`. */
  method SendEmail(db: NotificationDb, eventType: string, userId: Option<nat>, entityId: Option<nat>, a: Attempt)
    requires db.Valid()
    modifies db
    ensures db.Valid()
    ensures db.State() == EmailDelivered(old(db.State()), Key(eventType, userId, entityId, Email), a)
  {
    var k := Key(eventType, userId, entityId, Email);
    var alreadySent := AlreadySent(db.logs, k);
    if alreadySent {
      return;
    }
    match a.email {
      case Threw(m) => db.LogNotification(k, Failed, Some(m), a.now, a.logInsertOk);
      case Returned(_) => db.LogNotification(k, Success, None, a.now, a.logInsertOk);
    }
  }

  /** One send, on its channel. */
  method Dispatch(db: NotificationDb, s: Send, a: Attempt)
    requires db.Valid()
    modifies db
    ensures db.Valid()
    ensures db.State() == Delivered(old(db.State()), s, a)
  {
    match s.channel {
      case App => SendApp(db, s.eventType, s.userId, s.role, s.entityId, s.title, s.message, a);
      case Email => SendEmail(db, s.eventType, s.userId, s.entityId, a);
    }
  }

  /**
   * The handler registered for `e`: its sends in order, each under its own
   * environment; `completed` is false where the handler throws.
   */
  method Handle(db: NotificationDb, e: Event, p: Payload, first: Attempt, second: Attempt) returns (completed: bool)
    requires db.Valid()
    modifies db
    ensures db.Valid()
    ensures completed == PlanFor(e, p).complete
    ensures db.State() == Dispatched(old(db.State()), PlanFor(e, p).sends, [first, second])
  {
    var plan := PlanFor(e, p);
    ghost var t := db.State();
    ghost var attempts := [first, second];
    if |plan.sends| > 0 {
      Dispatch(db, plan.sends[0], first);
      ghost var u := db.State();
      assert Dispatched(t, plan.sends, attempts) == Dispatched(u, plan.sends[1..], attempts[1..]);
      if |plan.sends| > 1 {
        Dispatch(db, plan.sends[1], second);
        assert plan.sends[1..][1..] == [];
        assert Dispatched(u, plan.sends[1..], attempts[1..]) == db.State();
      } else {
        assert plan.sends[1..] == [];
      }
    }
    completed := plan.complete;
  }
}
