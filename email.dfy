/** The email service: whether an SMTP transport is configured, sending one
    email (every attempt leaves exactly one email log), the newsletter to
    approved members, and the donation receipt and welcome email. The
    transport is abstract: what it does with a message is a parameter, and
    the HTML bodies are not modelled. */
module Email {
  import opened Records
  import opened Strings
  import opened Sorting
  import opened Store
  import opened Models

  /** The SMTP settings in the environment (None when unset). */
  datatype SmtpEnv = SmtpEnv(host: Option<string>, port: Option<string>, user: Option<string>, password: Option<string>)

  /** The transport's settings; the port is the text that is parsed. */
  datatype Transporter = Transporter(host: string, port: string, user: string, password: string)

  /** What the transport does with a message: accepts it, or throws. */
  datatype Delivery = Accepted(messageId: string) | Failed(message: string)

  /** What sendEmail does: returns `success: false, isMocked: true` when not
      configured, returns `success: true` with the message id, or rethrows
      the transport's error. */
  datatype SendResult = NotConfigured | Sent(messageId: string) | Threw(error: string)

  /** createTransporter: a transport when user and password are set and the
      user is not the placeholder `your-email`; the host defaults to Gmail's
      and the port to 587. */
  function CreateTransporter(env: SmtpEnv): (t: Option<Transporter>)
    ensures t.Some? <==>
      && env.user.Some? && env.user.value != ""
      && env.password.Some? && env.password.value != ""
      && !Occurs(env.user.value, "your-email")
    ensures t.Some? ==>
      && t.value.user == env.user.value && t.value.password == env.password.value
      && t.value.host == (if env.host.Some? && env.host.value != "" then env.host.value else "smtp.gmail.com")
      && t.value.port == (if env.port.Some? && env.port.value != "" then env.port.value else "587")
  {
    match (env.user, env.password)
    case (Some(user), Some(password)) =>
      if user == "" || password == "" || Includes(user, "your-email") then None
      else
        var host := match env.host case Some(h) => (if h != "" then h else "smtp.gmail.com") case None => "smtp.gmail.com";
        var port := match env.port case Some(p) => (if p != "" then p else "587") case None => "587";
        Some(Transporter(host, port, user, password))
    case _ => None
  }

  /** What one send attempt returns: unconfigured, the transport is not
      used; configured, the transport's message id, or its error rethrown. */
  function AttemptResult(env: SmtpEnv, delivery: Delivery): (res: SendResult)
    ensures res == NotConfigured <==> CreateTransporter(env).None?
    ensures res.Sent? <==> CreateTransporter(env).Some? && delivery.Accepted?
    ensures res.Sent? ==> res.messageId == delivery.messageId
    ensures res.Threw? ==> delivery.Failed? && res.error == delivery.message
  {
    if CreateTransporter(env).None? then NotConfigured
    else match delivery
      case Accepted(id) => Sent(id)
      case Failed(message) => Threw(message)
  }

  /** The log entry one send attempt writes: type `custom`, the recipient
      and subject, and status `sent` exactly when a configured transport
      accepted the message; otherwise `failed` with `SMTP not configured`
      or with the transport's error. */
  function AttemptLog(env: SmtpEnv, to: Value, subject: Value, delivery: Delivery): (log: Record)
    ensures log.Keys == if AttemptResult(env, delivery).Sent? then {"type", "to", "subject", "status"} else {"type", "to", "subject", "status", "error"}
    ensures log["type"] == Str("custom") && log["to"] == to && log["subject"] == subject
    ensures log["status"] == (if AttemptResult(env, delivery).Sent? then Str("sent") else Str("failed"))
    ensures CreateTransporter(env).None? ==> log["error"] == Str("SMTP not configured")
    ensures CreateTransporter(env).Some? && delivery.Failed? ==> log["error"] == Str(delivery.message)
  {
    var entry := map["type" := Str("custom"), "to" := to, "subject" := subject];
    if CreateTransporter(env).None? then entry["status" := Str("failed")]["error" := Str("SMTP not configured")]
    else match delivery
      case Accepted(_) => entry["status" := Str("sent")]
      case Failed(message) => entry["status" := Str("failed")]["error" := Str(message)]
  }

  /** Unconfigured, what the transport would have done makes no difference. */
  lemma UnconfiguredIgnoresTransport(env: SmtpEnv, to: Value, subject: Value, d1: Delivery, d2: Delivery)
    requires CreateTransporter(env).None?
    ensures AttemptResult(env, d1) == AttemptResult(env, d2) == NotConfigured
    ensures AttemptLog(env, to, subject, d1) == AttemptLog(env, to, subject, d2)
  {
  }

  /** sendEmail: asks the transport, when there is one, then appends exactly
      one email log and changes nothing else. */
  method SendEmail(db: Database, env: SmtpEnv, to: Value, subject: Value, delivery: Delivery, logId: string, now: int) returns (res: SendResult)
    modifies db
    ensures res == AttemptResult(env, delivery)
    ensures db.State() == old(db.State()).(emailLogs := old(db.emailLogs) + [Stamped(AttemptLog(env, to, subject, delivery), logId, "sentAt", now)])
  {
    var transporter := CreateTransporter(env);
    var entry := map["type" := Str("custom"), "to" := to, "subject" := subject];
    var log: Record;
    if transporter.None? {
      log := db.EmailLogCreate(entry["status" := Str("failed")]["error" := Str("SMTP not configured")], logId, now);
      return NotConfigured;
    }
    match delivery {
      case Accepted(messageId) =>
        log := db.EmailLogCreate(entry["status" := Str("sent")], logId, now);
        res := Sent(messageId);
      case Failed(message) =>
        log := db.EmailLogCreate(entry["status" := Str("failed")]["error" := Str(message)], logId, now);
        res := Threw(message);
    }
  }

  /** How Array.prototype.join writes a value: null as the empty string.
      Dates are written as their millisecond count. */
  function Text(v: Value): string {
    match v
    case Null => ""
    case Str(s) => s
    case Num(n) => if n < 0 then "-" + Decimal(-n) else Decimal(n)
    case Bool(b) => if b then "true" else "false"
    case Date(ms) => if ms < 0 then "-" + Decimal(-ms) else Decimal(ms)
  }

  predicate IsApproved(member: Record) {
    Field(member, "status") == Str("approved")
  }

  /** The newsletter's recipients: the `email` of each approved member, in
      the order of the member listing. */
  function Recipients(members: seq<Record>): (emails: seq<Value>)
    ensures |emails| == |Where(members, "status", Str("approved"))|
  {
    var approved := Where(members, "status", Str("approved"));
    seq(|approved|, i requires 0 <= i < |approved| => Field(approved[i], "email"))
  }

  /** The recipients are exactly the emails of the approved members. */
  lemma RecipientsExact(members: seq<Record>)
    ensures forall m :: m in members && IsApproved(m) ==> Field(m, "email") in Recipients(members)
    ensures forall e :: e in Recipients(members) ==> exists m :: m in members && IsApproved(m) && Field(m, "email") == e
  {
    var approved := Where(members, "status", Str("approved"));
    var emails := Recipients(members);
    forall m | m in members && IsApproved(m) ensures Field(m, "email") in emails {
      assert multiset(approved)[m] > 0;
      var i :| 0 <= i < |approved| && approved[i] == m;
      assert emails[i] == Field(m, "email");
    }
    forall e | e in emails ensures exists m :: m in members && IsApproved(m) && Field(m, "email") == e {
      var i :| 0 <= i < |emails| && emails[i] == e;
      assert approved[i] in multiset(approved);
      assert approved[i] in multiset(members);
    }
  }

  /** The newsletter's `to` field: the recipients joined with commas. It
      starts with the first recipient and holds nothing but the recipients'
      text and commas. */
  function NewsletterTo(emails: seq<Value>): (to: string)
    ensures |emails| > 0 ==> StartsWith(to, Text(emails[0]))
    ensures forall c :: c in to ==> c == ',' || exists i :: 0 <= i < |emails| && c in Text(emails[i])
  {
    var parts := seq(|emails|, i requires 0 <= i < |emails| => Text(emails[i]));
    assert forall c, i :: 0 <= i < |parts| && c in parts[i] ==> c in Text(emails[i]);
    Join(parts, ',')
  }

  /** When every recipient is a string without a comma, splitting the `to`
      field at commas lists the recipients again, one per approved member. */
  lemma NewsletterToListsRecipients(emails: seq<Value>)
    requires |emails| > 0
    requires forall i :: 0 <= i < |emails| ==> emails[i].Str? && ',' !in emails[i].s
    ensures |Split(NewsletterTo(emails), ',')| == |emails|
    ensures forall i :: 0 <= i < |emails| ==> Split(NewsletterTo(emails), ',')[i] == emails[i].s
  {
    var parts := seq(|emails|, i requires 0 <= i < |emails| => Text(emails[i]));
    SplitJoin(parts, ',');
  }

  /** What sendNewsletter returns: `No approved members found`,
      `success: true` with the number of recipients, or `success: false`
      with the error the send threw. */
  datatype NewsletterResult = NoApprovedMembers | Delivered(sent: nat) | NotDelivered(error: string)

  /** The outcome of a newsletter. With no approved member nothing is sent.
      Otherwise it is reported delivered to every approved member unless the
      transport threw, and that includes the unconfigured case, where
      sendEmail itself reported failure. */
  function NewsletterOutcome(env: SmtpEnv, members: seq<Record>, delivery: Delivery): (r: NewsletterResult)
    ensures r == NoApprovedMembers <==> forall j :: 0 <= j < |members| ==> !IsApproved(members[j])
    ensures r.Delivered? ==> r.sent == |Where(members, "status", Str("approved"))| > 0
    ensures r.Delivered? <==> (exists j :: 0 <= j < |members| && IsApproved(members[j])) && (CreateTransporter(env).None? || delivery.Accepted?)
    ensures r.NotDelivered? <==> (exists j :: 0 <= j < |members| && IsApproved(members[j])) && CreateTransporter(env).Some? && delivery.Failed?
  {
    var n := |Where(members, "status", Str("approved"))|;
    assert n == 0 <==> forall j :: 0 <= j < |members| ==> !IsApproved(members[j]) by {
      if n > 0 {
        var approved := Where(members, "status", Str("approved"));
        assert approved[0] in multiset(approved);
        assert approved[0] in multiset(members);
      } else {
        forall j | 0 <= j < |members| ensures !IsApproved(members[j]) {
          assert multiset(members)[members[j]] > 0;
        }
      }
    }
    if n == 0 then NoApprovedMembers
    else match AttemptResult(env, delivery)
      case Threw(error) => NotDelivered(error)
      case _ => Delivered(n)
  }

  /** sendNewsletter: one email to all approved members, in the member
      listing's order, or nothing at all when there are none. Members with
      equal `createdAt` are listed in the order SortBy gives them; the store
      promises no order among such ties, so neither does the `to` field
      beyond NewsletterOrder and RecipientsExact. */
  method SendNewsletter(db: Database, env: SmtpEnv, subject: Value, delivery: Delivery, logId: string, now: int) returns (res: NewsletterResult)
    modifies db
    ensures res == NewsletterOutcome(env, old(db.members), delivery)
    ensures var emails := Recipients(SortBy(old(db.members), "createdAt", false));
      if |emails| == 0 then db.State() == old(db.State())
      else db.State() == old(db.State()).(emailLogs := old(db.emailLogs) + [Stamped(AttemptLog(env, Str(NewsletterTo(emails)), subject, delivery), logId, "sentAt", now)])
  {
    var members := db.MemberFindAll();
    WhereCountPermutation(members, db.members, "status", Str("approved"));
    var emails := Recipients(members);
    if |emails| == 0 {
      return NoApprovedMembers;
    }
    var sent := SendEmail(db, env, Str(NewsletterTo(emails)), subject, delivery, logId, now);
    if sent.Threw? {
      res := NotDelivered(sent.error);
    } else {
      res := Delivered(|emails|);
    }
  }

  /** The newsletter goes out to the approved members newest first. */
  lemma NewsletterOrder(members: seq<Record>)
    ensures SortedBy(Where(SortBy(members, "createdAt", false), "status", Str("approved")), "createdAt", false)
  {
    WhereKeepsSorted(SortBy(members, "createdAt", false), "status", Str("approved"), "createdAt", false);
  }

  const ReceiptSubject: string := "Thank You for Your Donation - The Servants"
  const WelcomeSubject: string := "Welcome to The Servants"

  /** sendDonationReceipt: one email, to the given address, with the receipt subject. */
  method SendDonationReceipt(db: Database, env: SmtpEnv, email: Value, delivery: Delivery, logId: string, now: int) returns (res: SendResult)
    modifies db
    ensures res == AttemptResult(env, delivery)
    ensures db.State() == old(db.State()).(emailLogs := old(db.emailLogs) + [Stamped(AttemptLog(env, email, Str(ReceiptSubject), delivery), logId, "sentAt", now)])
  {
    res := SendEmail(db, env, email, Str(ReceiptSubject), delivery, logId, now);
  }

  /** sendWelcomeEmail: one email, to the member's address, with the welcome subject. */
  method SendWelcomeEmail(db: Database, env: SmtpEnv, member: Record, delivery: Delivery, logId: string, now: int) returns (res: SendResult)
    modifies db
    ensures res == AttemptResult(env, delivery)
    ensures db.State() == old(db.State()).(emailLogs := old(db.emailLogs) + [Stamped(AttemptLog(env, Field(member, "email"), Str(WelcomeSubject), delivery), logId, "sentAt", now)])
  {
    res := SendEmail(db, env, Field(member, "email"), Str(WelcomeSubject), delivery, logId, now);
  }
}
