/**
 * The dispatch service: three single-entity senders that turn "no
 * recipient" and "delivery raised" into `false`, the chain of relationship
 * hops that finds the user a payment belongs to, and the bulk sender that
 * keeps going past each failing id.
 *
 * Delivery is abstract: `channel` says, for a recipient and a
 * notification, whether `notify` completes or raises, and with what
 * message. Log calls are returned as values.
 */
module NotificationService {
  import opened Wrappers
  import opened NumberFormat
  import opened Records

  /** The notification handed to `notify`, one variant per notification class. */
  datatype Notification =
    | Welcome(user: User)
    | PolicyCreated(policy: Policy)
    | PaymentConfirmation(payment: Payment)

  /** What one `notify` call does: it completes, or it raises an exception with a message. */
  datatype Outcome = Delivered | Raised(message: string)

  /** One call of `notify` on a recipient. */
  datatype Delivery = Delivery(recipient: User, notification: Notification)

  datatype Level = Info | Warning | Error

  /** A log call: its level, its message, and the exception message for errors. */
  datatype LogEntry = LogEntry(level: Level, message: string, error: Option<string>)

  /** What a single sender returns, the `notify` calls it made and what it logged. */
  datatype SendReport = SendReport(ok: bool, attempts: seq<Delivery>, log: LogEntry)

  /**
   * The `try { notify; log info; return true } catch { log error; return false }`
   * shared by the three single senders.
   */
  function Attempt(
    recipient: User, n: Notification, channel: (User, Notification) -> Outcome,
    sentMessage: string, failedMessage: string): (r: SendReport)
    ensures r.attempts == [Delivery(recipient, n)]
    ensures r.ok <==> channel(recipient, n) == Delivered
    ensures r.ok ==> r.log == LogEntry(Info, sentMessage, None)
    ensures !r.ok ==> r.log == LogEntry(Error, failedMessage, Some(channel(recipient, n).message))
  {
    match channel(recipient, n)
    case Delivered => SendReport(true, [Delivery(recipient, n)], LogEntry(Info, sentMessage, None))
    case Raised(e) => SendReport(false, [Delivery(recipient, n)], LogEntry(Error, failedMessage, Some(e)))
  }

  /** `sendWelcomeNotification`: one `notify` on the user; true exactly when it completes. */
  function SendWelcome(user: User, channel: (User, Notification) -> Outcome): (r: SendReport)
    ensures r.attempts == [Delivery(user, Welcome(user))]
    ensures r.ok <==> channel(user, Welcome(user)) == Delivered
    ensures r.log.level == (if r.ok then Info else Error)
  {
    Attempt(user, Welcome(user), channel, "Welcome notification sent", "Failed to send welcome notification")
  }

  /**
   * `sendPolicyCreatedNotification`: with no customer or no user nothing is
   * sent, a warning is logged and the result is false; otherwise one
   * `notify` on the customer's user, true exactly when it completes.
   */
  function SendPolicyCreated(policy: Policy, channel: (User, Notification) -> Outcome): (r: SendReport)
    ensures CustomerUser(policy.customer).None? ==> !r.ok && r.attempts == [] && r.log.level == Warning
    ensures CustomerUser(policy.customer).Some? ==>
      var u := policy.customer.value.user.value;
      r.attempts == [Delivery(u, PolicyCreated(policy))] &&
      (r.ok <==> channel(u, PolicyCreated(policy)) == Delivered)
    ensures r.ok ==> |r.attempts| == 1 && r.log.level == Info
  {
    match CustomerUser(policy.customer)
    case None =>
      SendReport(false, [], LogEntry(Warning, "Policy notification skipped: no customer or user found", None))
    case Some(u) =>
      Attempt(u, PolicyCreated(policy), channel, "Policy created notification sent", "Failed to send policy created notification")
  }

  /** A loaded policy with a null `customer_id` sends nothing and reports false. */
  lemma PolicyWithoutCustomerIdSendsNothing(policy: Policy, channel: (User, Notification) -> Outcome)
    requires Loaded(policy) && policy.customerId.None?
    ensures !SendPolicyCreated(policy, channel).ok && SendPolicyCreated(policy, channel).attempts == []
  {
  }

  /** The first hop that yields a value, in order; none when every hop yields nothing. */
  function FirstSome<T>(hops: seq<Option<T>>): (r: Option<T>)
    ensures r.None? <==> forall i :: 0 <= i < |hops| ==> hops[i].None?
    ensures forall i :: 0 <= i < |hops| && hops[i].Some? && (forall j :: 0 <= j < i ==> hops[j].None?) ==> r == hops[i]
  {
    if hops == [] then None
    else if hops[0].Some? then hops[0]
    else
      var r := FirstSome(hops[1..]);
      assert forall i :: 1 <= i < |hops| ==> hops[i] == hops[1..][i - 1];
      r
  }

  /**
   * The third hop, `payment.policy.customer.user`, yields nothing: a payment
   * has no `policy` relationship, so its `method_exists` guard fails.
   */
  function PolicyHop(payment: Payment): (u: Option<User>)
    ensures u.None?
  {
    None
  }

  /** The hops `getUserFromPayment` tries, in order. */
  function PaymentHops(payment: Payment): (hops: seq<Option<User>>)
    ensures |hops| == 3
    ensures hops[0] == payment.userRelation
    ensures hops[1] == CustomerUser(PaymentCustomer(payment))
    ensures hops[2].None?
  {
    [payment.userRelation, CustomerUser(PaymentCustomer(payment)), PolicyHop(payment)]
  }

  /**
   * `getUserFromPayment`: the `user` relationship if it yields a user, else
   * the user of the customer reached through the order; a missing link on
   * the way only means that hop yields nothing.
   */
  function UserFromPayment(payment: Payment): (u: Option<User>)
    ensures payment.userRelation.Some? ==> u == payment.userRelation
    ensures payment.userRelation.None? ==> u == CustomerUser(PaymentCustomer(payment))
  {
    FirstSome(PaymentHops(payment))
  }

  /** When the payment reaches its user through order and customer, that user is found. */
  lemma OrderChainFindsUser(payment: Payment, o: Order, c: Customer, u: User)
    requires payment.order == Some(o) && o.customer == Some(c) && c.user == Some(u)
    requires payment.userRelation.None?
    ensures UserFromPayment(payment) == Some(u)
  {
  }

  /**
   * `sendPaymentConfirmationNotification`: with no user resolved nothing is
   * sent, a warning is logged and the result is false; otherwise one
   * `notify` on that user, true exactly when it completes.
   */
  function SendPaymentConfirmation(payment: Payment, channel: (User, Notification) -> Outcome): (r: SendReport)
    ensures UserFromPayment(payment).None? ==> !r.ok && r.attempts == [] && r.log.level == Warning
    ensures UserFromPayment(payment).Some? ==>
      var u := UserFromPayment(payment).value;
      r.attempts == [Delivery(u, PaymentConfirmation(payment))] &&
      (r.ok <==> channel(u, PaymentConfirmation(payment)) == Delivered)
    ensures r.ok ==> |r.attempts| == 1 && r.log.level == Info
  {
    match UserFromPayment(payment)
    case None =>
      SendReport(false, [], LogEntry(Warning, "Payment confirmation skipped: no user found", None))
    case Some(u) =>
      Attempt(u, PaymentConfirmation(payment), channel, "Payment confirmation notification sent", "Failed to send payment confirmation notification")
  }

  // ---------------------------------------------------------------------
  // Bulk sending

  /**
   * One entry of the `errors` list, before it is rendered as text: the id
   * had no user, or `notify` raised with a message.
   */
  datatype BulkError = NotFound(id: int) | NotifyFailed(id: int, message: string)

  /** The `['sent' => …, 'failed' => …, 'errors' => […]]` result; `Message` renders each error. */
  datatype BulkResult = BulkResult(sent: nat, failed: nat, errors: seq<BulkError>)

  /** How one id of a bulk send ends. */
  datatype ItemOutcome = Sent | Failed(error: BulkError)

  const NotFoundPrefix := "User not found: "
  const NotifyPrefix := "Failed to notify user "

  /** The text the source appends to `errors` for each kind of failure. */
  function Message(e: BulkError): string {
    match e
    case NotFound(id) => NotFoundPrefix + IntToString(id)
    case NotifyFailed(id, message) => NotifyPrefix + IntToString(id) + ": " + message
  }

  /** The `errors` list as the source returns it: each error's text, in order. */
  function Messages(errors: seq<BulkError>): (texts: seq<string>)
    ensures |texts| == |errors|
    ensures forall i :: 0 <= i < |errors| ==> texts[i] == Message(errors[i])
  {
    seq(|errors|, i requires 0 <= i < |errors| => Message(errors[i]))
  }

  /** A "not found" message names the id: what follows the prefix parses back to it. */
  lemma NotFoundMessageNamesId(id: int)
    ensures var e := Message(NotFound(id));
      |e| > |NotFoundPrefix| && e[..|NotFoundPrefix|] == NotFoundPrefix &&
      ParseInt(e[|NotFoundPrefix|..]) == Some(id)
  {
    var e := Message(NotFound(id));
    assert e[|NotFoundPrefix|..] == IntToString(id);
    IntRoundTrip(id);
  }

  /**
   * A delivery failure's message names the id right after its prefix and
   * ends with the exception's message, verbatim.
   */
  lemma NotifyMessageNamesId(id: int, message: string)
    ensures var e, n := Message(NotifyFailed(id, message)), |NotifyPrefix| + |IntToString(id)|;
      |e| == n + 2 + |message| && e[..|NotifyPrefix|] == NotifyPrefix &&
      ParseInt(e[|NotifyPrefix|..n]) == Some(id) && e[n + 2..] == message
  {
    JoinedFour(NotifyPrefix, IntToString(id), ": ", message);
    IntRoundTrip(id);
  }

  /** Where the four parts of `a + b + c + d` sit. */
  lemma JoinedFour(a: string, b: string, c: string, d: string)
    ensures var s := a + b + c + d;
      |s| == |a| + |b| + |c| + |d| && s[..|a|] == a && s[|a|..|a| + |b|] == b && s[|a| + |b| + |c|..] == d
  {
    var s := a + b + c + d;
    assert s[..|a|] == a;
    assert s[|a|..|a| + |b|] == b;
    assert s[|a| + |b| + |c|..] == d;
  }

  /**
   * One id: an id without a user fails as not found; a found
   * user is sent to, failing with the exception's message if `notify` raises.
   */
  function ItemResult(id: int, users: map<int, User>, deliver: User -> Outcome): (o: ItemOutcome)
    ensures id !in users ==> o == Failed(NotFound(id))
    ensures id in users ==> (o.Sent? <==> deliver(users[id]) == Delivered)
    ensures id in users && deliver(users[id]).Raised? ==> o == Failed(NotifyFailed(id, deliver(users[id]).message))
  {
    if id !in users then Failed(NotFound(id))
    else match deliver(users[id])
      case Delivered => Sent
      case Raised(e) => Failed(NotifyFailed(id, e))
  }

  /** One turn of the loop: exactly one counter goes up, and a failure appends exactly its error. */
  function Record(r: BulkResult, o: ItemOutcome): (r': BulkResult)
    ensures o.Sent? ==> r'.sent == r.sent + 1 && r'.failed == r.failed && r'.errors == r.errors
    ensures o.Failed? ==> r'.sent == r.sent && r'.failed == r.failed + 1 && r'.errors == r.errors + [o.error]
  {
    match o
    case Sent => r.(sent := r.sent + 1)
    case Failed(e) => r.(failed := r.failed + 1, errors := r.errors + [e])
  }

  const Empty := BulkResult(0, 0, [])

  /** Outcomes recorded from first to last, starting from zero counters and no errors. */
  function Tally(outcomes: seq<ItemOutcome>): (r: BulkResult)
    ensures r.sent + r.failed == |outcomes| && |r.errors| == r.failed
  {
    if outcomes == [] then Empty
    else Record(Tally(outcomes[..|outcomes| - 1]), outcomes[|outcomes| - 1])
  }

  /** Each id's outcome, position by position. */
  function Outcomes(ids: seq<int>, users: map<int, User>, deliver: User -> Outcome): (os: seq<ItemOutcome>)
    ensures |os| == |ids|
    ensures forall i :: 0 <= i < |ids| ==> os[i] == ItemResult(ids[i], users, deliver)
  {
    seq(|ids|, i requires 0 <= i < |ids| => ItemResult(ids[i], users, deliver))
  }

  /** What the bulk loop computes. */
  function BulkSpec(ids: seq<int>, users: map<int, User>, deliver: User -> Outcome): (r: BulkResult)
    ensures r.sent + r.failed == |ids| && |r.errors| == r.failed
  {
    Tally(Outcomes(ids, users, deliver))
  }

  /** Two results side by side: counts added, errors concatenated. */
  function Combine(a: BulkResult, b: BulkResult): BulkResult {
    BulkResult(a.sent + b.sent, a.failed + b.failed, a.errors + b.errors)
  }

  /**
   * `sendBulkNotification`: counters start at zero, every id is handled in
   * input order, and a failing id neither stops the loop nor touches what
   * other ids contributed.
   */
  method SendBulk(ids: seq<int>, users: map<int, User>, deliver: User -> Outcome) returns (r: BulkResult)
    ensures r == BulkSpec(ids, users, deliver)
    ensures r.sent + r.failed == |ids| && |r.errors| == r.failed
  {
    r := BulkResult(0, 0, []);
    for i := 0 to |ids|
      invariant r == BulkSpec(ids[..i], users, deliver)
    {
      BulkStep(ids, i, users, deliver);
      var id := ids[i];
      if id !in users {
        assert ItemResult(id, users, deliver) == Failed(NotFound(id));
        r := r.(failed := r.failed + 1, errors := r.errors + [NotFound(id)]);
        continue;
      }
      match deliver(users[id])
      case Delivered =>
        assert ItemResult(id, users, deliver) == Sent;
        r := r.(sent := r.sent + 1);
      case Raised(e) =>
        assert ItemResult(id, users, deliver) == Failed(NotifyFailed(id, e));
        r := r.(failed := r.failed + 1, errors := r.errors + [NotifyFailed(id, e)]);
    }
    assert ids[..|ids|] == ids;
  }

  /** Sending one more id records its outcome on the result so far. */
  lemma BulkStep(ids: seq<int>, i: nat, users: map<int, User>, deliver: User -> Outcome)
    requires i < |ids|
    ensures BulkSpec(ids[..i + 1], users, deliver) ==
      Record(BulkSpec(ids[..i], users, deliver), ItemResult(ids[i], users, deliver))
  {
    var x, o := BulkSpec(ids[..i], users, deliver), ItemResult(ids[i], users, deliver);
    assert BulkSpec(ids[..i + 1], users, deliver) == Combine(x, Record(Empty, o)) by {
      assert ids[..i] + [ids[i]] == ids[..i + 1];
      BulkSplit(ids[..i], [ids[i]], users, deliver);
      BulkSingle(ids[i], users, deliver);
    }
    assert Combine(x, Record(Empty, o)) == Record(x, o) by {
      RecordCombine(x, Empty, o);
      assert x.errors + [] == x.errors;
    }
  }

  lemma RecordCombine(x: BulkResult, y: BulkResult, o: ItemOutcome)
    ensures Record(Combine(x, y), o) == Combine(x, Record(y, o))
  {
    if o.Failed? {
      assert (x.errors + y.errors) + [o.error] == x.errors + (y.errors + [o.error]);
    }
  }

  /** Tallying `a + b` is tallying `a` and `b` apart and combining the two. */
  lemma {:induction false} TallySplit(a: seq<ItemOutcome>, b: seq<ItemOutcome>)
    ensures Tally(a + b) == Combine(Tally(a), Tally(b))
  {
    if b == [] {
      assert a + b == a;
      assert Tally(a).errors + [] == Tally(a).errors;
    } else {
      var b' := b[..|b| - 1];
      assert (a + b)[..|a + b| - 1] == a + b';
      TallySplit(a, b');
      RecordCombine(Tally(a), Tally(b'), b[|b| - 1]);
    }
  }

  lemma OutcomesAppend(a: seq<int>, b: seq<int>, users: map<int, User>, deliver: User -> Outcome)
    ensures Outcomes(a + b, users, deliver) == Outcomes(a, users, deliver) + Outcomes(b, users, deliver)
  {
    var l, x, y := Outcomes(a + b, users, deliver), Outcomes(a, users, deliver), Outcomes(b, users, deliver);
    forall i | 0 <= i < |a + b| ensures l[i] == (x + y)[i] {
      if i < |a| {
        assert (a + b)[i] == a[i];
      } else {
        assert (a + b)[i] == b[i - |a|];
      }
    }
  }

  /** A single id sent alone records just its own outcome. */
  lemma BulkSingle(id: int, users: map<int, User>, deliver: User -> Outcome)
    ensures BulkSpec([id], users, deliver) == Record(Empty, ItemResult(id, users, deliver))
  {
    var os := Outcomes([id], users, deliver);
    assert os == [ItemResult(id, users, deliver)];
    assert os[..0] == [];
    assert Tally(os) == Record(Tally([]), os[0]);
  }

  /** A bulk send over `a + b` is the send over `a` followed by the send over `b`. */
  lemma BulkSplit(a: seq<int>, b: seq<int>, users: map<int, User>, deliver: User -> Outcome)
    ensures BulkSpec(a + b, users, deliver) == Combine(BulkSpec(a, users, deliver), BulkSpec(b, users, deliver))
  {
    OutcomesAppend(a, b, users, deliver);
    TallySplit(Outcomes(a, users, deliver), Outcomes(b, users, deliver));
  }

  /**
   * Per-item isolation: the id at position `i` contributes exactly what it
   * would contribute if sent alone, between the results of the ids before
   * and after it.
   */
  lemma BulkIsolation(ids: seq<int>, i: nat, users: map<int, User>, deliver: User -> Outcome)
    requires i < |ids|
    ensures BulkSpec(ids, users, deliver) ==
      Combine(Combine(BulkSpec(ids[..i], users, deliver), Record(Empty, ItemResult(ids[i], users, deliver))),
              BulkSpec(ids[i + 1..], users, deliver))
  {
    assert ids == ids[..i] + [ids[i]] + ids[i + 1..];
    BulkSplit(ids[..i] + [ids[i]], ids[i + 1..], users, deliver);
    BulkSplit(ids[..i], [ids[i]], users, deliver);
    BulkSingle(ids[i], users, deliver);
  }

  /** An id without a user puts exactly its "User not found" error in the result. */
  lemma MissingUserReported(ids: seq<int>, i: nat, users: map<int, User>, deliver: User -> Outcome)
    requires i < |ids| && ids[i] !in users
    ensures NotFound(ids[i]) in BulkSpec(ids, users, deliver).errors
  {
    BulkIsolation(ids, i, users, deliver);
    var before := BulkSpec(ids[..i], users, deliver);
    var e := NotFound(ids[i]);
    assert Record(Empty, ItemResult(ids[i], users, deliver)).errors == [e];
    assert Combine(before, Record(Empty, ItemResult(ids[i], users, deliver))).errors[|before.errors|] == e;
  }

  /** The errors of the failing outcomes, in order. */
  function FailureErrors(outcomes: seq<ItemOutcome>): seq<BulkError> {
    if outcomes == [] then []
    else (match outcomes[0] case Sent => [] case Failed(e) => [e]) + FailureErrors(outcomes[1..])
  }

  /** The tally lists the failures' errors in the order the outcomes came. */
  lemma {:induction false} TallyErrorsInOrder(outcomes: seq<ItemOutcome>)
    ensures Tally(outcomes).errors == FailureErrors(outcomes)
  {
    if outcomes != [] {
      var first, rest := [outcomes[0]], outcomes[1..];
      assert first + rest == outcomes;
      TallySplit(first, rest);
      assert first[..0] == [];
      assert Tally(first) == Record(Empty, outcomes[0]);
      assert Tally(first).errors == (match outcomes[0] case Sent => [] case Failed(e) => [e]);
      TallyErrorsInOrder(rest);
      assert Tally(outcomes).errors == Tally(first).errors + Tally(rest).errors;
    }
  }

  /** The bulk result lists the failing ids' errors in the order the ids were given. */
  lemma BulkErrorsInInputOrder(ids: seq<int>, users: map<int, User>, deliver: User -> Outcome)
    ensures BulkSpec(ids, users, deliver).errors == FailureErrors(Outcomes(ids, users, deliver))
  {
    TallyErrorsInOrder(Outcomes(ids, users, deliver));
  }

  /** When every id has a user and every delivery completes, everything is sent and nothing fails. */
  lemma {:induction false} AllDeliveredAllSent(ids: seq<int>, users: map<int, User>, deliver: User -> Outcome)
    requires forall i :: 0 <= i < |ids| ==> ids[i] in users && deliver(users[ids[i]]) == Delivered
    ensures BulkSpec(ids, users, deliver) == BulkResult(|ids|, 0, [])
  {
    if ids != [] {
      var ids' := ids[..|ids| - 1];
      AllDeliveredAllSent(ids', users, deliver);
      BulkSplit(ids', [ids[|ids| - 1]], users, deliver);
      assert ids' + [ids[|ids| - 1]] == ids;
      BulkSingle(ids[|ids| - 1], users, deliver);
      assert ItemResult(ids[|ids| - 1], users, deliver) == Sent;
    }
  }

  /** A valid id followed by two unknown ones: one sent, two "User not found" errors, in order. */
  lemma InvalidIdsExample(valid: int, users: map<int, User>, deliver: User -> Outcome)
    requires valid in users && deliver(users[valid]) == Delivered
    requires 99999 !in users && 99998 !in users
    ensures BulkSpec([valid, 99999, 99998], users, deliver) ==
      BulkResult(1, 2, [NotFound(99999), NotFound(99998)])
  {
    BulkSplit([valid], [99999, 99998], users, deliver);
    BulkSplit([99999], [99998], users, deliver);
    BulkSingle(valid, users, deliver);
    BulkSingle(99999, users, deliver);
    BulkSingle(99998, users, deliver);
    assert [valid] + [99999, 99998] == [valid, 99999, 99998];
    assert [99999] + [99998] == [99999, 99998];
  }
}
