/**
 * The notification confirming a payment. The greeting name comes from the
 * notifiable; the date is rendered by the caller's `formatDateTime`.
 */
module PaymentConfirmationNotification {
  import opened Wrappers
  import opened PhpText
  import opened NumberFormat
  import opened Records
  import opened Mail

  const Subject := "Payment Confirmation - InsureMore"
  const Opening := "We have successfully received your payment."
  const ReferencePrefix := "Payment Reference: "
  const AmountPrefix := "Amount: $"
  const DatePrefix := "Payment Date: "
  const MethodPrefix := "Payment Method: "
  const StatusPrefix := "Status: "
  const PaymentPathPrefix := "/payments/"
  const Outro: seq<string> := [
    "Your payment has been processed and your account has been updated accordingly.",
    "Thank you for your payment and for choosing InsureMore!",
    "If you have any questions about this payment, please contact our customer service team."]

  /** The `toArray` payload: raw amount, method and status. */
  datatype PaymentConfirmationData = PaymentConfirmationData(
    paymentId: int,
    paymentReference: string,
    amountCents: int,
    paymentMethod: string,
    status: string,
    notificationType: string,
    paymentDate: Timestamp)

  /** The delivery channels: mail only. */
  function Via(): (r: seq<string>)
    ensures |r| == 1 && r[0] == "mail"
  {
    ["mail"]
  }

  /**
   * The greeting name: the notifiable's trimmed full name when both name
   * fields are set (`isset`) and the result is truthy, else "Valued Customer".
   */
  function CustomerName(notifiable: User): (name: string)
    ensures Truthy(name)
    ensures notifiable.firstName.None? || notifiable.lastName.None? ==> name == ValuedCustomer
    ensures notifiable.firstName.Some? && notifiable.lastName.Some? ==>
      name == OrValuedCustomer(Trim(notifiable.firstName.value + " " + notifiable.lastName.value))
  {
    if notifiable.firstName.Some? && notifiable.lastName.Some? then
      OrValuedCustomer(Trim(notifiable.firstName.value + " " + notifiable.lastName.value))
    else
      ValuedCustomer
  }

  /** `paid_at` when it is set, `created_at` otherwise. */
  function PaymentDate(payment: Payment): (t: Timestamp)
    ensures payment.paidAt.Some? ==> t == payment.paidAt.value
    ensures payment.paidAt.None? ==> t == payment.createdAt
  {
    payment.paidAt.GetOr(payment.createdAt)
  }

  function ToMail(payment: Payment, notifiable: User, formatDateTime: Timestamp -> string): (m: MailMessage)
    ensures m.subject == Subject
    ensures m.greeting == Greeting(CustomerName(notifiable))
    ensures m.introLines == [
      Opening,
      ReferencePrefix + payment.reference,
      AmountPrefix + NumberFormat2(payment.amountCents),
      DatePrefix + formatDateTime(PaymentDate(payment)),
      MethodPrefix + Ucfirst(payment.payMethod),
      StatusPrefix + Ucfirst(payment.status)]
    ensures m.action == Action("View Payment Details", PaymentPathPrefix + IntToString(payment.id))
    ensures m.outroLines == Outro
  {
    MailMessage(
      Subject,
      Greeting(CustomerName(notifiable)),
      [ Opening,
        ReferencePrefix + payment.reference,
        AmountPrefix + NumberFormat2(payment.amountCents),
        DatePrefix + formatDateTime(PaymentDate(payment)),
        MethodPrefix + Ucfirst(payment.payMethod),
        StatusPrefix + Ucfirst(payment.status) ],
      Action("View Payment Details", PaymentPathPrefix + IntToString(payment.id)),
      Outro)
  }

  /** The stored payload keeps amount, method and status as they are. */
  function ToArray(payment: Payment): (d: PaymentConfirmationData)
    ensures d.paymentId == payment.id && d.paymentReference == payment.reference
    ensures d.amountCents == payment.amountCents
    ensures d.paymentMethod == payment.payMethod && d.status == payment.status
    ensures d.notificationType == "payment_confirmation"
    ensures d.paymentDate == PaymentDate(payment)
  {
    PaymentConfirmationData(
      payment.id,
      payment.reference,
      payment.amountCents,
      payment.payMethod,
      payment.status,
      "payment_confirmation",
      payment.paidAt.GetOr(payment.createdAt))
  }

  /** The mail shows the date of the same source the payload stores. */
  lemma DateLineMatchesPayload(payment: Payment, notifiable: User, formatDateTime: Timestamp -> string)
    ensures ToMail(payment, notifiable, formatDateTime).introLines[3] ==
      DatePrefix + formatDateTime(ToArray(payment).paymentDate)
  {
  }

  /** The amount line determines the stored amount: parsing it gives the cents back. */
  lemma AmountLineMatchesPayload(payment: Payment, notifiable: User, formatDateTime: Timestamp -> string)
    ensures var line := ToMail(payment, notifiable, formatDateTime).introLines[2];
      |line| >= |AmountPrefix| && ParseAmount(line[|AmountPrefix|..]) == Some(ToArray(payment).amountCents)
  {
    var line := ToMail(payment, notifiable, formatDateTime).introLines[2];
    assert line[|AmountPrefix|..] == NumberFormat2(payment.amountCents);
    AmountRoundTrip(payment.amountCents);
  }

  /** A card payment of 299.99 shows "Amount: $299.99" and "Payment Method: Card". */
  lemma CardPaymentExample(payment: Payment, notifiable: User, formatDateTime: Timestamp -> string)
    requires payment.amountCents == 29999 && payment.payMethod == "card"
    ensures var m := ToMail(payment, notifiable, formatDateTime);
      m.introLines[2] == AmountPrefix + "299.99" && m.introLines[4] == MethodPrefix + "Card"
  {
    var m := ToMail(payment, notifiable, formatDateTime);
    SmallAmountExample();
    assert m.introLines[2] == AmountPrefix + "299.99";
    assert UpperAscii('c') == 'C';
    assert Ucfirst("card") == "Card" by {
      assert "card"[1..] == "ard";
    }
  }
}
