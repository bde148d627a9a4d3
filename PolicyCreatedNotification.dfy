/**
 * The notification sent when a policy is created. The greeting name comes
 * from the policy's customer's user, not from the notifiable, so the
 * notifiable is not a parameter here. Rendering the creation date is the
 * caller's `formatDate`.
 */
module PolicyCreatedNotification {
  import opened Wrappers
  import opened PhpText
  import opened NumberFormat
  import opened Records
  import opened Mail

  const Subject := "Your Insurance Policy Has Been Created"
  const ProviderFallback := "Your Insurance Provider"
  const PolicyIdPrefix := "Policy ID: #"
  const ProviderPrefix := "Provider: "
  const CreatedOnPrefix := "Created on: "
  const PolicyPathPrefix := "/policies/"
  const Opening := "Great news! Your insurance policy has been successfully created."
  const Outro: seq<string> := [
    "Please keep this information for your records.",
    "If you have any questions about your policy, please contact our customer service team.",
    "Thank you for choosing InsureMore!"]

  /** The `toArray` payload: raw ids and the raw creation time. */
  datatype PolicyCreatedData = PolicyCreatedData(
    policyId: int,
    customerId: Option<int>,
    providerId: Option<int>,
    notificationType: string,
    createdAt: Timestamp)

  /** The delivery channels: mail only. */
  function Via(): (r: seq<string>)
    ensures |r| == 1 && r[0] == "mail"
  {
    ["mail"]
  }

  /**
   * The greeting name: the trimmed full name of the customer's user, or
   * "Valued Customer" when there is no customer, no user, or a falsy name.
   */
  function CustomerName(policy: Policy): (name: string)
    ensures Truthy(name)
    ensures CustomerUser(policy.customer).None? ==> name == ValuedCustomer
    ensures CustomerUser(policy.customer).Some? ==>
      var u := CustomerUser(policy.customer).value;
      name == OrValuedCustomer(FullName(u.firstName, u.lastName))
  {
    match CustomerUser(policy.customer)
    case Some(u) => OrValuedCustomer(FullName(u.firstName, u.lastName))
    case None => ValuedCustomer
  }

  /**
   * `provider ? provider.name ?? fallback : fallback`: the provider's name
   * when there is a provider with a non-null name (even an empty one),
   * the fallback otherwise.
   */
  function ProviderName(policy: Policy): (name: string)
    ensures policy.provider.Some? && policy.provider.value.name.Some? ==> name == policy.provider.value.name.value
    ensures policy.provider.None? || policy.provider.value.name.None? ==> name == ProviderFallback
  {
    match policy.provider
    case Some(p) => p.name.GetOr(ProviderFallback)
    case None => ProviderFallback
  }

  function ToMail(policy: Policy, formatDate: Timestamp -> string): (m: MailMessage)
    ensures m.subject == Subject
    ensures m.greeting == Greeting(CustomerName(policy))
    ensures m.introLines == [
      Opening,
      PolicyIdPrefix + IntToString(policy.id),
      ProviderPrefix + ProviderName(policy),
      CreatedOnPrefix + formatDate(policy.createdAt)]
    ensures m.action == Action("View Policy Details", PolicyPathPrefix + IntToString(policy.id))
    ensures m.outroLines == Outro
  {
    MailMessage(
      Subject,
      Greeting(CustomerName(policy)),
      [ Opening,
        PolicyIdPrefix + IntToString(policy.id),
        ProviderPrefix + ProviderName(policy),
        CreatedOnPrefix + formatDate(policy.createdAt) ],
      Action("View Policy Details", PolicyPathPrefix + IntToString(policy.id)),
      Outro)
  }

  /** The stored payload; `provider_id` is null exactly when there is no provider. */
  function ToArray(policy: Policy): (d: PolicyCreatedData)
    ensures d.policyId == policy.id && d.customerId == policy.customerId
    ensures d.providerId.None? <==> policy.provider.None?
    ensures policy.provider.Some? ==> d.providerId == Some(policy.provider.value.id)
    ensures d.notificationType == "policy_created"
    ensures d.createdAt == policy.createdAt
  {
    PolicyCreatedData(
      policy.id,
      policy.customerId,
      match policy.provider case Some(p) => Some(p.id) case None => None,
      "policy_created",
      policy.createdAt)
  }

  /**
   * The policy id shown in the mail and the id in the action URL are the
   * same number, and both are the id stored in the payload.
   */
  lemma IdLineAndUrlAgree(policy: Policy, formatDate: Timestamp -> string)
    ensures var m := ToMail(policy, formatDate);
      ParseInt(m.introLines[1][|PolicyIdPrefix|..]) == Some(ToArray(policy).policyId) &&
      ParseInt(m.action.url[|PolicyPathPrefix|..]) == Some(ToArray(policy).policyId)
  {
    var m := ToMail(policy, formatDate);
    assert m.introLines[1][|PolicyIdPrefix|..] == IntToString(policy.id);
    assert m.action.url[|PolicyPathPrefix|..] == IntToString(policy.id);
    IntRoundTrip(policy.id);
  }

  /** A policy without a customer is still formatted, greeting "Valued Customer". */
  lemma NoCustomerGreetsValuedCustomer(policy: Policy, formatDate: Timestamp -> string)
    requires policy.customer.None?
    ensures ToMail(policy, formatDate).greeting == Greeting(ValuedCustomer)
  {
  }
}
