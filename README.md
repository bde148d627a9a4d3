# InsureMore notifications, modelled in Dafny

This project models the notification subsystem of the InsureMore insurance
API (a Laravel application). It has two parts.

- **Dispatch** (`NotificationService`):
  - Three senders notify one recipient each: a new user, the customer of a
    new policy, and the payer of a payment. A sender returns `false` instead
    of raising when there is no recipient or when delivery raises.
  - A helper finds the user a payment belongs to. It tries relationship hops
    in a fixed order and returns the first hit.
  - A bulk sender walks a list of user ids. It counts what was sent and what
    failed, and it collects one error message per failure, in input order.
- **Formatting** (the three notification classes): each class has `via`, a
  `toMail` that builds the e-mail (subject, greeting, lines and action) and
  a `toArray` that builds the stored payload. They depend on a few PHP
  string rules, which are modelled exactly:
  - `trim` with its default character list;
  - the truthiness behind `?:`, where `""` and `"0"` are falsy;
  - `ucfirst`;
  - `number_format($amount, 2)`.

Files, in dependency order:

- `Wrappers.dfy` is `Option`: a nullable column or a relationship that may
  find nothing.
- `PhpText.dfy` holds `trim`, truthiness and `ucfirst`.
- `NumberFormat.dfy` holds the decimal rendering of ids and of amounts in
  cents. Each renderer has a parser beside it and a round-trip lemma.
- `Records.dfy` holds the user, customer, order, provider, policy and
  payment records. Their relationships are optional fields.
- `Mail.dfy` holds the mail message and the greeting-name rule that all
  three notifications share.
- `WelcomeNotification.dfy`, `PolicyCreatedNotification.dfy` and
  `PaymentConfirmationNotification.dfy` hold `via`, `toMail` and `toArray`
  of each class.
- `NotificationService.dfy` holds the senders, the payment-to-user chain and
  the bulk loop. The bulk loop is an imperative method, proved equal to a
  left fold over the per-id outcomes.

Delivery is a parameter. For the single senders it is a function
`channel(recipient, notification)`. For the bulk sender it is a function
`deliver(user)`. Either one says whether `notify` completes or raises, and
with which message. Log calls are returned as values: level, message, and
the exception message for errors. Date rendering is a parameter too:
`formatDate` / `formatDateTime`.

## Model

| member | source | states |
|---|---|---|
| PhpText.Trim | app/Notifications/WelcomeNotification.php:40 | `trim` never lengthens its input, and a non-empty result neither starts nor ends with a default trim character |
| PhpText.TrimStartCuts | app/Notifications/WelcomeNotification.php:40 | `ltrim` keeps a suffix of its input, removes only default trim characters, and stops at the first character outside that set |
| PhpText.TrimEndCuts | app/Notifications/WelcomeNotification.php:40 | `rtrim` keeps a prefix, removes only trim characters, and stops at the last character outside the set |
| PhpText.TrimIsInfix | app/Notifications/WelcomeNotification.php:40 | `trim` yields an infix framed by runs of trim characters; the result neither starts nor ends with one |
| PhpText.TrimAllTrimmed | app/Notifications/WelcomeNotification.php:40 | a string of spaces, tabs, newlines, CR, NUL and vertical tabs trims to `""` |
| PhpText.TrimUntrimmed | app/Notifications/WelcomeNotification.php:40 | a string whose ends are not trim characters is left unchanged |
| PhpText.TrimIdempotent | app/Notifications/WelcomeNotification.php:62 | a general fact about `trim` (the source trims each name once): trimming a trimmed string changes nothing |
| PhpText.Truthy | app/Notifications/WelcomeNotification.php:40 | the test behind `?:` on a string: a truthy string is non-empty, and every string of two or more characters is truthy (only `""` and `"0"` are falsy) |
| PhpText.UpperAscii | app/Notifications/PaymentConfirmationNotification.php:61-62 | an ASCII lower-case letter becomes its upper-case letter; any other character is kept |
| PhpText.Ucfirst | app/Notifications/PaymentConfirmationNotification.php:61-62 | `ucfirst` keeps the length, upper-cases only the first character, and leaves every later character unchanged |
| PhpText.UcfirstIdempotent | app/Notifications/PaymentConfirmationNotification.php:61-62 | a general fact about `ucfirst` (the source applies it once): applying it twice is the same as once |
| NumberFormat.Digits | app/Notifications/PolicyCreatedNotification.php:52 | an integer's digits: non-empty, all decimal digits, no leading zero |
| NumberFormat.ValueOfDigits | app/Notifications/PolicyCreatedNotification.php:52 | reading the digits of `n` back gives `n` |
| NumberFormat.IntToString | app/Services/NotificationService.php:105 | interpolating an integer never gives the empty string |
| NumberFormat.ParseDigits | app/Services/NotificationService.php:105 | a non-empty run of digits parses to its decimal value |
| NumberFormat.ParseNegatedDigits | app/Services/NotificationService.php:105 | `-` followed by a non-empty run of digits parses to minus its value |
| NumberFormat.IntRoundTrip | app/Services/NotificationService.php:105 | the interpolated id parses back to the same integer, negatives included |
| NumberFormat.Group | app/Notifications/PaymentConfirmationNotification.php:48 | grouping non-empty digits adds one `,` per full group of three after the first digit: the length grows by `(n - 1) / 3` |
| NumberFormat.LastThreeSplit | app/Notifications/PaymentConfirmationNotification.php:48 | splitting off the last group of three digits loses nothing, and both parts stay all digits |
| NumberFormat.StripCommasJoin | app/Notifications/PaymentConfirmationNotification.php:48 | removing commas from `x,ddd` gives the comma-free `x` followed by `ddd` |
| NumberFormat.StripGroup | app/Notifications/PaymentConfirmationNotification.php:48 | thousands grouping only inserts commas: removing them gives the digits back |
| NumberFormat.AppendGroupWellGrouped | app/Notifications/PaymentConfirmationNotification.php:48 | appending `,ddd` to a well-grouped string keeps it well grouped |
| NumberFormat.GroupWellGrouped | app/Notifications/PaymentConfirmationNotification.php:48 | grouped digits start with a digit, and a character is `,` exactly when its distance from the end is a multiple of four |
| NumberFormat.TwoDigits | app/Notifications/PaymentConfirmationNotification.php:48 | the decimals are always exactly two digits, with a leading zero below ten, and they read back as the remainder |
| NumberFormat.FormatUnsigned | app/Notifications/PaymentConfirmationNotification.php:48 | an unsigned amount ends in `.` and two digits, and does not start with `-` |
| NumberFormat.NumberFormat2 | app/Notifications/PaymentConfirmationNotification.php:48 | `number_format(x, 2)` ends in `.` and two digits, and starts with `-` exactly when the amount is negative |
| NumberFormat.FormatUnsignedGrouped | app/Notifications/PaymentConfirmationNotification.php:48 | the whole-unit part before the `.` is grouped in thousands with `,` |
| NumberFormat.FormatUnsignedParts | app/Notifications/PaymentConfirmationNotification.php:48 | the formatted amount is the grouped whole units, `.`, then the two-digit remainder |
| NumberFormat.SmallAmountExample | app/Notifications/PaymentConfirmationNotification.php:48 | 299.99 is rendered `299.99`, with no separator |
| NumberFormat.ThousandsAmountExample | app/Notifications/PaymentConfirmationNotification.php:48 | 1234.50 is rendered `1,234.50`, with a separator and a trailing zero |
| NumberFormat.JoinedParts | app/Notifications/PaymentConfirmationNotification.php:48 | in `whole.dd` the point sits third from the end, preceded by exactly `whole` and followed by `dd` |
| NumberFormat.ParseUnsignedOf | app/Notifications/PaymentConfirmationNotification.php:48 | a grouped whole part, `.` and two digits parse to whole × 100 + decimals |
| NumberFormat.ParseFormatted | app/Notifications/PaymentConfirmationNotification.php:48 | grouped digits, `.` and two decimal digits parse to the digits' value × 100 plus the decimals |
| NumberFormat.UnsignedRoundTrip | app/Notifications/PaymentConfirmationNotification.php:48 | parsing a formatted unsigned amount gives back its cents |
| NumberFormat.ParseAmountSigned | app/Notifications/PaymentConfirmationNotification.php:48 | a leading `-` negates what the rest parses to; without one the rest parses unchanged |
| NumberFormat.AmountRoundTrip | app/Notifications/PaymentConfirmationNotification.php:48 | the amount text determines the amount: parsing `number_format(x, 2)` gives back `x` in cents, for every sign |
| Records.CustomerUser | app/Models/Customer.php:13-16 | the user of an optional customer exists exactly when both the customer and its user exist, and it is that user |
| Records.PaymentCustomer | app/Models/Payment.php:38-41 | a payment's customer, reached through its order, exists exactly when the order and the order's customer both exist |
| Mail.OrEmpty | app/Notifications/WelcomeNotification.php:40 | a null name concatenates as `""`; a present name as itself |
| Mail.FullName | app/Notifications/WelcomeNotification.php:40 | `trim(first . ' ' . last)` is at most the two names plus one space long, and has no trim character at either end |
| Mail.OrValuedCustomer | app/Notifications/WelcomeNotification.php:40 | `name ?: 'Valued Customer'` is always truthy, keeps the name exactly when it is truthy, and otherwise is `Valued Customer` |
| Mail.Greeting | app/Notifications/WelcomeNotification.php:44 | `Hello {name}!` is `Hello `, the name verbatim, then `!`, seven characters longer than the name |
| Mail.BlankFullName | app/Notifications/WelcomeNotification.php:40 | missing or blank first and last names trim to `""` |
| Mail.JoinedFullName | app/Notifications/WelcomeNotification.php:40 | names without surrounding blanks are joined by exactly one space |
| Mail.ZeroFullName | app/Notifications/WelcomeNotification.php:40 | first name `"0"` with no last name trims to `"0"`, a falsy name |
| WelcomeNotification.Via | app/Notifications/WelcomeNotification.php:30-33 | the only channel is `mail` |
| WelcomeNotification.ToMail | app/Notifications/WelcomeNotification.php:38-51 | fixed subject; `Hello <name>!` with the trimmed name or the fallback; two welcome lines then the account line with the e-mail; `Get Started` to `/dashboard`; two closing lines |
| WelcomeNotification.ToArray | app/Notifications/WelcomeNotification.php:58-66 | copies id and e-mail, stores the trimmed name without fallback, and sets type `welcome` |
| WelcomeNotification.GreetingAgreesWithPayload | app/Notifications/WelcomeNotification.php:40-62 | the mail greets by the stored `user_name` exactly when it is truthy, and by `Valued Customer` otherwise |
| WelcomeNotification.AccountLineEndsWithEmail | app/Notifications/WelcomeNotification.php:47 | the account line ends with the user's e-mail address, verbatim |
| WelcomeNotification.BlankNamesGreetValuedCustomer | app/Notifications/WelcomeNotification.php:40-44 | blank or missing names greet `Valued Customer` and store an empty `user_name` |
| WelcomeNotification.ZeroNameGreetsValuedCustomer | app/Notifications/WelcomeNotification.php:40-44 | first name `"0"` greets `Valued Customer` but is stored as `"0"` |
| WelcomeNotification.JohnDoeGreeting | app/Notifications/WelcomeNotification.php:40-44 | first name John and last name Doe greet `Hello John Doe!` |
| PolicyCreatedNotification.Via | app/Notifications/PolicyCreatedNotification.php:30-33 | the only channel is `mail` |
| PolicyCreatedNotification.CustomerName | app/Notifications/PolicyCreatedNotification.php:40-44 | the name comes from the policy's customer's user; it is `Valued Customer` without customer or user or when the trimmed name is falsy; always truthy |
| PolicyCreatedNotification.ProviderName | app/Notifications/PolicyCreatedNotification.php:46 | the provider's name when a provider with a non-null name exists, an empty name included; otherwise `Your Insurance Provider` |
| PolicyCreatedNotification.ToMail | app/Notifications/PolicyCreatedNotification.php:38-59 | fixed subject; greeting by the customer name; the id, provider and creation-date lines; `View Policy Details` to `/policies/<id>`; three closing lines |
| PolicyCreatedNotification.ToArray | app/Notifications/PolicyCreatedNotification.php:66-75 | raw policy id, customer id and creation time; `provider_id` is null exactly when there is no provider and is the provider's id otherwise |
| PolicyCreatedNotification.IdLineAndUrlAgree | app/Notifications/PolicyCreatedNotification.php:52-55 | the id after `Policy ID: #` and the id after `/policies/` both parse back to the stored `policy_id` |
| PolicyCreatedNotification.NoCustomerGreetsValuedCustomer | app/Notifications/PolicyCreatedNotification.php:40-44 | a policy without a customer still gets a mail, greeting `Valued Customer` |
| PaymentConfirmationNotification.Via | app/Notifications/PaymentConfirmationNotification.php:30-33 | the only channel is `mail` |
| PaymentConfirmationNotification.CustomerName | app/Notifications/PaymentConfirmationNotification.php:40-45 | the notifiable's name is used only when both name fields are set (`isset`) and the trimmed result is truthy; otherwise `Valued Customer` |
| PaymentConfirmationNotification.PaymentDate | app/Notifications/PaymentConfirmationNotification.php:50-52 | `paid_at` when it is set, else `created_at` |
| PaymentConfirmationNotification.ToMail | app/Notifications/PaymentConfirmationNotification.php:38-67 | fixed subject; greeting by the notifiable's name; reference, `$`-amount, date, `ucfirst` method and status lines; `View Payment Details` to `/payments/<id>`; three closing lines |
| PaymentConfirmationNotification.ToArray | app/Notifications/PaymentConfirmationNotification.php:74-85 | stores the raw amount, method and status, the `paid_at`-else-`created_at` date, and type `payment_confirmation` |
| PaymentConfirmationNotification.DateLineMatchesPayload | app/Notifications/PaymentConfirmationNotification.php:50-52 | the mail's date line renders the same timestamp that the payload stores |
| PaymentConfirmationNotification.AmountLineMatchesPayload | app/Notifications/PaymentConfirmationNotification.php:48 | the amount after `Amount: $` parses back to the stored amount |
| PaymentConfirmationNotification.CardPaymentExample | app/Notifications/PaymentConfirmationNotification.php:59-61 | a card payment of 299.99 shows `Amount: $299.99` and `Payment Method: Card` |
| NotificationService.Attempt | app/Services/NotificationService.php:19-30 | one `notify`; true exactly when it completes, logging info, else false, logging an error with the exception message |
| NotificationService.SendWelcome | app/Services/NotificationService.php:17-31 | notifies the user once; true exactly when delivery completes; an exception becomes false with an error log |
| NotificationService.SendPolicyCreated | app/Services/NotificationService.php:36-60 | without customer or user: nothing sent, warning, false; otherwise one `notify` on the customer's user, true exactly when it completes |
| NotificationService.PolicyWithoutCustomerIdSendsNothing | tests/Feature/NotificationServiceTest.php:57-65 | a loaded policy whose `customer_id` is null yields `false` and no `notify` attempt |
| NotificationService.FirstSome | app/Services/NotificationService.php:126-144 | the result is empty exactly when every hop is empty; otherwise it is the first non-empty hop |
| NotificationService.PolicyHop | app/Services/NotificationService.php:139-141 | the `payment->policy->customer->user` hop yields nothing, since `Payment` has no `policy` method |
| NotificationService.PaymentHops | app/Services/NotificationService.php:131-141 | exactly three hops, in order: the `user` relationship, the customer's user, then the empty policy hop |
| NotificationService.UserFromPayment | app/Services/NotificationService.php:126-144 | the `user` relationship if it yields a user, else the user reached through order and customer; a missing link only empties its hop |
| NotificationService.OrderChainFindsUser | app/Services/NotificationService.php:135-137 | a payment linked through order and customer to a user resolves to that user |
| NotificationService.SendPaymentConfirmation | app/Services/NotificationService.php:65-91 | with no user resolved: nothing sent, warning, false; otherwise one `notify` on that user, true exactly when it completes |
| NotificationService.Messages | app/Services/NotificationService.php:105-114 | the `errors` list as text: one string per recorded error, each rendered by `Message`, in order |
| NotificationService.NotFoundMessageNamesId | app/Services/NotificationService.php:105 | `User not found: {id}` starts with its prefix, and what follows the prefix parses back to the id |
| NotificationService.NotifyMessageNamesId | app/Services/NotificationService.php:114 | `Failed to notify user {id}: {message}` names the id right after its prefix and ends with the exception's message verbatim |
| NotificationService.ItemResult | app/Services/NotificationService.php:101-115 | an id without a user fails as not found; for a found user the id is sent exactly when `notify` completes, and otherwise fails with that user's id and the exception's message |
| NotificationService.Record | app/Services/NotificationService.php:103-114 | one id raises exactly one counter; a failure appends exactly its own error |
| NotificationService.Tally | app/Services/NotificationService.php:98-116 | every outcome lands in exactly one counter, and there is one error per failure |
| NotificationService.Outcomes | app/Services/NotificationService.php:100-116 | one outcome per id, position by position |
| NotificationService.BulkSpec | app/Services/NotificationService.php:96-120 | the result for a list of ids: `sent + failed` is the number of ids and there is one error per failure |
| NotificationService.SendBulk | app/Services/NotificationService.php:96-120 | the loop's result equals the fold of per-id outcomes; `sent + failed` is the number of ids and there is one error per failure |
| NotificationService.BulkStep | app/Services/NotificationService.php:100-116 | one more id extends the result for the ids before it by exactly that id's outcome |
| NotificationService.RecordCombine | app/Services/NotificationService.php:100-116 | recording an outcome after a prefix of results is the same as recording it on the suffix |
| NotificationService.TallySplit | app/Services/NotificationService.php:100-116 | the tally of `a + b` is the tally of `a` combined with that of `b` |
| NotificationService.OutcomesAppend | app/Services/NotificationService.php:100-116 | the outcomes of `a + b` are those of `a` followed by those of `b` |
| NotificationService.BulkSingle | app/Services/NotificationService.php:100-116 | a bulk send of one id records just that id's outcome |
| NotificationService.BulkSplit | app/Services/NotificationService.php:100-116 | a bulk send over `a + b` is the send over `a` followed by the send over `b` |
| NotificationService.BulkIsolation | app/Services/NotificationService.php:100-116 | each id contributes exactly what it would contribute alone, whatever the other ids do |
| NotificationService.MissingUserReported | app/Services/NotificationService.php:103-106 | an id with no user always leaves its not-found error in the result, whatever the other ids do |
| NotificationService.TallyErrorsInOrder | app/Services/NotificationService.php:100-116 | the collected errors are the failures' errors in outcome order |
| NotificationService.BulkErrorsInInputOrder | app/Services/NotificationService.php:100-116 | the errors appear in the input order of the failing ids |
| NotificationService.AllDeliveredAllSent | tests/Feature/NotificationServiceTest.php:67-84 | when every id has a user and every delivery completes, `sent` is the number of ids and nothing failed |
| NotificationService.InvalidIdsExample | tests/Feature/NotificationServiceTest.php:86-100 | one valid id then 99999 and 99998: one sent, two failed, errors not-found 99999 then not-found 99998 (`User not found: 99999`, `User not found: 99998`) |

## Left out

- Mail transport, queueing (`ShouldQueue`), notification persistence and
  the HTTP controllers are not modelled. `notify` is an abstract
  succeed-or-raise outcome.
- The `Log` context arrays and the final "Bulk notification completed" log
  are not modelled. A `Log` call that itself raises is not modelled either.
  Only each single sender's log level, message and exception message are
  kept.
- Carbon date formatting (`'F j, Y'`, `'F j, Y g:i A'`) is not modelled. It
  is a function parameter.
- `url(...)` host resolution is not modelled. Only the path given to it is
  kept.
- The SQL behind the relationships is not modelled. `payment->user` is an
  abstract optional user. Its query compares `customers.user_id` with the
  literal string `'users.id'` (app/Models/Payment.php:55-56), so in practice
  that hop finds nothing.
- `payment->customer` is modelled as the order's customer, the shape of its
  `hasOneThrough`.
- The third hop of `getUserFromPayment`, `payment->policy->customer->user`,
  always yields nothing. `Payment` declares no `policy` method, so the
  `method_exists` guard fails. The model keeps this hop as an empty hop.
- `new $notificationClass($data)` in the bulk loop is not modelled. With the
  data array, the `WelcomeNotification` constructor (which expects a
  `User`) throws a `TypeError`. That is an `Error`, not an `Exception`, so
  it escapes the loop's `catch`. The model takes the per-user outcome as
  given and covers only outcomes that the `catch` handles.
- Amounts are integer cents, not PHP floats: `number_format` rounding of
  amounts with more than two decimals is not modelled. The `decimal:2` cast
  stores two decimals.
- PHP byte strings are sequences of characters, and `ucfirst` upper-cases
  ASCII letters only, as PHP 8 does.
- WelcomeNotification.ToMail and PolicyCreatedNotification.ToMail have no
  notifiable parameter, because the source never reads it.
- The bulk result keeps each error as a value (`BulkError`: not found, or
  notify failed with the exception's message) rather than as text.
  `Message` renders a value as the exact string the source appends, and
  `Messages` renders the whole list.
- SendBulk: `deliver` gives one outcome per user, so an id repeated in the
  list gets the same outcome each time, whereas the source calls `notify`
  once per occurrence, and the calls could differ.
- Behaviour of the code that the model follows closely:
  - `getUserFromPayment` tries three hops in order: the `user`
    relationship, then the customer's user, then the policy's customer's
    user (app/Services/NotificationService.php:131-141);
  - `?:` treats `"0"` as falsy, so a user named `0` is greeted as
    `Valued Customer`;
  - the payment mail uses the notifiable's name only when `isset` holds for
    both name fields (app/Notifications/PaymentConfirmationNotification.php:43).
- A policy's `customer_id` and its loaded `customer` are separate fields.
  `Records.Loaded` states how they agree once Eloquent has loaded the
  relationship.
