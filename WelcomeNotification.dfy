/**
 * The welcome notification for a newly registered user. Its `toMail`
 * reads only the user it was built with, so the notifiable is not a
 * parameter here.
 */
module WelcomeNotification {
  import opened Wrappers
  import opened PhpText
  import opened Records
  import opened Mail

  const Subject := "Welcome to InsureMore!"
  const AccountLinePrefix := "Your account has been successfully created with the email: "
  const Intro: seq<string> := [
    "Welcome to InsureMore, your trusted insurance partner.",
    "We are excited to have you on board and look forward to providing you with the best insurance solutions."]
  const Outro: seq<string> := [
    "If you have any questions, feel free to contact our support team.",
    "Thank you for choosing InsureMore!"]

  /** The `toArray` payload. */
  datatype WelcomeData = WelcomeData(userId: int, userName: string, userEmail: string, notificationType: string)

  /** The delivery channels: mail only. */
  function Via(): (r: seq<string>)
    ensures |r| == 1 && r[0] == "mail"
  {
    ["mail"]
  }

  function ToMail(user: User): (m: MailMessage)
    ensures m.subject == Subject
    ensures m.greeting == Greeting(OrValuedCustomer(FullName(user.firstName, user.lastName)))
    ensures m.introLines == Intro + [AccountLinePrefix + user.email]
    ensures m.action == Action("Get Started", "/dashboard")
    ensures m.outroLines == Outro
  {
    MailMessage(
      Subject,
      Greeting(OrValuedCustomer(FullName(user.firstName, user.lastName))),
      Intro + [AccountLinePrefix + user.email],
      Action("Get Started", "/dashboard"),
      Outro)
  }

  /** The stored payload: the trimmed name with no fallback, so it may be empty. */
  function ToArray(user: User): (d: WelcomeData)
    ensures d.userId == user.id && d.userEmail == user.email
    ensures d.userName == FullName(user.firstName, user.lastName)
    ensures d.notificationType == "welcome"
  {
    WelcomeData(user.id, FullName(user.firstName, user.lastName), user.email, "welcome")
  }

  /**
   * The mail greets by the stored `user_name` exactly when that name is
   * truthy, and by "Valued Customer" otherwise.
   */
  lemma GreetingAgreesWithPayload(user: User)
    ensures Truthy(ToArray(user).userName) ==> ToMail(user).greeting == Greeting(ToArray(user).userName)
    ensures !Truthy(ToArray(user).userName) ==> ToMail(user).greeting == Greeting(ValuedCustomer)
  {
  }

  /** The account line ends with the user's e-mail address, verbatim. */
  lemma AccountLineEndsWithEmail(user: User)
    ensures var line := ToMail(user).introLines[2];
      |line| >= |user.email| && line[|line| - |user.email|..] == user.email
  {
    var line := ToMail(user).introLines[2];
    assert line == AccountLinePrefix + user.email;
  }

  /** A user with blank or missing names is greeted as "Valued Customer" and stored with an empty name. */
  lemma BlankNamesGreetValuedCustomer(user: User)
    requires AllTrimmed(OrEmpty(user.firstName)) && AllTrimmed(OrEmpty(user.lastName))
    ensures ToMail(user).greeting == Greeting(ValuedCustomer)
    ensures ToArray(user).userName == ""
  {
    BlankFullName(user.firstName, user.lastName);
  }

  /** A first name of "0" and no last name trims to the falsy "0", which is replaced too. */
  lemma ZeroNameGreetsValuedCustomer(user: User)
    requires user.firstName == Some("0") && user.lastName == None
    ensures ToMail(user).greeting == Greeting(ValuedCustomer)
    ensures ToArray(user).userName == "0"
  {
    ZeroFullName();
  }

  /** A user named John Doe is greeted by the full name, first name first. */
  lemma JohnDoeGreeting(user: User)
    requires user.firstName == Some("John") && user.lastName == Some("Doe")
    ensures ToMail(user).greeting == "Hello John Doe!"
  {
    JoinedFullName("John", "Doe");
    assert FullName(user.firstName, user.lastName) == "John Doe";
    assert Truthy("John Doe");
  }
}
