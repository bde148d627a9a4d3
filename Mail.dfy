/**
 * The mail message the notifications build with the fluent builder, and
 * the greeting-name rule all three share.
 */
module Mail {
  import opened Wrappers
  import opened PhpText

  const ValuedCustomer := "Valued Customer"

  datatype Action = Action(text: string, url: string)

  /**
   * A built message: lines added before the action are intro lines, lines
   * added after it outro lines. Action URLs are the paths given to `url(...)`.
   */
  datatype MailMessage = MailMessage(
    subject: string,
    greeting: string,
    introLines: seq<string>,
    action: Action,
    outroLines: seq<string>)

  /** What PHP's `.` makes of a possibly-null string: null concatenates as `""`. */
  function OrEmpty(s: Option<string>): (r: string)
    ensures s.Some? ==> r == s.value
    ensures s.None? ==> r == ""
  {
    s.GetOr("")
  }

  /**
   * `trim(first.' '.last)`: never longer than the joined names, and free of
   * blanks at both ends.
   */
  function FullName(first: Option<string>, last: Option<string>): (r: string)
    ensures |r| <= |OrEmpty(first)| + 1 + |OrEmpty(last)|
    ensures r == [] || (!IsTrimmed(r[0]) && !IsTrimmed(r[|r| - 1]))
  {
    Trim(OrEmpty(first) + " " + OrEmpty(last))
  }

  /** `name ?: 'Valued Customer'`: a falsy name (`""` or `"0"`) is replaced. */
  function OrValuedCustomer(name: string): (r: string)
    ensures Truthy(r)
    ensures r == name || r == ValuedCustomer
    ensures r == name <==> Truthy(name)
  {
    if Truthy(name) then name else ValuedCustomer
  }

  /** `"Hello {$name}!"`: the name sits between the fixed opening and the `!`. */
  function Greeting(name: string): (g: string)
    ensures |g| == |name| + 7
    ensures g[..6] == "Hello " && g[6..|g| - 1] == name && g[|g| - 1] == '!'
  {
    var g := "Hello " + name + "!";
    assert g[6..|g| - 1] == name;
    g
  }

  /** Missing or blank names leave nothing after trimming. */
  lemma {:induction false} BlankFullName(first: Option<string>, last: Option<string>)
    requires AllTrimmed(OrEmpty(first)) && AllTrimmed(OrEmpty(last))
    ensures FullName(first, last) == ""
  {
    var s := OrEmpty(first) + " " + OrEmpty(last);
    assert forall i | 0 <= i < |s| :: IsTrimmed(s[i]) by {
      forall i | 0 <= i < |s| ensures IsTrimmed(s[i]) {
        if i < |OrEmpty(first)| {
          assert s[i] == OrEmpty(first)[i];
        } else if i > |OrEmpty(first)| {
          assert s[i] == OrEmpty(last)[i - |OrEmpty(first)| - 1];
        }
      }
    }
    TrimAllTrimmed(s);
  }

  /** Names that carry no surrounding blanks are joined by one space and kept as they are. */
  lemma JoinedFullName(first: string, last: string)
    requires first != [] && last != []
    requires !IsTrimmed(first[0]) && !IsTrimmed(last[|last| - 1])
    ensures FullName(Some(first), Some(last)) == first + " " + last
  {
    var s := first + " " + last;
    assert s[0] == first[0] && s[|s| - 1] == last[|last| - 1];
    TrimUntrimmed(s);
  }

  /** A first name of "0" and no last name trim to "0", a falsy name. */
  lemma ZeroFullName()
    ensures FullName(Some("0"), None) == "0"
  {
    var s := OrEmpty(Some("0")) + " " + OrEmpty(None);
    assert s == ['0', ' '];
    assert !IsTrimmed('0') && IsTrimmed(' ');
    assert TrimStart(s) == s;
    assert s[..1] == ['0'];
    assert TrimEnd(s) == TrimEnd(['0']) == ['0'];
  }
}
