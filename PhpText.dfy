/**
 * The PHP string primitives the notification messages are built from:
 * `trim` with its default character list, the truthiness test behind `?:`,
 * and `ucfirst`. Strings are sequences of characters; PHP's byte strings
 * are not distinguished from them here.
 */
module PhpText {

  /** The characters `trim` strips by default: space, tab, newline, carriage return, NUL and vertical tab. */
  predicate IsTrimmed(c: char) {
    c == ' ' || c == '\t' || c == '\n' || c == '\r' || c == '\0' || c as int == 11
  }

  predicate AllTrimmed(s: string) {
    forall i :: 0 <= i < |s| ==> IsTrimmed(s[i])
  }

  /** `ltrim`: drops the leading run of trimmed characters. */
  function TrimStart(s: string): string {
    if s != [] && IsTrimmed(s[0]) then TrimStart(s[1..]) else s
  }

  /** `rtrim`: drops the trailing run of trimmed characters. */
  function TrimEnd(s: string): string {
    if s != [] && IsTrimmed(s[|s| - 1]) then TrimEnd(s[..|s| - 1]) else s
  }

  /** `trim`: both runs dropped; what is left neither starts nor ends with a trimmed character. */
  function Trim(s: string): (r: string)
    ensures |r| <= |s|
    ensures r == [] || (!IsTrimmed(r[0]) && !IsTrimmed(r[|r| - 1]))
  {
    TrimStartCuts(s);
    TrimEndCuts(TrimStart(s));
    var r := TrimEnd(TrimStart(s));
    assert r != [] ==> r[0] == TrimStart(s)[0];
    r
  }

  /** `ltrim` keeps a suffix, cuts only trimmed characters, and stops at the first other one. */
  lemma {:induction false} TrimStartCuts(s: string)
    ensures var r := TrimStart(s);
      |r| <= |s| && r == s[|s| - |r|..] && AllTrimmed(s[..|s| - |r|]) &&
      (r == [] || !IsTrimmed(r[0]))
  {
    if s != [] && IsTrimmed(s[0]) {
      var r := TrimStart(s[1..]);
      TrimStartCuts(s[1..]);
      assert s[..|s| - |r|] == [s[0]] + s[1..][..|s| - 1 - |r|];
    }
  }

  /** `rtrim` keeps a prefix, cuts only trimmed characters, and stops at the last other one. */
  lemma {:induction false} TrimEndCuts(s: string)
    ensures var r := TrimEnd(s);
      |r| <= |s| && r == s[..|r|] && AllTrimmed(s[|r|..]) &&
      (r == [] || !IsTrimmed(r[|r| - 1]))
  {
    if s != [] && IsTrimmed(s[|s| - 1]) {
      var r := TrimEnd(s[..|s| - 1]);
      TrimEndCuts(s[..|s| - 1]);
      assert s[|r|..] == s[..|s| - 1][|r|..] + [s[|s| - 1]];
    }
  }

  /**
   * `trim` leaves the infix of `s` between two runs of trimmed characters,
   * and what it leaves neither starts nor ends with one.
   */
  lemma TrimIsInfix(s: string)
    ensures exists a, b :: 0 <= a <= b <= |s| && Trim(s) == s[a..b] && AllTrimmed(s[..a]) && AllTrimmed(s[b..])
    ensures Trim(s) == [] || (!IsTrimmed(Trim(s)[0]) && !IsTrimmed(Trim(s)[|Trim(s)| - 1]))
  {
    var t := TrimStart(s);
    var r := TrimEnd(t);
    TrimStartCuts(s);
    TrimEndCuts(t);
    var a := |s| - |t|;
    assert r == s[a..a + |r|];
    assert s[a + |r|..] == t[|r|..];
    if r != [] {
      assert r[0] == t[0];
    }
  }

  /** Trimming a string made of trimmed characters only gives the empty string. */
  lemma {:induction false} TrimAllTrimmed(s: string)
    requires AllTrimmed(s)
    ensures Trim(s) == ""
  {
    TrimStartCuts(s);
  }

  /** `trim` leaves a string that already neither starts nor ends with a trimmed character unchanged. */
  lemma TrimUntrimmed(s: string)
    requires s == [] || (!IsTrimmed(s[0]) && !IsTrimmed(s[|s| - 1]))
    ensures Trim(s) == s
  {
  }

  /** `trim` is idempotent. */
  lemma TrimIdempotent(s: string)
    ensures Trim(Trim(s)) == Trim(s)
  {
    TrimIsInfix(s);
    TrimUntrimmed(Trim(s));
  }

  /** PHP's string truthiness as used by `?:`: only `""` and `"0"` are falsy. */
  predicate Truthy(s: string)
    ensures Truthy(s) ==> s != []
    ensures |s| >= 2 ==> Truthy(s)
  {
    s != "" && s != "0"
  }

  /** `ucfirst` as of PHP 8: upper-cases an ASCII lower-case first byte and leaves the rest alone. */
  function UpperAscii(c: char): (u: char)
    ensures ('a' <= c <= 'z') ==> 'A' <= u <= 'Z' && u as int == c as int - 32
    ensures !('a' <= c <= 'z') ==> u == c
  {
    if 'a' <= c <= 'z' then (c as int - 32) as char else c
  }

  function Ucfirst(s: string): (r: string)
    ensures |r| == |s|
    ensures s != [] ==> r[0] == UpperAscii(s[0])
    ensures forall i :: 1 <= i < |s| ==> r[i] == s[i]
  {
    if s == [] then [] else [UpperAscii(s[0])] + s[1..]
  }

  /** `ucfirst` is idempotent: applying it to its own result changes nothing. */
  lemma UcfirstIdempotent(s: string)
    ensures Ucfirst(Ucfirst(s)) == Ucfirst(s)
  {
  }
}
