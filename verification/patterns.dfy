/** The two format checks of the repository, `emailRegex` =
    /^[^\s@]+@[^\s@]+\.[^\s@]+$/ and `phoneRegex` = /^\+?\d{10,15}$/,
    each stated once as the language the regular expression denotes and
    once as a direct recogniser, with the two proved to agree. */
module Patterns {

  import opened Text

  /** A character of the class `[^\s@]`. */
  predicate EmailChar(c: char) {
    !IsJsSpace(c) && c != '@'
  }

  /** Every character of `s[lo..hi]` belongs to `[^\s@]`. */
  predicate Run(s: string, lo: int, hi: int)
    requires 0 <= lo <= hi <= |s|
  {
    forall k :: lo <= k < hi ==> EmailChar(s[k])
  }

  /** The email pattern matches `s`: an '@' at `a` and a '.' at `d` cut `s`
      into three non-empty runs of `[^\s@]` (the '.' itself also belongs
      to `[^\s@]`, so any of the dots of the domain may play that part). */
  ghost predicate EmailRegex(s: string) {
    exists a, d ::
      && 0 < a && a + 1 < d && d + 1 < |s|
      && s[a] == '@' && s[d] == '.'
      && Run(s, 0, a) && Run(s, a + 1, d) && Run(s, d + 1, |s|)
  }

  /** The same language described field by field: no whitespace anywhere,
      exactly one '@', something before it, and a '.' after it that is
      neither the first nor the last character of the domain. */
  ghost predicate EmailShape(s: string) {
    exists a ::
      && 0 < a < |s| && s[a] == '@'
      && (forall k :: 0 <= k < |s| ==> !IsJsSpace(s[k]))
      && (forall k :: 0 <= k < |s| && s[k] == '@' ==> k == a)
      && DotInside(s, a + 2, |s| - 1)
  }

  /** Some '.' lies in `s[lo..hi]`. */
  ghost predicate DotInside(s: string, lo: int, hi: int) {
    exists d :: lo <= d < hi && 0 <= d < |s| && s[d] == '.'
  }

  lemma EmailRegexIffShape(s: string)
    ensures EmailRegex(s) <==> EmailShape(s)
  {
    if EmailRegex(s) {
      RegexHasShape(s);
    }
    if EmailShape(s) {
      ShapeMatchesRegex(s);
    }
  }

  lemma RegexHasShape(s: string)
    requires EmailRegex(s)
    ensures EmailShape(s)
  {
    var a, d :| && 0 < a && a + 1 < d && d + 1 < |s|
                && s[a] == '@' && s[d] == '.'
                && Run(s, 0, a) && Run(s, a + 1, d) && Run(s, d + 1, |s|);
    assert forall k :: 0 <= k < |s| && k != a && k != d ==> EmailChar(s[k]);
    assert DotInside(s, a + 2, |s| - 1);
  }

  lemma ShapeMatchesRegex(s: string)
    requires EmailShape(s)
    ensures EmailRegex(s)
  {
    var a :| && 0 < a < |s| && s[a] == '@'
             && (forall k :: 0 <= k < |s| ==> !IsJsSpace(s[k]))
             && (forall k :: 0 <= k < |s| && s[k] == '@' ==> k == a)
             && DotInside(s, a + 2, |s| - 1);
    var d :| a + 2 <= d < |s| - 1 && 0 <= d < |s| && s[d] == '.';
    assert Run(s, 0, a) && Run(s, a + 1, d) && Run(s, d + 1, |s|);
  }

  /** A single left-to-right pass deciding the email pattern: it rejects on
      whitespace or a second '@', then looks for a '.' strictly inside the
      domain. */
  method MatchEmail(s: string) returns (ok: bool)
    ensures ok <==> EmailRegex(s)
  {
    EmailRegexIffShape(s);
    var at := -1;
    var i := 0;
    while i < |s|
      invariant 0 <= i <= |s|
      invariant -1 <= at < i
      invariant at >= 0 ==> s[at] == '@'
      invariant forall k :: 0 <= k < i && k != at ==> EmailChar(s[k])
    {
      if IsJsSpace(s[i]) {
        return false;
      }
      if s[i] == '@' {
        if at >= 0 {
          return false;
        }
        at := i;
      }
      i := i + 1;
    }
    if at <= 0 {
      return false;
    }
    var d := at + 2;
    while d < |s| - 1
      invariant at + 2 <= d
      invariant forall m :: at + 2 <= m < d && m < |s| - 1 ==> s[m] != '.'
    {
      if s[d] == '.' {
        return true;
      }
      d := d + 1;
    }
    return false;
  }

  /** A domain without any '.' is refused, whatever comes before the '@'. */
  lemma SingleLabelDomainRejected(local: string, domain: string)
    requires '.' !in domain
    ensures !EmailRegex(local + "@" + domain)
  {
    var s := local + "@" + domain;
    assert s[|local|] == '@';
    assert forall d :: |local| < d < |s| ==> s[d] == domain[d - |local| - 1];
  }

  predicate IsDigit(c: char) {
    '0' <= c <= '9'
  }

  predicate AllDigits(s: string) {
    forall k :: 0 <= k < |s| ==> IsDigit(s[k])
  }

  /** The phone pattern matches `s`: `\+?` takes the first `p` characters
      (none, or a single '+'), and `\d{10,15}` takes the rest. */
  ghost predicate PhoneRegex(s: string) {
    exists p :: 0 <= p <= 1 && p <= |s| && (p == 1 ==> s[0] == '+')
      && AllDigits(s[p..]) && 10 <= |s| - p <= 15
  }

  /** Decides the phone pattern: strip one leading '+', then demand 10 to 15
      ASCII digits and nothing else. */
  function MatchPhone(s: string): (ok: bool)
    ensures ok <==> PhoneRegex(s)
    ensures ok <==> (&& (forall k :: 0 <= k < |s| ==> IsDigit(s[k]) || (k == 0 && s[k] == '+'))
                     && var digits := if |s| > 0 && s[0] == '+' then |s| - 1 else |s|;
                        10 <= digits <= 15)
  {
    var body := if |s| > 0 && s[0] == '+' then s[1..] else s;
    assert |s| > 0 && s[0] == '+' ==> !AllDigits(s[0..]);
    assert forall k :: 1 <= k < |s| ==> s[k] == s[1..][k - 1];
    10 <= |body| <= 15 && AllDigits(body)
  }

  /** Spaces, dashes, parentheses and a '+' after the first position are
      all refused by the phone pattern. */
  lemma PhoneRejectsPunctuation(s: string, k: int)
    requires 0 <= k < |s|
    requires s[k] in {' ', '-', '(', ')'} || (k > 0 && s[k] == '+')
    ensures !PhoneRegex(s)
  {
    var _ := MatchPhone(s);
  }
}
