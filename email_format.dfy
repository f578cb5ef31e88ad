/**
 * The server's email check, `/^[^\s@]+@[^\s@]+\.[^\s@]+$/`
 * (backend/Controller/Controller.js), as a scan over the address, proved
 * equal to the pattern's meaning.
 */
module EmailFormat {
  import opened JsText

  /** `[^\s@]`: a character the three runs of the pattern may contain. */
  predicate Plain(c: char) {
    c != '@' && !IsWhitespace(c)
  }

  predicate AllPlain(s: string) {
    forall j :: 0 <= j < |s| ==> Plain(s[j])
  }

  /**
   * What the pattern accepts: a non-empty run of plain characters, '@', a
   * non-empty plain run, '.', and a last non-empty plain run.
   */
  ghost predicate MatchesEmailPattern(s: string) {
    exists at, dot ::
      && 0 < at && at + 1 < dot && dot + 1 < |s|
      && s[at] == '@' && s[dot] == '.'
      && AllPlain(s[..at]) && AllPlain(s[at + 1..dot]) && AllPlain(s[dot + 1..])
  }

  /** Index of the first `c` in `s`, or `|s|` when there is none. */
  function IndexOf(s: string, c: char): (r: nat)
    ensures r <= |s|
    ensures r < |s| ==> s[r] == c
    ensures forall j :: 0 <= j < r ==> s[j] != c
  {
    if s == [] then 0
    else if s[0] == c then 0
    else 1 + IndexOf(s[1..], c)
  }

  /** A '.' that is neither the first nor the last character. */
  predicate HasInnerDot(d: string) {
    exists p :: 0 < p < |d| - 1 && d[p] == '.'
  }

  /**
   * The check the server applies: one '@' with something before it, no
   * whitespace, and a '.' strictly inside the part after the '@'.
   */
  predicate IsValidEmail(s: string)
    ensures IsValidEmail(s) ==> 5 <= |s| && s[0] != '@' && s[|s| - 1] != '@' && '@' in s
  {
    var at := IndexOf(s, '@');
    && 0 < at < |s|
    && '@' !in s[at + 1..]
    && NoWhitespace(s)
    && HasInnerDot(s[at + 1..])
  }

  /** Every address the scan accepts matches the pattern. */
  lemma ValidEmailMatches(s: string)
    requires IsValidEmail(s)
    ensures MatchesEmailPattern(s)
  {
    var at := IndexOf(s, '@');
    var d := s[at + 1..];
    var p :| 0 < p < |d| - 1 && d[p] == '.';
    var dot := at + 1 + p;
    assert s[dot] == '.';
    assert forall j :: at < j < |s| ==> s[j] != '@' by {
      forall j | at < j < |s| ensures s[j] != '@' {
        assert s[j] == d[j - at - 1];
      }
    }
    assert AllPlain(s[..at]);
    assert AllPlain(s[at + 1..dot]);
    assert AllPlain(s[dot + 1..]);
  }

  /** Every address the pattern matches passes the scan. */
  lemma MatchingEmailIsValid(s: string, at: int, dot: int)
    requires 0 < at && at + 1 < dot && dot + 1 < |s|
    requires s[at] == '@' && s[dot] == '.'
    requires AllPlain(s[..at]) && AllPlain(s[at + 1..dot]) && AllPlain(s[dot + 1..])
    ensures IsValidEmail(s)
  {
    forall j | 0 <= j < |s| && j != at && j != dot ensures Plain(s[j]) {
      if j < at {
        assert s[j] == s[..at][j];
      } else if j < dot {
        assert s[j] == s[at + 1..dot][j - at - 1];
      } else {
        assert s[j] == s[dot + 1..][j - dot - 1];
      }
    }
    assert IndexOf(s, '@') == at;
    var d := s[at + 1..];
    assert d[dot - at - 1] == '.';
    assert HasInnerDot(d);
    assert '@' !in d by {
      forall j | 0 <= j < |d| ensures d[j] != '@' {
        assert d[j] == s[at + 1 + j];
      }
    }
  }

  /** The scan accepts exactly the addresses the pattern matches. */
  lemma EmailCheckIsPattern(s: string)
    ensures IsValidEmail(s) <==> MatchesEmailPattern(s)
  {
    if IsValidEmail(s) {
      ValidEmailMatches(s);
    }
    if MatchesEmailPattern(s) {
      var at, dot :|
        && 0 < at && at + 1 < dot && dot + 1 < |s|
        && s[at] == '@' && s[dot] == '.'
        && AllPlain(s[..at]) && AllPlain(s[at + 1..dot]) && AllPlain(s[dot + 1..]);
      MatchingEmailIsValid(s, at, dot);
    }
  }

  /** An accepted address holds exactly one '@'. */
  lemma ValidEmailHasOneAt(s: string)
    requires IsValidEmail(s)
    ensures multiset(s)['@'] == 1
  {
    var at := IndexOf(s, '@');
    assert s == s[..at] + [s[at]] + s[at + 1..];
    assert '@' !in s[..at];
    assert multiset(s) == multiset(s[..at]) + multiset{'@'} + multiset(s[at + 1..]);
  }
}
