/** The e-mail pattern shared by the login and registration forms,
    `/^[A-Z0-9._%+-]+@[A-Z0-9.-]+\.[A-Z]{2,}$/i`, and its executable check. */
module Credentials {
  import opened Wrappers

  predicate IsLetter(c: char) {
    'A' <= c <= 'Z' || 'a' <= c <= 'z'
  }

  predicate IsDigit(c: char) {
    '0' <= c <= '9'
  }

  /** The class `[A-Z0-9._%+-]` under the case-insensitive flag. */
  predicate IsLocalChar(c: char) {
    IsLetter(c) || IsDigit(c) || c == '.' || c == '_' || c == '%' || c == '+' || c == '-'
  }

  /** The class `[A-Z0-9.-]` under the case-insensitive flag. */
  predicate IsDomainChar(c: char) {
    IsLetter(c) || IsDigit(c) || c == '.' || c == '-'
  }

  predicate AllLocal(s: string) {
    forall i :: 0 <= i < |s| ==> IsLocalChar(s[i])
  }

  predicate AllDomain(s: string) {
    forall i :: 0 <= i < |s| ==> IsDomainChar(s[i])
  }

  predicate AllLetters(s: string) {
    forall i :: 0 <= i < |s| ==> IsLetter(s[i])
  }

  /** `s` splits as local `@` domain `.` tld, with the `@` at index `at` and the last dot at
      index `dot`: a non-empty local part, a non-empty domain, at least two letters after the dot. */
  predicate EmailSplit(s: string, at: int, dot: int) {
    && 0 < at && at + 1 < dot && dot + 3 <= |s|
    && AllLocal(s[..at]) && s[at] == '@'
    && AllDomain(s[at + 1..dot]) && s[dot] == '.'
    && AllLetters(s[dot + 1..])
  }

  /** The whole string matches the pattern (the regex is anchored at both ends). */
  ghost predicate MatchesEmailPattern(s: string) {
    exists at, dot :: EmailSplit(s, at, dot)
  }

  /** The index of the first `c` in `s`. */
  function IndexOf(s: string, c: char): (r: Option<nat>)
    ensures r.None? ==> c !in s
    ensures r.Some? ==> r.value < |s| && s[r.value] == c && c !in s[..r.value]
  {
    if s == [] then None
    else if s[0] == c then Some(0)
    else match IndexOf(s[1..], c)
      case None => None
      case Some(k) =>
        assert s[..k + 1] == [s[0]] + s[1..][..k];
        Some(k + 1)
  }

  /** The index of the last `c` in `s`. */
  function LastIndexOf(s: string, c: char): (r: Option<nat>)
    ensures r.None? ==> c !in s
    ensures r.Some? ==> r.value < |s| && s[r.value] == c && c !in s[r.value + 1..]
  {
    if s == [] then None
    else if s[|s| - 1] == c then Some(|s| - 1)
    else match LastIndexOf(s[..|s| - 1], c)
      case None => None
      case Some(k) =>
        assert s[k + 1..] == s[..|s| - 1][k + 1..] + [s[|s| - 1]];
        Some(k)
  }

  /** The part after the `@`: a domain, then a final dot and at least two letters. */
  function IsDomainAndTld(r: string): bool
  {
    match LastIndexOf(r, '.')
    case None => false
    case Some(d) => 0 < d && AllDomain(r[..d]) && |r| - d - 1 >= 2 && AllLetters(r[d + 1..])
  }

  /** The check the forms apply to the e-mail field. */
  function IsValidEmail(s: string): bool
  {
    match IndexOf(s, '@')
    case None => false
    case Some(at) => 0 < at && AllLocal(s[..at]) && IsDomainAndTld(s[at + 1..])
  }

  /** The check accepts exactly the strings the pattern matches. */
  lemma IsValidEmailCorrect(s: string)
    ensures IsValidEmail(s) <==> MatchesEmailPattern(s)
  {
    if IsValidEmail(s) {
      ValidEmailMatches(s);
    }
    if MatchesEmailPattern(s) {
      var at, dot :| EmailSplit(s, at, dot);
      SplitIsValid(s, at, dot);
    }
  }

  lemma ValidEmailMatches(s: string)
    requires IsValidEmail(s)
    ensures MatchesEmailPattern(s)
  {
    var at := IndexOf(s, '@').value;
    var r := s[at + 1..];
    var d := LastIndexOf(r, '.').value;
    assert s[at + 1..at + 1 + d] == r[..d];
    assert s[at + 1 + d + 1..] == r[d + 1..];
    assert EmailSplit(s, at, at + 1 + d);
  }

  lemma SplitIsValid(s: string, at: int, dot: int)
    requires EmailSplit(s, at, dot)
    ensures IsValidEmail(s)
  {
    // No local character is '@', so the first '@' is the one at `at`.
    NoAtInLocal(s[..at]);
    FirstIndexIs(s, '@', at);
    var r := s[at + 1..];
    var d := dot - at - 1;
    assert r[..d] == s[at + 1..dot];
    assert r[d + 1..] == s[dot + 1..];
    // No letter is '.', so the last dot after the '@' is the one at `dot`.
    NoDotInLetters(r[d + 1..]);
    LastIndexIs(r, '.', d);
  }

  lemma NoAtInLocal(t: string)
    requires AllLocal(t)
    ensures '@' !in t
  {
  }

  lemma NoAtInDomain(t: string)
    requires AllDomain(t)
    ensures '@' !in t
  {
  }

  lemma NoDotInLetters(t: string)
    requires AllLetters(t)
    ensures '.' !in t
  {
  }

  lemma FirstIndexIs(s: string, c: char, k: nat)
    requires k < |s| && s[k] == c && c !in s[..k]
    ensures IndexOf(s, c) == Some(k)
  {
  }

  lemma LastIndexIs(s: string, c: char, k: nat)
    requires k < |s| && s[k] == c && c !in s[k + 1..]
    ensures LastIndexOf(s, c) == Some(k)
  {
  }

  /** Exactly one `@`: neither the local part nor the domain nor the tld contains one. */
  lemma OneAt(s: string)
    requires IsValidEmail(s)
    ensures multiset(s)['@'] == 1
  {
    IsValidEmailCorrect(s);
    var at, dot :| EmailSplit(s, at, dot);
    assert s == s[..at] + [s[at]] + s[at + 1..dot] + [s[dot]] + s[dot + 1..];
    NoAtInLocal(s[..at]);
    NoAtInDomain(s[at + 1..dot]);
    NoDotInLetters(s[dot + 1..]);
    assert '@' !in s[dot + 1..];
    assert multiset(s) == multiset(s[..at]) + multiset([s[at]]) + multiset(s[at + 1..dot]) + multiset([s[dot]]) + multiset(s[dot + 1..]);
  }
}
