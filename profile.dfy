/** The profile page of client/src/pages/Profile.jsx: the form's default
    values, the name and email rules the form library checks before
    submitting, the avatar initial and the submit handler's loading flag.

    The email rule is the pattern
        ^\w+([.-]?\w+)*@\w+([.-]?\w+)*(\.\w{2,3})+$
    It is written twice: once as a grammar that follows the pattern part by
    part (`MatchesEmailPattern`, ghost), and once as a direct check of the
    string's shape (`EmailOK`); the two are proved to accept the same
    strings. */
module Profile {
  import opened Js
  import Auth
  import Validation

  // ---------------------------------------------------------------------
  // Characters

  /** `\w`. */
  predicate IsWord(c: char) {
    ('a' <= c <= 'z') || ('A' <= c <= 'Z') || ('0' <= c <= '9') || c == '_'
  }

  /** `[.-]`. */
  predicate IsSep(c: char) {
    c == '.' || c == '-'
  }

  /** `\w+` when `|s| >= 1`; `\w{2,3}` adds the length bound. */
  predicate WordRun(s: string) {
    |s| >= 1 && forall i :: 0 <= i < |s| ==> IsWord(s[i])
  }

  // ---------------------------------------------------------------------
  // The pattern as a grammar

  /** `[.-]?\w+`. */
  ghost predicate Unit(u: string) {
    WordRun(u) || (|u| >= 1 && IsSep(u[0]) && WordRun(u[1..]))
  }

  /** `([.-]?\w+)*`. */
  ghost predicate Repeat(t: string)
    decreases |t|
  {
    t == [] || exists k :: 1 <= k <= |t| && Unit(t[..k]) && Repeat(t[k..])
  }

  /** `\w+([.-]?\w+)*`: the part before the "@" and the start of the part
      after it. */
  ghost predicate Chain(s: string) {
    exists k :: 1 <= k <= |s| && WordRun(s[..k]) && Repeat(s[k..])
  }

  /** `(\.\w{2,3})+`. */
  ghost predicate Groups(g: string)
    decreases |g|
  {
    exists k :: 3 <= k <= 4 && k <= |g| && g[0] == '.' && WordRun(g[1..k]) && (k == |g| || Groups(g[k..]))
  }

  /** `\w+([.-]?\w+)*(\.\w{2,3})+`. */
  ghost predicate DomainPart(d: string) {
    exists k :: 0 <= k <= |d| && Chain(d[..k]) && Groups(d[k..])
  }

  /** The whole anchored pattern. */
  ghost predicate MatchesEmailPattern(s: string) {
    exists i :: 0 <= i < |s| && s[i] == '@' && Chain(s[..i]) && DomainPart(s[i + 1..])
  }

  // ---------------------------------------------------------------------
  // The shape check

  /** Word characters and separators only, every separator followed by a
      word character, and a word character last. */
  predicate Clean(s: string) {
    && (forall i :: 0 <= i < |s| ==> IsWord(s[i]) || IsSep(s[i]))
    && (forall i :: 0 <= i < |s| - 1 ==> IsSep(s[i]) ==> IsWord(s[i + 1]))
    && (s != [] ==> IsWord(s[|s| - 1]))
  }

  /** Words joined by single dots or dashes: "a.b-c", not ".a", "a." or "a..b". */
  predicate Dotted(s: string) {
    s != [] && IsWord(s[0]) && Clean(s)
  }

  /** The domain ends in a dot and `n` word characters after a dotted name. */
  predicate EndsInTopLevel(d: string, n: nat) {
    |d| >= n + 2 && d[|d| - n - 1] == '.' && WordRun(d[|d| - n..]) && Dotted(d[..|d| - n - 1])
  }

  /** A dotted name, a dot, and two or three word characters. */
  predicate DomainOK(d: string) {
    EndsInTopLevel(d, 2) || EndsInTopLevel(d, 3)
  }

  /** Exactly one "@", a dotted name before it and a domain after it. */
  predicate EmailOK(s: string) {
    var parts := Split(s, '@');
    |parts| == 2 && Dotted(parts[0]) && DomainOK(parts[1])
  }

  // ---------------------------------------------------------------------
  // The two agree

  lemma WordRunIsClean(w: string)
    requires WordRun(w)
    ensures Clean(w)
  {
  }

  lemma UnitIsClean(u: string)
    requires Unit(u)
    ensures Clean(u) && IsWord(u[|u| - 1])
  {
    if !WordRun(u) {
      assert u[|u| - 1] == u[1..][|u| - 2];
      assert forall i :: 1 <= i < |u| ==> u[i] == u[1..][i - 1];
    }
  }

  /** Two clean strings make a clean one. */
  lemma CleanConcat(a: string, b: string)
    requires Clean(a) && Clean(b)
    ensures Clean(a + b)
  {
    var s := a + b;
    forall i | 0 <= i < |s|
      ensures IsWord(s[i]) || IsSep(s[i])
    {
      if i >= |a| {
        assert s[i] == b[i - |a|];
      }
    }
    forall i | 0 <= i < |s| - 1 && IsSep(s[i])
      ensures IsWord(s[i + 1])
    {
      if i >= |a| {
        assert s[i] == b[i - |a|] && s[i + 1] == b[i + 1 - |a|];
      }
    }
    if b != [] {
      assert s[|s| - 1] == b[|b| - 1];
    }
  }

  lemma CleanSuffix(s: string, k: nat)
    requires Clean(s) && k <= |s|
    ensures Clean(s[k..])
  {
    var t := s[k..];
    assert forall i :: 0 <= i < |t| ==> t[i] == s[k + i];
  }

  lemma {:induction false} RepeatIsClean(t: string)
    requires Repeat(t)
    ensures Clean(t)
    decreases |t|
  {
    if t != [] {
      var k :| 1 <= k <= |t| && Unit(t[..k]) && Repeat(t[k..]);
      UnitIsClean(t[..k]);
      RepeatIsClean(t[k..]);
      CleanConcat(t[..k], t[k..]);
      assert t[..k] + t[k..] == t;
    }
  }

  lemma {:induction false} CleanIsRepeat(t: string)
    requires Clean(t)
    ensures Repeat(t)
    decreases |t|
  {
    if t != [] {
      var k := if IsWord(t[0]) then 1 else 2;
      assert k <= |t|;
      assert WordRun(t[..k][k - 1..]);
      assert Unit(t[..k]);
      CleanSuffix(t, k);
      CleanIsRepeat(t[k..]);
    }
  }

  /** The part before "@" matches `\w+([.-]?\w+)*` exactly when it is a
      dotted name. */
  lemma ChainIffDotted(s: string)
    ensures Chain(s) <==> Dotted(s)
  {
    if Chain(s) {
      var k :| 1 <= k <= |s| && WordRun(s[..k]) && Repeat(s[k..]);
      WordRunIsClean(s[..k]);
      RepeatIsClean(s[k..]);
      CleanConcat(s[..k], s[k..]);
      assert s[..k] + s[k..] == s;
      assert s[0] == s[..k][0];
    }
    if Dotted(s) {
      assert WordRun(s[..1]);
      CleanSuffix(s, 1);
      CleanIsRepeat(s[1..]);
    }
  }

  /** A dotted name followed by a group is a dotted name. */
  lemma DottedExtend(x: string, g: string)
    requires Dotted(x) && |g| >= 2 && g[0] == '.' && WordRun(g[1..])
    ensures Dotted(x + g)
  {
    assert Unit(g);
    UnitIsClean(g);
    CleanConcat(x, g);
  }

  /** A dotted name followed by `(\.\w{2,3})+` passes the domain check. */
  lemma {:induction false} GroupsAfterDotted(x: string, g: string)
    requires Dotted(x) && Groups(g)
    ensures DomainOK(x + g)
    decreases |g|
  {
    var k :| 3 <= k <= 4 && k <= |g| && g[0] == '.' && WordRun(g[1..k]) && (k == |g| || Groups(g[k..]));
    var d := x + g;
    if k == |g| {
      var n := k - 1;
      assert d[|d| - n - 1] == g[0];
      assert d[|d| - n..] == g[1..k];
      assert d[..|d| - n - 1] == x;
      assert EndsInTopLevel(d, n);
    } else {
      DottedExtend(x, g[..k]);
      GroupsAfterDotted(x + g[..k], g[k..]);
      assert x + g[..k] + g[k..] == d;
    }
  }

  /** The part after "@" matches `\w+([.-]?\w+)*(\.\w{2,3})+` exactly when
      it passes the domain check. */
  lemma DomainPartIffOK(d: string)
    ensures DomainPart(d) <==> DomainOK(d)
  {
    if DomainPart(d) {
      DomainPartIsOK(d);
    }
    if DomainOK(d) {
      var n := if EndsInTopLevel(d, 2) then 2 else 3;
      TopLevelIsDomainPart(d, n);
    }
  }

  lemma DomainPartIsOK(d: string)
    requires DomainPart(d)
    ensures DomainOK(d)
  {
    var k :| 0 <= k <= |d| && Chain(d[..k]) && Groups(d[k..]);
    ChainIffDotted(d[..k]);
    GroupsAfterDotted(d[..k], d[k..]);
    assert d[..k] + d[k..] == d;
  }

  lemma TopLevelIsDomainPart(d: string, n: nat)
    requires EndsInTopLevel(d, n) && 2 <= n <= 3
    ensures DomainPart(d)
  {
    var k := |d| - n - 1;
    var g := d[k..];
    assert g[1..n + 1] == d[|d| - n..];
    assert Groups(g) by {
      assert 3 <= n + 1 <= 4 && n + 1 == |g| && g[0] == '.' && WordRun(g[1..n + 1]);
    }
    ChainIffDotted(d[..k]);
    assert Chain(d[..k]) && Groups(d[k..]);
  }

  /** Nothing that passes the domain check contains "@". */
  lemma DomainOKIsClean(d: string)
    requires DomainOK(d)
    ensures Clean(d)
  {
    var n := if EndsInTopLevel(d, 2) then 2 else 3;
    var k := |d| - n - 1;
    assert Unit(d[k..]) by {
      assert d[k..][1..] == d[|d| - n..];
    }
    UnitIsClean(d[k..]);
    CleanConcat(d[..k], d[k..]);
    assert d[..k] + d[k..] == d;
  }

  lemma CleanHasNoAt(s: string)
    requires Clean(s)
    ensures '@' !in s
  {
    forall i | 0 <= i < |s|
      ensures s[i] != '@'
    {
      assert IsWord(s[i]) || IsSep(s[i]);
    }
  }

  /** The shape check accepts exactly the strings the pattern matches. */
  lemma EmailOKIffPattern(s: string)
    ensures EmailOK(s) <==> MatchesEmailPattern(s)
  {
    if MatchesEmailPattern(s) {
      PatternIsEmailOK(s);
    }
    if EmailOK(s) {
      EmailOKIsPattern(s);
    }
  }

  lemma PatternIsEmailOK(s: string)
    requires MatchesEmailPattern(s)
    ensures EmailOK(s)
  {
    var i :| 0 <= i < |s| && s[i] == '@' && Chain(s[..i]) && DomainPart(s[i + 1..]);
    var a, d := s[..i], s[i + 1..];
    ChainIffDotted(a);
    DomainPartIsOK(d);
    assert s == a + ['@'] + d;
    EmailOKOfParts(a, d);
  }

  /** A dotted name, "@" and a domain that passes make an address that
      passes. */
  lemma EmailOKOfParts(a: string, d: string)
    requires Dotted(a) && DomainOK(d)
    ensures Split(a + ['@'] + d, '@') == [a, d]
    ensures EmailOK(a + ['@'] + d)
  {
    CleanHasNoAt(a);
    DomainOKIsClean(d);
    CleanHasNoAt(d);
    SplitAfterFirst(a, '@', d);
    SplitWithoutSeparator(d, '@');
  }

  lemma EmailOKIsPattern(s: string)
    requires EmailOK(s)
    ensures MatchesEmailPattern(s)
  {
    var parts := Split(s, '@');
    JoinSplit(s, '@');
    assert parts[1..] == [parts[1]];
    assert s == parts[0] + ['@'] + parts[1];
    var i := |parts[0]|;
    assert s[..i] == parts[0] && s[i + 1..] == parts[1];
    ChainIffDotted(parts[0]);
    DomainPartIffOK(parts[1]);
    assert s[i] == '@' && Chain(s[..i]) && DomainPart(s[i + 1..]);
  }

  // ---------------------------------------------------------------------
  // The form

  datatype ProfileForm = ProfileForm(name: string, email: string)

  const NameRequired: string := "Name is required"
  const NameTooShort: string := "Name must be at least 2 characters"
  const NameTooLong: string := "Name cannot exceed 50 characters"
  const EmailRequired: string := "Email is required"
  const EmailInvalid: string := "Enter a valid email address"

  /** `defaultValues`: the signed-in user's name and email, or "". */
  function Defaults(user: Option<Auth.User>): ProfileForm {
    if user.Some? then ProfileForm(user.value.name, user.value.email) else ProfileForm("", "")
  }

  /** The name's error: required first (only "" is missing), then the
      length bounds on the untrimmed value. */
  function NameError(name: string): (r: Option<string>)
    ensures r.None? <==> 2 <= |name| <= 50
    ensures r == Some(NameRequired) <==> name == ""
  {
    if name == "" then Some(NameRequired)
    else if |name| > 50 then Some(NameTooLong)
    else if |name| < 2 then Some(NameTooShort)
    else None
  }

  /** The email's error: required first, then the pattern. */
  function EmailError(email: string): (r: Option<string>)
    ensures r.None? <==> MatchesEmailPattern(email)
    ensures r == Some(EmailRequired) <==> email == ""
  {
    EmailOKIffPattern(email);
    if email == "" then Some(EmailRequired)
    else if !EmailOK(email) then Some(EmailInvalid)
    else None
  }

  /** The form library calls the submit handler only without errors. */
  predicate Submittable(data: ProfileForm) {
    NameError(data.name).None? && EmailError(data.email).None?
  }

  /** Without a signed-in user the defaults are both missing. */
  lemma DefaultsWithoutUser()
    ensures NameError(Defaults(None).name) == Some(NameRequired)
    ensures EmailError(Defaults(None).email) == Some(EmailRequired)
  {
  }

  /** An address the pattern takes. */
  lemma EmailAccepted()
    ensures EmailOK("a.b@c-d.io")
  {
    var a, d := "a.b", "c-d.io";
    assert Dotted(a);
    assert d[..3] == "c-d" && d[4..] == "io";
    assert EndsInTopLevel(d, 2);
    EmailOKOfParts(a, d);
    assert a + ['@'] + d == "a.b@c-d.io";
  }

  /** A top-level part of one character is refused. */
  lemma ShortTopLevelRefused()
    ensures !EmailOK("a@b.c")
  {
    var a, d := "a", "b.c";
    SplitAfterFirst(a, '@', d);
    SplitWithoutSeparator(d, '@');
    assert a + ['@'] + d == "a@b.c";
  }

  /** Two separators in a row are refused. */
  lemma DoubleDotRefused()
    ensures !EmailOK("a..b@c.io")
  {
    var a, d := "a..b", "c.io";
    assert '@' !in a && '@' !in d;
    SplitAfterFirst(a, '@', d);
    SplitWithoutSeparator(d, '@');
    assert a + ['@'] + d == "a..b@c.io";
    assert !Dotted(a) by {
      assert IsSep(a[1]) && !IsWord(a[2]);
    }
  }

  /** Around an "@" with none on either side, that "@" is the only one. */
  lemma OnlyAt(a: string, b: string, k: int)
    requires '@' !in a && '@' !in b
    requires 0 <= k < |a| + 1 + |b| && (a + ['@'] + b)[k] == '@'
    ensures k == |a|
  {
    var s := a + ['@'] + b;
    forall m | 0 <= m < |s| && m != |a|
      ensures s[m] != '@'
    {
      if m < |a| {
        assert s[m] == a[m];
      } else {
        assert s[m] == b[m - |a| - 1];
      }
    }
  }

  /** An address with two "@" is refused. */
  lemma TwoAtsRefused(s: string, i: int, j: int)
    requires 0 <= i < j < |s| && s[i] == '@' && s[j] == '@'
    ensures !EmailOK(s)
  {
    if EmailOK(s) {
      var parts := Split(s, '@');
      JoinSplit(s, '@');
      assert parts[1..] == [parts[1]];
      assert s == parts[0] + ['@'] + parts[1];
      OnlyAt(parts[0], parts[1], i);
      OnlyAt(parts[0], parts[1], j);
    }
  }

  /** The client checks the name's length as typed, the server after
      trimming: "  a " passes the form and fails the server's name rule. */
  lemma NameRulesDisagree()
    ensures NameError("  a ").None?
    ensures Validation.TrimmedLengthChain(Validation.NameField, Text("  a "), 2, 50, Validation.NameLength).errors != []
  {
    var s := "  a ";
    var t := Trim(s);
    TrimIsInfix(s);
    var l := LeadingSpaces(s);
    if |t| >= 2 {
      assert t[0] == s[l] && t[|t| - 1] == s[l + |t| - 1];
      assert !IsSpace(s[l]) && !IsSpace(s[l + |t| - 1]);
    }
  }

  /** `user?.name?.[0]?.toUpperCase() || "U"`. */
  function AvatarInitial(name: Option<string>): (r: string)
    ensures |r| == 1
    ensures Truthy(name) ==> r == [Upper(name.value[0])]
    ensures !Truthy(name) ==> r == "U"
    ensures !('a' <= r[0] <= 'z')
  {
    if Truthy(name) then [Upper(name.value[0])] else "U"
  }

  // ---------------------------------------------------------------------
  // The page

  /** How the awaited profile update ended. */
  datatype UpdateOutcome = Settled | Threw

  class ProfilePage {
    var loading: bool

    constructor ()
      ensures !loading
    {
      loading := false;
    }

    /** `handleSubmit(onSubmit)` up to the await: a form with errors is not
        submitted; otherwise loading starts and the form values are sent. */
    method Submit(data: ProfileForm) returns (sent: Option<ProfileForm>)
      modifies this
      ensures !Submittable(data) ==> sent.None? && loading == old(loading)
      ensures Submittable(data) ==> sent == Some(data) && loading
    {
      if NameError(data.name).Some? || EmailError(data.email).Some? {
        return None;
      }
      loading := true;
      sent := Some(data);
    }

    /** `onSubmit` after the await. Loading ends only when the update
        settles: the handler has no `finally`, so a throw leaves it set. */
    method SubmitSettle(outcome: UpdateOutcome)
      modifies this
      ensures outcome.Settled? ==> !loading
      ensures outcome.Threw? ==> loading == old(loading)
    {
      if outcome.Settled? {
        loading := false;
      }
    }
  }
}
