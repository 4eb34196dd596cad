/** The request rule sets of server/middleware/validation.js. Each field
    chain runs its sanitizers and validators in order on the field's
    current value; a failing validator records one error carrying the
    chain's value at that point, `bail()` stops the chain after an error,
    and an optional chain skips a missing, null or falsy value. A rule set
    yields the errors of its chains in order and the request body with the
    sanitized values written back. Which routes run these rule sets, and
    whether anything reads their errors, is decided by the routes, not
    here. */
module Validation {
  import opened Js
  import TaskSchema


  /** The express-validator checks and sanitizer this model does not
      define: `isEmail`, `isISO8601` and `normalizeEmail`. */
  datatype Lib = Lib(isEmail: string -> bool, isISO8601: string -> bool, normalizeEmail: string -> string)

  /** The body fields the rule sets check. */
  datatype FieldName =
    NameField | EmailField | PasswordField
    | TitleField | DescriptionField | StatusField | PriorityField | CategoryField | DueDateField

  /** The field's key in the request body, which is also its path. */
  function Key(f: FieldName): string {
    match f
    case NameField => "name"
    case EmailField => "email"
    case PasswordField => "password"
    case TitleField => "title"
    case DescriptionField => "description"
    case StatusField => "status"
    case PriorityField => "priority"
    case CategoryField => "category"
    case DueDateField => "dueDate"
  }

  /** A request body: the checked fields it has. Fields the rule sets do
      not name play no part here. */
  type Body = map<FieldName, Value>

  /** The field's value; `undefined` when the body does not have it. */
  function Field(body: Body, f: FieldName): (v: Value)
    ensures f !in body ==> v.Undefined?
    ensures f in body ==> v == body[f]
  {
    if f in body then body[f] else Undefined
  }

  /** One failed validator: the field's path, the message, and the value
      the chain held when it failed. */
  datatype ValidatorError = ValidatorError(path: FieldName, msg: string, value: Value)

  /** What a chain leaves behind: its errors and the field's new value. */
  datatype Checked = Checked(errors: seq<ValidatorError>, value: Value)

  /** What a rule set leaves behind. */
  datatype Outcome = Outcome(errors: seq<ValidatorError>, body: Body)

  const NameLength: string := "Name must be between 2 and 50 characters"
  const EmailRequired: string := "Email is required"
  const EmailInvalid: string := "Please enter a valid email"
  const PasswordRequired: string := "Password is required"
  const PasswordLength: string := "Password must be at least 6 characters"
  const TitleLength: string := "Title must be between 1 and 100 characters"
  const DescriptionLength: string := "Description cannot exceed 500 characters"
  const StatusInvalid: string := "Status must be pending, in-progress, or completed"
  const PriorityInvalid: string := "Priority must be low, medium, or high"
  const CategoryLength: string := "Category cannot exceed 50 characters"
  const DueDateInvalid: string := "Due date must be a valid date"

  const StatusChoices: seq<string> := ["pending", "in-progress", "completed"]
  const PriorityChoices: seq<string> := ["low", "medium", "high"]

  // ---------------------------------------------------------------------
  // Chain steps

  /** The `trim()` sanitizer: the value's string form without surrounding
      white space. */
  function TrimValue(v: Value): (r: Value)
    ensures r.Text? && r.s == Trim(ToString(v))
    ensures v.Text? ==> |r.s| <= |v.s|
  {
    Text(Trim(ToString(v)))
  }

  /** `isLength({ min, max })` on the value's string form. */
  predicate LengthWithin(v: Value, min: nat, max: Option<nat>) {
    min <= |ToString(v)| && (max.Some? ==> |ToString(v)| <= max.value)
  }

  /** A validator step that leaves the value as it is: no error when
      `ok`, otherwise one. */
  function Check(ok: bool, path: FieldName, msg: string, v: Value): (r: Checked)
    ensures r.value == v
    ensures r.errors == [] <==> ok
    ensures !ok ==> r.errors == [ValidatorError(path, msg, v)]
    ensures forall e :: e in r.errors ==> e.path == path
  {
    if ok then Checked([], v) else Checked([ValidatorError(path, msg, v)], v)
  }

  /** Every error of a chain's result carries the chain's path. */
  predicate Tagged(c: Checked, path: FieldName) {
    forall e :: e in c.errors ==> e.path == path
  }

  /** `optional({ nullable: true, checkFalsy: true })`: a falsy value skips
      the rest of the chain, untouched. The test runs again before each
      later step, on the value as the steps before it left it, so a chain
      whose sanitizer can make the value falsy, and whose next validator
      could refuse that falsy value, repeats it after the sanitizer. */
  function OptionalFalsy(v: Value, rest: Checked): (c: Checked)
    ensures Falsy(v) ==> c == Checked([], v)
    ensures !Falsy(v) ==> c == rest
    ensures forall path :: Tagged(rest, path) ==> Tagged(c, path)
  {
    if Falsy(v) then Checked([], v) else rest
  }

  // ---------------------------------------------------------------------
  // Field chains

  /** `trim().isLength({ min, max })` with one message. */
  function TrimmedLengthChain(path: FieldName, v: Value, min: nat, max: nat, msg: string): (c: Checked)
    ensures c.value == TrimValue(v) && Tagged(c, path)
    ensures c.errors == [] <==> min <= |Trim(ToString(v))| <= max
    ensures c.errors != [] ==> c.errors == [ValidatorError(path, msg, c.value)]
  {
    var trimmed := TrimValue(v);
    Check(LengthWithin(trimmed, min, Some(max)), path, msg, trimmed)
  }

  /** `exists()` then `isEmail()` then `normalizeEmail()`, with `bail()`
      between: at most one error, and the address is normalised only when
      it is valid. */
  function RequiredEmailChain(lib: Lib, v: Value): (c: Checked)
    ensures |c.errors| <= 1 && Tagged(c, EmailField)
    ensures v.Undefined? ==> c == Checked([ValidatorError(EmailField, EmailRequired, v)], v)
    ensures !v.Undefined? && !lib.isEmail(ToString(v)) ==>
              c == Checked([ValidatorError(EmailField, EmailInvalid, v)], v)
    ensures !v.Undefined? && lib.isEmail(ToString(v)) ==>
              c == Checked([], Text(lib.normalizeEmail(ToString(v))))
  {
    if v.Undefined? then Checked([ValidatorError(EmailField, EmailRequired, v)], v)
    else EmailChain(lib, v)
  }

  /** `isEmail()` then `bail()` then `normalizeEmail()`. */
  function EmailChain(lib: Lib, v: Value): (c: Checked)
    ensures Tagged(c, EmailField)
    ensures c.errors == [] <==> lib.isEmail(ToString(v))
    ensures c.errors != [] ==> c == Checked([ValidatorError(EmailField, EmailInvalid, v)], v)
    ensures c.errors == [] ==> c.value == Text(lib.normalizeEmail(ToString(v)))
  {
    if !lib.isEmail(ToString(v)) then Checked([ValidatorError(EmailField, EmailInvalid, v)], v)
    else Checked([], Text(lib.normalizeEmail(ToString(v))))
  }

  /** `exists()` then `bail()` then `isLength({ min: 6 })`. */
  function RequiredPasswordChain(v: Value): (c: Checked)
    ensures c.value == v && |c.errors| <= 1 && Tagged(c, PasswordField)
    ensures c.errors == [] <==> !v.Undefined? && |ToString(v)| >= 6
    ensures v.Undefined? ==> c.errors == [ValidatorError(PasswordField, PasswordRequired, v)]
    ensures !v.Undefined? && |ToString(v)| < 6 ==> c.errors == [ValidatorError(PasswordField, PasswordLength, v)]
  {
    if v.Undefined? then Checked([ValidatorError(PasswordField, PasswordRequired, v)], v)
    else Check(LengthWithin(v, 6, None), PasswordField, PasswordLength, v)
  }

  /** `isIn(choices)` on the value's string form. */
  function ChoiceChain(path: FieldName, v: Value, choices: seq<string>, msg: string): (c: Checked)
    ensures c.value == v && Tagged(c, path)
    ensures c.errors == [] <==> ToString(v) in choices
  {
    Check(ToString(v) in choices, path, msg, v)
  }

  /** `trim().isLength({ max })`, with no lower bound. */
  function TrimmedMaxChain(path: FieldName, v: Value, max: nat, msg: string): (c: Checked)
    ensures c.value == TrimValue(v) && Tagged(c, path)
    ensures c.errors == [] <==> |Trim(ToString(v))| <= max
  {
    var trimmed := TrimValue(v);
    Check(LengthWithin(trimmed, 0, Some(max)), path, msg, trimmed)
  }

  // ---------------------------------------------------------------------
  // Rule sets

  /** One field chain of a rule set, after it ran on the field's value. */
  datatype Chain = Chain(path: FieldName, result: Checked)

  /** Every error of a chain carries the chain's path, and no two chains
      name the same field. */
  predicate WellFormed(cs: seq<Chain>) {
    && (forall k, e :: 0 <= k < |cs| && e in cs[k].result.errors ==> e.path == cs[k].path)
    && (forall i, j :: 0 <= i < j < |cs| ==> cs[i].path != cs[j].path)
  }

  /** The errors of all chains, chain by chain. */
  function AllErrors(cs: seq<Chain>): (r: seq<ValidatorError>)
    ensures r == [] <==> forall k :: 0 <= k < |cs| ==> cs[k].result.errors == []
  {
    if cs == [] then [] else cs[0].result.errors + AllErrors(cs[1..])
  }

  /** Writes a chain's value back: the field takes the value whenever it
      differs from the value the body holds, so a sanitizer that turns an
      absent field into "" adds that field. */
  function Store(body: Body, f: FieldName, v: Value): (r: Body)
    ensures Field(r, f) == v
    ensures f in r <==> f in body || v != Undefined
    ensures forall k :: k != f ==> (k in r <==> k in body) && Field(r, k) == Field(body, k)
  {
    if v != Field(body, f) then body[f := v] else body
  }

  /** The body after every chain wrote its value back: it keeps every key,
      and a field no chain names keeps its value. */
  function WriteBack(body: Body, cs: seq<Chain>): (r: Body)
    ensures body.Keys <= r.Keys
    ensures forall k :: (forall i :: 0 <= i < |cs| ==> cs[i].path != k) ==>
              (k in r <==> k in body) && Field(r, k) == Field(body, k)
    decreases |cs|
  {
    if cs == [] then body else WriteBack(Store(body, cs[0].path, cs[0].result.value), cs[1..])
  }

  function Run(body: Body, cs: seq<Chain>): Outcome {
    Outcome(AllErrors(cs), WriteBack(body, cs))
  }

  /** Two or three chains with distinct fields, each tagging its errors
      with its own field, form a well-formed rule set. */
  lemma WellFormedTwo(a: Chain, b: Chain)
    requires Tagged(a.result, a.path) && Tagged(b.result, b.path)
    requires a.path != b.path
    ensures WellFormed([a, b])
  {
  }

  lemma WellFormedThree(a: Chain, b: Chain, c: Chain)
    requires Tagged(a.result, a.path) && Tagged(b.result, b.path) && Tagged(c.result, c.path)
    requires a.path != b.path && a.path != c.path && b.path != c.path
    ensures WellFormed([a, b, c])
  {
  }

  /** Six chains: the first three and the last three, with distinct fields. */
  lemma WellFormedSix(a: Chain, b: Chain, c: Chain, d: Chain, e: Chain, f: Chain)
    requires WellFormed([a, b, c]) && WellFormed([d, e, f])
    requires a.path != d.path && a.path != e.path && a.path != f.path
    requires b.path != d.path && b.path != e.path && b.path != f.path
    requires c.path != d.path && c.path != e.path && c.path != f.path
    ensures WellFormed([a, b, c, d, e, f])
  {
    var all := [a, b, c, d, e, f];
    assert forall k :: 0 <= k < 3 ==> all[k] == [a, b, c][k];
    assert forall k :: 3 <= k < 6 ==> all[k] == [d, e, f][k - 3];
  }

  function RegisterChains(lib: Lib, body: Body): (cs: seq<Chain>)
    ensures WellFormed(cs)
  {
    var name := Chain(NameField, TrimmedLengthChain(NameField, Field(body, NameField), 2, 50, NameLength));
    var email := Chain(EmailField, RequiredEmailChain(lib, Field(body, EmailField)));
    var password := Chain(PasswordField, RequiredPasswordChain(Field(body, PasswordField)));
    WellFormedThree(name, email, password);
    [name, email, password]
  }

  function LoginChains(lib: Lib, body: Body): (cs: seq<Chain>)
    ensures WellFormed(cs)
  {
    var passwordValue := Field(body, PasswordField);
    var email := Chain(EmailField, RequiredEmailChain(lib, Field(body, EmailField)));
    var password := Chain(PasswordField, Check(!passwordValue.Undefined?, PasswordField, PasswordRequired, passwordValue));
    WellFormedTwo(email, password);
    [email, password]
  }

  function UpdateProfileChains(lib: Lib, body: Body): (cs: seq<Chain>)
    ensures WellFormed(cs)
  {
    var nameValue := Field(body, NameField);
    var emailValue := Field(body, EmailField);
    var passwordValue := Field(body, PasswordField);
    // a name that trims to "" is skipped by the test repeated after `trim()`
    var name := Chain(NameField, OptionalFalsy(nameValue,
                  OptionalFalsy(TrimValue(nameValue), TrimmedLengthChain(NameField, nameValue, 2, 50, NameLength))));
    var email := Chain(EmailField, OptionalFalsy(emailValue, EmailChain(lib, emailValue)));
    var password := Chain(PasswordField, OptionalFalsy(passwordValue,
                      Check(LengthWithin(passwordValue, 6, None), PasswordField, PasswordLength, passwordValue)));
    WellFormedThree(name, email, password);
    [name, email, password]
  }

  /** `title`: trimmed, 1 to 100 characters. */
  function TitleChain(body: Body): (c: Chain)
    ensures c.path == TitleField && Tagged(c.result, c.path)
  {
    Chain(TitleField, TrimmedLengthChain(TitleField, Field(body, TitleField), 1, 100, TitleLength))
  }

  /** `description`: optional, trimmed, at most 500 characters. */
  function DescriptionChain(body: Body): (c: Chain)
    ensures c.path == DescriptionField && Tagged(c.result, c.path)
  {
    var v := Field(body, DescriptionField);
    Chain(DescriptionField, OptionalFalsy(v, TrimmedMaxChain(DescriptionField, v, 500, DescriptionLength)))
  }

  /** `status`: optional, one of the three listed statuses. */
  function StatusChain(body: Body): (c: Chain)
    ensures c.path == StatusField && Tagged(c.result, c.path)
  {
    var v := Field(body, StatusField);
    Chain(StatusField, OptionalFalsy(v, ChoiceChain(StatusField, v, StatusChoices, StatusInvalid)))
  }

  /** `priority`: optional, one of the three priorities. */
  function PriorityChain(body: Body): (c: Chain)
    ensures c.path == PriorityField && Tagged(c.result, c.path)
  {
    var v := Field(body, PriorityField);
    Chain(PriorityField, OptionalFalsy(v, ChoiceChain(PriorityField, v, PriorityChoices, PriorityInvalid)))
  }

  /** `category`: optional, trimmed, at most 50 characters. */
  function CategoryChain(body: Body): (c: Chain)
    ensures c.path == CategoryField && Tagged(c.result, c.path)
  {
    var v := Field(body, CategoryField);
    Chain(CategoryField, OptionalFalsy(v, TrimmedMaxChain(CategoryField, v, 50, CategoryLength)))
  }

  /** `dueDate`: optional, an ISO 8601 date. */
  function DueDateChain(lib: Lib, body: Body): (c: Chain)
    ensures c.path == DueDateField && Tagged(c.result, c.path)
  {
    var v := Field(body, DueDateField);
    Chain(DueDateField, OptionalFalsy(v, Check(lib.isISO8601(ToString(v)), DueDateField, DueDateInvalid, v)))
  }

  function TaskChains(lib: Lib, body: Body): (cs: seq<Chain>)
    ensures WellFormed(cs)
  {
    var title := TitleChain(body);
    var description := DescriptionChain(body);
    var status := StatusChain(body);
    var priority := PriorityChain(body);
    var category := CategoryChain(body);
    var due := DueDateChain(lib, body);
    WellFormedThree(title, description, status);
    WellFormedThree(priority, category, due);
    WellFormedSix(title, description, status, priority, category, due);
    [title, description, status, priority, category, due]
  }

  function ValidateRegister(lib: Lib, body: Body): Outcome {
    Run(body, RegisterChains(lib, body))
  }

  function ValidateLogin(lib: Lib, body: Body): Outcome {
    Run(body, LoginChains(lib, body))
  }

  function ValidateUpdateProfile(lib: Lib, body: Body): Outcome {
    Run(body, UpdateProfileChains(lib, body))
  }

  function ValidateTask(lib: Lib, body: Body): Outcome {
    Run(body, TaskChains(lib, body))
  }

  // ---------------------------------------------------------------------
  // Errors of one field

  /** The errors recorded against `path`, in order. */
  function ErrorsFor(errors: seq<ValidatorError>, path: FieldName): (r: seq<ValidatorError>)
    ensures |r| <= |errors|
    ensures forall e :: e in r <==> e in errors && e.path == path
  {
    if errors == [] then []
    else if errors[0].path == path then [errors[0]] + ErrorsFor(errors[1..], path)
    else ErrorsFor(errors[1..], path)
  }

  lemma {:induction false} ErrorsForConcat(a: seq<ValidatorError>, b: seq<ValidatorError>, path: FieldName)
    ensures ErrorsFor(a + b, path) == ErrorsFor(a, path) + ErrorsFor(b, path)
  {
    if a == [] {
      assert a + b == b;
    } else {
      assert (a + b)[1..] == a[1..] + b;
      ErrorsForConcat(a[1..], b, path);
    }
  }

  /** Errors that all carry `path` are all of `path`'s errors and none of
      any other path's. */
  lemma {:induction false} ErrorsForTagged(errors: seq<ValidatorError>, path: FieldName, other: FieldName)
    requires forall e :: e in errors ==> e.path == path
    ensures ErrorsFor(errors, path) == errors
    ensures other != path ==> ErrorsFor(errors, other) == []
  {
    if errors != [] {
      assert errors[0] in errors;
      ErrorsForTagged(errors[1..], path, other);
    }
  }

  /** In a well-formed rule set, the errors recorded against a chain's
      field are exactly that chain's errors. */
  lemma {:induction false} ErrorsOfChain(cs: seq<Chain>, k: nat)
    requires WellFormed(cs) && k < |cs|
    ensures ErrorsFor(AllErrors(cs), cs[k].path) == cs[k].result.errors
  {
    ErrorsForConcat(cs[0].result.errors, AllErrors(cs[1..]), cs[k].path);
    ErrorsForTagged(cs[0].result.errors, cs[0].path, cs[k].path);
    if k > 0 {
      assert WellFormed(cs[1..]);
      ErrorsOfChain(cs[1..], k - 1);
    } else if |cs| > 1 {
      NoErrorsOfOtherPath(cs[1..], cs[0].path);
    }
  }

  /** A field no chain names has no errors. */
  lemma {:induction false} NoErrorsOfOtherPath(cs: seq<Chain>, path: FieldName)
    requires WellFormed(cs)
    requires forall k :: 0 <= k < |cs| ==> cs[k].path != path
    ensures ErrorsFor(AllErrors(cs), path) == []
  {
    if cs != [] {
      ErrorsForConcat(cs[0].result.errors, AllErrors(cs[1..]), path);
      ErrorsForTagged(cs[0].result.errors, cs[0].path, path);
      assert WellFormed(cs[1..]);
      NoErrorsOfOtherPath(cs[1..], path);
    }
  }

  /** A rule set whose chains all leave their field's value as it was
      leaves the body as it was. */
  lemma {:induction false} WriteBackUnchanged(body: Body, cs: seq<Chain>)
    requires forall k :: 0 <= k < |cs| ==> cs[k].result.value == Field(body, cs[k].path)
    ensures WriteBack(body, cs) == body
  {
    if cs != [] {
      assert Store(body, cs[0].path, cs[0].result.value) == body;
      WriteBackUnchanged(body, cs[1..]);
    }
  }

  /** In a well-formed rule set, each chain's field ends up holding the
      value that chain produced. */
  lemma {:induction false} WriteBackOwnValue(body: Body, cs: seq<Chain>, k: nat)
    requires WellFormed(cs) && k < |cs|
    ensures Field(WriteBack(body, cs), cs[k].path) == cs[k].result.value
    ensures cs[k].path in WriteBack(body, cs) <==> cs[k].path in body || cs[k].result.value != Undefined
    decreases |cs|
  {
    var next := Store(body, cs[0].path, cs[0].result.value);
    assert WellFormed(cs[1..]);
    if k > 0 {
      WriteBackOwnValue(next, cs[1..], k - 1);
    } else {
      assert forall i :: 0 <= i < |cs[1..]| ==> cs[1..][i].path != cs[0].path by {
        forall i | 0 <= i < |cs[1..]| ensures cs[1..][i].path != cs[0].path {
          assert cs[1..][i] == cs[i + 1];
        }
      }
    }
  }

  // ---------------------------------------------------------------------
  // Properties of the rule sets

  /** Register: a missing email gives only "Email is required", an invalid
      one only "Please enter a valid email", and a valid one no error. */
  lemma RegisterEmailRules(lib: Lib, body: Body)
    ensures var errors := ErrorsFor(ValidateRegister(lib, body).errors, EmailField);
            var v := Field(body, EmailField);
            && (v.Undefined? ==> errors == [ValidatorError(EmailField, EmailRequired, v)])
            && (!v.Undefined? && !lib.isEmail(ToString(v)) ==> errors == [ValidatorError(EmailField, EmailInvalid, v)])
            && (!v.Undefined? && lib.isEmail(ToString(v)) ==> errors == [])
  {
    ErrorsOfChain(RegisterChains(lib, body), 1);
  }

  /** Register: the trimmed name must have 2 to 50 characters. */
  lemma RegisterNameRule(lib: Lib, body: Body)
    ensures var errors := ErrorsFor(ValidateRegister(lib, body).errors, NameField);
            && (errors == [] <==> 2 <= |Trim(ToString(Field(body, NameField)))| <= 50)
            && (errors != [] ==> errors == [ValidatorError(NameField, NameLength, TrimValue(Field(body, NameField)))])
  {
    ErrorsOfChain(RegisterChains(lib, body), 0);
  }

  /** Register: the password must be present, and then have at least 6
      characters; a missing one is reported only as missing. */
  lemma RegisterPasswordRule(lib: Lib, body: Body)
    ensures var errors := ErrorsFor(ValidateRegister(lib, body).errors, PasswordField);
            var v := Field(body, PasswordField);
            && (errors == [] <==> !v.Undefined? && |ToString(v)| >= 6)
            && (v.Undefined? ==> errors == [ValidatorError(PasswordField, PasswordRequired, v)])
  {
    ErrorsOfChain(RegisterChains(lib, body), 2);
  }

  /** Register accepts a body exactly when the trimmed name has 2 to 50
      characters, the email is present and valid, and the password is
      present with at least 6 characters. */
  lemma RegisterAcceptsIff(lib: Lib, body: Body)
    ensures ValidateRegister(lib, body).errors == [] <==>
              && 2 <= |Trim(ToString(Field(body, NameField)))| <= 50
              && !Field(body, EmailField).Undefined? && lib.isEmail(ToString(Field(body, EmailField)))
              && !Field(body, PasswordField).Undefined? && |ToString(Field(body, PasswordField))| >= 6
  {
    var cs := RegisterChains(lib, body);
    assert AllErrors(cs) == [] <==> cs[0].result.errors == [] && cs[1].result.errors == [] && cs[2].result.errors == [];
  }

  /** Login: the email follows the register rule, and the password only
      has to be present, however short. */
  lemma LoginRules(lib: Lib, body: Body)
    ensures ErrorsFor(ValidateLogin(lib, body).errors, EmailField) == ErrorsFor(ValidateRegister(lib, body).errors, EmailField)
    ensures ErrorsFor(ValidateLogin(lib, body).errors, PasswordField) == [] <==> !Field(body, PasswordField).Undefined?
  {
    ErrorsOfChain(LoginChains(lib, body), 0);
    ErrorsOfChain(LoginChains(lib, body), 1);
    ErrorsOfChain(RegisterChains(lib, body), 1);
  }

  /** Profile update: a missing, null or falsy field is skipped; when all
      three are, nothing is reported and the body is left as it was. */
  lemma UpdateProfileSkipsFalsy(lib: Lib, body: Body)
    ensures forall k :: 0 <= k < 3 && Falsy(Field(body, UpdateProfileChains(lib, body)[k].path)) ==>
              UpdateProfileChains(lib, body)[k].result == Checked([], Field(body, UpdateProfileChains(lib, body)[k].path))
    ensures Falsy(Field(body, NameField)) && Falsy(Field(body, EmailField)) && Falsy(Field(body, PasswordField)) ==>
              ValidateUpdateProfile(lib, body) == Outcome([], body)
  {
    var cs := UpdateProfileChains(lib, body);
    if Falsy(Field(body, NameField)) && Falsy(Field(body, EmailField)) && Falsy(Field(body, PasswordField)) {
      WriteBackUnchanged(body, cs);
    }
  }

  /** Profile update: a field that is present and truthy meets the
      register rule for it; for the name, its trim must be truthy too. */
  lemma UpdateProfileUsesRegisterRules(lib: Lib, body: Body)
    ensures !Falsy(Field(body, NameField)) && !Falsy(TrimValue(Field(body, NameField))) ==>
              ErrorsFor(ValidateUpdateProfile(lib, body).errors, NameField) == ErrorsFor(ValidateRegister(lib, body).errors, NameField)
    ensures !Falsy(Field(body, EmailField)) ==>
              ErrorsFor(ValidateUpdateProfile(lib, body).errors, EmailField) == ErrorsFor(ValidateRegister(lib, body).errors, EmailField)
    ensures !Falsy(Field(body, PasswordField)) ==>
              ErrorsFor(ValidateUpdateProfile(lib, body).errors, PasswordField) == ErrorsFor(ValidateRegister(lib, body).errors, PasswordField)
  {
    ErrorsOfChain(UpdateProfileChains(lib, body), 0);
    ErrorsOfChain(UpdateProfileChains(lib, body), 1);
    ErrorsOfChain(UpdateProfileChains(lib, body), 2);
    ErrorsOfChain(RegisterChains(lib, body), 0);
    ErrorsOfChain(RegisterChains(lib, body), 1);
    ErrorsOfChain(RegisterChains(lib, body), 2);
  }

  /** Profile update: the name is accepted exactly when it is falsy, trims
      to "", or its trim has 2 to 50 characters. */
  lemma UpdateProfileNameRule(lib: Lib, body: Body)
    ensures var v := Field(body, NameField);
            ErrorsFor(ValidateUpdateProfile(lib, body).errors, NameField) == [] <==>
              Falsy(v) || Trim(ToString(v)) == "" || 2 <= |Trim(ToString(v))| <= 50
  {
    ErrorsOfChain(UpdateProfileChains(lib, body), 0);
  }

  /** Profile update: a truthy name of white space only is no error, and
      the body leaves validation with the name "". */
  lemma UpdateProfileBlankNameStoredEmpty(lib: Lib, body: Body)
    requires !Falsy(Field(body, NameField)) && Trim(ToString(Field(body, NameField))) == ""
    ensures ErrorsFor(ValidateUpdateProfile(lib, body).errors, NameField) == []
    ensures NameField in ValidateUpdateProfile(lib, body).body
    ensures ValidateUpdateProfile(lib, body).body[NameField] == Text("")
  {
    var cs := UpdateProfileChains(lib, body);
    ErrorsOfChain(cs, 0);
    WriteBackOwnValue(body, cs, 0);
  }

  /** Task: the title is accepted exactly when its trim has 1 to 100
      characters. */
  lemma TaskTitleRule(lib: Lib, body: Body)
    ensures ErrorsFor(ValidateTask(lib, body).errors, TitleField) == [] <==> 1 <= |Trim(ToString(Field(body, TitleField)))| <= 100
  {
    var cs := TaskChains(lib, body);
    ErrorsOfChain(cs, 0);
    assert cs[0] == TitleChain(body);
  }

  /** Task: the status is accepted exactly when it is falsy or one of the
      three listed ones. */
  lemma TaskStatusRule(lib: Lib, body: Body)
    ensures ErrorsFor(ValidateTask(lib, body).errors, StatusField) == [] <==>
              Falsy(Field(body, StatusField)) || ToString(Field(body, StatusField)) in StatusChoices
  {
    var cs := TaskChains(lib, body);
    ErrorsOfChain(cs, 2);
    assert cs[2] == StatusChain(body);
  }

  /** Task: a description is accepted exactly when it is falsy or its
      trim has at most 500 characters. */
  lemma TaskDescriptionRule(lib: Lib, body: Body)
    ensures ErrorsFor(ValidateTask(lib, body).errors, DescriptionField) == [] <==>
              Falsy(Field(body, DescriptionField)) || |Trim(ToString(Field(body, DescriptionField)))| <= 500
  {
    var cs := TaskChains(lib, body);
    ErrorsOfChain(cs, 1);
    assert cs[1] == DescriptionChain(body);
  }

  /** Task: the priority is accepted exactly when it is falsy or one of
      "low", "medium" and "high". */
  lemma TaskPriorityRule(lib: Lib, body: Body)
    ensures ErrorsFor(ValidateTask(lib, body).errors, PriorityField) == [] <==>
              Falsy(Field(body, PriorityField)) || ToString(Field(body, PriorityField)) in PriorityChoices
  {
    var cs := TaskChains(lib, body);
    ErrorsOfChain(cs, 3);
    assert cs[3] == PriorityChain(body);
  }

  /** Task: a category is accepted exactly when it is falsy or its trim
      has at most 50 characters. */
  lemma TaskCategoryRule(lib: Lib, body: Body)
    ensures ErrorsFor(ValidateTask(lib, body).errors, CategoryField) == [] <==>
              Falsy(Field(body, CategoryField)) || |Trim(ToString(Field(body, CategoryField)))| <= 50
  {
    var cs := TaskChains(lib, body);
    ErrorsOfChain(cs, 4);
    assert cs[4] == CategoryChain(body);
  }

  /** Task: a due date is accepted exactly when it is falsy or an ISO 8601
      date. */
  lemma TaskDueDateRule(lib: Lib, body: Body)
    ensures ErrorsFor(ValidateTask(lib, body).errors, DueDateField) == [] <==>
              Falsy(Field(body, DueDateField)) || lib.isISO8601(ToString(Field(body, DueDateField)))
  {
    var cs := TaskChains(lib, body);
    ErrorsOfChain(cs, 5);
    assert cs[5] == DueDateChain(lib, body);
  }

  /** Task: the title's `trim()` writes "" into a body without a title,
      so the sanitized body has a title it did not have. */
  lemma AbsentTitleStoredEmpty(lib: Lib, body: Body)
    requires TitleField !in body
    ensures TitleField in ValidateTask(lib, body).body
    ensures ValidateTask(lib, body).body[TitleField] == Text("")
  {
    var cs := TaskChains(lib, body);
    assert cs[0] == TitleChain(body);
    assert cs[0].result.value == Text(Trim(""));
    WriteBackOwnValue(body, cs, 0);
  }

  /** Task: repeating the optional test after `trim()` changes nothing for
      the description and the category, since "" passes a bound that has
      only a maximum. */
  lemma TaskTrimmedChainsNeedNoRecheck(body: Body)
    ensures var v := Field(body, DescriptionField);
            DescriptionChain(body).result ==
              OptionalFalsy(v, OptionalFalsy(TrimValue(v), TrimmedMaxChain(DescriptionField, v, 500, DescriptionLength)))
    ensures var v := Field(body, CategoryField);
            CategoryChain(body).result ==
              OptionalFalsy(v, OptionalFalsy(TrimValue(v), TrimmedMaxChain(CategoryField, v, 50, CategoryLength)))
  {
  }

  /** Task: each optional field that is falsy is never an error. */
  lemma TaskOptionalFieldsSkipFalsy(lib: Lib, body: Body)
    ensures Falsy(Field(body, DescriptionField)) ==> ErrorsFor(ValidateTask(lib, body).errors, DescriptionField) == []
    ensures Falsy(Field(body, StatusField)) ==> ErrorsFor(ValidateTask(lib, body).errors, StatusField) == []
    ensures Falsy(Field(body, PriorityField)) ==> ErrorsFor(ValidateTask(lib, body).errors, PriorityField) == []
    ensures Falsy(Field(body, CategoryField)) ==> ErrorsFor(ValidateTask(lib, body).errors, CategoryField) == []
    ensures Falsy(Field(body, DueDateField)) ==> ErrorsFor(ValidateTask(lib, body).errors, DueDateField) == []
  {
    var cs := TaskChains(lib, body);
    ErrorsOfChain(cs, 1);
    ErrorsOfChain(cs, 2);
    ErrorsOfChain(cs, 3);
    ErrorsOfChain(cs, 4);
    ErrorsOfChain(cs, 5);
  }

  /** Task: the status list of the request rules names "in-progress",
      which the stored schema's enum refuses. */
  lemma StatusRuleWiderThanSchema(lib: Lib, body: Body)
    requires Field(body, StatusField) == Text("in-progress")
    ensures ErrorsFor(ValidateTask(lib, body).errors, StatusField) == []
    ensures !TaskSchema.StatusAllowed("in-progress")
  {
    TaskStatusRule(lib, body);
    TaskSchema.StatusEnumIsTwoValued("in-progress");
  }

  /** A string title the request rules accept is one the schema accepts
      too, and conversely: both trim it and bound it by 1 and 100. */
  lemma TitleRuleAgreesWithSchema(s: string)
    ensures TrimmedLengthChain(TitleField, Text(s), 1, 100, TitleLength).errors == [] <==>
            (Trim(s) != "" && |Trim(s)| <= TaskSchema.TitleMax)
  {
  }

  // ---------------------------------------------------------------------
  // The error formatter

  /** The formatted error: `{ field, message, value }`. */
  datatype FieldError = FieldError(field: string, message: string, value: Value)

  /** The formatter's verdict: call the next handler, or answer. */
  datatype Verdict = Next | Reject(code: int, message: string, errors: seq<FieldError>)

  /** `handleValidationErrors`: with no errors the request goes on;
      otherwise 422 with one formatted error per recorded one, in order. */
  function HandleValidationErrors(errors: seq<ValidatorError>): (r: Verdict)
    ensures r.Next? <==> errors == []
    ensures r.Reject? ==> r.code == 422 && r.message == "Validation Error"
    ensures r.Reject? ==> |r.errors| == |errors|
    ensures r.Reject? ==> forall k :: 0 <= k < |errors| ==>
              && r.errors[k].field == Key(errors[k].path)
              && r.errors[k].message == errors[k].msg
              && r.errors[k].value == errors[k].value
  {
    if errors == [] then Next
    else Reject(422, "Validation Error",
                seq(|errors|, k requires 0 <= k < |errors| => FieldError(Key(errors[k].path), errors[k].msg, errors[k].value)))
  }
}
