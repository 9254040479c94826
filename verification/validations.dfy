/**
 * The login and signup input schemas, written as data and interpreted the
 * way the schema library does: an object schema checks its fields in shape
 * order; a wrong type (or a failed enum or literal) aborts the object,
 * while a failed string check only records an issue, all checks of a string
 * running; an object-level refinement runs when nothing aborted.
 *
 * The e-mail format test is a parameter `isEmail`.
 */
module Validations {
  import opened Wrappers
  import opened Js

  /** One reported problem: where it is and what to tell the user. */
  datatype Issue = Issue(path: seq<string>, message: string)

  datatype StringCheck =
    | MinLength(n: nat, message: string)
    | Email(message: string)
    | HasUpper(message: string)
    | HasDigit(message: string)

  datatype FieldSchema =
    | StringSchema(checks: seq<StringCheck>)
    | EnumSchema(options: seq<string>, message: string)
    | LiteralTrue(message: string)
    | OptionalBoolean

  type Shape = seq<(string, FieldSchema)>

  /** The type name the library reports for a value. */
  function ParsedType(v: Value): string {
    match v
    case Undefined => "undefined"
    case Null => "null"
    case Bool(_) => "boolean"
    case Num(_) => "number"
    case Str(_) => "string"
    case Arr(_) => "array"
    case Obj(_) => "object"
    case Fun(_) => "function"
  }

  /** The default invalid-type message: "Required" for a missing value. */
  function TypeMessage(expected: string, v: Value): string {
    if v.Undefined? then "Required" else "Expected " + expected + ", received " + ParsedType(v)
  }

  predicate HasUpperChar(s: string) {
    exists i :: 0 <= i < |s| && 'A' <= s[i] <= 'Z'
  }

  predicate HasDigitChar(s: string) {
    exists i :: 0 <= i < |s| && '0' <= s[i] <= '9'
  }

  predicate CheckPasses(isEmail: string -> bool, c: StringCheck, s: string) {
    match c
    case MinLength(n, _) => |s| >= n
    case Email(_) => isEmail(s)
    case HasUpper(_) => HasUpperChar(s)
    case HasDigit(_) => HasDigitChar(s)
  }

  /** The issues of every failing check, in check order. */
  function CheckIssues(isEmail: string -> bool, key: string, checks: seq<StringCheck>, s: string): (r: seq<Issue>)
    ensures r == [] <==> forall i :: 0 <= i < |checks| ==> CheckPasses(isEmail, checks[i], s)
    ensures forall i :: 0 <= i < |r| ==> r[i].path == [key]
    decreases |checks|
  {
    if checks == [] then []
    else
      (if CheckPasses(isEmail, checks[0], s) then [] else [Issue([key], checks[0].message)])
      + CheckIssues(isEmail, key, checks[1..], s)
  }

  /** The outcome of one field: its issues, and whether it aborted the object. */
  datatype FieldResult = FieldResult(issues: seq<Issue>, aborted: bool)

  function FieldCheck(isEmail: string -> bool, key: string, schema: FieldSchema, v: Value): (r: FieldResult)
    ensures r.aborted ==> r.issues != []
    ensures forall i :: 0 <= i < |r.issues| ==> r.issues[i].path == [key]
  {
    match schema
    case StringSchema(checks) =>
      if v.Str? then FieldResult(CheckIssues(isEmail, key, checks, v.s), false)
      else FieldResult([Issue([key], TypeMessage("string", v))], true)
    case EnumSchema(options, message) =>
      if v.Str? && v.s in options then FieldResult([], false) else FieldResult([Issue([key], message)], true)
    case LiteralTrue(message) =>
      if v == Bool(true) then FieldResult([], false) else FieldResult([Issue([key], message)], true)
    case OptionalBoolean =>
      if v.Undefined? || v.Bool? then FieldResult([], false)
      else FieldResult([Issue([key], TypeMessage("boolean", v))], true)
  }

  /** The value of `key` in a parsed object (missing keys read as undefined). */
  function Field(fields: map<string, Value>, key: string): Value {
    if key in fields then fields[key] else Undefined
  }

  /** Every field's outcome, in shape order. */
  function ShapeCheck(isEmail: string -> bool, shape: Shape, fields: map<string, Value>): (r: FieldResult)
    ensures r.issues == [] ==> !r.aborted
    ensures r.issues == [] <==> forall i :: 0 <= i < |shape| ==> FieldCheck(isEmail, shape[i].0, shape[i].1, Field(fields, shape[i].0)).issues == []
    ensures r.aborted <==> exists i :: 0 <= i < |shape| && FieldCheck(isEmail, shape[i].0, shape[i].1, Field(fields, shape[i].0)).aborted
    decreases |shape|
  {
    if shape == [] then FieldResult([], false)
    else
      var head := FieldCheck(isEmail, shape[0].0, shape[0].1, Field(fields, shape[0].0));
      var tail := ShapeCheck(isEmail, shape[1..], fields);
      assert forall i :: 1 <= i < |shape| ==> shape[i] == shape[1..][i - 1];
      FieldResult(head.issues + tail.issues, head.aborted || tail.aborted)
  }

  /** An object schema applied to any input: a non-object aborts at the root. */
  function ObjectCheck(isEmail: string -> bool, shape: Shape, input: Value): (r: FieldResult)
    ensures !input.Obj? ==> r == FieldResult([Issue([], TypeMessage("object", input))], true)
  {
    if input.Obj? then ShapeCheck(isEmail, shape, input.fields)
    else FieldResult([Issue([], TypeMessage("object", input))], true)
  }

  const PasswordLengthMessage := "Password must be at least 6 characters"
  const EmailMessage := "Invalid email address"

  const LoginShape: Shape := [
    ("email", StringSchema([Email(EmailMessage)])),
    ("password", StringSchema([MinLength(6, PasswordLengthMessage)])),
    ("remember", OptionalBoolean)
  ]

  const SignupShape: Shape := [
    ("name", StringSchema([MinLength(2, "Name must be at least 2 characters")])),
    ("email", StringSchema([Email(EmailMessage)])),
    ("password", StringSchema([
       MinLength(6, PasswordLengthMessage),
       HasUpper("Password must contain at least one uppercase letter"),
       HasDigit("Password must contain at least one number")])),
    ("confirmPassword", StringSchema([MinLength(6, "Please confirm your password")])),
    ("role", EnumSchema(["FREELANCER", "CLIENT"], "Please select a valid role")),
    ("terms", LiteralTrue("You must accept the terms and conditions"))
  ]

  const MismatchIssue := Issue(["confirmPassword"], "Passwords don't match")

  function LoginIssues(isEmail: string -> bool, input: Value): seq<Issue> {
    ObjectCheck(isEmail, LoginShape, input).issues
  }

  /** The signup schema: the fields, then the password match when nothing aborted. */
  function SignupIssues(isEmail: string -> bool, input: Value): seq<Issue> {
    var r := ObjectCheck(isEmail, SignupShape, input);
    if r.aborted then r.issues
    else r.issues + (if Field(input.fields, "password") == Field(input.fields, "confirmPassword") then [] else [MismatchIssue])
  }

  /** Login input passes exactly when it is an object with a well-formed e-mail, a password of 6+ characters and an absent or boolean `remember`. */
  lemma LoginAccepts(isEmail: string -> bool, input: Value)
    ensures LoginIssues(isEmail, input) == [] <==>
      && input.Obj?
      && Field(input.fields, "email").Str? && isEmail(Field(input.fields, "email").s)
      && Field(input.fields, "password").Str? && |Field(input.fields, "password").s| >= 6
      && (Field(input.fields, "remember").Undefined? || Field(input.fields, "remember").Bool?)
  {
    if input.Obj? {
      var f := input.fields;
      assert LoginShape[0].0 == "email" && LoginShape[1].0 == "password" && LoginShape[2].0 == "remember";
      var e := FieldCheck(isEmail, "email", LoginShape[0].1, Field(f, "email"));
      var p := FieldCheck(isEmail, "password", LoginShape[1].1, Field(f, "password"));
      assert Field(f, "email").Str? ==> (e.issues == [] <==> isEmail(Field(f, "email").s));
      assert Field(f, "password").Str? ==> (p.issues == [] <==> |Field(f, "password").s| >= 6);
    }
  }

  /** The field rules of the signup form, read off one object's fields. */
  predicate SignupFieldsOk(isEmail: string -> bool, f: map<string, Value>) {
    && Field(f, "name").Str? && |Field(f, "name").s| >= 2
    && Field(f, "email").Str? && isEmail(Field(f, "email").s)
    && Field(f, "password").Str? && |Field(f, "password").s| >= 6
    && HasUpperChar(Field(f, "password").s) && HasDigitChar(Field(f, "password").s)
    && Field(f, "confirmPassword").Str? && |Field(f, "confirmPassword").s| >= 6
    && Field(f, "role").Str? && Field(f, "role").s in ["FREELANCER", "CLIENT"]
    && Field(f, "terms") == Bool(true)
  }

  /** The signup form's rule for each field, on its own. */
  lemma NameRule(isEmail: string -> bool, v: Value)
    ensures FieldCheck(isEmail, "name", SignupShape[0].1, v).issues == [] <==> v.Str? && |v.s| >= 2
  {
    if v.Str? {
      var cs := SignupShape[0].1.checks;
      assert CheckIssues(isEmail, "name", cs, v.s) == [] <==> CheckPasses(isEmail, cs[0], v.s);
    }
  }

  lemma EmailRule(isEmail: string -> bool, v: Value)
    ensures FieldCheck(isEmail, "email", SignupShape[1].1, v).issues == [] <==> v.Str? && isEmail(v.s)
  {
    if v.Str? {
      var cs := SignupShape[1].1.checks;
      assert CheckIssues(isEmail, "email", cs, v.s) == [] <==> CheckPasses(isEmail, cs[0], v.s);
    }
  }

  lemma PasswordRule(isEmail: string -> bool, v: Value)
    ensures FieldCheck(isEmail, "password", SignupShape[2].1, v).issues == []
            <==> v.Str? && |v.s| >= 6 && HasUpperChar(v.s) && HasDigitChar(v.s)
  {
    if v.Str? {
      var cs := SignupShape[2].1.checks;
      assert CheckIssues(isEmail, "password", cs, v.s) == []
             <==> CheckPasses(isEmail, cs[0], v.s) && CheckPasses(isEmail, cs[1], v.s) && CheckPasses(isEmail, cs[2], v.s);
    }
  }

  lemma ConfirmRule(isEmail: string -> bool, v: Value)
    ensures FieldCheck(isEmail, "confirmPassword", SignupShape[3].1, v).issues == [] <==> v.Str? && |v.s| >= 6
  {
    if v.Str? {
      var cs := SignupShape[3].1.checks;
      assert CheckIssues(isEmail, "confirmPassword", cs, v.s) == [] <==> CheckPasses(isEmail, cs[0], v.s);
    }
  }

  lemma RoleRule(isEmail: string -> bool, v: Value)
    ensures FieldCheck(isEmail, "role", SignupShape[4].1, v).issues == [] <==> v.Str? && (v.s == "FREELANCER" || v.s == "CLIENT")
  {
  }

  lemma SignupFieldsCheck(isEmail: string -> bool, f: map<string, Value>)
    ensures ShapeCheck(isEmail, SignupShape, f).issues == [] <==> SignupFieldsOk(isEmail, f)
  {
    var ok := forall i :: 0 <= i < |SignupShape| ==> FieldCheck(isEmail, SignupShape[i].0, SignupShape[i].1, Field(f, SignupShape[i].0)).issues == [];
    var name := FieldCheck(isEmail, "name", SignupShape[0].1, Field(f, "name"));
    var email := FieldCheck(isEmail, "email", SignupShape[1].1, Field(f, "email"));
    var pw := FieldCheck(isEmail, "password", SignupShape[2].1, Field(f, "password"));
    var confirm := FieldCheck(isEmail, "confirmPassword", SignupShape[3].1, Field(f, "confirmPassword"));
    var role := FieldCheck(isEmail, "role", SignupShape[4].1, Field(f, "role"));
    var terms := FieldCheck(isEmail, "terms", SignupShape[5].1, Field(f, "terms"));
    assert ok <==> name.issues == [] && email.issues == [] && pw.issues == [] && confirm.issues == [] && role.issues == [] && terms.issues == [];
    NameRule(isEmail, Field(f, "name"));
    EmailRule(isEmail, Field(f, "email"));
    PasswordRule(isEmail, Field(f, "password"));
    ConfirmRule(isEmail, Field(f, "confirmPassword"));
    RoleRule(isEmail, Field(f, "role"));
  }

  /** Signup input passes exactly when every field rule holds and the two passwords are equal. */
  lemma SignupAccepts(isEmail: string -> bool, input: Value)
    ensures SignupIssues(isEmail, input) == [] <==>
      input.Obj? && SignupFieldsOk(isEmail, input.fields)
      && Field(input.fields, "password") == Field(input.fields, "confirmPassword")
  {
    if input.Obj? {
      SignupFieldsCheck(isEmail, input.fields);
    }
  }

  /**
   * The mismatch is reported, on the confirmPassword path, exactly when no
   * field aborted and the passwords differ; a mistyped field or a bad role
   * or terms value hides it even when the passwords differ.
   */
  lemma MismatchReported(isEmail: string -> bool, input: Value)
    ensures input.Obj? && !ObjectCheck(isEmail, SignupShape, input).aborted ==>
      (MismatchIssue in SignupIssues(isEmail, input) <==> Field(input.fields, "password") != Field(input.fields, "confirmPassword"))
    ensures ObjectCheck(isEmail, SignupShape, input).aborted ==> MismatchIssue !in SignupIssues(isEmail, input)
  {
    var r := ObjectCheck(isEmail, SignupShape, input);
    assert forall i :: 0 <= i < |r.issues| ==> r.issues[i].path != ["confirmPassword"] || r.issues[i].message != "Passwords don't match" by {
      if input.Obj? {
        ShapeMessages(isEmail, SignupShape, input.fields);
      }
    }
  }

  /** No field schema of the signup form can produce the mismatch message. */
  lemma {:induction false} ShapeMessages(isEmail: string -> bool, shape: Shape, f: map<string, Value>)
    requires forall i :: 0 <= i < |shape| ==> shape[i] in SignupShape
    ensures forall i :: 0 <= i < |ShapeCheck(isEmail, shape, f).issues| ==> ShapeCheck(isEmail, shape, f).issues[i].message != "Passwords don't match"
    decreases |shape|
  {
    if shape != [] {
      ShapeMessages(isEmail, shape[1..], f);
      var head := FieldCheck(isEmail, shape[0].0, shape[0].1, Field(f, shape[0].0));
      FieldMessages(isEmail, shape[0].0, shape[0].1, Field(f, shape[0].0));
    }
  }

  lemma FieldMessages(isEmail: string -> bool, key: string, schema: FieldSchema, v: Value)
    requires (key, schema) in SignupShape
    ensures forall i :: 0 <= i < |FieldCheck(isEmail, key, schema, v).issues| ==> FieldCheck(isEmail, key, schema, v).issues[i].message != "Passwords don't match"
  {
    var r := FieldCheck(isEmail, key, schema, v);
    if schema.StringSchema? && v.Str? {
      CheckMessages(isEmail, key, schema.checks, v.s);
    } else if schema.StringSchema? {
      var m := TypeMessage("string", v);
      assert m == "Required" || m[..9] == "Expected ";
    }
  }

  lemma {:induction false} CheckMessages(isEmail: string -> bool, key: string, checks: seq<StringCheck>, s: string)
    requires forall i :: 0 <= i < |checks| ==> checks[i].message != "Passwords don't match"
    ensures forall i :: 0 <= i < |CheckIssues(isEmail, key, checks, s)| ==> CheckIssues(isEmail, key, checks, s)[i].message != "Passwords don't match"
    decreases |checks|
  {
    if checks != [] {
      CheckMessages(isEmail, key, checks[1..], s);
    }
  }

  /** Every password the signup rule accepts also passes the login rule. */
  lemma SignupPasswordPassesLogin(isEmail: string -> bool, v: Value)
    requires FieldCheck(isEmail, "password", SignupShape[2].1, v).issues == []
    ensures FieldCheck(isEmail, "password", LoginShape[1].1, v).issues == []
  {
    var cs := SignupShape[2].1.checks;
    assert CheckPasses(isEmail, cs[0], v.s);
  }
}
