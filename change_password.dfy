/**
 The change-password screen (`Components/ChangePassword/index.jsx`): three password fields under
 one rule, the gate and payload of the change request, the edit handler, and the error line
 printed under each field. The request itself and the storage of its reply are outside the
 model; the user id comes from the cart store as an input.
 */
module ChangePassword {
  import opened Wrappers
  import opened Forms

  /** The three inputs of the screen and the keys they are stored under. */
  datatype Field = OldPassword | NewPassword | ConfirmPassword

  function Key(f: Field): string {
    match f
    case OldPassword => "old_password"
    case NewPassword => "new_password"
    case ConfirmPassword => "confirm_password"
  }

  predicate IsFieldKey(name: string) {
    name == "old_password" || name == "new_password" || name == "confirm_password"
  }

  /** `validateField`'s error: the three keys share the password rule, other names have none. */
  function FieldError(name: string, value: string): (e: string)
    ensures IsFieldKey(name) ==> e == PasswordError(value)
    ensures !IsFieldKey(name) ==> e == ""
    ensures e == "" <==> !IsFieldKey(name) || |value| >= 6
  {
    if IsFieldKey(name) then PasswordError(value) else ""
  }

  /** What `validateField` returns, and the error object after its merge. */
  datatype Validation = Validation(valid: bool, errors: map<string, string>)

  function ValidateField(errors: map<string, string>, name: string, value: string): (r: Validation)
    ensures name in r.errors && r.errors[name] == FieldError(name, value)
    ensures r.valid <==> r.errors[name] == ""
    ensures r.errors.Keys == errors.Keys + {name}
    ensures forall k :: k in errors && k != name ==> r.errors[k] == errors[k]
  {
    var e := FieldError(name, value);
    Validation(e == "", errors[name := e])
  }

  datatype Form = Form(data: map<string, string>, errors: map<string, string>)

  const InitialForm := Form(map["old_password" := "", "new_password" := "", "confirm_password" := ""], map[])

  /** The screen opens with three empty fields; pressing Change at once sends nothing and
      shows the "required" message under each of them. */
  lemma InitialFormRefused(userId: Option<int>)
    ensures forall k :: IsFieldKey(k) ==> Lookup(InitialForm.data, k) == ""
    ensures HandleSubmit(InitialForm, userId).payload.None?
    ensures forall k :: IsFieldKey(k) ==> HandleSubmit(InitialForm, userId).errors[k] == PasswordRequired
  {
  }

  /** The body of the change request. */
  datatype Payload = Payload(id: Option<int>, oldPassword: string, password: string, passwordConfirmation: string)

  /** What pressing Change decides: the errors recorded, and the payload sent, if any. */
  datatype Submission = Submission(errors: map<string, string>, payload: Option<Payload>)

  /** `handleLogin`: all three fields are validated; the request goes out only when all three
      pass, carrying the user id and the three values under the server's names. */
  function HandleSubmit(form: Form, userId: Option<int>): (r: Submission)
    ensures forall k :: IsFieldKey(k) ==> k in r.errors && r.errors[k] == PasswordError(Lookup(form.data, k))
    ensures forall k :: k in form.errors && !IsFieldKey(k) ==> k in r.errors && r.errors[k] == form.errors[k]
    ensures r.errors.Keys == form.errors.Keys + {"old_password", "new_password", "confirm_password"}
    ensures r.payload.Some? <==> forall k :: IsFieldKey(k) ==> |Lookup(form.data, k)| >= 6
    ensures r.payload.Some? ==>
      r.payload.value == Payload(userId, Lookup(form.data, "old_password"),
                                 Lookup(form.data, "new_password"), Lookup(form.data, "confirm_password"))
  {
    var o := ValidateField(form.errors, "old_password", Lookup(form.data, "old_password"));
    var n := ValidateField(o.errors, "new_password", Lookup(form.data, "new_password"));
    var c := ValidateField(n.errors, "confirm_password", Lookup(form.data, "confirm_password"));
    var payload := Payload(userId, Lookup(form.data, "old_password"), Lookup(form.data, "new_password"),
                           Lookup(form.data, "confirm_password"));
    Submission(c.errors, if o.valid && n.valid && c.valid then Some(payload) else None)
  }

  /** The gate never compares the new password with its confirmation. */
  lemma AcceptsMismatchedConfirmation(userId: Option<int>)
    ensures var form := InitialForm.(data := map["old_password" := "secret1", "new_password" := "abcdef",
                                                 "confirm_password" := "uvwxyz"]);
            HandleSubmit(form, userId).payload.Some?
              && HandleSubmit(form, userId).payload.value.password != HandleSubmit(form, userId).payload.value.passwordConfirmation
  {
    var form := InitialForm.(data := map["old_password" := "secret1", "new_password" := "abcdef",
                                         "confirm_password" := "uvwxyz"]);
    assert Lookup(form.data, Key(OldPassword)) == "secret1";
    assert Lookup(form.data, Key(NewPassword)) == "abcdef";
    assert Lookup(form.data, Key(ConfirmPassword)) == "uvwxyz";
  }

  /** `handleChange`: store the value under its name, then validate that field only. */
  function HandleChange(form: Form, value: string, name: string): (r: Form)
    ensures name in r.data && r.data[name] == value
    ensures forall k :: k in form.data && k != name ==> k in r.data && r.data[k] == form.data[k]
    ensures name in r.errors && r.errors[name] == FieldError(name, value)
    ensures forall k :: k in form.errors && k != name ==> k in r.errors && r.errors[k] == form.errors[k]
    ensures r.errors.Keys == form.errors.Keys + {name}
  {
    Form(form.data[name := value], ValidateField(form.errors, name, value).errors)
  }

  // ---------------------------------------------------------------------------------------
  // The error line under each input

  /** `renderError(field)`: the message recorded under `field`, when it is non-empty. */
  function RenderError(errors: map<string, string>, field: string): (r: Option<string>)
    ensures r.Some? <==> Lookup(errors, field) != ""
    ensures r.Some? ==> r.value == errors[field]
  {
    if field in errors && errors[field] != "" then Some(errors[field]) else None
  }

  /** The events of the screen: an edit of one of the three inputs, or a press of Change. */
  datatype Event = Edit(field: Field, value: string) | Press(userId: Option<int>)

  function Step(form: Form, e: Event): Form {
    match e
    case Edit(f, value) => HandleChange(form, value, Key(f))
    case Press(userId) => form.(errors := HandleSubmit(form, userId).errors)
  }

  function Run(form: Form, es: seq<Event>): Form {
    if |es| == 0 then form else Step(Run(form, es[..|es| - 1]), es[|es| - 1])
  }

  /** As written, every input calls `renderError("password")`. No event ever records that key,
      so from the initial screen none of the three error lines is ever shown. */
  lemma {:induction false} PasswordLineNeverShown(es: seq<Event>)
    ensures "password" !in Run(InitialForm, es).errors
    ensures RenderError(Run(InitialForm, es).errors, "password") == None
  {
    if |es| > 0 {
      PasswordLineNeverShown(es[..|es| - 1]);
      StepKeepsPasswordOut(Run(InitialForm, es[..|es| - 1]), es[|es| - 1]);
    }
  }

  lemma StepKeepsPasswordOut(form: Form, e: Event)
    requires "password" !in form.errors
    ensures "password" !in Step(form, e).errors
  {
    match e
    case Edit(f, value) =>
      assert Key(f) != "password";
    case Press(userId) =>
  }

  /** The evidently intended error line: the message recorded under the input's own key. */
  function FieldMessage(errors: map<string, string>, f: Field): (r: Option<string>)
    ensures r.Some? <==> Lookup(errors, Key(f)) != ""
  {
    RenderError(errors, Key(f))
  }

  /** With the intended line, an edit that breaks the rule shows its message under that input,
      and one that satisfies it clears the line. */
  lemma EditShowsMessage(form: Form, f: Field, value: string)
    ensures |value| < 6 ==> FieldMessage(HandleChange(form, value, Key(f)).errors, f) == Some(PasswordError(value))
    ensures |value| >= 6 ==> FieldMessage(HandleChange(form, value, Key(f)).errors, f) == None
  {
  }
}
