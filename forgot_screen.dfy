/**
 The forgot-password screen (`Components/ForgotScreen/index.jsx`): the mobile number is
 verified with the server, after which an email field and a Submit button appear; Submit asks
 the server to send a password email and closes the screen on success. Server replies are
 inputs: a status code, or None when the request throws.
 */
module ForgotScreen {
  import opened Wrappers
  import opened Forms
  import LoginScreen

  /** `validateField`'s error: the mobile rule of the login screen, an emptiness check for
      the email, and no rule for any other name. */
  function FieldError(name: string, value: string): (e: string)
    ensures e == "" <==>
      (if name == "mobile" then TenDigits(value) else if name == "email" then value != "" else true)
    ensures name == "mobile" ==> e == MobileError(value)
    ensures name == "email" && value == "" ==> e == EmailRequired
  {
    if name == "mobile" then MobileError(value)
    else if name == "email" then (if value == "" then EmailRequired else "")
    else ""
  }

  /** The screen's state: the form values, the recorded errors and `isMobileVerify`. */
  datatype State = State(data: map<string, string>, errors: map<string, string>, mobileVerified: bool)

  const Initial := State(map["mobile" := "", "password" := ""], map[], false)

  /** The screen opens unverified, with an empty mobile, no email and no error; the email
      field is hidden and Submit sends nothing. */
  lemma InitialState()
    ensures !Initial.mobileVerified && !EmailShown(Initial)
    ensures Initial.errors == map[]
    ensures Lookup(Initial.data, "mobile") == "" && Lookup(Initial.data, "email") == ""
    ensures forall reply :: !HandleSubmit(Initial, reply).sent
  {
  }

  /** The email field and the Submit button are rendered only after verification. */
  predicate EmailShown(st: State) {
    st.mobileVerified
  }

  /** The error object after `validateField(name, value)`. */
  function Validated(errors: map<string, string>, name: string, value: string): (r: map<string, string>)
    ensures name in r && r[name] == FieldError(name, value)
    ensures forall k :: k in errors && k != name ==> k in r && r[k] == errors[k]
  {
    errors[name := FieldError(name, value)]
  }

  /** The state after an edit, and whether the edit fires `verifyMobile`. */
  datatype Edited = Edited(state: State, verifies: bool)

  /** `handleChange`: a new value of exactly ten characters fires the verification, whichever
      field is edited; the value is stored and that field validated. */
  function HandleChange(st: State, value: string, name: string): (r: Edited)
    ensures r.verifies <==> |value| == 10
    ensures name in r.state.data && r.state.data[name] == value
    ensures forall k :: k in st.data && k != name ==> k in r.state.data && r.state.data[k] == st.data[k]
    ensures r.state.errors == Validated(st.errors, name, value)
    ensures r.state.mobileVerified == st.mobileVerified
  {
    Edited(State(st.data[name := value], Validated(st.errors, name, value), st.mobileVerified), |value| == 10)
  }

  /** The mobile input strips non-digits first, so it fires the verification exactly when ten
      digits remain. */
  function OnMobileText(st: State, raw: string): (r: Edited)
    ensures r.verifies <==> |DigitsOnly(raw)| == 10
    ensures AllDigits(Lookup(r.state.data, "mobile"))
    ensures Lookup(r.state.errors, "mobile") == "" <==> r.verifies
  {
    HandleChange(st, DigitsOnly(raw), "mobile")
  }

  /** The verification reply: only status 200 sets `isMobileVerify`; nothing clears it. */
  function OnVerifyReply(st: State, status: Option<int>): (r: State)
    ensures r.mobileVerified <==> st.mobileVerified || status == Some(200)
    ensures r.data == st.data && r.errors == st.errors
  {
    if status == Some(200) then st.(mobileVerified := true) else st
  }

  /** What pressing Submit does: the new state, whether the request is sent, and whether the
      screen closes (`setForgot(false)`). */
  datatype Submitted = Submitted(state: State, sent: bool, closes: bool)

  /** `handleLogin` as written: the second check validates the name "password", which has no
      rule, with the email value, so only the mobile gates the request. */
  function HandleSubmit(st: State, reply: Option<int>): (r: Submitted)
    ensures r.sent <==> TenDigits(Lookup(st.data, "mobile"))
    ensures r.closes <==> r.sent && reply == Some(200)
    ensures "mobile" in r.state.errors && r.state.errors["mobile"] == MobileError(Lookup(st.data, "mobile"))
    ensures "password" in r.state.errors && r.state.errors["password"] == ""
  {
    var mobile := Validated(st.errors, "mobile", Lookup(st.data, "mobile"));
    var second := Validated(mobile, "password", Lookup(st.data, "email"));
    var sent := FieldError("mobile", Lookup(st.data, "mobile")) == "" && FieldError("password", Lookup(st.data, "email")) == "";
    Submitted(st.(errors := second), sent, sent && reply == Some(200))
  }

  /** The evidently intended `handleLogin`: the second check validates the email. */
  function HandleSubmitIntended(st: State, reply: Option<int>): (r: Submitted)
    ensures r.sent <==> TenDigits(Lookup(st.data, "mobile")) && Lookup(st.data, "email") != ""
    ensures r.closes <==> r.sent && reply == Some(200)
  {
    var mobile := Validated(st.errors, "mobile", Lookup(st.data, "mobile"));
    var second := Validated(mobile, "email", Lookup(st.data, "email"));
    var sent := FieldError("mobile", Lookup(st.data, "mobile")) == "" && FieldError("email", Lookup(st.data, "email")) == "";
    Submitted(st.(errors := second), sent, sent && reply == Some(200))
  }

  /** The mobile rule is the login screen's. */
  lemma MobileRuleMatchesLogin(v: string)
    ensures FieldError("mobile", v) == LoginScreen.FieldError("mobile", v)
  {
  }

  /** As written, a verified user who never typed an email gets the request sent with no
      email, which the intended gate refuses. */
  lemma SubmitIgnoresEmail()
    ensures var st := Initial.(data := map["mobile" := "9876543210", "password" := ""], mobileVerified := true);
            HandleSubmit(st, Some(200)).sent && HandleSubmit(st, Some(200)).closes
              && !HandleSubmitIntended(st, Some(200)).sent
  {
    var m := "9876543210";
    assert TenDigits(m) by { assert forall i :: 0 <= i < |m| ==> IsDigit(m[i]); }
  }

  // ---------------------------------------------------------------------------------------
  // The verification flag over a run of events

  /** What can happen on the screen: an edit, a verification reply, a Submit press with the
      reply it gets. */
  datatype Event = Edit(value: string, name: string) | VerifyReply(status: Option<int>) | Press(reply: Option<int>)

  /** One event. Submit can be pressed only while it is rendered. */
  function Step(st: State, e: Event): State {
    match e
    case Edit(value, name) => HandleChange(st, value, name).state
    case VerifyReply(status) => OnVerifyReply(st, status)
    case Press(reply) => if EmailShown(st) then HandleSubmit(st, reply).state else st
  }

  function Run(st: State, es: seq<Event>): State {
    if |es| == 0 then st else Step(Run(st, es[..|es| - 1]), es[|es| - 1])
  }

  /** Nothing sets the flag back to false. */
  lemma {:induction false} VerifiedStaysVerified(st: State, es: seq<Event>)
    requires st.mobileVerified
    ensures Run(st, es).mobileVerified
  {
    if |es| > 0 { VerifiedStaysVerified(st, es[..|es| - 1]); }
  }

  /** The flag turns true only through a verification reply with status 200. */
  lemma {:induction false} VerifiedOnlyBy200(st: State, es: seq<Event>)
    requires !st.mobileVerified && Run(st, es).mobileVerified
    ensures exists i :: 0 <= i < |es| && es[i] == VerifyReply(Some(200))
  {
    var init := es[..|es| - 1];
    if Run(st, init).mobileVerified {
      VerifiedOnlyBy200(st, init);
      var i :| 0 <= i < |init| && init[i] == VerifyReply(Some(200));
      assert es[i] == init[i];
    } else {
      assert es[|es| - 1] == VerifyReply(Some(200));
    }
  }

  /** From the initial screen, no run without a 200 verification ever shows the email field. */
  lemma EmailHiddenWithout200(es: seq<Event>)
    requires forall i :: 0 <= i < |es| ==> es[i] != VerifyReply(Some(200))
    ensures !EmailShown(Run(Initial, es))
  {
    if Run(Initial, es).mobileVerified { VerifiedOnlyBy200(Initial, es); }
  }
}
