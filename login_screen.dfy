/**
 The login screen (`Components/LoginScreen/index.jsx`): field validation, the gate in front
 of the login request, the digit filter on the mobile input, and the device classification
 by user agent used on the web. The request, the device-information calls and the random web
 device id are outside the model.
 */
module LoginScreen {
  import opened Forms

  /** The error `validateField` computes for a field: mobile and password have rules, every
      other name is valid. */
  function FieldError(name: string, value: string): (e: string)
    ensures e == "" <==>
      (if name == "mobile" then TenDigits(value) else if name == "password" then |value| >= 6 else true)
    ensures name == "mobile" ==> e == MobileError(value)
    ensures name == "password" ==> e == PasswordError(value)
  {
    if name == "mobile" then MobileError(value)
    else if name == "password" then PasswordError(value)
    else ""
  }

  /** What `validateField` returns, and the error object after its `setErrors` merge. */
  datatype Validation = Validation(valid: bool, errors: map<string, string>)

  /** `validateField`: record the field's error under its name only; valid iff it is "". */
  function ValidateField(errors: map<string, string>, name: string, value: string): (r: Validation)
    ensures name in r.errors && r.errors[name] == FieldError(name, value)
    ensures r.valid <==> r.errors[name] == ""
    ensures r.errors.Keys == errors.Keys + {name}
    ensures forall k :: k in errors && k != name ==> r.errors[k] == errors[k]
  {
    var e := FieldError(name, value);
    Validation(e == "", errors[name := e])
  }

  /** The form values and the recorded errors. */
  datatype Form = Form(data: map<string, string>, errors: map<string, string>)

  const InitialForm := Form(map["mobile" := "", "password" := ""], map[])

  /** The screen opens with both fields empty and no error shown; pressing Login at once
      sends nothing and records both "required" messages. */
  lemma InitialFormGate()
    ensures Lookup(InitialForm.data, "mobile") == "" && Lookup(InitialForm.data, "password") == ""
    ensures InitialForm.errors == map[]
    ensures !HandleLogin(InitialForm).proceed
    ensures HandleLogin(InitialForm).errors == map["mobile" := MobileRequired, "password" := PasswordRequired]
  {
  }

  /** What pressing Login decides: whether the request is sent, and the errors recorded. */
  datatype LoginGate = LoginGate(proceed: bool, errors: map<string, string>)

  /** `handleLogin`'s gate: both fields are validated, so both errors are recorded, and the
      request goes out only when both are valid. */
  function HandleLogin(form: Form): (r: LoginGate)
    ensures "mobile" in r.errors && r.errors["mobile"] == MobileError(Lookup(form.data, "mobile"))
    ensures "password" in r.errors && r.errors["password"] == PasswordError(Lookup(form.data, "password"))
    ensures forall k :: k in form.errors && k != "mobile" && k != "password" ==> k in r.errors && r.errors[k] == form.errors[k]
    ensures r.proceed <==> TenDigits(Lookup(form.data, "mobile")) && |Lookup(form.data, "password")| >= 6
  {
    var m := ValidateField(form.errors, "mobile", Lookup(form.data, "mobile"));
    var p := ValidateField(m.errors, "password", Lookup(form.data, "password"));
    LoginGate(m.valid && p.valid, p.errors)
  }

  /** `handleChange`: store the value under its name, then validate that field only. */
  function HandleChange(form: Form, value: string, name: string): (r: Form)
    ensures name in r.data && r.data[name] == value
    ensures forall k :: k in form.data && k != name ==> k in r.data && r.data[k] == form.data[k]
    ensures r.errors == ValidateField(form.errors, name, value).errors
  {
    Form(form.data[name := value], ValidateField(form.errors, name, value).errors)
  }

  /** The mobile input's `onChangeText`: non-digits are stripped before the value is stored. */
  function OnMobileText(form: Form, raw: string): (r: Form)
    ensures AllDigits(Lookup(r.data, "mobile"))
    ensures Lookup(r.data, "mobile") == DigitsOnly(raw)
  {
    HandleChange(form, DigitsOnly(raw), "mobile")
  }

  /** A mobile typed through the input later passes the gate's mobile check exactly when it
      has ten digits. */
  lemma TypedMobileGate(form: Form, raw: string)
    ensures var f := OnMobileText(form, raw);
            HandleLogin(f).errors["mobile"] == "" <==> |DigitsOnly(raw)| == 10
  {
  }

  // ---------------------------------------------------------------------------------------
  // Device classification on the web

  datatype Device = Device(deviceType: string, deviceName: string)

  const UnknownDevice := Device("Unknown", "Unknown")

  /** The `if … else if` chain over the user agent. */
  function ClassifyUserAgent(ua: string): Device {
    if Contains(ua, "iPhone") then Device("iOS", "iPhone")
    else if Contains(ua, "iPad") then Device("iOS", "iPad")
    else if Contains(ua, "Android") then Device("Android", "Android Device")
    else if Contains(ua, "Windows") then Device("Windows", "Windows PC")
    else if Contains(ua, "Mac") then Device("MacOS", "Mac Device")
    else UnknownDevice
  }

  /** The classification as a priority table: the first word found wins. */
  const DeviceRules: seq<(string, Device)> := [
    ("iPhone", Device("iOS", "iPhone")),
    ("iPad", Device("iOS", "iPad")),
    ("Android", Device("Android", "Android Device")),
    ("Windows", Device("Windows", "Windows PC")),
    ("Mac", Device("MacOS", "Mac Device"))
  ]

  /** The device of the first rule whose word occurs in the user agent. */
  function FirstRule(rules: seq<(string, Device)>, ua: string): Device {
    if |rules| == 0 then UnknownDevice
    else if Contains(ua, rules[0].0) then rules[0].1
    else FirstRule(rules[1..], ua)
  }

  /** The chain is the priority table read first to last. */
  lemma ClassifyIsFirstRule(ua: string)
    ensures ClassifyUserAgent(ua) == FirstRule(DeviceRules, ua)
  {
    var r0 := DeviceRules;
    var r1, r2, r3, r4 := r0[1..], r0[2..], r0[3..], r0[4..];
    assert r1[1..] == r2 && r2[1..] == r3 && r3[1..] == r4 && r4[1..] == [];
    assert FirstRule(r4, ua) == if Contains(ua, "Mac") then Device("MacOS", "Mac Device") else UnknownDevice;
    assert FirstRule(r3, ua) == if Contains(ua, "Windows") then Device("Windows", "Windows PC") else FirstRule(r4, ua);
    assert FirstRule(r2, ua) == if Contains(ua, "Android") then Device("Android", "Android Device") else FirstRule(r3, ua);
    assert FirstRule(r1, ua) == if Contains(ua, "iPad") then Device("iOS", "iPad") else FirstRule(r2, ua);
  }

  /** A user agent is Unknown/Unknown exactly when none of the five words occurs in it. */
  lemma UnknownIffNoRuleMatches(ua: string)
    ensures ClassifyUserAgent(ua) == UnknownDevice <==>
      forall i :: 0 <= i < |DeviceRules| ==> !Contains(ua, DeviceRules[i].0)
  {
    if ClassifyUserAgent(ua) == UnknownDevice {
      forall i | 0 <= i < |DeviceRules| ensures !Contains(ua, DeviceRules[i].0) {
        assert i == 0 || i == 1 || i == 2 || i == 3 || i == 4;
      }
    } else {
      if Contains(ua, "iPhone") { assert Contains(ua, DeviceRules[0].0); }
      else if Contains(ua, "iPad") { assert Contains(ua, DeviceRules[1].0); }
      else if Contains(ua, "Android") { assert Contains(ua, DeviceRules[2].0); }
      else if Contains(ua, "Windows") { assert Contains(ua, DeviceRules[3].0); }
      else { assert Contains(ua, DeviceRules[4].0); }
    }
  }

  /** An iPhone's user agent also mentions "Mac" (as in "iPhone OS 17_0 like Mac OS X"); the
      earlier iPhone test wins. */
  lemma IPhoneBeforeMac(a: string, b: string, c: string)
    ensures var ua := a + "iPhone" + b + "Mac" + c;
            Contains(ua, "Mac") && ClassifyUserAgent(ua) == Device("iOS", "iPhone")
  {
    var ua := a + "iPhone" + b + "Mac" + c;
    OccursBetween(a, "iPhone", b + "Mac" + c);
    assert a + "iPhone" + (b + "Mac" + c) == ua;
    OccursBetween(a + "iPhone" + b, "Mac", c);
  }

  lemma OccursBetween(a: string, needle: string, b: string)
    ensures OccursAt(a + needle + b, needle, |a|)
  {
    assert (a + needle + b)[|a|..|a| + |needle|] == needle;
  }
}
