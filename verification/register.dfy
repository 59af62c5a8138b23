/** The four-step institute registration wizard. The screen and its older copy
    among the components share this logic line for line; both re-declare the
    email and mobile checks with the same patterns as the shared validators, so
    those are used here. */
module Register {
  import opened Text
  import Validation

  /** The form's fields. */
  datatype Field =
    | District | Tehsil | Village | ServiceVillages | InstituteType
    | IsClusterAvailable | IsLabAvailable | IsTehsilHQ | ParentInstitute
    | InchargeType | InchargeName | InchargeMobile | InchargeEmail
    | EmployeeType | EmployeeName | EmployeeMobile | EmployeeEmail
    | EquinePopulation | BuffaloesPopulation | CowsPopulation | PigsPopulation
    | GoatPopulation | SheepPopulation | PoultryLayersPopulation | PoultryBroilersPopulation

  /** The field's key in the form object. */
  function Name(f: Field): string {
    match f
    case District => "district"
    case Tehsil => "tehsil"
    case Village => "village"
    case ServiceVillages => "serviceVillages"
    case InstituteType => "instituteType"
    case IsClusterAvailable => "isClusterAvailable"
    case IsLabAvailable => "isLabAvailable"
    case IsTehsilHQ => "isTehsilHQ"
    case ParentInstitute => "parentInstitute"
    case InchargeType => "inchargeType"
    case InchargeName => "inchargeName"
    case InchargeMobile => "inchargeMobile"
    case InchargeEmail => "inchargeEmail"
    case EmployeeType => "employeeType"
    case EmployeeName => "employeeName"
    case EmployeeMobile => "employeeMobile"
    case EmployeeEmail => "employeeEmail"
    case EquinePopulation => "equinePopulation"
    case BuffaloesPopulation => "buffaloesPopulation"
    case CowsPopulation => "cowsPopulation"
    case PigsPopulation => "pigsPopulation"
    case GoatPopulation => "goatPopulation"
    case SheepPopulation => "sheepPopulation"
    case PoultryLayersPopulation => "poultryLayersPopulation"
    case PoultryBroilersPopulation => "poultryBroilersPopulation"
  }

  predicate IsPopulation(f: Field) {
    || f == EquinePopulation || f == BuffaloesPopulation || f == CowsPopulation || f == PigsPopulation
    || f == GoatPopulation || f == SheepPopulation || f == PoultryLayersPopulation || f == PoultryBroilersPopulation
  }

  /** What a field holds: text, a checkbox, or the list of service villages. */
  datatype Value = Typed(text: string) | Flag(flag: bool) | List(items: seq<string>)

  type Form = map<Field, Value>
  type Errors = map<Field, string>

  /** A text field's content; a field that is not text reads as empty. */
  function Get(form: Form, f: Field): string {
    if f in form && form[f].Typed? then form[f].text else ""
  }

  datatype Employee = Employee(kind: string, name: string, mobile: string, email: string)

  datatype Wizard = Wizard(step: int, form: Form, errors: Errors, employees: seq<Employee>)

  const TotalSteps: int := 4
  const MaxEmployees: int := 10

  /** A field's value when the wizard opens. */
  function InitialValue(f: Field): Value {
    if f == ServiceVillages then List([])
    else if f == IsClusterAvailable || f == IsLabAvailable || f == IsTehsilHQ then Flag(false)
    else Typed("")
  }

  /** The wizard as it opens: step 1, every field present, the text fields empty. */
  function Initial(): (w: Wizard)
    ensures w.step == 1 && w.errors == map[] && w.employees == []
    ensures forall f: Field :: f in w.form && Get(w.form, f) == ""
  {
    Wizard(1, map f: Field | IsField(f) :: InitialValue(f), map[], [])
  }

  /** Every value of `Field` (used to build a map over all of them). */
  predicate IsField(f: Field) { true }

  // ---------------------------------------------------------------------------
  // Editing a field

  predicate NonZeroDigit(s: string) {
    exists i :: 0 <= i < |s| && s[i] != '0'
  }

  /** `parseFloat(value) < 0`: after leading whitespace a minus sign, then either
      `Infinity` or a decimal numeral (digits, optionally a point and more digits,
      at least one digit in all) that is not zero. */
  predicate NegativeFloat(value: string) {
    var t := TrimStart(value);
    |t| > 0 && t[0] == '-' &&
    var m := t[1..];
    || StartsWith(m, "Infinity")
    || (var a := DigitSpan(m);
        var b := if a < |m| && m[a] == '.' then DigitSpan(m[a + 1..]) else 0;
        a + b > 0 && (NonZeroDigit(m[..a]) || (b > 0 && NonZeroDigit(m[a + 1..a + 1 + b]))))
  }

  /** `handleInputChange`: a negative number typed into a population field is
      dropped; otherwise the field takes the value and a pending error on it is
      blanked. */
  function Edit(w: Wizard, field: Field, value: Value): (r: Wizard)
    ensures r.step == w.step && r.employees == w.employees
    ensures IsPopulation(field) && value.Typed? && NegativeFloat(value.text) ==> r == w
    ensures !(IsPopulation(field) && value.Typed? && NegativeFloat(value.text)) ==>
              && field in r.form && r.form[field] == value
              && (forall f :: f != field && f in w.form ==> f in r.form && r.form[f] == w.form[f])
              && (field in r.errors ==> r.errors[field] == "")
              && (forall f :: f != field && f in w.errors ==> f in r.errors && r.errors[f] == w.errors[f])
              && r.errors.Keys == w.errors.Keys
  {
    if IsPopulation(field) && value.Typed? && value.text != "" && NegativeFloat(value.text) then w
    else
      var errors := if field in w.errors && w.errors[field] != "" then w.errors[field := ""] else w.errors;
      w.(form := w.form[field := value], errors := errors)
  }

  /** A population field never takes a negative number. */
  lemma PopulationNeverNegative(w: Wizard, field: Field, value: string)
    requires IsPopulation(field) && Get(Edit(w, field, Typed(value)).form, field) == value && Get(w.form, field) != value
    ensures !NegativeFloat(value)
  {
  }

  /** Plain digits are always accepted, and a minus sign before a numeral with a
      non-zero digit is always refused. */
  lemma PopulationExamples(w: Wizard, field: Field, digits: string, k: nat)
    requires IsPopulation(field) && AllDigits(digits) && k < |digits| && digits[k] != '0'
    ensures Get(Edit(w, field, Typed(digits)).form, field) == digits
    ensures Edit(w, field, Typed("-" + digits)) == w
  {
    DigitsNotNegative(digits);
    MinusDigitsNegative(digits, k);
  }

  lemma DigitsNotNegative(digits: string)
    requires AllDigits(digits)
    ensures !NegativeFloat(digits)
  {
    if digits != [] {
      assert !IsSpace(digits[0]);
    }
  }

  lemma MinusDigitsNegative(digits: string, k: nat)
    requires AllDigits(digits) && k < |digits| && digits[k] != '0'
    ensures NegativeFloat("-" + digits)
  {
    var t := "-" + digits;
    assert !IsSpace(t[0]);
    assert TrimStart(t) == t;
    assert t[1..] == digits;
    DigitSpanAll(digits);
    assert digits[..|digits|][k] != '0';
  }

  // ---------------------------------------------------------------------------
  // Steps

  /** Records `message` on `f` when the field is empty. */
  function Require(errors: Errors, form: Form, f: Field, message: string): (r: Errors)
    ensures Get(form, f) == "" ==> f in r && r[f] == message
    ensures Get(form, f) != "" ==> r == errors
    ensures r.Keys <= errors.Keys + {f}
    ensures r == map[] <==> errors == map[] && Get(form, f) != ""
  {
    if Get(form, f) == "" then errors[f := message] else errors
  }

  const InvalidMobile: string := "Please enter a valid 10-digit mobile number"
  const InvalidEmail: string := "Please enter a valid email address"

  /** The errors of a mobile field: required, then the pattern. */
  function MobileError(errors: Errors, form: Form, f: Field): (r: Errors)
    ensures f !in errors ==> (f in r <==> !Validation.ValidatePhone(Get(form, f)))
    ensures f in r && f !in errors ==> r[f] == (if Get(form, f) == "" then "Mobile number is required" else InvalidMobile)
    ensures forall g :: g != f ==> (g in r <==> g in errors) && (g in r ==> r[g] == errors[g])
    ensures r.Keys <= errors.Keys + {f}
    ensures r == map[] <==> errors == map[] && Validation.ValidatePhone(Get(form, f))
  {
    if Get(form, f) == "" then errors[f := "Mobile number is required"]
    else if !Validation.ValidatePhone(Get(form, f)) then errors[f := InvalidMobile]
    else errors
  }

  predicate Step1Complete(form: Form) {
    Get(form, District) != "" && Get(form, Tehsil) != "" && Get(form, Village) != "" && Get(form, InstituteType) != ""
  }

  predicate Step2Complete(form: Form) {
    && Get(form, InchargeType) != "" && Get(form, InchargeName) != ""
    && Validation.ValidatePhone(Get(form, InchargeMobile)) && Validation.ValidateEmail(Get(form, InchargeEmail))
  }

  /** The errors of an email field: required or optional, then the pattern. */
  function EmailError(errors: Errors, form: Form, f: Field, required: bool): (r: Errors)
    ensures f !in errors ==> (f in r <==> if Get(form, f) == "" then required else !Validation.ValidateEmail(Get(form, f)))
    ensures f in r && f !in errors ==>
              r[f] == (if Get(form, f) == "" then "Email is required" else InvalidEmail)
    ensures forall g :: g != f ==> (g in r <==> g in errors) && (g in r ==> r[g] == errors[g])
    ensures r.Keys <= errors.Keys + {f}
    ensures r == map[] <==>
              errors == map[] && (if Get(form, f) == "" then !required else Validation.ValidateEmail(Get(form, f)))
  {
    var email := Get(form, f);
    if email == "" then (if required then errors[f := "Email is required"] else errors)
    else if !Validation.ValidateEmail(email) then errors[f := InvalidEmail]
    else errors
  }

  /** The fixed set of step-one errors. */
  function Step1Errors(form: Form): (r: Errors)
    ensures r == map[] <==> Step1Complete(form)
    ensures r.Keys <= {District, Tehsil, Village, InstituteType}
  {
    var e := Require(map[], form, District, "District is required");
    var e := Require(e, form, Tehsil, "Tehsil is required");
    var e := Require(e, form, Village, "Village is required");
    Require(e, form, InstituteType, "Institute type is required")
  }

  /** The step-two errors: the incharge's type and name are required, the mobile
      and the email are required and must pass the shared validators. */
  function Step2Errors(form: Form): (r: Errors)
    ensures r == map[] <==> Step2Complete(form)
    ensures r.Keys <= {InchargeType, InchargeName, InchargeMobile, InchargeEmail}
  {
    var e1 := Require(map[], form, InchargeType, "Incharge type is required");
    var e2 := Require(e1, form, InchargeName, "Incharge name is required");
    var e3 := MobileError(e2, form, InchargeMobile);
    assert Get(form, InchargeEmail) == "" ==> !Validation.ValidateEmail(Get(form, InchargeEmail));
    EmailError(e3, form, InchargeEmail, true)
  }

  /** The message step two shows for the incharge's mobile. */
  lemma Step2MobileMessage(form: Form)
    ensures var r := Step2Errors(form);
            && (InchargeMobile in r <==> !Validation.ValidatePhone(Get(form, InchargeMobile)))
            && (InchargeMobile in r ==>
                  r[InchargeMobile] == (if Get(form, InchargeMobile) == "" then "Mobile number is required" else InvalidMobile))
  {
    var e1 := Require(map[], form, InchargeType, "Incharge type is required");
    var e2 := Require(e1, form, InchargeName, "Incharge name is required");
    assert InchargeMobile !in e2;
    var e3 := MobileError(e2, form, InchargeMobile);
    var r := EmailError(e3, form, InchargeEmail, true);
    assert (InchargeMobile in r <==> InchargeMobile in e3) && (InchargeMobile in r ==> r[InchargeMobile] == e3[InchargeMobile]);
  }

  /** The message step two shows for the incharge's email. */
  lemma Step2EmailMessage(form: Form)
    ensures var r := Step2Errors(form);
            && (InchargeEmail in r <==> !Validation.ValidateEmail(Get(form, InchargeEmail)))
            && (InchargeEmail in r ==>
                  r[InchargeEmail] == (if Get(form, InchargeEmail) == "" then "Email is required" else InvalidEmail))
  {
    var e1 := Require(map[], form, InchargeType, "Incharge type is required");
    var e2 := Require(e1, form, InchargeName, "Incharge name is required");
    assert e2.Keys <= {InchargeType, InchargeName};
    var e3 := MobileError(e2, form, InchargeMobile);
    assert e3.Keys <= {InchargeType, InchargeName, InchargeMobile};
    assert Get(form, InchargeEmail) == "" ==> !Validation.ValidateEmail(Get(form, InchargeEmail));
  }

  /** `validateStep`: the errors found for the step; it passes when there are none.
      Only steps one and two check anything. */
  function ValidateStep(form: Form, step: int): (r: Errors)
    ensures step == 1 ==> (r == map[] <==> Step1Complete(form))
    ensures step == 2 ==> (r == map[] <==> Step2Complete(form))
    ensures step != 1 && step != 2 ==> r == map[]
  {
    if step == 1 then Step1Errors(form) else if step == 2 then Step2Errors(form) else map[]
  }

  /** The older copy of the screen keeps the villages of service as one text chosen
      from a plain select; the validation never reads that field, so both copies
      accept and reject the same forms. */
  lemma ServiceVillagesIgnored(form: Form, step: int, v: Value)
    ensures ValidateStep(form[ServiceVillages := v], step) == ValidateStep(form, step)
  {
    var g := form[ServiceVillages := v];
    if step == 1 {
      Step1Reads(g, form);
    } else if step == 2 {
      Step2Reads(g, form);
    }
  }

  /** Step one's errors depend only on its four fields. */
  lemma Step1Reads(g: Form, form: Form)
    requires Get(g, District) == Get(form, District) && Get(g, Tehsil) == Get(form, Tehsil)
    requires Get(g, Village) == Get(form, Village) && Get(g, InstituteType) == Get(form, InstituteType)
    ensures Step1Errors(g) == Step1Errors(form)
  {
  }

  /** Step two's errors depend only on the incharge's four fields. */
  lemma Step2Reads(g: Form, form: Form)
    requires Get(g, InchargeType) == Get(form, InchargeType) && Get(g, InchargeName) == Get(form, InchargeName)
    requires Get(g, InchargeMobile) == Get(form, InchargeMobile) && Get(g, InchargeEmail) == Get(form, InchargeEmail)
    ensures Step2Errors(g) == Step2Errors(form)
  {
    var e1 := Require(map[], form, InchargeType, "Incharge type is required");
    var e2 := Require(e1, form, InchargeName, "Incharge name is required");
    var e3 := MobileError(e2, form, InchargeMobile);
    assert Require(map[], g, InchargeType, "Incharge type is required") == e1;
    assert Require(e1, g, InchargeName, "Incharge name is required") == e2;
    MobileErrorReads(e2, g, form, InchargeMobile);
    EmailErrorReads(e3, g, form, InchargeEmail);
  }

  /** A mobile field's error depends only on that field. */
  lemma MobileErrorReads(errors: Errors, g: Form, form: Form, f: Field)
    requires Get(g, f) == Get(form, f)
    ensures MobileError(errors, g, f) == MobileError(errors, form, f)
  {
  }

  /** A required email field's error depends only on that field. */
  lemma EmailErrorReads(errors: Errors, g: Form, form: Form, f: Field)
    requires Get(g, f) == Get(form, f)
    ensures EmailError(errors, g, f, true) == EmailError(errors, form, f, true)
  {
  }

  /** `handleNext`: the step's errors replace the shown ones; the wizard advances
      only when there are none and it is not on the last step. */
  function Next(w: Wizard): (r: Wizard)
    ensures r.errors == ValidateStep(w.form, w.step)
    ensures r.step == (if r.errors == map[] && w.step < TotalSteps then w.step + 1 else w.step)
    ensures r.form == w.form && r.employees == w.employees
  {
    var errors := ValidateStep(w.form, w.step);
    w.(errors := errors, step := if errors == map[] && w.step < TotalSteps then w.step + 1 else w.step)
  }

  /** `handlePrevious`. */
  function Previous(w: Wizard): (r: Wizard)
    ensures r.step == (if w.step > 1 then w.step - 1 else w.step)
    ensures r.form == w.form && r.errors == w.errors && r.employees == w.employees
  {
    if w.step > 1 then w.(step := w.step - 1) else w
  }

  /** `handleRegister`: validates the current step and submits when it passes. */
  function Submit(w: Wizard): (r: (Wizard, bool))
    ensures r.0.errors == ValidateStep(w.form, w.step) && r.0.step == w.step
    ensures r.1 <==> r.0.errors == map[]
  {
    var errors := ValidateStep(w.form, w.step);
    (w.(errors := errors), errors == map[])
  }

  /** The step stays between 1 and 4 under both buttons. */
  lemma StepStaysInRange(w: Wizard)
    requires 1 <= w.step <= TotalSteps
    ensures 1 <= Next(w).step <= TotalSteps && 1 <= Previous(w).step <= TotalSteps
  {
  }

  /** Steps 1 and 2 block until complete; steps 3 and 4 never do. */
  lemma NextAdvancesIff(w: Wizard)
    requires 1 <= w.step < TotalSteps
    ensures Next(w).step == w.step + 1
        <==> (w.step == 1 ==> Step1Complete(w.form)) && (w.step == 2 ==> Step2Complete(w.form))
  {
  }

  /** Going back and forward again returns to the step once it is complete. */
  lemma PreviousThenNext(w: Wizard)
    requires 1 < w.step <= TotalSteps
    requires w.step - 1 == 1 ==> Step1Complete(w.form)
    requires w.step - 1 == 2 ==> Step2Complete(w.form)
    ensures Next(Previous(w)).step == w.step
  {
  }

  // ---------------------------------------------------------------------------
  // Employees

  /** The errors of the employee sub-form; the email is optional. */
  function EmployeeErrors(form: Form): (r: Errors)
    ensures r == map[] <==>
              && Get(form, EmployeeType) != "" && Get(form, EmployeeName) != ""
              && Validation.ValidatePhone(Get(form, EmployeeMobile))
              && (Get(form, EmployeeEmail) == "" || Validation.ValidateEmail(Get(form, EmployeeEmail)))
    ensures r.Keys <= {EmployeeType, EmployeeName, EmployeeMobile, EmployeeEmail}
  {
    var e := Require(map[], form, EmployeeType, "Employee type is required");
    var e := Require(e, form, EmployeeName, "Employee name is required");
    var e := MobileError(e, form, EmployeeMobile);
    EmailError(e, form, EmployeeEmail, false)
  }

  /** `addEmployee`: an invalid entry only adds its errors; a valid one is appended
      while fewer than ten are listed, and then the sub-form and its errors are
      cleared; at ten nothing happens. */
  function AddEmployee(w: Wizard): (r: Wizard)
    ensures r.step == w.step
    ensures EmployeeErrors(w.form) != map[] ==>
              r.employees == w.employees && r.form == w.form && r.errors == w.errors + EmployeeErrors(w.form)
    ensures EmployeeErrors(w.form) == map[] && |w.employees| >= MaxEmployees ==> r == w
    ensures EmployeeErrors(w.form) == map[] && |w.employees| < MaxEmployees ==>
              && r.employees == w.employees + [Employee(Get(w.form, EmployeeType), Get(w.form, EmployeeName),
                                                        Get(w.form, EmployeeMobile), Get(w.form, EmployeeEmail))]
              && Get(r.form, EmployeeType) == Get(r.form, EmployeeName) == ""
              && Get(r.form, EmployeeMobile) == Get(r.form, EmployeeEmail) == ""
              && r.errors == w.errors - {EmployeeType, EmployeeName, EmployeeMobile, EmployeeEmail}
  {
    var errs := EmployeeErrors(w.form);
    if errs != map[] then w.(errors := w.errors + errs)
    else if |w.employees| < MaxEmployees then
      var added := Employee(Get(w.form, EmployeeType), Get(w.form, EmployeeName),
                            Get(w.form, EmployeeMobile), Get(w.form, EmployeeEmail));
      w.(employees := w.employees + [added], form := ClearEmployee(w.form),
         errors := w.errors - {EmployeeType, EmployeeName, EmployeeMobile, EmployeeEmail})
    else w
  }

  /** Empties the four fields of the employee sub-form. */
  function ClearEmployee(form: Form): (r: Form)
    ensures Get(r, EmployeeType) == "" && Get(r, EmployeeName) == ""
    ensures Get(r, EmployeeMobile) == "" && Get(r, EmployeeEmail) == ""
    ensures forall f :: f in form && f !in {EmployeeType, EmployeeName, EmployeeMobile, EmployeeEmail} ==>
              f in r && r[f] == form[f]
  {
    form[EmployeeType := Typed("")][EmployeeName := Typed("")][EmployeeMobile := Typed("")][EmployeeEmail := Typed("")]
  }

  /** The list never grows past ten. */
  lemma EmployeesCapped(w: Wizard)
    requires |w.employees| <= MaxEmployees
    ensures |AddEmployee(w).employees| <= MaxEmployees
    ensures |AddEmployee(w).employees| <= |w.employees| + 1
  {
  }

  /** `removeEmployee`: the entry at `index` goes, the others keep their order; an
      index outside the list changes nothing. */
  function RemoveEmployee(employees: seq<Employee>, index: int): (r: seq<Employee>)
    ensures 0 <= index < |employees| ==> r == employees[..index] + employees[index + 1..]
    ensures !(0 <= index < |employees|) ==> r == employees
  {
    if employees == [] then []
    else if index == 0 then employees[1..]
    else
      var rest := RemoveEmployee(employees[1..], index - 1);
      assert 0 < index < |employees| ==> rest == employees[1..][..index - 1] + employees[index + 1..];
      [employees[0]] + rest
  }

  /** Adding then removing the last entry restores the list. */
  lemma RemoveLastUndoesAdd(w: Wizard)
    requires EmployeeErrors(w.form) == map[] && |w.employees| < MaxEmployees
    ensures RemoveEmployee(AddEmployee(w).employees, |w.employees|) == w.employees
  {
    var r := AddEmployee(w).employees;
    assert r[..|w.employees|] == w.employees;
  }

  // ---------------------------------------------------------------------------
  // Checking a field when it loses focus

  /** `validateField`: the field's key decides the check; a mobile key wins over an
      email key, which wins over a name key. An empty value clears the error. */
  function ValidateField(errors: Errors, field: Field, value: string): (r: Errors)
    ensures forall f :: f != field ==> (f in r <==> f in errors) && (f in r ==> r[f] == errors[f])
    ensures var n := Name(field);
            && (Contains(n, "Mobile") || Contains(n, "mobile") ==>
                  (field in r <==> value != "" && !Validation.ValidatePhone(value)))
            && (!(Contains(n, "Mobile") || Contains(n, "mobile")) && (Contains(n, "Email") || Contains(n, "email")) ==>
                  (field in r <==> value != "" && !Validation.ValidateEmail(value)))
            && (!(Contains(n, "Mobile") || Contains(n, "mobile") || Contains(n, "Email") || Contains(n, "email"))
                  && (Contains(n, "Name") || Contains(n, "name")) ==>
                  (field in r <==> value != "" && |value| < 2))
            && ((!(Contains(n, "Mobile") || Contains(n, "mobile") || Contains(n, "Email") || Contains(n, "email")
                   || Contains(n, "Name") || Contains(n, "name"))) ==> r == errors)
  {
    var n := Name(field);
    if Contains(n, "Mobile") || Contains(n, "mobile") then
      if value != "" && !Validation.ValidatePhone(value) then errors[field := InvalidMobile] else errors - {field}
    else if Contains(n, "Email") || Contains(n, "email") then
      if value != "" && !Validation.ValidateEmail(value) then errors[field := InvalidEmail] else errors - {field}
    else if Contains(n, "Name") || Contains(n, "name") then
      if value != "" && |value| < 2 then errors[field := "Name must be at least 2 characters"] else errors - {field}
    else errors
  }
}
