/**
  The add/edit student screen built on the reusable form: its field schema, its
  props, and the rewrite of the form values into the user API's payload.
 */
module AddEditStudent {
  import opened Js
  import opened Dates
  import opened FormSchema
  import opened SelectOptions
  import opened FormEngine

  const RoleOptionsUrl: string := "/api/roles/getAll/{accountId}"

  /** `studentFormFields` */
  const StudentFormFields: seq<FormField> := [
    Plain("userName", "User Name", Text, true),
    Plain("password", "Password", Password, true),
    Plain("firstName", "First Name", Text, true),
    Plain("lastName", "Last Name", Text, true),
    Plain("email", "Email", Email, true),
    Plain("mobile", "Mobile", Number, true),
    Plain("address", "Address", Text, false),
    Plain("dob", "Date of Birth", Date, true),
    FormField("role", "Role", Select, true, [], Some(RoleOptionsUrl), Some(Post), None),
    Plain("rollNo", "Roll No", Number, true)
  ]

  /** The schema's names are unique; every field but `address` is required; the
      role select is sourced by POST from the roles endpoint of the account. */
  lemma StudentFormFieldsShape()
    ensures UniqueNames(StudentFormFields)
    ensures forall i :: 0 <= i < |StudentFormFields| ==>
              (StudentFormFields[i].required <==> StudentFormFields[i].name != "address")
    ensures StudentFormFields[8].name == "role" && StudentFormFields[8].kind == Select
    ensures StudentFormFields[8].options == [] && StudentFormFields[8].optionsUrl == Some(RoleOptionsUrl)
    ensures StudentFormFields[8].optionsMethod == Some(Post)
  {
  }

  /** The props the screen hands to the reusable form. */
  function StudentFormProps(): (p: FormProps)
    ensures p.fields == StudentFormFields && p.entityName == "Student"
    ensures p.saveUrl == "/api/users/save" && p.updateUrl == "/api/users/update"
    ensures p.fetchUrl == Some("/api/users/getById") && p.onSuccessUrl == Some("StudentList")
    ensures !p.hasOnSuccess
  {
    FormProps("Student", StudentFormFields, Some("/api/users/getById"), "/api/users/save",
              "/api/users/update", Some("StudentList"), false)
  }

  // ---------------------------------------------------------------------------
  // transformStudentData

  /** `x ? parseInt(x, 10) : null`: a non-zero number comes back unchanged. */
  function IntOrNull(v: Value): (r: Value)
    ensures !Truthy(v) ==> r == Null
    ensures v.Num? && v.n != 0 ==> r == v
    ensures Truthy(v) ==> r.Num? || r.NaN?
    ensures v.Str? && v.s != [] && AllDigits(v.s) ==> r == Num(DigitsValue(v.s))
  {
    if !Truthy(v) then Null
    else if v.Num? then ParseIntRoundTrip(v.n); ParseIntValue(v)
    else if v.Str? && AllDigits(v.s) then ParseIntOfDigits(v.s); ParseIntValue(v)
    else ParseIntValue(v)
  }

  /** The `role` entry of the payload: always an `{ id, name }` record. */
  function RoleOf(role: Value): (r: Value)
    ensures r.Obj? && r.fields.Keys == {"id", "name"}
    ensures Truthy(role) && Has(role, "id") ==> r == IdNameRecord(Prop(role, "id"), Prop(role, "name"))
    ensures Truthy(role) && !Has(role, "id") ==> r == IdNameRecord(ParseIntValue(role), Undefined)
    ensures role.Num? && role.n != 0 ==> r == IdNameRecord(role, Undefined)
    ensures !Truthy(role) ==> r == IdNameRecord(Num(2), Str("Student"))
  {
    if Truthy(role) && IsObject(role) && Has(role, "id") then IdNameRecord(Prop(role, "id"), Prop(role, "name"))
    else if Truthy(role) then IdNameRecord(IntOrNull(role), Undefined)
    else IdNameRecord(Num(2), Str("Student"))
  }

  const IntKeys: set<string> := {"rollNo", "classId", "divisionId", "schoolId"}
  const RewrittenKeys: set<string> :=
    {"type", "status", "role", "dob", "bateOfBirth", "rollNo", "classId", "divisionId", "schoolId"}

  /** Whether the payload drops `password`: updating with an empty one. */
  predicate DropsPassword(data: map<string, Value>, isUpdate: bool) {
    isUpdate && !Truthy(Lookup(data, "password"))
  }

  /** The value `transformStudentData` writes under the rewritten key `k`. */
  function Override(data: map<string, Value>, k: string): Value {
    if k in IntKeys then IntOrNull(Lookup(data, k))
    else if k == "role" then RoleOf(Lookup(data, "role"))
    else if k == "dob" || k == "bateOfBirth" then Lookup(data, "dob")
    else if k == "status" then Str("active")
    else Str("STUDENT")
  }

  lemma OverrideValues(data: map<string, Value>)
    ensures IntKeys <= RewrittenKeys && "password" !in RewrittenKeys
    ensures "type" in RewrittenKeys && Override(data, "type") == Str("STUDENT")
    ensures "status" in RewrittenKeys && Override(data, "status") == Str("active")
    ensures "dob" in RewrittenKeys && Override(data, "dob") == Lookup(data, "dob")
    ensures "bateOfBirth" in RewrittenKeys && Override(data, "bateOfBirth") == Lookup(data, "dob")
    ensures "role" in RewrittenKeys && Override(data, "role") == RoleOf(Lookup(data, "role"))
    ensures forall k :: k in IntKeys ==> Override(data, k) == IntOrNull(Lookup(data, k))
  {
  }

  /** The entries `transformStudentData` writes over the spread form values. */
  function StudentOverrides(data: map<string, Value>): (o: map<string, Value>)
    ensures o.Keys == RewrittenKeys
  {
    map k | k in RewrittenKeys :: Override(data, k)
  }

  /** `transformStudentData(data, isUpdate)` */
  function TransformStudentData(data: map<string, Value>, isUpdate: bool): (r: map<string, Value>)
    ensures r.Keys == (data.Keys + RewrittenKeys) - (if DropsPassword(data, isUpdate) then {"password"} else {})
    ensures r["type"] == Str("STUDENT") && r["status"] == Str("active")
    ensures r["dob"] == Lookup(data, "dob") && r["bateOfBirth"] == Lookup(data, "dob")
    ensures r["role"] == RoleOf(Lookup(data, "role"))
    ensures forall k :: k in IntKeys ==> r[k] == IntOrNull(Lookup(data, k))
    ensures "password" in r <==> "password" in data && !DropsPassword(data, isUpdate)
    ensures forall k :: k in data && k !in RewrittenKeys && k in r ==> r[k] == data[k]
  {
    OverrideValues(data);
    var overrides := StudentOverrides(data);
    var transformed := Merge(data, overrides);
    assert forall k :: k in RewrittenKeys ==> transformed[k] == Override(data, k);
    if DropsPassword(data, isUpdate) then transformed - {"password"} else transformed
  }

  /** `handleTransform`: the screen ignores the form's flag and uses its own
      route id, which is the form's id. */
  function HandleTransform(routeId: Option<string>): (t: Transform)
    ensures forall data, u :: t(data, u) == TransformStudentData(data, Present(routeId))
  {
    (data, isUpdate) => TransformStudentData(data, Present(routeId))
  }

  /** Mounting the screen: a form over the student schema, with the transform. */
  method MountStudentForm(routeId: Option<string>) returns (form: ReusableForm)
    ensures fresh(form)
    ensures form.props == StudentFormProps() && form.id == routeId && form.transform.Some?
    ensures forall data, u :: form.transform.value(data, u) == TransformStudentData(data, Present(routeId))
    ensures form.formData == map[] && form.errors == map[] && !form.loading
  {
    form := new ReusableForm(StudentFormProps(), routeId, Some(HandleTransform(routeId)));
  }

  // ---------------------------------------------------------------------------
  // Properties across the form and the screen

  /** What a stored id string becomes in the payload. */
  lemma StoredIdToPayload(n: int)
    ensures IntOrNull(IdString(Num(n))) == if n != 0 then Num(n) else Null
  {
    IdStringRoundTrip(n);
    if n != 0 {
      NatToStringDigits(if n < 0 then -n else n);
      assert Truthy(Str(IntToString(n)));
    }
  }

  /** A non-zero numeric id fetched for editing is stored as its string and
      comes back as the same number in the payload; zero becomes null. */
  lemma HydratedIdSurvivesSubmit(body: Value, parse: DateParser, isUpdate: bool, k: string, n: int)
    requires k in IntKeys && Prop(Unwrap(body), k) == Num(n)
    ensures var payload := TransformStudentData(NormalizeRecord(body, parse), isUpdate);
            payload[k] == if n != 0 then Num(n) else Null
  {
    var stored := NormalizeRecord(body, parse);
    assert StringifiedId(stored, Unwrap(body), k);
    assert Lookup(stored, k) == IdString(Num(n));
    StoredIdToPayload(n);
  }

  /** Picking a role option normalised from a `{ id, name }` item with a
      non-zero id puts `{ id, name: undefined }` in the payload. */
  lemma PickedRoleReachesPayload(data: map<string, Value>, isUpdate: bool, n: int, name: Value)
    requires n != 0
    ensures var picked := OptionValue(NormalizeItem(Obj(map["id" := Num(n), "name" := name])));
            TransformStudentData(data["role" := picked], isUpdate)["role"] == IdNameRecord(Num(n), Undefined)
  {
    assert NormalizeItem(Obj(map["id" := Num(n), "name" := name])) == OptionRecord(name, Num(n));
    var picked := OptionValue(OptionRecord(name, Num(n)));
    assert picked == Num(n);
    assert Lookup(data["role" := picked], "role") == Num(n);
  }

  /** The role select as the form reads its options: the roles endpoint answers
      with a paging page, which is not a list, so the role entry of the option
      map stays as it was (absent on a fresh form). */
  lemma RoleSelectUnfilledAsWritten(opts: map<string, seq<Value>>, accountId: Value,
                                    encode: string -> string, fetch: Request -> Reply)
    requires var req := OptionsRequest(StudentFormFields[8], accountId, encode);
             req.Some? && fetch(req.value) == Ok(AdminRolePage())
    ensures SameAt(ResolveAll(StudentFormFields, opts, accountId, encode, fetch, AsWritten), opts, "role")
  {
    StudentFormFieldsShape();
    ResolveAllAt(StudentFormFields, opts, accountId, encode, fetch, AsWritten, 8);
    PagingReplyAsWritten();
  }

  /** With the paging envelope unwrapped, the same reply fills the role select
      with the one option `{ label: "Admin", value: 1 }`. */
  lemma RoleSelectFilledUnwrapped(opts: map<string, seq<Value>>, accountId: Value,
                                  encode: string -> string, fetch: Request -> Reply)
    requires var req := OptionsRequest(StudentFormFields[8], accountId, encode);
             req.Some? && fetch(req.value) == Ok(AdminRolePage())
    ensures var r := ResolveAll(StudentFormFields, opts, accountId, encode, fetch, ContentUnwrapped);
            "role" in r && r["role"] == [OptionRecord(Str("Admin"), Num(1))]
  {
    StudentFormFieldsShape();
    ResolveAllAt(StudentFormFields, opts, accountId, encode, fetch, ContentUnwrapped, 8);
    PagingReplyUnwrapped();
  }

  /** Every required field of the schema other than the password is filled. */
  predicate RequiredFilled(data: map<string, Value>) {
    forall i :: 0 <= i < |StudentFormFields| ==>
      StudentFormFields[i].required && StudentFormFields[i].name != "password" ==>
      Truthy(Lookup(data, StudentFormFields[i].name))
  }

  /** Editing with every other required field filled and the password empty
      passes validation. */
  lemma EditWithoutPasswordValidates(data: map<string, Value>)
    requires RequiredFilled(data)
    ensures ValidationErrors(StudentFormFields, data, true) == map[]
  {
    ValidationPassesIff(StudentFormFields, data, true);
  }

  /** The body the form submits through the screen's transform is the student
      record for the route id, whatever flag the form passes. */
  lemma TransformedPayload(routeId: Option<string>, data: map<string, Value>, edit: bool)
    ensures Payload(Some(HandleTransform(routeId)), data, edit) == TransformStudentData(data, Present(routeId))
  {
  }

  /** Updating with an empty password leaves the password out of the record. */
  lemma UpdateWithoutPassword(data: map<string, Value>)
    requires !Truthy(Lookup(data, "password"))
    ensures var body := TransformStudentData(data, true);
            "password" !in body && "type" in body && body["type"] == Str("STUDENT")
  {
    assert DropsPassword(data, true);
  }

  /** The edit request of the screen: a PUT to `/api/users/update/<id>` whose
      body is a student record without a password when none was typed. */
  lemma EditWithoutPasswordRequest(data: map<string, Value>, id: string)
    requires id != "" && !Truthy(Lookup(data, "password"))
    ensures var req := SubmitRequest(StudentFormProps(), Some(id),
                                     Payload(Some(HandleTransform(Some(id))), data, true));
            && req.verb == PUT && req.url == "/api/users/update/" + id
            && req.body.Obj? && "password" !in req.body.fields
            && req.body.fields["type"] == Str("STUDENT")
  {
    var body := Payload(Some(HandleTransform(Some(id))), data, true);
    assert body == TransformStudentData(data, true) by {
      TransformedPayload(Some(id), data, true);
    }
    UpdateWithoutPassword(data);
    var req := SubmitRequest(StudentFormProps(), Some(id), body);
    assert req.body == Obj(body) && req.verb == PUT;
    assert req.url == "/api/users/update/" + id by {
      assert "/api/users/update" + "/" + id == "/api/users/update/" + id;
    }
  }

  /** Creating a student with an empty password is refused by validation, with
      the message "Password is required.". */
  lemma CreateWithoutPasswordRefused(data: map<string, Value>)
    requires !Truthy(Lookup(data, "password"))
    ensures var errors := ValidationErrors(StudentFormFields, data, false);
            "password" in errors && errors["password"] == Some("Password is required.")
  {
    StudentFormFieldsShape();
    assert StudentFormFields[1].name == "password" && StudentFormFields[1].labelText == "Password";
    assert FieldFails(StudentFormFields[1], data, false);
    ValidationErrorsAt(StudentFormFields, data, false, 1);
    assert StudentFormFields[1].labelText + " is required." == "Password is required.";
  }
}
