/**
  The reusable form: one instance per mounted screen, holding the form values,
  the per-field validation errors, the option lists of its select fields and a
  loading flag. Network replies, the session's account id, the date parser and
  URI encoding are parameters.
 */
module FormEngine {
  import opened Js
  import opened Dates
  import opened FormSchema
  import opened SelectOptions

  /** The props a screen passes to the form. `onSuccess` is an opaque callback:
      only whether it is given matters here. */
  datatype FormProps = FormProps(
    entityName: string,
    fields: seq<FormField>,
    fetchUrl: Option<string>,
    saveUrl: string,
    updateUrl: string,
    onSuccessUrl: Option<string>,
    hasOnSuccess: bool)

  /** `transformForSubmit(data, isUpdate)` */
  type Transform = (map<string, Value>, bool) -> map<string, Value>

  /** What the form asks of its surroundings besides requests. */
  datatype Effect =
    | Alert(title: string, message: Value)
    | CallOnSuccess(data: Value)
    | Navigate(target: string)
    | GoBack

  predicate IsNavigation(e: Effect) {
    e.Navigate? || e.GoBack?
  }

  // ---------------------------------------------------------------------------
  // Hydrating from a fetched record

  /** `/{id}` first; on failure `?id={id}`; if both fail, the first error. */
  function FetchRecord(get: string -> Reply, fetchUrl: string, id: string): (r: Reply)
    ensures r.Failed? ==> r == get(fetchUrl + "/" + id) && get(fetchUrl + "?id=" + id).Failed?
    ensures get(fetchUrl + "/" + id).Ok? ==> r == get(fetchUrl + "/" + id)
    ensures get(fetchUrl + "/" + id).Failed? && get(fetchUrl + "?id=" + id).Ok? ==> r == get(fetchUrl + "?id=" + id)
    ensures get(fetchUrl + "/" + id).Failed? && get(fetchUrl + "?id=" + id).Failed? ==> r == get(fetchUrl + "/" + id)
  {
    match get(fetchUrl + "/" + id)
    case Ok(d) => Ok(d)
    case Failed(e1) =>
      match get(fetchUrl + "?id=" + id)
      case Ok(d) => Ok(d)
      case Failed(_) => Failed(e1)
  }

  /** `response.data?.data || response.data || {}` */
  function Unwrap(body: Value): Value {
    Or(Or(Prop(body, "data"), body), Obj(map[]))
  }

  const HydratedKeys: set<string> := {"classId", "divisionId", "schoolId", "rollNo", "dob"}

  /** The fetched record as the form stores it. */
  function NormalizeRecord(body: Value, parse: DateParser): (r: map<string, Value>)
    ensures r.Keys == Spread(Unwrap(body)).Keys + HydratedKeys
    ensures forall k :: k in Spread(Unwrap(body)) && k !in HydratedKeys ==> r[k] == Spread(Unwrap(body))[k]
    ensures StringifiedId(r, Unwrap(body), "classId") && StringifiedId(r, Unwrap(body), "divisionId")
    ensures StringifiedId(r, Unwrap(body), "schoolId") && StringifiedId(r, Unwrap(body), "rollNo")
    ensures r["dob"] == Str(NormalizeDate(Or(Prop(Unwrap(body), "dob"), Prop(Unwrap(body), "date_of_birth")), parse))
  {
    var raw := Unwrap(body);
    var base := Spread(raw);
    var r := base["classId" := IdString(Prop(raw, "classId"))]
                 ["divisionId" := IdString(Prop(raw, "divisionId"))]
                 ["schoolId" := IdString(Prop(raw, "schoolId"))]
                 ["rollNo" := IdString(Prop(raw, "rollNo"))]
                 ["dob" := Str(NormalizeDate(Or(Prop(raw, "dob"), Prop(raw, "date_of_birth")), parse))];
    assert r.Keys == base.Keys + HydratedKeys;
    r
  }

  // ---------------------------------------------------------------------------
  // Validation

  /** A field is reported when it is required and its value is falsy, except an
      empty password while editing. */
  predicate FieldFails(f: FormField, data: map<string, Value>, edit: bool) {
    f.required && !Truthy(Lookup(data, f.name)) && !(edit && f.name == "password")
  }

  function RequiredMessage(f: FormField): string {
    f.labelText + " is required."
  }

  /** The error map `validate` builds, field by field in `fields` order. */
  function ValidationErrors(fs: seq<FormField>, data: map<string, Value>, edit: bool): map<string, Option<string>> {
    if fs == [] then map[]
    else
      var prev := ValidationErrors(fs[..|fs| - 1], data, edit);
      var f := fs[|fs| - 1];
      if FieldFails(f, data, edit) then prev[f.name := Some(RequiredMessage(f))] else prev
  }

  /** A key carries an error exactly when some field of that name fails, and the
      error is then that of a failing field of that name (never null). */
  lemma {:induction false} ValidationErrorsKeys(fs: seq<FormField>, data: map<string, Value>, edit: bool, k: string)
    ensures k in ValidationErrors(fs, data, edit) <==>
              exists i :: 0 <= i < |fs| && fs[i].name == k && FieldFails(fs[i], data, edit)
    ensures k in ValidationErrors(fs, data, edit) ==>
              exists i :: 0 <= i < |fs| && fs[i].name == k && FieldFails(fs[i], data, edit)
                          && ValidationErrors(fs, data, edit)[k] == Some(RequiredMessage(fs[i]))
  {
    if fs != [] {
      var init := fs[..|fs| - 1];
      ValidationErrorsKeys(init, data, edit, k);
      if k in ValidationErrors(init, data, edit) {
        var i :| 0 <= i < |init| && init[i].name == k && FieldFails(init[i], data, edit)
                 && ValidationErrors(init, data, edit)[k] == Some(RequiredMessage(init[i]));
        assert fs[i] == init[i];
      }
      if exists i :: 0 <= i < |fs| && fs[i].name == k && FieldFails(fs[i], data, edit) {
        var i :| 0 <= i < |fs| && fs[i].name == k && FieldFails(fs[i], data, edit);
        if i < |init| {
          assert init[i] == fs[i];
        }
      }
    }
  }

  /** With unique field names: a field has an error exactly when it fails, and
      the error reads "<label> is required.". */
  lemma ValidationErrorsAt(fs: seq<FormField>, data: map<string, Value>, edit: bool, i: int)
    requires UniqueNames(fs) && 0 <= i < |fs|
    ensures fs[i].name in ValidationErrors(fs, data, edit) <==> FieldFails(fs[i], data, edit)
    ensures FieldFails(fs[i], data, edit) ==>
              ValidationErrors(fs, data, edit)[fs[i].name] == Some(fs[i].labelText + " is required.")
  {
    ValidationErrorsKeys(fs, data, edit, fs[i].name);
  }

  /** With unique field names, a field that is not required never gets an error. */
  lemma OptionalFieldNeverFails(fs: seq<FormField>, data: map<string, Value>, edit: bool, i: int)
    requires UniqueNames(fs) && 0 <= i < |fs| && !fs[i].required
    ensures fs[i].name !in ValidationErrors(fs, data, edit)
  {
    ValidationErrorsAt(fs, data, edit, i);
  }

  /** In edit mode an empty password is never reported, even when required. */
  lemma EmptyPasswordExemptWhenEditing(fs: seq<FormField>, data: map<string, Value>)
    requires !Truthy(Lookup(data, "password"))
    ensures "password" !in ValidationErrors(fs, data, true)
  {
    ValidationErrorsKeys(fs, data, true, "password");
  }

  /** Outside edit mode a required password field with a falsy value is reported. */
  lemma EmptyPasswordReportedWhenCreating(fs: seq<FormField>, data: map<string, Value>, i: int)
    requires 0 <= i < |fs| && fs[i].name == "password" && fs[i].required
    requires !Truthy(Lookup(data, "password"))
    ensures "password" in ValidationErrors(fs, data, false)
  {
    ValidationErrorsKeys(fs, data, false, "password");
  }

  /** Validation passes exactly when no field fails. */
  lemma ValidationPassesIff(fs: seq<FormField>, data: map<string, Value>, edit: bool)
    ensures ValidationErrors(fs, data, edit) == map[] <==>
              forall i :: 0 <= i < |fs| ==> !FieldFails(fs[i], data, edit)
  {
    if ValidationErrors(fs, data, edit) != map[] {
      var k :| k in ValidationErrors(fs, data, edit);
      ValidationErrorsKeys(fs, data, edit, k);
    }
    if exists i :: 0 <= i < |fs| && FieldFails(fs[i], data, edit) {
      var i :| 0 <= i < |fs| && FieldFails(fs[i], data, edit);
      ValidationErrorsKeys(fs, data, edit, fs[i].name);
    }
  }

  /** The error text under a field is shown when it is truthy. */
  predicate ErrorShown(errors: map<string, Option<string>>, name: string) {
    name in errors && errors[name].Some? && errors[name].value != ""
  }

  // ---------------------------------------------------------------------------
  // Submitting

  /** The data sent: the transform's result when there is one, with
      `isUpdate = !!id`. */
  function Payload(transform: Option<Transform>, data: map<string, Value>, edit: bool): map<string, Value> {
    match transform
    case Some(t) => t(data, edit)
    case None => data
  }

  /** PUT `${updateUrl}/${id}` with an id, POST `saveUrl` without. */
  function SubmitRequest(props: FormProps, id: Option<string>, body: map<string, Value>): (r: Request)
    ensures r.body == Obj(body)
    ensures r.verb == PUT <==> Present(id)
    ensures Present(id) ==> r.url == props.updateUrl + "/" + id.value
    ensures !Present(id) ==> r == Request(POST, props.saveUrl, Obj(body))
  {
    if Present(id) then Request(PUT, props.updateUrl + "/" + id.value, Obj(body))
    else Request(POST, props.saveUrl, Obj(body))
  }

  /** The text of the failure alert: the server's message when it has one, the
      generic "Failed to update|save <entity>." otherwise; never empty. */
  function SubmitFailureMessage(props: FormProps, id: Option<string>, error: Value): (r: Value)
    ensures Truthy(r)
    ensures Truthy(ServerMessage(error)) ==> r == ServerMessage(error)
    ensures !Truthy(ServerMessage(error)) ==>
              r == Str("Failed to " + (if Present(id) then "update" else "save") + " " + props.entityName + ".")
  {
    Or(ServerMessage(error), Str("Failed to " + (if Present(id) then "update" else "save") + " " + props.entityName + "."))
  }

  /** What the form does once the submit request has settled. */
  function SubmitEffects(props: FormProps, id: Option<string>, reply: Reply): seq<Effect> {
    match reply
    case Ok(data) =>
      [Alert("Success", Str(props.entityName + " " + (if Present(id) then "updated" else "saved") + " successfully!"))]
      + (if props.hasOnSuccess then [CallOnSuccess(data)] else [])
      + [if Present(props.onSuccessUrl) then Navigate(props.onSuccessUrl.value) else GoBack]
    case Failed(error) => [Alert("Error", SubmitFailureMessage(props, id, error))]
  }

  /** On success the callback (when given) receives the reply before the one and
      only navigation, which comes last: to `onSuccessUrl`, or back. */
  lemma SuccessCallbackBeforeNavigation(props: FormProps, id: Option<string>, data: Value)
    ensures var es := SubmitEffects(props, id, Ok(data));
      && |es| >= 2
      && IsNavigation(es[|es| - 1])
      && (forall i :: 0 <= i < |es| - 1 ==> !IsNavigation(es[i]))
      && (Present(props.onSuccessUrl) ==> es[|es| - 1] == Navigate(props.onSuccessUrl.value))
      && (!Present(props.onSuccessUrl) ==> es[|es| - 1] == GoBack)
      && (props.hasOnSuccess <==> CallOnSuccess(data) in es)
      && (forall i, j :: 0 <= i < |es| && 0 <= j < |es| && es[i].CallOnSuccess? && IsNavigation(es[j]) ==> i < j)
  {
  }

  /** On failure the user stays on the form and sees one error alert. */
  lemma FailureStaysOnForm(props: FormProps, id: Option<string>, error: Value)
    ensures var es := SubmitEffects(props, id, Failed(error));
      es == [Alert("Error", SubmitFailureMessage(props, id, error))]
      && forall e :: e in es ==> !IsNavigation(e) && !e.CallOnSuccess?
  {
  }

  // ---------------------------------------------------------------------------
  // The form instance

  class ReusableForm {
    const props: FormProps
    /** The route's `id` parameter; present and non-empty in edit mode. */
    const id: Option<string>
    const transform: Option<Transform>

    var formData: map<string, Value>
    var errors: map<string, Option<string>>
    var selectOptions: map<string, seq<Value>>
    var loading: bool

    predicate IsEdit() {
      Present(id)
    }

    constructor (props: FormProps, id: Option<string>, transform: Option<Transform>)
      ensures this.props == props && this.id == id && this.transform == transform
      ensures formData == map[] && errors == map[] && selectOptions == map[] && !loading
    {
      this.props := props;
      this.id := id;
      this.transform := transform;
      formData := map[];
      errors := map[];
      selectOptions := map[];
      loading := false;
    }

    /** `handleInputChange`: the only way a value changes. */
    method HandleInputChange(name: string, value: Value)
      modifies this`formData, this`errors
      ensures formData == old(formData)[name := value]
      ensures ErrorShown(old(errors), name) ==> errors == old(errors)[name := None]
      ensures !ErrorShown(old(errors), name) ==> errors == old(errors)
      ensures !ErrorShown(errors, name)
    {
      formData := formData[name := value];
      if ErrorShown(errors, name) {
        errors := errors[name := None];
      }
    }

    /** A date picked in the native picker is stored as `YYYY-MM-DD`; dismissing
        the picker stores nothing. */
    method PickDate(name: string, selected: Option<ParsedDate>)
      modifies this`formData, this`errors
      ensures selected.None? ==> formData == old(formData) && errors == old(errors)
      ensures selected.Some? ==> formData == old(formData)[name := Str(FormatDate(selected.value))]
      ensures selected.Some? ==> DecodeDate(formData[name].s) == Some(selected.value)
      ensures selected.Some? ==> errors == if ErrorShown(old(errors), name) then old(errors)[name := None] else old(errors)
      ensures !ErrorShown(old(errors), name) ==> errors == old(errors)
    {
      if selected.Some? {
        FormatDateRoundTrip(selected.value);
        HandleInputChange(name, Str(FormatDate(selected.value)));
      }
    }

    /** Picking an entry of a select's option list stores `opt.value ?? opt.id ?? opt`. */
    method PickOption(f: FormField, opt: Value)
      modifies this`formData, this`errors
      ensures formData == old(formData)[f.name := OptionValue(opt)]
      ensures errors == if ErrorShown(old(errors), f.name) then old(errors)[f.name := None] else old(errors)
      ensures !ErrorShown(errors, f.name)
    {
      HandleInputChange(f.name, OptionValue(opt));
    }

    /** `validate`: replaces the error map wholesale and reports whether it is empty. */
    method Validate() returns (ok: bool)
      modifies this`errors
      ensures errors == ValidationErrors(props.fields, formData, IsEdit())
      ensures ok <==> errors == map[]
    {
      var fs := props.fields;
      var newErrors: map<string, Option<string>> := map[];
      for i := 0 to |fs|
        invariant newErrors == ValidationErrors(fs[..i], formData, IsEdit())
      {
        assert fs[..i + 1][..i] == fs[..i];
        var f := fs[i];
        if IsEdit() && f.name == "password" && !Truthy(Lookup(formData, f.name)) {
          continue;
        }
        if f.required && !Truthy(Lookup(formData, f.name)) {
          newErrors := newErrors[f.name := Some(f.labelText + " is required.")];
        }
      }
      assert fs[..|fs|] == fs;
      errors := newErrors;
      ok := |newErrors| == 0;
    }

    /** The option-sourcing effect, with every fetch settled in `fields` order
        (`ResolveFieldsCommute` shows the order does not matter), reading each
        reply as the form does. */
    method LoadOptions(accountId: Value, encode: string -> string, fetch: Request -> Reply)
      modifies this`selectOptions
      ensures selectOptions == ResolveAll(props.fields, old(selectOptions), accountId, encode, fetch, AsWritten)
    {
      var fs := props.fields;
      for i := 0 to |fs|
        invariant selectOptions == ResolveAll(fs[..i], old(selectOptions), accountId, encode, fetch, AsWritten)
      {
        assert fs[..i + 1][..i] == fs[..i];
        var f := fs[i];
        ghost var next := ResolveField(selectOptions, f, accountId, encode, fetch, AsWritten);
        assert ResolveAll(fs[..i + 1], old(selectOptions), accountId, encode, fetch, AsWritten) == next;
        if f.kind == Select {
          if |f.options| > 0 {
            selectOptions := selectOptions[f.name := f.options];
          } else if Present(f.optionsUrl) {
            var req := OptionsRequest(f, accountId, encode).value;
            match fetch(req)
            case Ok(body) =>
              var items := ItemsAsWritten(body);
              if items.Some? {
                selectOptions := selectOptions[f.name := NormalizeItems(items.value)];
              }
            case Failed(_) =>
          }
        }
      }
      assert fs[..|fs|] == fs;
    }

    /** The edit-mode load: only with an id and a `fetchUrl`. */
    method Hydrate(get: string -> Reply, parse: DateParser) returns (effects: seq<Effect>)
      modifies this`formData, this`loading
      ensures !(IsEdit() && Present(props.fetchUrl)) ==>
                formData == old(formData) && loading == old(loading) && effects == []
      ensures IsEdit() && Present(props.fetchUrl) ==> !loading
      ensures IsEdit() && Present(props.fetchUrl) && FetchRecord(get, props.fetchUrl.value, id.value).Ok? ==>
                formData == NormalizeRecord(FetchRecord(get, props.fetchUrl.value, id.value).data, parse)
                && effects == []
      ensures IsEdit() && Present(props.fetchUrl) && FetchRecord(get, props.fetchUrl.value, id.value).Failed? ==>
                formData == old(formData)
                && effects == [Alert("Error", Str("Failed to fetch " + props.entityName + " details."))]
    {
      effects := [];
      if IsEdit() && Present(props.fetchUrl) {
        loading := true;
        match FetchRecord(get, props.fetchUrl.value, id.value) {
          case Ok(body) =>
            formData := NormalizeRecord(body, parse);
          case Failed(_) =>
            effects := [Alert("Error", Str("Failed to fetch " + props.entityName + " details."))];
        }
        loading := false;
      }
    }

    /** `handleSubmit` up to the request: validate, raise the loading flag and
        build the request from the (transformed) values. */
    method BeginSubmit() returns (req: Option<Request>)
      modifies this`errors, this`loading
      ensures errors == ValidationErrors(props.fields, formData, IsEdit())
      ensures req.Some? <==> errors == map[]
      ensures req.None? ==> loading == old(loading)
      ensures req.Some? ==> loading && req.value == SubmitRequest(props, id, Payload(transform, formData, IsEdit()))
    {
      var ok := Validate();
      if !ok {
        return None;
      }
      loading := true;
      var data := formData;
      if transform.Some? {
        data := transform.value(data, IsEdit());
      }
      req := Some(SubmitRequest(props, id, data));
    }

    /** `handleSubmit` after the request settles: alerts, callback, navigation,
        and the loading flag lowered on every path. */
    method FinishSubmit(reply: Reply) returns (effects: seq<Effect>)
      modifies this`loading
      ensures !loading
      ensures effects == SubmitEffects(props, id, reply)
    {
      match reply {
        case Ok(data) =>
        effects := [Alert("Success", Str(props.entityName + " " + (if IsEdit() then "updated" else "saved") + " successfully!"))];
        if props.hasOnSuccess {
          effects := effects + [CallOnSuccess(data)];
        }
        if Present(props.onSuccessUrl) {
          effects := effects + [Navigate(props.onSuccessUrl.value)];
        } else {
          effects := effects + [GoBack];
        }
        case Failed(error) =>
          effects := [Alert("Error", SubmitFailureMessage(props, id, error))];
      }
      loading := false;
    }
  }
}
