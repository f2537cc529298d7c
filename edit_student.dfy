/**
  The stand-alone student edit screen: the roles list it loads, the student
  record it fetches and normalises, and the payload it saves. The session's
  account id, the replies and the date parser are parameters.
 */
module EditStudent {
  import opened Js
  import opened Dates
  import opened FormSchema
  import opened SelectOptions

  /** `initialStudentState` */
  const InitialStudentState: map<string, Value> := map[
    "userName" := Str(""), "password" := Str(""), "firstName" := Str(""), "lastName" := Str(""),
    "mobile" := Str(""), "email" := Str(""), "address" := Str(""), "rollNo" := Str(""),
    "dob" := Str(""), "schoolId" := Str(""), "schoolName" := Str(""), "classId" := Str(""),
    "className" := Str(""), "divisionId" := Str(""), "divisionName" := Str(""),
    "role" := Null, "status" := Str("active")]

  // ---------------------------------------------------------------------------
  // fetchData: loading a list for the account

  /** The request `fetchData(endpoint, setter, typeFilter)` sends; None when the
      session has no account id, in which case nothing is fetched. */
  function ListRequest(endpoint: string, accountId: Value, typeFilter: string): (r: Option<Request>)
    ensures r.None? <==> !Truthy(accountId)
    ensures r.Some? ==> r.value.verb == POST && r.value.body == PagingBody()
    ensures r.Some? && typeFilter == "" ==> r.value.url == endpoint + "/" + ToStr(accountId)
    ensures r.Some? && typeFilter != "" ==> r.value.url == endpoint + "/" + ToStr(accountId) + "?type=" + typeFilter
  {
    if !Truthy(accountId) then None
    else
      var url := endpoint + "/" + ToStr(accountId);
      var url := if typeFilter != "" then url + "?type=" + typeFilter else url;
      Some(Request(POST, url, PagingBody()))
  }

  /** What the setter receives: `response.data.content || []`; None when the
      request fails or the reply has no body (the error is only reported). */
  function FetchedList(reply: Reply): (r: Option<Value>)
    ensures r.None? <==> reply.Failed? || Nullish(reply.data)
    ensures r.Some? && Truthy(Prop(reply.data, "content")) ==> r.value == Prop(reply.data, "content")
    ensures r.Some? && !Truthy(Prop(reply.data, "content")) ==> r.value == Arr([])
  {
    match reply
    case Failed(_) => None
    case Ok(data) => if Nullish(data) then None else Some(Or(Prop(data, "content"), Arr([])))
  }

  /** The screen reads a paging reply through its `content`. */
  lemma RolePageReadByEditScreen()
    ensures FetchedList(Ok(AdminRolePage())) == Some(Arr([IdNameRecord(Num(1), Str("Admin"))]))
  {
  }

  // ---------------------------------------------------------------------------
  // Which load runs

  datatype LoadStep =
    | FetchStudent(request: Request)
    | ResetToInitial
    | Wait

  /** The effect on the route id and the loaded roles: the student is fetched
      only once the roles list is non-empty. */
  function NextLoadStep(userId: Option<string>, roles: seq<Value>): (r: LoadStep)
    ensures r.FetchStudent? <==> Present(userId) && |roles| > 0
    ensures r.FetchStudent? ==> r.request == Request(GET, "api/users/getById?id=" + userId.value, Undefined)
    ensures r.ResetToInitial? <==> !Present(userId)
  {
    if Present(userId) && |roles| > 0 then FetchStudent(Request(GET, "api/users/getById?id=" + userId.value, Undefined))
    else if !Present(userId) then ResetToInitial
    else Wait
  }

  // ---------------------------------------------------------------------------
  // The fetched student

  /** `formatDateForInput(val)`: gated on `val`, but formats the record's
      `date_of_birth || dob`. */
  function FormatDateForInput(body: Value, val: Value, parse: DateParser): (r: string)
    ensures !Truthy(val) ==> r == ""
    ensures Truthy(val) && parse(Or(Prop(body, "date_of_birth"), Prop(body, "dob"))).None? ==> r == ""
    ensures Truthy(val) && parse(Or(Prop(body, "date_of_birth"), Prop(body, "dob"))).Some? ==>
              && r == FormatDate(parse(Or(Prop(body, "date_of_birth"), Prop(body, "dob"))).value)
              && DecodeDate(r) == Some(parse(Or(Prop(body, "date_of_birth"), Prop(body, "dob"))).value)
  {
    if !Truthy(val) then ""
    else match parse(Or(Prop(body, "date_of_birth"), Prop(body, "dob")))
      case None => ""
      case Some(d) => FormatDateRoundTrip(d); FormatDate(d)
  }

  /** A record whose birth date is only under `date_of_birth` loses it: the
      gate reads `dob`. */
  lemma DateOfBirthAloneIsDropped(body: Value, parse: DateParser)
    requires !Truthy(Prop(body, "dob"))
    ensures FormatDateForInput(body, Prop(body, "dob"), parse) == ""
  {
  }

  /** When both are present `date_of_birth` wins over `dob`. */
  lemma DateOfBirthPreferred(body: Value, parse: DateParser)
    requires Truthy(Prop(body, "dob")) && Truthy(Prop(body, "date_of_birth"))
    requires parse(Prop(body, "date_of_birth")).Some?
    ensures DecodeDate(FormatDateForInput(body, Prop(body, "dob"), parse)) == Some(parse(Prop(body, "date_of_birth")).value)
  {
  }

  /** `String(r.id)` for a loaded role; reading `id` of a null entry throws. */
  predicate Misses(entry: Value, key: string) {
    !Nullish(entry) && ToStr(Prop(entry, "id")) != key
  }

  predicate Hits(entry: Value, key: string) {
    !Nullish(entry) && ToStr(Prop(entry, "id")) == key
  }

  /** The outcome of `roles.find(...)`. */
  datatype Search = Match(index: nat) | NoMatch | TypeError

  /** `roles.find((r) => String(r.id) === key)`, scanning from the front. */
  function FindRole(roles: seq<Value>, key: string): (r: Search)
    ensures r.Match? ==> r.index < |roles| && Hits(roles[r.index], key)
                         && forall j :: 0 <= j < r.index ==> Misses(roles[j], key)
    ensures r.NoMatch? <==> forall j :: 0 <= j < |roles| ==> Misses(roles[j], key)
    ensures r.TypeError? ==> exists i :: 0 <= i < |roles| && Nullish(roles[i])
                                         && forall j :: 0 <= j < i ==> Misses(roles[j], key)
  {
    if roles == [] then NoMatch
    else if Nullish(roles[0]) then TypeError
    else if ToStr(Prop(roles[0], "id")) == key then Match(0)
    else
      match FindRole(roles[1..], key)
      case Match(i) => Match(i + 1)
      case NoMatch => NoMatch
      case TypeError => TypeError
  }

  /** The key a fetched role is looked up by. */
  function RoleKey(role: Value): string {
    ToStr(Prop(role, "id"))
  }

  /** The `role` of the fetched student: null without one; the first loaded
      role with the same id (when that entry is truthy), else the fetched
      `{ id, name }`. None when the search throws. */
  function ResolveRole(role: Value, roles: seq<Value>): (r: Option<Value>)
    ensures !Truthy(role) ==> r == Some(Null)
    ensures Truthy(role) ==> (r.None? <==> FindRole(roles, RoleKey(role)).TypeError?)
    ensures Truthy(role) && (forall j :: 0 <= j < |roles| ==> Misses(roles[j], RoleKey(role))) ==>
              r == Some(IdNameRecord(Prop(role, "id"), Prop(role, "name")))
    ensures Truthy(role) && r.Some? && r.value != IdNameRecord(Prop(role, "id"), Prop(role, "name")) ==>
              exists i :: 0 <= i < |roles| && r.value == roles[i] && Hits(roles[i], RoleKey(role))
  {
    if !Truthy(role) then Some(Null)
    else
      var fallback := IdNameRecord(Prop(role, "id"), Prop(role, "name"));
      match FindRole(roles, RoleKey(role))
      case Match(i) => Some(Or(roles[i], fallback))
      case NoMatch => Some(fallback)
      case TypeError => None
  }

  /** The first truthy loaded role whose id reads the same as the fetched one is
      the one chosen. */
  lemma {:induction false} FirstMatchingRoleChosen(role: Value, roles: seq<Value>, i: int)
    requires Truthy(role) && 0 <= i < |roles| && Truthy(roles[i]) && Hits(roles[i], RoleKey(role))
    requires forall j :: 0 <= j < i ==> Misses(roles[j], RoleKey(role))
    ensures ResolveRole(role, roles) == Some(roles[i])
  {
    var key := RoleKey(role);
    match FindRole(roles, key)
    case Match(k) =>
    case NoMatch =>
    case TypeError =>
  }

  const FetchedKeys: set<string> := {"classId", "divisionId", "rollNo", "schoolId", "dob", "role", "password"}

  /** `fetchedData`: the student as the screen stores it, or None when building
      it throws (no body, or a null entry in the roles list). */
  function FetchedStudent(body: Value, roles: seq<Value>, parse: DateParser): (r: Option<map<string, Value>>)
    ensures r.None? <==> Nullish(body) || ResolveRole(Prop(body, "role"), roles).None?
    ensures r.Some? ==> r.value.Keys == Spread(body).Keys + FetchedKeys
    ensures r.Some? ==> StringifiedId(r.value, body, "classId") && StringifiedId(r.value, body, "divisionId")
                        && StringifiedId(r.value, body, "rollNo")
    ensures r.Some? ==> r.value["schoolId"] == if Truthy(Prop(body, "schoolId")) then Prop(body, "schoolId") else Str("")
    ensures r.Some? ==> r.value["dob"] == Str(FormatDateForInput(body, Prop(body, "dob"), parse))
    ensures r.Some? ==> r.value["role"] == ResolveRole(Prop(body, "role"), roles).value
    ensures r.Some? ==> r.value["password"] == Str("")
    ensures r.Some? ==> forall k :: k in Spread(body) && k !in FetchedKeys ==> r.value[k] == Spread(body)[k]
  {
    if Nullish(body) then None
    else
      match ResolveRole(Prop(body, "role"), roles)
      case None => None
      case Some(role) =>
        var base := Spread(body);
        var r := base["classId" := IdString(Prop(body, "classId"))]
                     ["divisionId" := IdString(Prop(body, "divisionId"))]
                     ["rollNo" := IdString(Prop(body, "rollNo"))]
                     ["schoolId" := Or(Prop(body, "schoolId"), Str(""))]
                     ["dob" := Str(FormatDateForInput(body, Prop(body, "dob"), parse))]
                     ["role" := role]
                     ["password" := Str("")];
        assert r.Keys == base.Keys + FetchedKeys;
        Some(r)
  }

  // ---------------------------------------------------------------------------
  // Saving

  const UserDataKeys: set<string> := {"id", "type", "accountId", "status", "dob", "dateOfBirth", "role"}

  /** `userData`: the form values with the fixed fields the user API expects. */
  function UserData(values: map<string, Value>, userId: Option<string>, accountId: Value): (r: map<string, Value>)
    ensures r.Keys == values.Keys + UserDataKeys
    ensures r["id"] == if Present(userId) then Str(userId.value) else Null
    ensures r["type"] == Str("STUDENT") && r["status"] == Str("active") && r["accountId"] == accountId
    ensures r["dob"] == r["dateOfBirth"]
    ensures Truthy(Lookup(values, "dob")) ==> r["dob"] == Lookup(values, "dob")
    ensures !Truthy(Lookup(values, "dob")) ==> r["dob"] == Null
    ensures Truthy(Lookup(values, "role")) ==>
              r["role"] == IdNameRecord(Prop(Lookup(values, "role"), "id"), Prop(Lookup(values, "role"), "name"))
    ensures !Truthy(Lookup(values, "role")) ==> r["role"] == Null
    ensures forall k :: k in values && k !in UserDataKeys ==> r[k] == values[k]
  {
    var role := Lookup(values, "role");
    var dob := Or(Lookup(values, "dob"), Null);
    var r := values["id" := if Present(userId) then Str(userId.value) else Null]
                   ["type" := Str("STUDENT")]
                   ["accountId" := accountId]
                   ["status" := Str("active")]
                   ["dob" := dob]
                   ["dateOfBirth" := dob]
                   ["role" := if Truthy(role) then IdNameRecord(Prop(role, "id"), Prop(role, "name")) else Null];
    assert r.Keys == values.Keys + UserDataKeys;
    r
  }

  /** PUT `api/users/update` with a user id, POST `api/users/save` without; the
      id travels in the body, not in the URL. */
  function SaveRequest(userId: Option<string>, userData: map<string, Value>): (r: Request)
    ensures r.body == Obj(userData)
    ensures r.verb == PUT <==> Present(userId)
    ensures r.verb == PUT ==> r.url == "api/users/update"
    ensures r.verb != PUT ==> r.verb == POST && r.url == "api/users/save"
  {
    if Present(userId) then Request(PUT, "api/users/update", Obj(userData))
    else Request(POST, "api/users/save", Obj(userData))
  }

  /** The error toast: the server's message, else the error's own message,
      else the translated fallback. */
  function SaveErrorMessage(error: Value, fallback: string): (r: Value)
    ensures Truthy(ServerMessage(error)) ==> r == ServerMessage(error)
    ensures !Truthy(ServerMessage(error)) && Truthy(Prop(error, "message")) ==> r == Prop(error, "message")
    ensures !Truthy(ServerMessage(error)) && !Truthy(Prop(error, "message")) ==> r == Str(fallback)
    ensures fallback != "" ==> Truthy(r)
  {
    Or(Or(ServerMessage(error), Prop(error, "message")), Str(fallback))
  }

  // ---------------------------------------------------------------------------
  // Properties across fetching and saving

  /** Saving an edited student updates the same record: the update body carries
      the route's id. */
  lemma UpdateCarriesRouteId(values: map<string, Value>, id: string, accountId: Value)
    requires id != ""
    ensures var req := SaveRequest(Some(id), UserData(values, Some(id), accountId));
            req.verb == PUT && req.body.Obj? && req.body.fields["id"] == Str(id)
  {
  }

  /** Saving the initial (add) state posts nulls for the id, role and dates. */
  lemma InitialStateSaves(accountId: Value)
    ensures var data := UserData(InitialStudentState, None, accountId);
            && data["id"] == Null && data["role"] == Null && data["dob"] == Null && data["dateOfBirth"] == Null
            && data["password"] == Str("") && data["userName"] == Str("")
            && SaveRequest(None, data).url == "api/users/save"
  {
  }

  /** A fetched student saved unchanged sends an empty password with the
      update: the screen does not drop it. */
  lemma FetchedStudentSendsEmptyPassword(body: Value, roles: seq<Value>, parse: DateParser, id: string, accountId: Value)
    requires FetchedStudent(body, roles, parse).Some?
    ensures UserData(FetchedStudent(body, roles, parse).value, Some(id), accountId)["password"] == Str("")
  {
    var rec := FetchedStudent(body, roles, parse).value;
    assert "password" in rec && rec["password"] == Str("");
    assert "password" !in UserDataKeys;
  }

  /** A stored `{ id, name }` role is saved as the same record. */
  lemma IdNameRoleSaved(values: map<string, Value>, userId: Option<string>, accountId: Value, id: Value, name: Value)
    requires Lookup(values, "role") == IdNameRecord(id, name)
    ensures UserData(values, userId, accountId)["role"] == IdNameRecord(id, name)
  {
    assert Prop(IdNameRecord(id, name), "id") == id && Prop(IdNameRecord(id, name), "name") == name;
  }

  /** A fetched role that matches no loaded role is saved back as its own id and
      name. */
  lemma {:induction false} UnmatchedRoleSavedBack(body: Value, roles: seq<Value>, parse: DateParser, userId: Option<string>, accountId: Value)
    requires !Nullish(body) && Truthy(Prop(body, "role"))
    requires forall j :: 0 <= j < |roles| ==> Misses(roles[j], RoleKey(Prop(body, "role")))
    ensures FetchedStudent(body, roles, parse).Some?
    ensures var role := Prop(body, "role");
            UserData(FetchedStudent(body, roles, parse).value, userId, accountId)["role"]
              == IdNameRecord(Prop(role, "id"), Prop(role, "name"))
  {
    var role := Prop(body, "role");
    var saved := IdNameRecord(Prop(role, "id"), Prop(role, "name"));
    assert ResolveRole(role, roles) == Some(saved);
    var rec := FetchedStudent(body, roles, parse).value;
    assert Lookup(rec, "role") == saved;
    IdNameRoleSaved(rec, userId, accountId, Prop(role, "id"), Prop(role, "name"));
  }

  /** A fetched role matched to a loaded `{ id, name }` role is saved as that
      loaded role. */
  lemma {:induction false} MatchedRoleSavedAsLoaded(body: Value, roles: seq<Value>, parse: DateParser, userId: Option<string>, accountId: Value, i: int, id: Value, name: Value)
    requires !Nullish(body) && Truthy(Prop(body, "role"))
    requires 0 <= i < |roles| && roles[i] == IdNameRecord(id, name) && ToStr(id) == RoleKey(Prop(body, "role"))
    requires forall j :: 0 <= j < i ==> Misses(roles[j], RoleKey(Prop(body, "role")))
    ensures FetchedStudent(body, roles, parse).Some?
    ensures UserData(FetchedStudent(body, roles, parse).value, userId, accountId)["role"] == IdNameRecord(id, name)
  {
    var loaded := IdNameRecord(id, name);
    assert Hits(roles[i], RoleKey(Prop(body, "role"))) by {
      assert Prop(loaded, "id") == id;
    }
    FirstMatchingRoleChosen(Prop(body, "role"), roles, i);
    assert ResolveRole(Prop(body, "role"), roles) == Some(loaded);
    var rec := FetchedStudent(body, roles, parse).value;
    assert Lookup(rec, "role") == loaded;
    IdNameRoleSaved(rec, userId, accountId, id, name);
  }
}
