/**
  The declarative description a screen hands to the reusable form, and the
  requests and replies that stand for the network.
 */
module FormSchema {
  import opened Js

  datatype FieldKind = Text | Email | Password | Number | Select | Date

  /** `optionsMethod`; an absent method fetches with GET. */
  datatype FetchMethod = Get | Post

  /** One entry of a form's `fields`. An absent `options` list is the empty list;
      `optionsQuery` keeps the order of its entries. */
  datatype FormField = FormField(
    name: string,
    labelText: string,
    kind: FieldKind,
    required: bool,
    options: seq<Value>,
    optionsUrl: Option<string>,
    optionsMethod: Option<FetchMethod>,
    optionsQuery: Option<seq<(string, string)>>)

  /** A plain field: no option source of any kind. */
  function Plain(name: string, labelText: string, kind: FieldKind, required: bool): FormField {
    FormField(name, labelText, kind, required, [], None, None, None)
  }

  predicate UniqueNames(fs: seq<FormField>) {
    forall i, j :: 0 <= i < j < |fs| ==> fs[i].name != fs[j].name
  }

  predicate IsFieldName(fs: seq<FormField>, k: string) {
    exists i :: 0 <= i < |fs| && fs[i].name == k
  }

  datatype Verb = GET | POST | PUT

  /** A request handed to the API client: verb, URL and JSON body (Undefined for GET). */
  datatype Request = Request(verb: Verb, url: string, body: Value)

  /** What an awaited API call gives: the response's `data`, or the thrown error. */
  datatype Reply = Ok(data: Value) | Failed(error: Value)

  /** The paging envelope every list endpoint is sent:
      `{ page: 0, size: 1000, sortBy: "id", sortDir: "asc", search: "" }`. */
  function PagingBody(): Value {
    Obj(map["page" := Num(0), "size" := Num(1000), "sortBy" := Str("id"), "sortDir" := Str("asc"), "search" := Str("")])
  }

  /** A two-key option record `{ label, value }`. */
  function OptionRecord(text: Value, value: Value): Value {
    Obj(map["label" := text, "value" := value])
  }

  /** A two-key record `{ id, name }`. */
  function IdNameRecord(id: Value, name: Value): Value {
    Obj(map["id" := id, "name" := name])
  }

  /** `error.response?.data?.message` */
  function ServerMessage(error: Value): Value {
    Prop(Prop(Prop(error, "response"), "data"), "message")
  }
}
