/**
  How the reusable form sources the option list of a `select` field, normalises
  what a server returns into `{ label, value }` records, and picks the text shown
  on a select button.
 */
module SelectOptions {
  import opened Js
  import opened FormSchema

  const AccountIdToken: string := "{accountId}"

  // ---------------------------------------------------------------------------
  // Placeholder substitution: `url.replace("{accountId}", String(accId))`

  predicate OccursAt(s: string, pat: string, j: int) {
    0 <= j && j + |pat| <= |s| && s[j..j + |pat|] == pat
  }

  /** `pat` occurs at `i` and nowhere before it. */
  predicate FirstOccurrence(s: string, pat: string, i: int) {
    OccursAt(s, pat, i) && forall j :: 0 <= j < i ==> !OccursAt(s, pat, j)
  }

  /** `s.indexOf(pat, from)` */
  function IndexFrom(s: string, pat: string, from: nat): (r: Option<nat>)
    ensures r.Some? ==> from <= r.value && OccursAt(s, pat, r.value)
    ensures forall j :: from <= j && (r.None? || j < r.value) ==> !OccursAt(s, pat, j)
    decreases |s| - from
  {
    if from + |pat| > |s| then None
    else if s[from..from + |pat|] == pat then Some(from)
    else IndexFrom(s, pat, from + 1)
  }

  /** `s.replace(pat, rep)` with a string pattern: the first occurrence only. */
  function ReplaceFirst(s: string, pat: string, rep: string): string {
    match IndexFrom(s, pat, 0)
    case None => s
    case Some(i) => s[..i] + rep + s[i + |pat|..]
  }

  /** The `{accountId}` substitution of an options URL: only with a truthy
      account id, and only at the first occurrence of the placeholder. */
  function SubstituteAccountId(url: string, accountId: Value): (r: string)
    ensures !Truthy(accountId) ==> r == url
    ensures (forall j :: !OccursAt(url, AccountIdToken, j)) ==> r == url
    ensures forall i :: Truthy(accountId) && FirstOccurrence(url, AccountIdToken, i) ==>
              r == url[..i] + ToStr(accountId) + url[i + |AccountIdToken|..]
  {
    if Truthy(accountId) then ReplaceFirst(url, AccountIdToken, ToStr(accountId)) else url
  }

  lemma ShiftedOccurrence(head: string, tail: string, t: int, x: int)
    requires 0 <= x && 0 <= t && x + t <= |tail|
    ensures (head + tail)[|head| + x..|head| + x + t] == tail[x..x + t]
  {
  }

  /** A second placeholder after the first survives the substitution, shifted by
      the difference in length. */
  lemma OnlyFirstTokenReplaced(url: string, accountId: Value, i: int, j: int)
    requires Truthy(accountId)
    requires FirstOccurrence(url, AccountIdToken, i)
    requires OccursAt(url, AccountIdToken, j) && i + |AccountIdToken| <= j
    ensures OccursAt(SubstituteAccountId(url, accountId), AccountIdToken,
                     j - |AccountIdToken| + |ToStr(accountId)|)
  {
    var a := ToStr(accountId);
    var t := |AccountIdToken|;
    var head := url[..i] + a;
    var tail := url[i + t..];
    var x := j - i - t;
    assert tail[x..x + t] == AccountIdToken by {
      assert tail[x..x + t] == url[j..j + t];
    }
    ShiftedOccurrence(head, tail, t, x);
    assert SubstituteAccountId(url, accountId) == head + tail;
  }

  // ---------------------------------------------------------------------------
  // GET query strings

  /** One `k=v` pair of a query string, both sides encoded. */
  function QueryPair(e: (string, string), encode: string -> string): string {
    encode(e.0) + "=" + encode(e.1)
  }

  /** `Object.entries(q).map(([k, v]) => enc(k) + "=" + enc(v)).join("&")` */
  function QueryString(entries: seq<(string, string)>, encode: string -> string): (r: string)
    ensures entries == [] ==> r == ""
  {
    Join(seq(|entries|, i requires 0 <= i < |entries| => QueryPair(entries[i], encode)), "&")
  }

  /** A query string is the first entry's pair, then `&` and the rest's query
      string when there are more entries: one pair per entry, in order. */
  lemma QueryStringCons(e: (string, string), rest: seq<(string, string)>, encode: string -> string)
    ensures QueryString([e] + rest, encode)
            == QueryPair(e, encode) + (if rest == [] then "" else "&" + QueryString(rest, encode))
  {
    var es := [e] + rest;
    var parts := seq(|es|, i requires 0 <= i < |es| => QueryPair(es[i], encode));
    var tail := seq(|rest|, i requires 0 <= i < |rest| => QueryPair(rest[i], encode));
    assert parts[0] == QueryPair(e, encode);
    assert parts[1..] == tail;
  }

  /** `url + (url.includes("?") ? "&" : "?") + qp` */
  function AppendQuery(url: string, qp: string): (r: string)
    ensures '?' in url ==> r == url + "&" + qp
    ensures '?' !in url ==> r == url + "?" + qp
  {
    url + (if '?' in url then "&" else "?") + qp
  }

  /** The single request the form issues for a field's options, or None when it
      issues none (not a select, a non-empty static list, or no URL). */
  function OptionsRequest(f: FormField, accountId: Value, encode: string -> string): (r: Option<Request>)
    ensures r.Some? <==> f.kind == Select && |f.options| == 0 && Present(f.optionsUrl)
    ensures r.Some? && f.optionsMethod == Some(Post) ==>
              r.value == Request(POST, SubstituteAccountId(f.optionsUrl.value, accountId), PagingBody())
    ensures r.Some? && f.optionsMethod != Some(Post) ==>
              r.value.verb == GET && r.value.body == Undefined
              && SubstituteAccountId(f.optionsUrl.value, accountId) <= r.value.url
              && (f.optionsQuery.None? ==> r.value.url == SubstituteAccountId(f.optionsUrl.value, accountId))
              && (f.optionsQuery.Some? ==>
                    r.value.url == AppendQuery(SubstituteAccountId(f.optionsUrl.value, accountId),
                                               QueryString(f.optionsQuery.value, encode)))
  {
    if f.kind != Select || |f.options| > 0 || !Present(f.optionsUrl) then None
    else
      var url := SubstituteAccountId(f.optionsUrl.value, accountId);
      if f.optionsMethod == Some(Post) then Some(Request(POST, url, PagingBody()))
      else
        var full := match f.optionsQuery
          case Some(q) => AppendQuery(url, QueryString(q, encode))
          case None => url;
        Some(Request(GET, full, Undefined))
  }

  /** A query object that is present but empty still appends its separator. */
  lemma EmptyQueryAppendsSeparator(f: FormField, accountId: Value, encode: string -> string)
    requires f.kind == Select && |f.options| == 0 && Present(f.optionsUrl)
    requires f.optionsMethod != Some(Post) && f.optionsQuery == Some([])
    requires '?' !in SubstituteAccountId(f.optionsUrl.value, accountId)
    ensures OptionsRequest(f, accountId, encode).value.url == SubstituteAccountId(f.optionsUrl.value, accountId) + "?"
  {
  }

  // ---------------------------------------------------------------------------
  // Normalising a reply

  /** The list as the form reads it: `resp.data?.data || resp.data || []`; None
      when that is not an array (`.map` throws and the field is left alone). */
  function ItemsAsWritten(body: Value): (r: Option<seq<Value>>)
    ensures Prop(body, "data").Arr? && Truthy(Prop(body, "data")) ==> r == Some(Prop(body, "data").items)
    ensures !Truthy(Prop(body, "data")) && body.Arr? ==> r == Some(body.items)
    ensures !Truthy(Prop(body, "data")) && !Truthy(body) ==> r == Some([])
    ensures !Truthy(Prop(body, "data")) && Truthy(body) && !body.Arr? ==> r.None?
    ensures Truthy(Prop(body, "data")) && !Prop(body, "data").Arr? ==> r.None?
  {
    var items := Or(Or(Prop(body, "data"), body), Arr([]));
    if items.Arr? then Some(items.items) else None
  }

  /** The list with the paging envelope `content` unwrapped as well. */
  function Items(body: Value): (r: Option<seq<Value>>)
    ensures !Truthy(Prop(body, "content")) ==> r == ItemsAsWritten(body)
    ensures Truthy(Prop(body, "data")) ==> r == ItemsAsWritten(body)
    ensures !Truthy(Prop(body, "data")) && Prop(body, "content").Arr? ==> r == Some(Prop(body, "content").items)
  {
    var items := Or(Or(Or(Prop(body, "data"), Prop(body, "content")), body), Arr([]));
    if items.Arr? then Some(items.items) else None
  }

  /** The reply of a paging endpoint, `{ content: [{ id: 1, name: "Admin" }] }`. */
  function AdminRolePage(): Value {
    Obj(map["content" := Arr([Obj(map["id" := Num(1), "name" := Str("Admin")])])])
  }

  /** Read as the form reads it, a paging reply is not a list, so `.map` throws
      and the select keeps no options. */
  lemma PagingReplyAsWritten()
    ensures ItemsAsWritten(AdminRolePage()).None?
  {
  }

  /** With `content` unwrapped, the same reply yields the one option
      `{ label: "Admin", value: 1 }`. */
  lemma PagingReplyUnwrapped()
    ensures Items(AdminRolePage()).Some?
    ensures NormalizeItems(Items(AdminRolePage()).value) == [OptionRecord(Str("Admin"), Num(1))]
  {
  }

  /** One item of a reply turned into an option record. */
  function NormalizeItem(it: Value): (r: Value)
    ensures Has(it, "label") && Has(it, "value") ==> r == it
    ensures Has(r, "label") && Has(r, "value")
    ensures !(Has(it, "label") && Has(it, "value")) && Has(it, "id") && Has(it, "name") ==>
              r == OptionRecord(Prop(it, "name"), Prop(it, "id"))
    ensures Truthy(it) && IsObject(it) && !(Has(it, "label") && Has(it, "value")) && !(Has(it, "id") && Has(it, "name")) ==>
              && Prop(r, "label") == (if Truthy(Prop(it, "name")) then Prop(it, "name")
                                      else if Truthy(Prop(it, "label")) then Prop(it, "label")
                                      else Str(ToStr(it)))
              && Prop(r, "value") == (if !Nullish(Prop(it, "id")) then Prop(it, "id")
                                      else if !Nullish(Prop(it, "value")) then Prop(it, "value")
                                      else it)
    ensures !(Truthy(it) && IsObject(it)) ==> r == OptionRecord(Str(ToStr(it)), it)
  {
    if Truthy(it) && IsObject(it) then
      if Has(it, "label") && Has(it, "value") then it
      else if Has(it, "id") && Has(it, "name") then OptionRecord(Prop(it, "name"), Prop(it, "id"))
      else OptionRecord(Or(Or(Prop(it, "name"), Prop(it, "label")), Str(ToStr(it))),
                        Coalesce(Coalesce(Prop(it, "id"), Prop(it, "value")), it))
    else OptionRecord(Str(ToStr(it)), it)
  }

  /** `items.map(normalize)`: one option per item, in the same order. */
  function NormalizeItems(items: seq<Value>): (r: seq<Value>)
    ensures |r| == |items|
    ensures forall i :: 0 <= i < |r| ==> r[i] == NormalizeItem(items[i]) && Has(r[i], "label") && Has(r[i], "value")
  {
    seq(|items|, i requires 0 <= i < |items| => NormalizeItem(items[i]))
  }

  // ---------------------------------------------------------------------------
  // Resolving every select field

  predicate SameAt<K, V(==)>(m1: map<K, V>, m2: map<K, V>, k: K) {
    (k in m1 <==> k in m2) && (k in m1 ==> m1[k] == m2[k])
  }

  /** Which list read an option fetch goes through: the form's own, or the
      corrected one that also unwraps a paging envelope. */
  datatype ListRead = AsWritten | ContentUnwrapped

  function ReadItems(read: ListRead, body: Value): Option<seq<Value>> {
    match read
    case AsWritten => ItemsAsWritten(body)
    case ContentUnwrapped => Items(body)
  }

  /** What one field's option sourcing does to the option map once its fetch
      (if any) has settled. */
  function ResolveField(opts: map<string, seq<Value>>, f: FormField, accountId: Value,
                        encode: string -> string, fetch: Request -> Reply, read: ListRead): (r: map<string, seq<Value>>)
    ensures forall k :: k != f.name ==> SameAt(r, opts, k)
    ensures f.kind != Select ==> r == opts
    ensures f.kind == Select && |f.options| > 0 ==> r == opts[f.name := f.options]
    ensures f.kind == Select && |f.options| == 0 ==>
              var req := OptionsRequest(f, accountId, encode);
              if req.Some? && fetch(req.value).Ok? && ReadItems(read, fetch(req.value).data).Some?
              then r == opts[f.name := NormalizeItems(ReadItems(read, fetch(req.value).data).value)]
              else r == opts
  {
    if f.kind != Select then opts
    else if |f.options| > 0 then opts[f.name := f.options]
    else match OptionsRequest(f, accountId, encode)
      case None => opts
      case Some(req) =>
        match fetch(req)
        case Failed(_) => opts
        case Ok(body) =>
          match ReadItems(read, body)
          case None => opts
          case Some(items) => opts[f.name := NormalizeItems(items)]
  }

  /** A fetch that fails, or a reply with no list, leaves the option map as it was. */
  lemma FailedFetchKeepsOptions(opts: map<string, seq<Value>>, f: FormField, accountId: Value,
                                encode: string -> string, fetch: Request -> Reply, read: ListRead)
    requires f.kind == Select && |f.options| == 0
    requires var req := OptionsRequest(f, accountId, encode);
             req.Some? && (fetch(req.value).Failed? || ReadItems(read, fetch(req.value).data).None?)
    ensures ResolveField(opts, f, accountId, encode, fetch, read) == opts
  {
  }

  /** The fields' option sourcing in `fields` order. */
  function ResolveAll(fs: seq<FormField>, opts: map<string, seq<Value>>, accountId: Value,
                      encode: string -> string, fetch: Request -> Reply, read: ListRead): map<string, seq<Value>>
  {
    if fs == [] then opts
    else ResolveField(ResolveAll(fs[..|fs| - 1], opts, accountId, encode, fetch, read), fs[|fs| - 1],
                      accountId, encode, fetch, read)
  }

  /** Keys that name no field are untouched by option sourcing. */
  lemma {:induction false} ResolveAllOtherKeys(fs: seq<FormField>, opts: map<string, seq<Value>>, accountId: Value,
                                               encode: string -> string, fetch: Request -> Reply, read: ListRead,
                                               k: string)
    requires !IsFieldName(fs, k)
    ensures SameAt(ResolveAll(fs, opts, accountId, encode, fetch, read), opts, k)
  {
    if fs != [] {
      ResolveAllOtherKeys(fs[..|fs| - 1], opts, accountId, encode, fetch, read, k);
    }
  }

  /** With unique field names, each field's entry is exactly what that field's
      own sourcing makes of the initial map: no field's fetch affects another's
      entry, whatever the others return. */
  lemma {:induction false} ResolveAllAt(fs: seq<FormField>, opts: map<string, seq<Value>>, accountId: Value,
                                        encode: string -> string, fetch: Request -> Reply, read: ListRead, i: int)
    requires UniqueNames(fs) && 0 <= i < |fs|
    ensures SameAt(ResolveAll(fs, opts, accountId, encode, fetch, read),
                   ResolveField(opts, fs[i], accountId, encode, fetch, read), fs[i].name)
  {
    var init := fs[..|fs| - 1];
    if i == |fs| - 1 {
      assert !IsFieldName(init, fs[i].name);
      ResolveAllOtherKeys(init, opts, accountId, encode, fetch, read, fs[i].name);
    } else {
      assert UniqueNames(init);
      ResolveAllAt(init, opts, accountId, encode, fetch, read, i);
      assert fs[|fs| - 1].name != fs[i].name;
    }
  }

  /** Two fields with different names can settle in either order. */
  lemma ResolveFieldsCommute(opts: map<string, seq<Value>>, f: FormField, g: FormField, accountId: Value,
                             encode: string -> string, fetch: Request -> Reply, read: ListRead)
    requires f.name != g.name
    ensures ResolveField(ResolveField(opts, f, accountId, encode, fetch, read), g, accountId, encode, fetch, read)
         == ResolveField(ResolveField(opts, g, accountId, encode, fetch, read), f, accountId, encode, fetch, read)
  {
  }

  // ---------------------------------------------------------------------------
  // The text on a select button

  /** `opt.value ?? opt.id ?? opt`: what picking an option stores, and what an
      option is matched by. */
  function OptionValue(o: Value): Value {
    Coalesce(Coalesce(Prop(o, "value"), Prop(o, "id")), o)
  }

  /** `opts.find(o => String(o.value ?? o.id ?? o) === key)` */
  function FindOption(opts: seq<Value>, key: string): (r: Option<nat>)
    ensures r.Some? ==> r.value < |opts| && ToStr(OptionValue(opts[r.value])) == key
    ensures forall j :: 0 <= j < |opts| && (r.None? || j < r.value) ==> ToStr(OptionValue(opts[j])) != key
  {
    if opts == [] then None
    else if ToStr(OptionValue(opts[0])) == key then Some(0)
    else match FindOption(opts[1..], key)
      case None => None
      case Some(j) => Some(j + 1)
  }

  /** The id a stored select value is matched by: `raw.id ?? raw.value` for an object. */
  function SelectedId(raw: Value): Value {
    if Truthy(raw) && IsObject(raw) then Coalesce(Prop(raw, "id"), Prop(raw, "value")) else raw
  }

  /** The label shown on a select button for stored value `raw`. */
  function SelectLabel(raw: Value, opts: seq<Value>, fieldLabel: string): (r: Value)
    ensures (forall o :: o in opts ==> ToStr(OptionValue(o)) != ToStr(SelectedId(raw))) && !Truthy(raw) ==>
              r == Str("Select " + fieldLabel)
    ensures (forall o :: o in opts ==> ToStr(OptionValue(o)) != ToStr(SelectedId(raw))) && Truthy(raw) && !IsObject(raw) ==>
              r == raw
    ensures (forall o :: o in opts ==> ToStr(OptionValue(o)) != ToStr(SelectedId(raw))) && Truthy(raw) && IsObject(raw) ==>
              r == (if Nullish(Prop(raw, "name")) then Str(ToStr(SelectedId(raw))) else Prop(raw, "name"))
  {
    var valId := SelectedId(raw);
    var found := FindOption(opts, ToStr(valId));
    if found.Some? && Truthy(opts[found.value]) then
      Coalesce(Prop(opts[found.value], "label"), Coalesce(Prop(opts[found.value], "name"), Str(ToStr(valId))))
    else if Truthy(raw) && IsObject(raw) then Coalesce(Prop(raw, "name"), Str(ToStr(valId)))
    else Or(raw, Str("Select " + fieldLabel))
  }

  /** Picking option `k` (storing `OptionValue(opts[k])`, a non-object) makes
      the button show that option's label, provided no earlier option has a
      value that prints the same. */
  lemma PickedOptionShowsItsLabel(opts: seq<Value>, k: int, fieldLabel: string)
    requires 0 <= k < |opts| && opts[k].Obj? && !IsObject(OptionValue(opts[k]))
    requires forall j :: 0 <= j < k ==> ToStr(OptionValue(opts[j])) != ToStr(OptionValue(opts[k]))
    requires !Nullish(Prop(opts[k], "label"))
    ensures SelectLabel(OptionValue(opts[k]), opts, fieldLabel) == Prop(opts[k], "label")
  {
    var raw := OptionValue(opts[k]);
    assert SelectedId(raw) == raw;
    assert FindOption(opts, ToStr(raw)) == Some(k);
  }

  /** Picking an option normalised from a `{ id, name }` item with a numeric id
      shows that item's name, provided no earlier item prints the same value. */
  lemma PickedIdNameItemShowsName(items: seq<Value>, k: int, n: int, name: Value, fieldLabel: string)
    requires 0 <= k < |items| && items[k] == IdNameRecord(Num(n), name) && !Nullish(name)
    requires forall j :: 0 <= j < k ==> ToStr(OptionValue(NormalizeItem(items[j]))) != IntToString(n)
    ensures SelectLabel(Num(n), NormalizeItems(items), fieldLabel) == name
  {
    var opts := NormalizeItems(items);
    assert opts[k] == OptionRecord(name, Num(n));
    assert OptionValue(opts[k]) == Num(n);
    PickedOptionShowsItsLabel(opts, k, fieldLabel);
  }
}
