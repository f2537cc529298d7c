# Student form engine — a Dafny model

This project models the part of a school-management mobile app that adds and
edits students:

- the **reusable form** (`ReusableForm.tsx`), a declarative engine. A screen
  hands it a list of field descriptors plus save/update/fetch URLs. The form
  keeps the entered values, the per-field errors, the option lists of its
  select fields and a loading flag. It hydrates itself from a fetched record
  in edit mode, sources select options (static or remote, with `{accountId}`
  substitution, a fixed paging body for POST and a query string for GET),
  validates required fields and submits with PUT or POST;
- the **add/edit student screen** (`AddEditStudent.tsx`): its field schema and
  `transformStudentData`, which rewrites the form values into the user API's
  payload;
- the **stand-alone edit screen** (`EditStudent.tsx`): the roles list it loads
  through `fetchData`, the normalisation of the fetched student (with
  `formatDateForInput` and the role lookup), and the `userData` payload it
  saves.

Modules, in dependency order:

| file | module | contents |
|---|---|---|
| `js.dfy` | `Js` | JavaScript values: truthiness, `\|\|`, `??`, property access, object spread, `String(v)`, `parseInt(s, 10)` |
| `dates.dfy` | `Dates` | `YYYY-MM-DD` formatting, its decoder, and `normalizeDate` over an abstract date parser |
| `form_schema.dfy` | `FormSchema` | field descriptors, requests and replies, the paging body |
| `select_options.dfy` | `SelectOptions` | option sourcing, item normalisation, the select-button label |
| `reusable_form.dfy` | `FormEngine` | hydration, validation, submit; the class `ReusableForm` with the form's state |
| `add_edit_student.dfy` | `AddEditStudent` | the student schema, `transformStudentData`, and properties across form and screen |
| `edit_student.dfy` | `EditStudent` | `fetchData`, `fetchedData`, `userData` and the save request |

The form's state changes happen in the methods of `FormEngine.ReusableForm`:
`HandleInputChange`, `Hydrate`, `Validate` and `LoadOptions` (the last two
are loops with invariants), and `BeginSubmit`/`FinishSubmit`, which are the two halves of
`handleSubmit` on either side of the awaited request. Each method's `ensures`
ties the new state to a specification function, such as `ValidationErrors`,
`ResolveAll`, `NormalizeRecord` or `SubmitEffects`. Lemmas prove what those
functions promise.

The network, the session's account id (read from storage), the date parser
and `encodeURIComponent` are parameters: `get: string -> Reply`,
`fetch: Request -> Reply`, `accountId: Value`, `parse: DateParser` and
`encode: string -> string`.

Three behaviours of the option loader are modelled exactly as the code has
them, although they are easy to read otherwise:

- **Envelope.** The reply is read as `resp.data?.data || resp.data || []`
  (`ReusableForm.tsx:170`); a paging reply `{content: [...]}` is not
  unwrapped, so `.map` throws and the catch at lines 190-196 leaves the option
  map alone. The edit screen reads `.content` from the same roles endpoint
  (`EditStudent.tsx:153-154`), so this is logged under Findings.
  `ReusableForm.LoadOptions` reads replies as the code does (`AsWritten`);
  the corrected read (`ContentUnwrapped`) is the second mode of the same
  resolution functions.
- **Fallback item.** An item of another object shape becomes
  `{label: name || label || String(it), value: id ?? value ?? it}`
  (`ReusableForm.tsx:178-182`).
- **Failed fetch.** A failed option fetch leaves the field's entry as it was
  (`ReusableForm.tsx:190-196`), not empty.

## Model

| member | source | states |
|---|---|---|
| Js.ParseIntRoundTrip | src/screens/admin/students/AddEditStudent.tsx:60-63 | `parseInt(String(n), 10)` gives back `n` for every integer `n` |
| Js.IdStringRoundTrip | src/components/common/ReusableForm.tsx:99-102 | a non-zero number stored as `String(n)` parses back to `n`; zero is stored as "" |
| Js.Merge | src/screens/admin/students/AddEditStudent.tsx:42-64 | object spread followed by literal entries: the keys of both, the overriding entries where given, the spread ones elsewhere |
| Dates.FormatDateRoundTrip | src/components/common/ReusableForm.tsx:91-94 | the `Y-MM-DD` text of a valid date decodes back to the same year, month and day: zero-padding month and day loses nothing |
| Dates.UnpaddedYear | src/components/common/ReusableForm.tsx:91-94 | the year is not padded: the text starts with exactly `String(year)` followed by `-MM-DD`, so a year below 1000 gives at most nine characters |
| Dates.NormalizeDate | src/components/common/ReusableForm.tsx:87-95 | "" for a falsy or unparseable value; otherwise the `YYYY-MM-DD` text of the parsed local date, which decodes back to exactly that date |
| SelectOptions.SubstituteAccountId | src/components/common/ReusableForm.tsx:132-143 | the URL is unchanged without a truthy account id or without a placeholder; otherwise only the first `{accountId}` is replaced by `String(accountId)` |
| SelectOptions.OnlyFirstTokenReplaced | src/components/common/ReusableForm.tsx:139 | a second placeholder after the first survives, shifted by the length difference |
| SelectOptions.AppendQuery | src/components/common/ReusableForm.tsx:165 | the query is joined with `&` when the URL already has `?`, with `?` otherwise |
| SelectOptions.OptionsRequest | src/components/common/ReusableForm.tsx:121-168 | a request is issued exactly for a select with no static options and a URL; a POST goes to the substituted URL with the fixed paging body; a GET has no body and goes to the substituted URL, followed by `?` or `&` and the query string when a query is given |
| SelectOptions.QueryString | src/components/common/ReusableForm.tsx:159-164 | no entries give the empty query string |
| SelectOptions.QueryStringCons | src/components/common/ReusableForm.tsx:159-164 | one encoded `k=v` pair per entry, in entry order, joined by `&` |
| SelectOptions.EmptyQueryAppendsSeparator | src/components/common/ReusableForm.tsx:158-165 | an empty but present query object still appends `?` |
| SelectOptions.ItemsAsWritten | src/components/common/ReusableForm.tsx:170-172 | a truthy array `data` is the list; otherwise an array body is the list and a falsy body gives `[]`; a truthy `data` that is not an array, or any other truthy body such as a paging page `{content: [...]}`, gives no list (`.map` throws) |
| SelectOptions.Items | src/components/common/ReusableForm.tsx:170 | the corrected list read: as written whenever there is no truthy `content` or there is a truthy `data`; otherwise a `content` array is the list |
| SelectOptions.PagingReplyAsWritten | src/components/common/ReusableForm.tsx:170-172 | a paging reply `{content: [...]}` yields no list as written (Findings) |
| SelectOptions.PagingReplyUnwrapped | src/components/common/ReusableForm.tsx:170-185 | with `content` unwrapped the same reply yields the option `{label: "Admin", value: 1}` |
| SelectOptions.NormalizeItem | src/components/common/ReusableForm.tsx:172-185 | `{label, value}` objects pass through; `{id, name}` becomes `{label: name, value: id}`; any other object gets the first truthy of name, label and `String(it)` as label and the first non-nullish of id, value and itself as value; a non-object becomes `{label: String(it), value: it}`; every result has a label and a value |
| SelectOptions.NormalizeItems | src/components/common/ReusableForm.tsx:172-185 | items map one-to-one to options, in order |
| SelectOptions.ResolveField | src/components/common/ReusableForm.tsx:120-197 | one field's sourcing changes no other key; a non-select changes nothing; a non-empty static list is stored verbatim; otherwise the entry becomes the normalised list when the request exists, its fetch succeeds and the reply reads as a list, and the map is unchanged in every other case |
| SelectOptions.FailedFetchKeepsOptions | src/components/common/ReusableForm.tsx:186-196 | a failed fetch, or a reply with no list, leaves the whole option map unchanged |
| SelectOptions.ResolveAllOtherKeys | src/components/common/ReusableForm.tsx:119-201 | keys that name no field are untouched by option sourcing |
| SelectOptions.ResolveAllAt | src/components/common/ReusableForm.tsx:119-201 | with unique names, each field's entry is what its own sourcing makes of the initial map, whatever the other fetches return |
| SelectOptions.ResolveFieldsCommute | src/components/common/ReusableForm.tsx:186-189 | fetches for differently named fields may settle in either order with the same result |
| SelectOptions.FindOption | src/components/common/ReusableForm.tsx:323-326 | the result is the first option whose `String(value ?? id ?? o)` equals the key; none before it matches |
| SelectOptions.SelectLabel | src/components/common/ReusableForm.tsx:316-333 | when no option matches, a falsy value shows `Select <label>`, a truthy non-object value shows itself, and an object shows its `name`, or `String` of its id when the name is nullish |
| SelectOptions.PickedOptionShowsItsLabel | src/components/common/ReusableForm.tsx:316-333 | after picking option `k` the button shows that option's label, unless an earlier option prints the same value |
| SelectOptions.PickedIdNameItemShowsName | src/components/common/ReusableForm.tsx:176-177 | picking an option normalised from an `{id, name}` item shows its name |
| FormEngine.FetchRecord | src/components/common/ReusableForm.tsx:73-84 | `/{id}` is used when it succeeds; otherwise the `?id=` reply is used when it succeeds; when both fail the result is the first request's error |
| FormEngine.NormalizeRecord | src/components/common/ReusableForm.tsx:85-104 | the stored record has the fetched keys plus the four ids and `dob`; the ids are `String(x)` when truthy and "" otherwise; `dob` is `normalizeDate(dob \|\| date_of_birth)`; all other keys carry over |
| FormEngine.ValidationErrorsKeys | src/components/common/ReusableForm.tsx:235-249 | a key carries an error exactly when a field of that name fails, and the error is that field's `<label> is required.` |
| FormEngine.ValidationErrorsAt | src/components/common/ReusableForm.tsx:243-245 | with unique names, a field has an error iff it fails, and the error reads `<label> is required.` |
| FormEngine.OptionalFieldNeverFails | src/components/common/ReusableForm.tsx:243 | a field that is not required never gets an error |
| FormEngine.EmptyPasswordExemptWhenEditing | src/components/common/ReusableForm.tsx:238-241 | in edit mode an empty password is never reported, even when required |
| FormEngine.EmptyPasswordReportedWhenCreating | src/components/common/ReusableForm.tsx:238-245 | outside edit mode a required empty password is reported |
| FormEngine.ValidationPassesIff | src/components/common/ReusableForm.tsx:248 | validation passes iff no field fails |
| FormEngine.SubmitRequest | src/components/common/ReusableForm.tsx:264-270 | PUT exactly when there is an id, to `updateUrl/id`; POST to `saveUrl` otherwise; the body is the data |
| FormEngine.SubmitFailureMessage | src/components/common/ReusableForm.tsx:286-292 | the alert text is never empty: the server's message when truthy, else `Failed to update\|save <entity>.` |
| FormEngine.SuccessCallbackBeforeNavigation | src/components/common/ReusableForm.tsx:272-285 | on success exactly one navigation happens, last, to `onSuccessUrl` or back; the callback runs iff given, and before it |
| FormEngine.FailureStaysOnForm | src/components/common/ReusableForm.tsx:286-292 | on failure there is one error alert, no navigation and no callback |
| FormEngine.ReusableForm.constructor | src/components/common/ReusableForm.tsx:55-59 | a mounted form starts with no values, no errors, no options and not loading |
| FormEngine.ReusableForm.HandleInputChange | src/components/common/ReusableForm.tsx:203-208 | one value is set and no other; a shown error on that field becomes null and no other error changes |
| FormEngine.ReusableForm.PickDate | src/components/common/ReusableForm.tsx:219-229 | a picked date is stored as text that decodes to that date and clears a shown error on the field, leaving the other errors; dismissing the picker changes nothing |
| FormEngine.ReusableForm.PickOption | src/components/common/ReusableForm.tsx:343-347 | picking stores `opt.value ?? opt.id ?? opt`, clears a shown error on the field and leaves the other errors as they were |
| FormEngine.ReusableForm.Validate | src/components/common/ReusableForm.tsx:235-249 | the error map is replaced by `ValidationErrors`, and the result is true iff it is empty |
| FormEngine.ReusableForm.LoadOptions | src/components/common/ReusableForm.tsx:118-201 | the option map becomes `ResolveAll` of the fields over the old map, each reply read as the code reads it |
| FormEngine.ReusableForm.Hydrate | src/components/common/ReusableForm.tsx:67-116 | nothing happens without an id and a fetch URL; otherwise the values become the normalised record, or they are kept and an error alert is raised; loading ends false |
| FormEngine.ReusableForm.BeginSubmit | src/components/common/ReusableForm.tsx:251-262 | validation runs first; a request is built iff it passes, from the transform's result with `isUpdate = !!id`; loading is raised only then |
| FormEngine.ReusableForm.FinishSubmit | src/components/common/ReusableForm.tsx:264-296 | the effects are `SubmitEffects` for the reply and loading is false on both paths |
| AddEditStudent.StudentFormFieldsShape | src/screens/admin/students/AddEditStudent.tsx:11-38 | names are unique; every field but `address` is required; `role` is a select with no static list, sourced by POST from `/api/roles/getAll/{accountId}` |
| AddEditStudent.StudentFormProps | src/screens/admin/students/AddEditStudent.tsx:88-100 | the screen's entity, URLs and schema, and no `onSuccess` callback |
| AddEditStudent.IntOrNull | src/screens/admin/students/AddEditStudent.tsx:60-63 | null for a falsy value, a number or NaN otherwise; a non-zero number unchanged; a digit string becomes the number it spells |
| AddEditStudent.RoleOf | src/screens/admin/students/AddEditStudent.tsx:48-53 | always an `{id, name}` record: the object's own id and name, or `{id: parseInt(String(role)), name: undefined}`, or `{id: 2, name: "Student"}` |
| AddEditStudent.TransformStudentData | src/screens/admin/students/AddEditStudent.tsx:41-72 | fixed type and status; the role mapping; `dob` mirrored into `bateOfBirth`; the four ids parsed or null; password absent iff updating with an empty one; every other key carried over |
| AddEditStudent.HandleTransform | src/screens/admin/students/AddEditStudent.tsx:84-86 | the transform ignores the form's flag and passes `isUpdate = !!id` of the route |
| AddEditStudent.MountStudentForm | src/screens/admin/students/AddEditStudent.tsx:88-100 | the mounted form has the student props, the route id and the student transform |
| AddEditStudent.StoredIdToPayload | src/screens/admin/students/AddEditStudent.tsx:60-63 | a numeric id stored as its string parses back to the same number; zero comes back as null |
| AddEditStudent.HydratedIdSurvivesSubmit | src/components/common/ReusableForm.tsx:97-104 | an id fetched for editing returns unchanged in the payload when non-zero, and as null when zero |
| AddEditStudent.PickedRoleReachesPayload | src/screens/admin/students/AddEditStudent.tsx:48-53 | a role option picked from an `{id, name}` item reaches the payload as `{id, name: undefined}` |
| AddEditStudent.UpdateWithoutPassword | src/screens/admin/students/AddEditStudent.tsx:66-69 | an update with an empty password yields a `STUDENT` record that has no password entry |
| AddEditStudent.RoleSelectUnfilledAsWritten | src/components/common/ReusableForm.tsx:170-195 | the student form's role select, answered with the roles endpoint's paging page, keeps the option entry it had |
| AddEditStudent.RoleSelectFilledUnwrapped | src/components/common/ReusableForm.tsx:170-189 | with the envelope unwrapped, the same reply gives the role select the single option `{label: "Admin", value: 1}` |
| AddEditStudent.EditWithoutPasswordValidates | src/components/common/ReusableForm.tsx:235-249 | editing with the password left empty validates when the other required fields are filled |
| AddEditStudent.EditWithoutPasswordRequest | src/screens/admin/students/AddEditStudent.tsx:66-69 | such an edit PUTs to `/api/users/update/<id>` a student body without a password |
| AddEditStudent.CreateWithoutPasswordRefused | src/components/common/ReusableForm.tsx:238-245 | creating with an empty password is refused with `Password is required.` |
| EditStudent.ListRequest | src/screens/admin/students/EditStudent.tsx:146-153 | nothing is fetched without an account id; otherwise POST the paging body to `endpoint/accountId`, plus `?type=<filter>` when a filter is given |
| EditStudent.FetchedList | src/screens/admin/students/EditStudent.tsx:152-158 | the setter gets `content`, or `[]` when that is falsy; nothing on failure or without a body |
| EditStudent.RolePageReadByEditScreen | src/screens/admin/students/EditStudent.tsx:154 | this screen reads the roles page through `content` |
| EditStudent.NextLoadStep | src/screens/admin/students/EditStudent.tsx:212-217 | the student is fetched by `?id=` exactly when there is a user id and the roles list is non-empty; the initial state is restored exactly without a user id |
| EditStudent.FormatDateForInput | src/screens/admin/students/EditStudent.tsx:167-180 | "" for a falsy argument or an unparseable date; otherwise the `YYYY-MM-DD` text of the parsed `date_of_birth \|\| dob`, which decodes back to that date |
| EditStudent.DateOfBirthAloneIsDropped | src/screens/admin/students/EditStudent.tsx:188 | a record with no truthy `dob` gets "" even when `date_of_birth` is set |
| EditStudent.DateOfBirthPreferred | src/screens/admin/students/EditStudent.tsx:170 | with both present, `date_of_birth` is the one formatted |
| EditStudent.FindRole | src/screens/admin/students/EditStudent.tsx:190 | the first role whose `String(id)` equals the key, with all before it missing; no match iff every role misses; a null entry before any match throws |
| EditStudent.ResolveRole | src/screens/admin/students/EditStudent.tsx:189-194 | null without a role; a throw exactly when the search throws; the fetched `{id, name}` when nothing matches; otherwise a loaded role with the same id |
| EditStudent.FirstMatchingRoleChosen | src/screens/admin/students/EditStudent.tsx:190 | the first truthy loaded role with the same id is the one chosen |
| EditStudent.FetchedStudent | src/screens/admin/students/EditStudent.tsx:182-196 | class, division and roll number stringified or ""; `schoolId` kept as is or ""; `dob` formatted; role resolved; password reset to ""; other keys carried over; no record when there is no body or the role search throws |
| EditStudent.UserData | src/screens/admin/students/EditStudent.tsx:245-254 | id = the user id or null; fixed type and status; the session's account id; `dob` and `dateOfBirth` equal, the value or null; role reduced to `{id, name}` or null; every other value carried over |
| EditStudent.SaveRequest | src/screens/admin/students/EditStudent.tsx:257 | PUT `api/users/update` exactly with a user id, POST `api/users/save` otherwise; the body is the payload |
| EditStudent.SaveErrorMessage | src/screens/admin/students/EditStudent.tsx:266 | the server's message, else the error's message, else the fallback; never empty with a non-empty fallback |
| EditStudent.UpdateCarriesRouteId | src/screens/admin/students/EditStudent.tsx:245-257 | an update is a PUT whose body carries the route's id |
| EditStudent.InitialStateSaves | src/screens/admin/students/EditStudent.tsx:54-72 | saving the initial state posts null id, role and dates |
| EditStudent.FetchedStudentSendsEmptyPassword | src/screens/admin/students/EditStudent.tsx:195 | a fetched student saved unchanged sends an empty password: this screen does not drop it |
| EditStudent.IdNameRoleSaved | src/screens/admin/students/EditStudent.tsx:253 | a stored `{id, name}` role is saved as the same record |
| EditStudent.UnmatchedRoleSavedBack | src/screens/admin/students/EditStudent.tsx:189-194 | a fetched role matching no loaded role is saved as its own id and name |
| EditStudent.MatchedRoleSavedAsLoaded | src/screens/admin/students/EditStudent.tsx:189-194 | a fetched role matched to a loaded `{id, name}` role is saved as that role |

## Left out

- Numbers are integers (`Num(int)`) plus `NaN`. Fractions, infinities, `-0`, the 2^53 precision limit and the exponent form of `String(n)` are not modelled.
- Js.Prop: reading a property of `null` or `undefined` gives `undefined` instead of throwing. This matters only where the source reads without a guard, such as `o.value` of a null option in the select-button label. The role search in `EditStudent.FindRole` models the throw explicitly.
- Js.ToStr: every object prints as `[object Object]`; a custom `toString` is not modelled.
- Js.ParseInt: it skips the common white space characters, not every Unicode space separator.
- Object key order is not kept: records are maps. The GET query entries are an ordered sequence because their order reaches the URL.
- SelectOptions.SubstituteAccountId: `$` patterns in the replacement text of `String.prototype.replace` are not interpreted.
- SelectOptions.SelectLabel: its contract covers the three unmatched cases (falsy, non-object, object). The matched case is stated by `PickedOptionShowsItsLabel` and `PickedIdNameItemShowsName` for options that are records with a label.
- The storage read of the session (`SCM-AUTH`) and its `JSON.parse` are not modelled. A failure there is ignored, exactly like a falsy account id, so the account id is a parameter.
- `encodeURIComponent` is an opaque parameter.
- `new Date(v)`, the local time zone and "today" are not modelled. Parsing is an abstract partial function to a year, month (1–12) and day (1–31); only the formatting is proved.
- Concurrency is not modelled. Option fetches are settled one after another in `fields` order. `ResolveFieldsCommute` shows the order does not matter for fields with distinct names. Effects racing each other, unmounting and re-entering `handleSubmit` are not modelled: only the button's `disabled` state guards re-entry.
- FormEngine.ReusableForm.BeginSubmit: a transform is a total function here. A transform that throws, which in the source leaves `loading` true, is not modelled.
- FormEngine.SubmitEffects: the `onSuccess` callback cannot throw here. In the source it runs inside the `try` (`ReusableForm.tsx:277-279`); a throw there would add an error alert after the success alert and skip navigation. The student screens pass no callback.
- Rendering, menus, date-picker visibility, the loading spinner, tabs, styles and the cancel button are presentation and are left out.
- Alerts, toasts and navigation are not modelled as actions. In the form they appear only as `Effect` values and message texts; the edit screen's toasts are listed below.
- The Yup validation schema of the edit screen (`EditStudent.tsx` lines 221-242) is left out, along with the form it is wired into (lines 352-361), which has a different interface from the reusable form modelled here. From that screen, only the loading, normalising and saving logic is modelled.
- EditStudent.FetchedList: a truthy `content` that is not an array goes to the setter as it is. How the screen then uses it is not modelled: `NextLoadStep` and `ResolveRole` take a sequence of roles.
- `EditStudent`'s `loader` flag, its success toast, its two fetch-failure toasts (`EditStudent.tsx:157`, `:200`) and navigation are UI-bound and left out. For those failures `FetchedList` and `FetchedStudent` return `None`.
- The school/class/division selector is not part of this model: `SCDSelector.native` is not among the sources. In the model it is at most another caller of `HandleInputChange`.
- `UserDocumentManager`, `MainCard` and `ReusableLoader` are presentation and are left out.

## Findings

| source | as written | input that shows it | evidently intended | confidence | as-written member | corrected member |
|---|---|---|---|---|---|---|
| src/components/common/ReusableForm.tsx:170 | option items are read as `resp.data?.data \|\| resp.data \|\| []` and then mapped | the student role select POSTs to `/api/roles/getAll/{accountId}`, whose paging reply is `{content: [{id: 1, name: "Admin"}]}` (the edit screen reads that endpoint's `content`, `EditStudent.tsx:154`). `items` is then that object, so `.map` throws and the role select never gets options | unwrap the paging envelope's `content` too, giving `[{label: "Admin", value: 1}]` | medium (reply shape inferred from the other screen); not executed | AddEditStudent.RoleSelectUnfilledAsWritten | AddEditStudent.RoleSelectFilledUnwrapped |

`SelectOptions.ItemsAsWritten` is the list read as written and `SelectOptions.Items` the corrected read; `PagingReplyAsWritten` and `PagingReplyUnwrapped` compare them on the paging reply. `ResolveField` and `ResolveAll` take the read as a parameter (`AsWritten` or `ContentUnwrapped`). `ReusableForm.LoadOptions`, which models the form, uses `AsWritten`; the two role-select lemmas state the outcome under each read.
