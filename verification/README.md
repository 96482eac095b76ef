# Form validation and request-state bookkeeping, modelled in Dafny

This project models the two composables of a Vue front end:

- `useFormValidation` keeps one state `{isValid, errors, touched}` per
  declared form field. It runs each field's ordered rule list against the
  current form data, offers `validateField`, `validateForm`, `touchField`,
  `resetField` and `resetForm`, derives `isValid`, `hasErrors` and
  `isTouched`, and re-validates failing fields when the form data changes.
- `useApi`: each `execute` call issues at most one HTTP request. It merges a base configuration
  with each call's configuration, prepares method, headers and body, and
  records the outcome in four observable fields: `data`, `error`, `status`
  (`idle`/`loading`/`success`/`error`) and `statusCode`.

The reactive wrappers become plain values in the model. The per-field store
is an immutable `map<string, FieldState>`. Each operation is a pure function
from the old states to the new ones. The computeds become predicates. The
deep watcher becomes the explicit operation `FormValidation.Revalidate`. The
live form data is an explicit `map<string, V>` argument. A validator is an
opaque total function from the field's value to `Pass`, `Fail` or `Msg(s)`.
The value is `None` when the data has no such key.

On the request side, `fetch` and the body reads become a parameter
`transport: Request -> Fetched<T>`. `Fetched<T>` is either a network failure
or a reply with its status code, status text and the readings of its body.
`Execute` is then a total function from (state, base config, call config,
transport) to (new state, returned value). `Begin` is the synchronous part
of `execute`, up to `status = loading`.

Files:

- `wrappers.dfy`: `Option` and `Result`.
- `form_rules.dfy`: the rule loop of `validateField`. It comes with a
  declarative description of the error list: one message per non-passing
  rule, in declaration order. The description is proved both sound and
  complete for the loop.
- `form_validation.dfy`: the field-state machine, the derived flags, and
  the instance invariant `isValid <==> errors == []` that every operation
  preserves.
- `api_config.dfy`: the config merge, the required-URL check, the default
  method and `Content-Type`, the body rule, the `buildUrl` shortcut, and
  the argument shaping of the helpers.
- `api_execute.dfy`: the error-message choice, the status transitions of
  `execute`, and `reset`.

Two facts about the code shape the request-state contracts:

- The code does not keep "`success` exactly when data is non-null and
  there is no error". While `loading`, the previous call's data remains,
  and a 2xx reply whose body parses to JSON `null` gives `success` with
  null data. The model keeps the payload type abstract and records any
  parsed payload, JSON `null` included, as `Some(v)`. `ApiExecute.Wf` is the
  invariant of the model: an error is present exactly in the `error`
  status, `error` has no data, `success` has data, and `idle` has nothing.
  In the code the part "`success` has data" fails for a JSON `null` payload.
- The JSON `message` and `error` fields of a failed reply are used only
  when truthy, so an empty string falls through to the next choice.

## Model

| member | source | states |
|---|---|---|
| FormRules.Errors | src/composables/useFormValidation.ts:68-80 | the rule loop: every rule runs in order and each non-passing one appends its message; the list is empty exactly when every rule passes (so an empty rule list, as at lines 62-66, records none) and is never longer than the rule list |
| FormRules.ErrorsEnumerateObjections | src/composables/useFormValidation.ts:68-80 | the error list has exactly one message per rule that does not return `true`, in declaration order, with no short-circuit; `false` gives the rule's message (or the default `Поле "<name>" не прошло валидацию` when the message is absent or empty) and a string gives that string, even when empty |
| FormRules.EnumerationDeterminesErrors | src/composables/useFormValidation.ts:68-80 | any list that enumerates the objecting rules' messages in order is the error list, so the declarative description fully determines the loop's result |
| FormRules.ObjectionListUnique | src/composables/useFormValidation.ts:70-80 | the increasing list of the positions of the non-passing rules is unique |
| FormValidation.Init | src/composables/useFormValidation.ts:45-51 | construction gives every declared field `{true, [], false}`; the invariant holds, the form reads valid and error-free, and untouched when some field is declared |
| FormValidation.IsValid | src/composables/useFormValidation.ts:139-141 | the form is valid when every field is; a form without fields reads valid, and with every state consistent `isValid` is exactly the absence of errors |
| FormValidation.HasErrors | src/composables/useFormValidation.ts:146-148 | any field with at least one error makes the form have errors; a form without fields never has errors |
| FormValidation.IsTouched | src/composables/useFormValidation.ts:153-155 | any untouched field makes the form untouched; a form without fields reads touched |
| FormValidation.ValidateField | src/composables/useFormValidation.ts:56-86 | the field's errors become its rule list's error list; `isValid` and the return value are both "no errors"; `touched` and every other field are unchanged; an empty rule list yields valid with no errors |
| FormValidation.ValidateForm | src/composables/useFormValidation.ts:91-102 | every declared field is re-validated as `validateField` would, other entries are unchanged, and the result is true exactly when no declared field records an error; the invariant is preserved |
| FormValidation.TouchField | src/composables/useFormValidation.ts:107-113 | a declared field becomes touched and carries a fresh, consistent validation; an undeclared name changes nothing; other fields are unchanged |
| FormValidation.ResetField | src/composables/useFormValidation.ts:118-125 | a declared field becomes `{true, [], false}`; an undeclared name and every other field are unchanged |
| FormValidation.ResetForm | src/composables/useFormValidation.ts:130-134 | every declared field becomes `{true, [], false}`; nothing else changes |
| FormValidation.ResetFormClears | src/composables/useFormValidation.ts:130-155 | from any prior state, after `resetForm` the invariant holds, `isValid` is true, `hasErrors` is false, and `isTouched` is false when some field is declared |
| FormValidation.Revalidate | src/composables/useFormValidation.ts:158-169 | the watcher re-validates exactly the declared fields that currently have errors (keeping `touched`); fields with no errors are left exactly as they were |
| FormValidation.RevalidateIdempotent | src/composables/useFormValidation.ts:158-169 | a second watcher pass over unchanged data changes nothing more |
| FormValidation.RevalidateValidFormUnchanged | src/composables/useFormValidation.ts:158-169 | on a form whose fields are all valid the watcher changes nothing: no field is live-validated before it has failed once |
| FormValidation.OperationsPreserveWf | src/composables/useFormValidation.ts:45-134 | `validateField`, `touchField`, `resetField`, `resetForm` and the watcher each keep "one state per declared field, each valid exactly when it has no errors" |
| FormValidation.RequiredFieldExample | src/composables/useFormValidation.ts:73-76 | a required rule with message `required` on an empty value makes `validateField` return false with errors `["required"]` |
| FormValidation.OrderAndEmptyMessageExample | src/composables/useFormValidation.ts:70-82 | a failing rule followed by a passing one records only the first message; a rule returning `""` still makes the field invalid, with errors `[""]` |
| ApiConfig.Merge | src/composables/useApi.ts:64-71 | each top-level key comes from the call config when present and from the base otherwise; the headers merge key by key, the call's winning and the base's kept elsewhere |
| ApiConfig.MergeIdempotent | src/composables/useApi.ts:64-71 | merging the same call config again changes nothing |
| ApiConfig.BuildUrl | src/composables/useApi.ts:37-51 | the URL is returned unchanged exactly when the params are absent or empty; otherwise the query is appended to that URL |
| ApiConfig.RequestHeaders | src/composables/useApi.ts:84-90 | the request carries `Content-Type: application/json` unless the merged headers set that key, and every merged header with its merged value |
| ApiConfig.AttachedBody | src/composables/useApi.ts:93-98 | a body is attached exactly when it is truthy and the effective method (`GET` by default) is `POST`, `PUT` or `PATCH`, and it is then the configured body |
| ApiConfig.Prepare | src/composables/useApi.ts:64-98 | preparation fails with the "URL is required…" message exactly when the merged URL is missing or empty; otherwise the request has the built URL, the method defaulting to `GET`, the default-augmented headers and the body rule |
| ApiConfig.NoBodyWithoutBodyMethod | src/composables/useApi.ts:93-98 | a prepared `GET` or `DELETE` request never carries a body |
| ApiConfig.Shape | src/composables/useApi.ts:155-206 | the helpers force their own method, take the URL argument only when truthy and the body argument only when truthy, and keep everything else from their config argument |
| ApiConfig.Get | src/composables/useApi.ts:155-160 | `get` forces `GET` |
| ApiConfig.Post | src/composables/useApi.ts:162-173 | `post` forces `POST` |
| ApiConfig.Put | src/composables/useApi.ts:175-186 | `put` forces `PUT` |
| ApiConfig.Patch | src/composables/useApi.ts:188-199 | `patch` forces `PATCH` |
| ApiConfig.Del | src/composables/useApi.ts:201-206 | `del` forces `DELETE` |
| ApiConfig.HelperRequests | src/composables/useApi.ts:155-206 | requests from `get`/`del` carry their method and never a body; `post` with a non-empty URL and a truthy body sends exactly that URL, `POST`, the merged headers and that body, and so do `put`/`patch` for the body |
| ApiExecute.Initial | src/composables/useApi.ts:25-28 | a new instance has `data = null`, `error = null`, `idle` and `statusCode = null`, and satisfies the state invariant |
| ApiExecute.Decimal | src/composables/useApi.ts:107 | the status code in the fallback message is rendered as decimal digits only, never empty, with no leading zero |
| ApiExecute.DecimalRoundTrip | src/composables/useApi.ts:107 | the status code rendered in the fallback message reads back as the code |
| ApiExecute.HttpErrorMessage | src/composables/useApi.ts:106-114 | a non-2xx reply's message is the JSON `message` if truthy, else the JSON `error` if truthy, else `HTTP Error: <status> <statusText>`; it is never empty, given that the JSON fields are read as strings only |
| ApiExecute.Begin | src/composables/useApi.ts:59-60 | on entry `execute` clears the error and sets `loading`, keeping data and status code |
| ApiExecute.Complete | src/composables/useApi.ts:62-141 | the try/catch body ends in `success` (data and return value are the payload, no error) or `error` (no data, an error, return `null`); a missing URL gives the "URL is required…" error; network and URL errors keep the prior status code, and a reply sets it; a non-2xx reply gets the `HttpErrorMessage` error, a 2xx reply with a parsed body ends in `success` returning that payload, and a parse failure records the thrown error; the state invariant holds afterwards |
| ApiExecute.Execute | src/composables/useApi.ts:56-142 | `execute` ends in `success` (data and return value are the payload, no error) or `error` (no data, an error, return `null`), never `loading` or `idle`; a missing URL gives the "URL is required…" error; the status code is set exactly when a reply exists; HTTP, network and parse failures give the errors described above; the state invariant holds afterwards |
| ApiExecute.ConfigErrorSkipsNetwork | src/composables/useApi.ts:74-78 | with no usable URL the result does not depend on the network at all, and the status is `error` |
| ApiExecute.Reset | src/composables/useApi.ts:147-152 | `reset` gives `data = null`, `error = null`, `idle`, `statusCode = null` from any state |

## Left out

- `fetch`, `response.json()`, `response.text()` and the content-type check are network I/O and host parsing. They are the `transport` parameter and the `Fetched`/`Payload` datatypes. Whether a 2xx body is read as JSON or as text is part of the abstract payload.
- `new URL(...)`, `searchParams.append` and `window.location.origin` are the WHATWG URL standard's serialisation and a browser global. A request with parameters is the symbolic `WithQuery(url, params)`, and the serialised form and parameter order are not modelled. An invalid URL makes `new URL` throw, and that path is not modelled.
- `JSON.stringify` of the body is not modelled. Only whether a body is attached, and which one, is kept. Its failure on cyclic values is not modelled.
- Vue's `ref`, `reactive`, `computed` and `watch({deep: true})` are not modelled. The model does not decide when the watcher fires. `Revalidate` is what one firing does.
- Overlapping `execute` calls on one instance are an asynchronous last-writer-wins race. They are a concurrency concern and are not modelled.
- `isLoading`, `isSuccess`, `isError` and `isIdle` are plain predicates on `ApiState` with no contract of their own.
- The behaviour of user validators is opaque. A validator that throws is not modelled; the exception would escape `validateField`. A validator result other than `false` or a string counts as `Pass`, as the code's `=== false` / `typeof === 'string'` tests do.
- FormValidation.ValidateField requires the field to be declared. The TypeScript signature (`keyof T`, with a rule list for every key) guarantees this. An undeclared name at run time would throw a `TypeError` on `rules.length`, and that is not modelled.
- The `Object.keys` order of `validateForm`, `resetForm` and the watcher is not modelled. Each step changes only its own field, so the order cannot be observed. These are written as a loop over the set of declared names, or as a map comprehension.
- A call config key that is present with the value `undefined` overrides the base's value in the JavaScript spread. The model treats such a key as absent, except for `body`, where `Some(Undefined)` represents it.
- A truthy JSON `message` or `error` that is not a string is stringified by `new Error(...)`. The model reads these fields as strings only.
- `NaN` as a body is falsy. Numbers are integers in the model, so it is not represented.
- The default header is written as `Content-Type`. A merged header spelled differently, such as `content-type`, is a separate key in the model. How `fetch` combines header names case-insensitively is not modelled.
- ApiExecute.HttpErrorMessage: a truthy non-string JSON `message` or `error` (`{"message": 404}`) is stringified by the code and used; the model reads it as absent and falls through. The "never empty" guarantee holds only under this reading: `{"message": []}` is truthy and stringifies to `""`.
- ApiExecute.Execute: a 2xx body that parses to JSON `null` is recorded as `Some(v)`, so "`success` exactly when the return value is non-null" and "`success` has data" hold in the model but do not carry over to the code, where that reply returns `null` and leaves `data` null with status `success`. The same holds for ApiExecute.Complete.
