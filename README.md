# Http lifecycle-notification plugin (monexec), modelled in Dafny

monexec supervises services. Its `http` plugin fires a webhook when a service
the plugin listens to is spawned or stops. This project models the part of
`plugins/adp_http.go` that runs before any network traffic:

- **Merging declarations.** `MergeFrom` folds a sibling declaration into the
  receiver. `URL`, `Method` and `Timeout` follow one rule: an empty receiver
  adopts the other side's value, and the two must then be equal. The checks
  run in that order and stop at the first conflict. After that, both template
  paths are resolved and the template settings are merged. Only when all of
  this succeeds are the headers copied in (the source wins on a shared key) and
  the services appended.
- **Preparing.** `Prepare` sets the method to `"POST"` when it is empty and the
  timeout to 20 s when it is zero. It also builds the label lookup set from the
  services.
- **The lifecycle gate.** `Spawned` and `Stopped` do nothing for a label that
  is not in the lookup set. For a listened label they render the body with
  event kind `"spawned"` and no error, or `"stopped"` and the stop error. A
  render error suppresses the send. Otherwise exactly one send is attempted
  with the rendered content.

Files:

- `base.dfy`: Go's nil-able values (`Option`) and `time.Duration`, a signed
  64-bit count of nanoseconds.
- `templates.dfy`: the embedded template sub-configuration (`withTemplate`).
  Its code is not part of this model. Its three operations, `resolvePath`,
  `MergeFrom` and `renderDefaultParams`, are total functions the caller
  supplies in a `TemplateOps` record. Every property below holds for every
  choice of them, including ones that fail.
- `adp_http.dfy`: the declaration value `Config` and the functions that
  specify the operations on it (`Merge`, `Prepared`, `MakeSet`, `Gate`). The
  method `CopyHeaders` is the header-copy loop. `class Http` holds the
  plugin's fields and updates them in place, and each of its methods is proved
  equal to the matching function.
- `properties.dfy`: lemmas that relate several operations, and concrete
  cases for the header-merge direction and the label filter.

## Model

| member | source | states |
|---|---|---|
| `HttpPlugin.Merge` | plugins/adp_http.go:97-130 | The error returned is the first conflict, in the order URL, method, timeout, template merge. Each singular-field conflict holds exactly when the receiver's value is non-empty and differs from the argument's, so an empty argument against a set receiver is a conflict. A field that passed its check equals the argument's value, and fields checked later are untouched. On any error, headers and services are unchanged. On success, the header keys are the union, a key of the argument maps to its value, and a key only the receiver has keeps its value. On success, services are the receiver's followed by the argument's. A `TemplateError` carries the template merge's own error unchanged. Past the singular checks, the argument's template settings are whatever the template merge leaves in them, and none of its other fields change. The lookup set and the work directory never change. |
| `HttpPlugin.CopyHeaders` | plugins/adp_http.go:122-127 | Copying the argument's headers into the receiver's gives the union of the keys, with the argument's value on every key it has and the old value on the others, whatever order the keys are visited in. |
| `HttpPlugin.MakeSet` | plugins/adp_http.go:75 | The lookup set holds exactly the labels listed in the services. |
| `HttpPlugin.Prepared` | plugins/adp_http.go:74-84 | The method becomes `"POST"` if empty and is otherwise kept. The timeout becomes 20 000 000 000 ns if zero and is otherwise kept. The lookup set holds exactly the services' labels. Nothing else changes. |
| `HttpPlugin.Gate` | plugins/adp_http.go:63-95 | An event is a no-op exactly when its label is not in the lookup set. It is a render failure exactly when the label is listened to and rendering fails, and the failure carries the render error. A send carries the event that was rendered and the body and parameters that rendering produced. |
| `HttpPlugin.Http.constructor` | plugins/adp_http.go:18-28 | A parsed declaration holds the parsed fields, with an empty lookup set, as before `Prepare`. |
| `HttpPlugin.Http.MergeFrom` | plugins/adp_http.go:97-130 | The receiver's and the argument's new states and the returned error are exactly those `Merge` gives for their old states. |
| `HttpPlugin.Http.Prepare` | plugins/adp_http.go:74-84 | The new state is `Prepared` of the old one, and the returned error is always nil. |
| `HttpPlugin.Http.Spawned` | plugins/adp_http.go:63-72 | The outcome is the gate applied to the current state with kind `"spawned"`, the given id and label, and no error. A send therefore carries kind `"spawned"` and a nil error. |
| `HttpPlugin.Http.Stopped` | plugins/adp_http.go:86-95 | The outcome is the gate applied to the current state with kind `"stopped"` and the given id, label and error. A send carries kind `"stopped"` and forwards the stop error unchanged. |
| `HttpPluginProperties.PrepareIdempotent` | plugins/adp_http.go:74-84 | Preparing twice gives the same declaration as preparing once. |
| `HttpPluginProperties.MakeSetConcat` | plugins/adp_http.go:128 | The lookup set of appended services is the union of the two lookup sets. |
| `HttpPluginProperties.MergedHookListensToBoth` | plugins/adp_http.go:128 | After a successful merge and then `Prepare`, the lookup set is the union of both sides' labels, and the gate fires exactly for a label either side listed. |
| `HttpPluginProperties.PrepareBeforeMergeIsStale` | plugins/adp_http.go:75 | If `Prepare` runs before a merge, a label only the merged-in declaration lists stays a no-op, because the merge does not rebuild the lookup set. |
| `HttpPluginProperties.AgreeingDeclarationsMerge` | plugins/adp_http.go:97-130 | Declarations with equal URL, method and timeout merge without error when the template merge succeeds. All services and all header keys of both sides are in the result. |
| `HttpPluginProperties.EmptySourceUrlConflicts` | plugins/adp_http.go:99-104 | A receiver with a URL rejects an argument with an empty URL as "different urls". In the other direction the URL check passes. |
| `HttpPluginProperties.HeadersSourceWins` | plugins/adp_http.go:122-127 | Merging `{a: "1"}` into `{a: "0", b: "2"}` gives `{a: "1", b: "2"}`. Merging the other way gives `{a: "0", b: "2"}`, so the header merge does not commute. |
| `HttpPluginProperties.ListensOnlyToConfiguredLabels` | plugins/adp_http.go:63-95 | A prepared hook whose services are `["web"]` does nothing for a `"db"` event. For a `"web"` spawn it sends exactly when the body renders. |

The code differs from what a reader might expect in these points:

- The services are a list. Duplicates survive a merge. Only the lookup set removes them.
- A singular field set on the receiver but empty on the argument is a conflict. Only an empty receiver adopts a value.
- No check requires the URL to be non-empty after a merge. Two declarations with empty URLs merge without error.
- The request built in `renderAndSend` (plugins/adp_http.go:45-54) does not attach the configured headers. The headers are merged but never sent.

## Left out

- The body of `renderAndSend` (plugins/adp_http.go:30-61) is left out: URL templating, building the HTTP request, the timeout context, the HTTP client and draining the response. These are network I/O, wall-clock time and foreign libraries. A `Send` outcome stands for "one send attempted" with the rendered body and parameters. It does not record the URL, method or timeout the request would use.
- Template internals are left out. `withTemplate`, `resolvePath`, `withTemplate.MergeFrom` and `renderDefaultParams` are defined outside this file. They are parameters (`TemplateOps`), and the settings are an opaque value.
- `withTemplate.MergeFrom` receives the argument's settings by pointer. The model lets it change both sides' settings, and nothing else of either declaration.
- `renderDefaultParams` is modelled as a function of the settings and the event alone. The template it renders may be read from a file under the resolved path, so a file that changes between two events is not modelled.
- Logging is left out: the `log` field, the logger created by `Prepare`, and every `Println`. It has no behavioural effect.
- `init`/`registerPlugin` (plugins/adp_http.go:132-136) are left out. They are a global registry side effect. The constructor takes the parsed declaration, including its work directory, as a value.
- The `other.(*Http)` type assertion (plugins/adp_http.go:98) is left out. The argument is always an `Http`, so the panic on a wrong type is not modelled.
- HttpPlugin.Http.MergeFrom: requires the argument to be a different object from the receiver. Merging a declaration into itself is not modelled.
- Go maps are shared references. The model copies values, so two declarations sharing one headers map are not modelled.
- A nil `Headers` map and an empty one are not distinguished. Reading or ranging over a nil map behaves like an empty map, so the allocation at plugins/adp_http.go:122-124 has no observable effect here.
- `makeSet` is defined outside this file. `MakeSet` models it as the set of listed labels, and `servicesSet[label]` as membership in that set.
- A `container.Runnable` is reduced to its label and a `container.ID` to its string. An error is reduced to its message, with nil as `None`.
