# fluxcli resource layer and resource table, in Dafny

This project models the two hard parts of the fluxcli terminal dashboard for
FluxCD:

- **The resource synchronisation layer** (`pkg/k8s/resources.go`), module `K8s`.
  It lists GitRepository, HelmRepository, Kustomization and HelmRelease objects
  and normalises them into one `Resource` entity. Its conditions are copied
  verbatim, and `Ready`/`Status`/`Message` are derived from them by two rules:
  the last "Ready" condition for three kinds, and the last condition of any
  type for HelmRepository. A failed list whose error says the custom resource
  definition is missing yields an empty list. HelmRepository falls back from
  v1beta2 to v1 exactly once. Suspend, resume and reconcile are kind
  dispatch, Get, one field set, then Update. The event filter keeps the
  last hour's events about Flux objects.
- **The resource table** (`pkg/ui/resource_view.go`), module `Ui`. It is the
  `ResourceView` class with its fields (resources, kind, width, height and the
  table widget it owns), the key dispatcher, the setters that rebuild columns
  and rows, the row formatter, the column layout and `formatAge`.

`Base` holds the shared pieces: Option/Result, Go's `strings.Contains` (with
its meaning as "some window equals the needle"), `%d` printing (with a
read-back round trip) and Go's truncating division.

How the foreign parts are represented:

- A list call is represented by the answer the API server gives it
  (`ListOutcome`: the items, or an `ApiError` carrying `IsNotFound` and the
  error text). The list methods also return the list calls they issued
  (API version, kind, namespace scope). This makes "never retried" and
  "exactly one v1 list" part of their contracts.
- Get and Update go to `Cluster`, a map-backed object store with a call log.
  A server failure (lost connection, conflict on a stale resource version)
  is a fault passed in; a missing object answers NotFound.
- The current time, the one-hour cutoff's base and the reconcile timestamp
  string are parameters. Durations are integer nanoseconds.
- The bubbles table widget is the value `Ui.Table`: cursor, columns, rows and
  height. Its cursor behaviour is an assumption, not verified: MoveDown and
  MoveUp clamp to `[0, len(rows) - 1]`, GotoTop is `MoveUp(cursor)` and
  GotoBottom is `MoveDown(len(rows))`. The down/up keys move one row and
  pgdown/pgup move by the height; left/right and other keys do nothing.
  SetRows, SetColumns and SetHeight keep the cursor.

Where the code and the system's design description disagree, the model
follows the code:

- `Ready` comes from the *last* condition of type "Ready". If there are
  several, earlier ones are ignored.
- The HelmRepository rule (last condition of any type, `Status` = its status
  string) applies on the v1beta2 path as well as the v1 path.
- The flexible-width pass in `updateTableColumns` writes to a copy of each
  column, so the installed widths never depend on the view's width. There is
  no floor-of-20 resize.
- `H` and `L` go to the absolute first and last row. `M` steps down
  `len(resources)/2` rows from the *current* cursor, not from the top.
- A new view's Message column is 40 wide. Every rebuild installs 35.

## Model

| member | source | states |
|---|---|---|
| `Base.Contains` | pkg/k8s/resources.go:88-91 | the substring test holds exactly when some window of the text equals the phrase |
| `K8s.ListScope` | pkg/k8s/resources.go:72-78 | the list is namespace-scoped iff the namespace is neither "" nor "<nil>", and then scoped to that namespace |
| `K8s.CRDMissingCharacterisation` | pkg/k8s/resources.go:87-91 | an error is "CRD missing" iff it is NotFound or its text contains "no matches for kind" or "could not find the requested resource"; the third phrase and the emptiness guard add nothing |
| `K8s.ReadyReadinessFromLastReady` | pkg/k8s/resources.go:113-129 | with a "Ready" condition, Ready/Status/Message come from the last one: Ready iff its status is "True", Status is its Reason, Message its Message |
| `K8s.ReadyReadinessWithoutReady` | pkg/k8s/resources.go:113-129 | with no "Ready" condition, Ready is false and Status/Message are empty |
| `K8s.ReadyIffLastReadyIsTrue` | pkg/k8s/resources.go:123-127 | Ready holds iff the last "Ready" condition has status "True" (so "Ready"/"Unknown" and an absent "Ready" both give false) |
| `K8s.LastConditionReadiness` | pkg/k8s/resources.go:273-278 | HelmRepository: Ready/Status/Message come from the last condition of any type, with Status its status string; zero conditions give false and empty strings |
| `K8s.LastConditionDecides` | pkg/k8s/resources.go:231-236 | under the HelmRepository rule, every condition but the last is irrelevant, and so is the last one's type |
| `K8s.RulesAgreeWhenLastIsReady` | pkg/k8s/resources.go:273-278 | when the last condition is "Ready", the HelmRepository rule and the Ready rule agree on Ready and Message; Status is the status string under one and the reason under the other |
| `K8s.ReadinessRulesDiffer` | pkg/k8s/resources.go:231-236 | the HelmRepository rule and the Ready rule give different Status and different Ready on concrete condition lists |
| `K8s.ParseReadyConditions` | pkg/k8s/resources.go:113-129 | the condition loop copies every condition one-to-one in order and ends with the last-Ready readiness |
| `K8s.ParseLastCondition` | pkg/k8s/resources.go:260-278 | the HelmRepository condition handling copies every condition in order and ends with the last-condition readiness |
| `K8s.ListGitRepositories` | pkg/k8s/resources.go:70-139 | one list call, never retried; CRD missing gives an empty list and no error; any other failure gives the wrapped error; success gives one Resource per item in order, mapped by the Ready rule |
| `K8s.ConvertHelmRepositories` | pkg/k8s/resources.go:247-283 | one HelmRepository Resource per item, in order, mapped by the last-condition rule |
| `K8s.ListHelmRepositories` | pkg/k8s/resources.go:142-284 | v1beta2 first. Only a CRD-missing failure leads to exactly one v1 list; then a CRD-missing v1 failure gives an empty list, another v1 failure an error naming both. A non-CRD v1beta2 failure returns its error without a v1 call. Either version's items map by the last-condition rule |
| `K8s.ListKustomizations` | pkg/k8s/resources.go:287-360 | as ListGitRepositories, with Source taken from a GitRepository sourceRef and Path and revision copied |
| `K8s.ListHelmReleases` | pkg/k8s/resources.go:363-437 | as ListGitRepositories, with Source taken from a HelmRepository sourceRef and Chart/Version copied |
| `K8s.Object.WithSuspend` | pkg/k8s/resources.go:471-485 | setting Spec.Suspend gives the requested flag and keeps kind and metadata |
| `K8s.WithSuspendRestores` | pkg/k8s/resources.go:471-485 | setting the flag back to its old value restores the object, so nothing else was changed |
| `K8s.Object.WithAnnotations` | pkg/k8s/resources.go:517-522 | replacing the annotations keeps the kind, the suspend flag and the rest of the metadata |
| `K8s.WithAnnotationsRestores` | pkg/k8s/resources.go:517-522 | putting the old annotations back restores the object, so no spec or status field was changed |
| `K8s.Cluster.Get` | pkg/k8s/resources.go:466-469 | a Get is logged and returns the stored object, NotFound for a missing key, or the server's failure |
| `K8s.Cluster.Update` | pkg/k8s/resources.go:487-489 | an Update is logged; on success it replaces exactly the object under its own key, and on failure it changes nothing |
| `K8s.UpdateSuspendStatus` | pkg/k8s/resources.go:450-492 | an unsupported kind errors before any Get; a Get failure errors with no Update; otherwise exactly one Get and one Update, and only Spec.Suspend of that object changes (nothing on an Update failure) |
| `K8s.SuspendResource` | pkg/k8s/resources.go:440-442 | succeeds iff the kind is known, the Get succeeds and the Update succeeds; then the object is suspended and nothing else changed |
| `K8s.ResumeResource` | pkg/k8s/resources.go:445-447 | as SuspendResource, leaving the object unsuspended |
| `K8s.ReconcileResource` | pkg/k8s/resources.go:495-529 | same dispatch and failure order as the suspend update; on success only the requestedAt annotation of that object is set |
| `K8s.ReconcileKeepsOtherAnnotations` | pkg/k8s/resources.go:517-522 | after the reconcile edit the requestedAt annotation holds the given time and every other annotation, the flag and the key are kept |
| `K8s.FluxEvents` | pkg/k8s/resources.go:544-560 | an event is kept iff one of its timestamps is not before the cutoff and its involved apiVersion is one of the five Flux versions |
| `K8s.FluxEventsAppend` | pkg/k8s/resources.go:544-560 | filtering distributes over concatenation, so kept events keep input order |
| `K8s.GetEvents` | pkg/k8s/resources.go:532-563 | a list failure is wrapped; otherwise the result is the filter of the listed events against now minus one hour |
| `Ui.StepDownCursor` | pkg/ui/resource_view.go:126-133 | from any cursor at or above -1, k >= 1 single down-steps land on min(cursor + k, last row) |
| `Ui.KeyBindings` | pkg/ui/resource_view.go:71-139 | home/g/H jump to the top, end/G/L to the bottom, M to the middle; j/k, ctrl+d/ctrl+u stand for down/up and page keys; enter, space and other keys do nothing |
| `Ui.ResourceView.Update` | pkg/ui/resource_view.go:65-144 | only the cursor can change. Jumps are no-ops on an empty list. Top gives cursor 0 and bottom gives the last row. For two or more resources, M from cursor c (-1 included) gives min(c + len/2, last). Forwarded keys return the widget's command; everything else returns none |
| `Ui.Truncate` | pkg/ui/resource_view.go:216-227 | a string within the limit is unchanged; a longer one becomes its first `keep` characters plus the ellipsis and fits the limit |
| `Ui.StatusCell` | pkg/ui/resource_view.go:207-218 | empty -> "Unknown", suspended -> "Suspended", longer than 12 -> first 9 plus the ellipsis; 12 characters stay unchanged; the cell is never empty |
| `Ui.MessageCell` | pkg/ui/resource_view.go:224-227 | longer than 35 -> first 32 plus the ellipsis, otherwise unchanged |
| `Ui.FormatAge` | pkg/ui/resource_view.go:312-322 | the unit letter is `s` exactly below 60 s (negative ages included), `m` from 60 s to below 3600 s, `h` from 3600 s to below 86400 s, and `d` from 86400 s on |
| `Ui.FormatAgeMeaning` | pkg/ui/resource_view.go:312-322 | for a non-negative age, the printed count read back, times the unit its letter names, brackets the age: the count is the age truncated to whole units |
| `Ui.FormatAgeExamples` | pkg/ui/resource_view.go:312-322 | 45 s -> "45s", 90 s -> "1m", 3700 s -> "1h", 90000 s -> "1d", and -1.5 s -> "-1s" |
| `Ui.RowMatchesColumns` | pkg/ui/resource_view.go:193-270 | a row has one cell per column (6 for the four kinds, 5 otherwise). Ready renders "True"/"False". The name cell is "namespace/name" exactly when namespaces are shown and the namespace is non-empty, and the bare name otherwise. The last cell is the URL, Source plus "/"+Path iff Path is set, or Chart plus ":"+Version iff Version is set |
| `Ui.ResourceView.constructor` | pkg/ui/resource_view.go:25-57 | a new view is an empty GitRepository view, table height 10, Message column 40 |
| `Ui.ResourceView.View` | pkg/ui/resource_view.go:147-156 | the "No <kind> resources found" placeholder exactly when there are no resources |
| `Ui.ResourceView.SetResources` | pkg/ui/resource_view.go:159-163 | replaces the resources wholesale; columns become the layout and row i formats resource i; size and cursor kept |
| `Ui.ResourceView.SetResourceType` | pkg/ui/resource_view.go:166-170 | replaces the kind; columns and rows rebuilt for it; resources and cursor kept |
| `Ui.ResourceView.SetSize` | pkg/ui/resource_view.go:173-178 | sets width and height, table height to height - 2 and the column layout; resources and rows untouched |
| `Ui.ResourceView.UpdateTable` | pkg/ui/resource_view.go:181-190 | the rows become one formatted row per resource, in order |
| `Ui.ResourceView.UpdateTableColumns` | pkg/ui/resource_view.go:251-300 | the installed columns are the default layout (Message 35, URL 40, Source/Path 30, Chart 25, Ready 8, Age 10, configured Name/Status) whatever the width |
| `Ui.ResourceView.GetSelectedResource` | pkg/ui/resource_view.go:303-309 | the resource under the cursor iff 0 <= cursor < len(resources), none otherwise |

## Left out

- Kubernetes client internals (controller-runtime List/Get/Update and the core Events list) are foreign I/O. They appear as answers and faults passed in, and as the `Cluster` store.
- The `recover` mechanism of `safeList` is left out. A recovered panic is one more failed list answer: not NotFound, with text "panic in kubernetes client list operation: " followed by the panic value, and the List* contracts cover it like any other failure.
- The nil client and nil context guards of `ListHelmRepositories` have no counterpart: the model has no nil handles.
- Wall-clock reads are parameters. `time.Since`/`time.Now` become one `now` per list call; the source reads the clock twice per item (`time.Since` for the age, `time.Now` for the last update). The RFC 3339 reconcile time is the string `requestedAt`.
- Float conversions in `formatAge` are modelled with integer division; rounding of very large durations in float64 is not modelled.
- FormatAgeMeaning: stated for non-negative ages only; a negative age (seconds tier, truncated toward zero) is covered by an example in FormatAgeExamples.
- Go's byte lengths are modelled as character counts (ASCII input assumed), and the ellipsis is one character.
- The bubbles table internals (viewport paging, rendering, focus) are not modelled, nor lipgloss styling. The cursor behaviour the view relies on is the assumption stated above.
- The `tea.Cmd` a forwarded key produces is opaque (`WidgetCmd`); `Init` (always nil) is not modelled.
- nil and empty slices or maps are not distinguished (a nil annotations map is an empty map).
- Condition `ObservedGeneration` is dropped on copy, as in the source. Timestamps are integer nanoseconds.
- The v1beta2 and v1 HelmRepository API types are one datatype; the fields read are the same.
- The namespace argument of `GetEvents` only selects the list call, so it is folded into the answer passed in.
- Errors are plain strings: the `%w` wrap chain is lost, so a caller cannot apply `errors.Is` or `apierrors.IsNotFound` to a returned error; only its text is modelled.
- The view's configuration is a shared pointer in the source, read again at every rebuild; the model holds it as a constant field, so a configuration changed elsewhere after construction is not modelled.
- Background fetch dispatch, cancellation and concurrency do not occur in these files.
