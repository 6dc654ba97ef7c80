# Namespace policy controller, modelled in Dafny

The controller watches a Kubernetes cluster for new Namespaces. For every
namespace that is not administrative it creates two objects in it:

- a LimitRange named `lr-auto-<namespace>` with one Container item whose
  default and default-request memory are both 128 MiB (134217728 bytes);
- a ResourceQuota named `rq-auto-<namespace>` whose hard limits allow zero
  `services.loadbalancers` and zero `services.nodeports`.

A namespace is administrative when its name matches `kube-.*`. The match is
unanchored, so this means the name contains `kube-` anywhere: `kube-system`
and `my-kube-app` are skipped, while `kube` and `kubelet-custom` are
provisioned. Each create call is made once. Its outcome is logged on its own
line, and a failure is neither retried nor propagated. In particular, a failed
LimitRange create does not stop the ResourceQuota create.

The project has three modules:

- `Matching` (matching.dfy) holds the administrative-name test. It defines a
  substring search and a literal reading of the unanchored regular-expression
  match (RE2, where `.` matches any character except a newline). It proves the
  two equal on every name.
- `Policy` (policy.dfy) holds the pure part of the handler: the generated
  names, the two request bodies, the list of create calls for a namespace
  (`Requests`) and the log lines for given call outcomes (`HandlerLog`).
- `Controller` (controller.dfy) holds the handler as an imperative method on a
  controller object. The handler's client records each create call. The
  cluster decides each call's outcome, so the client returns either outcome
  nondeterministically. The log sink records each line. The handler's
  postcondition says that the calls it issued are exactly
  `Requests(namespace)`, whatever the cluster answered. It also says that the
  lines it logged are exactly `HandlerLog` of those answers.

Two readings of the code are easy to get wrong. The model follows the code
in both:

- A prefix reading of `kube-.*` would be wrong. `regexp.MatchString` is
  unanchored, so the test is for a substring anywhere in the name.
- The two failure lines carry only the error text, not the namespace name.
  Only the success lines and the skip line name the namespace.

The doc comment on the controller type (pkg/controller/controller.go:18-19)
says it creates a RoleBinding. The code creates no RoleBinding. It creates the
LimitRange and the ResourceQuota described above, and the model follows that.

## Model

| member | source | states |
|---|---|---|
| `Matching.ContainsFrom` | pkg/controller/controller.go:74 | the scan over start positions reports true exactly when the pattern occurs at the start position or later |
| `Matching.IsAdmin` | pkg/controller/controller.go:74 | the classifier: a name is administrative exactly when `kube-` occurs in it at some position; `RegexMatchIsSubstring` ties this to the unanchored match of `kube-.*` |
| `Matching.RegexMatchIsSubstring` | pkg/controller/controller.go:74 | an unanchored match of `kube-.*` exists in some span of the name if and only if the name contains `kube-` (both directions, every name) |
| `Matching.AdminUnderExtension` | pkg/controller/controller.go:74 | a name containing `kube-` stays administrative whatever is prepended or appended, so the test is not a prefix test |
| `Matching.AdminExamples` | pkg/controller/controller.go:74 | `kube-system`, `kube-public` and `my-kube-app` are administrative |
| `Matching.NoKubeDash` | pkg/controller/controller.go:74 | a name in which no `k` is followed four places later by `-` is not administrative |
| `Matching.NonAdminExamples` | pkg/controller/controller.go:74 | `kube`, `kubelet-custom`, `default` and `team-a` are not administrative |
| `Policy.LimitRangeName` | pkg/controller/controller.go:76 | the LimitRange name is `lr-auto-` followed by the namespace name and nothing else |
| `Policy.ResourceQuotaName` | pkg/controller/controller.go:114 | the ResourceQuota name is `rq-auto-` followed by the namespace name and nothing else |
| `Policy.GeneratedNamesDistinct` | pkg/controller/controller.go:76-114 | each generated name determines its namespace (both directions), and a LimitRange name never equals a ResourceQuota name |
| `Policy.LimitRangeFor` | pkg/controller/controller.go:81-102 | the LimitRange is named `lr-auto-<ns>`, lives in `ns`, and holds exactly one Container item whose default and default request each map only `memory` to 134217728 |
| `Policy.QuotaFor` | pkg/controller/controller.go:116-131 | the ResourceQuota is named `rq-auto-<ns>`, lives in `ns`, and its hard list has exactly the keys `services.loadbalancers` and `services.nodeports`, both 0 |
| `Policy.BodiesIndependentOfName` | pkg/controller/controller.go:86-129 | the limit items and the hard list are the same for every namespace; only the metadata differs, and it differs for different namespaces |
| `Policy.Requests` | pkg/controller/controller.go:78-142 | the create calls for a namespace: none for an administrative name, two otherwise, each sent to the namespace itself; `AdminNamespaceSkipped` and `OtherNamespaceProvisioned` give their order and bodies |
| `Policy.LimitRangeReport` | pkg/controller/controller.go:106-110 | the line after the LimitRange create is a LimitRange line, and a failure line exactly when the create failed |
| `Policy.QuotaReport` | pkg/controller/controller.go:135-139 | the line after the ResourceQuota create is a ResourceQuota line, and a failure line exactly when the create failed |
| `Policy.HandlerLog` | pkg/controller/controller.go:106-143 | one line per create attempt, or one line for an administrative name, and the skip line exactly for administrative names |
| `Policy.AdminNamespaceSkipped` | pkg/controller/controller.go:142-144 | an administrative namespace gets no create call and exactly one skip line |
| `Policy.OtherNamespaceProvisioned` | pkg/controller/controller.go:104-133 | any other namespace gets exactly two create calls, LimitRange first and ResourceQuota second, each sent to that namespace and each naming an object of that namespace |
| `Policy.LogReportsEachAttempt` | pkg/controller/controller.go:104-143 | there is one log line per create attempt (one skip line for an administrative namespace); a line is a failure line exactly when its attempt failed; a skip line appears exactly when the namespace is administrative |
| `Policy.ReportsCarryDetails` | pkg/controller/controller.go:106-139 | a failure line carries the error text of the failed call, and a success line carries the namespace name |
| `Controller.ApiClient.CreateLimitRange` | pkg/controller/controller.go:104 | the call is recorded once with its target namespace, body and outcome, and nothing else is recorded |
| `Controller.ApiClient.CreateResourceQuota` | pkg/controller/controller.go:133 | the call is recorded once with its target namespace, body and outcome, and nothing else is recorded |
| `Controller.LogSink.Println` | pkg/controller/controller.go:107 | `log.Println` appends exactly the given line to the process log and changes nothing else |
| `Controller.NamespaceController.CreateCustomRules` | pkg/controller/controller.go:69-145 | earlier calls are kept; the calls appended are exactly `Requests(ns)`, in order and once each, whatever the outcomes; the log gains exactly `HandlerLog(ns, outcomes)` for the outcomes returned |

## Left out

- `Run` (pkg/controller/controller.go:26-38) is left out. It starts the informer goroutine, waits on the stop channel and signals a `sync.WaitGroup`. It holds no policy, and Dafny has no model of goroutines or channels.
- `NewNamespaceController` (pkg/controller/controller.go:41-67) is left out. It wires client-go's shared informer, its list/watch functions, the 3-minute resync and the namespace indexer. That library is not part of this model. The model takes the namespace name that the informer would deliver as the handler's input.
- The type assertion `obj.(*v1.Namespace)` (pkg/controller/controller.go:71) is left out. It would panic on an object of another type. The handler here receives the namespace name directly.
- The cluster API is not modelled beyond its answers. Whether a create succeeds (an existing object of that name, a refusal, a network error) is a free choice of the client.
- `TypeMeta` (kind and API version) is not part of the request bodies. Neither is anything of `ObjectMeta` beyond the name and namespace.
- The spec fields that the source leaves unset are not part of the request bodies: `Max`, `Min` and `MaxLimitRequestRatio` of a LimitRange item (pkg/controller/controller.go:92-100), and `Scopes` and `ScopeSelector` of a ResourceQuota (pkg/controller/controller.go:125-129). So the model cannot state that they stay empty.
- `resource.Quantity` and its BinarySI format are plain integers here: bytes for memory and counts for object kinds.
- The log text is modelled by the kind of line and the value it interpolates (the namespace name or the error text), not by the exact formatted string.
- The order of log lines relative to create calls is not captured. Calls and log lines are two separate sequences. In the source, the LimitRange line is logged before the ResourceQuota create is issued (pkg/controller/controller.go:106-133). The model states the order within each sequence, not across them.
- The general regular-expression engine is not modelled. Only the one pattern the controller uses, `kube-.*`, is read literally.
