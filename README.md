# Multus admission controller helpers: a Dafny model

This project models the small decision layer of the cluster network
operator's Multus admission controller package
(`pkg/network/multus_admission_controller.go`):

- **Not-found classification** (`StatusErrors`). An error is a datatype with
  an optional API status (reason, 32-bit code) and an optional wrapped cause;
  a nil Go error is `None`. `ReasonAndCodeForError` looks for the first error
  in the wrap chain, starting with the error itself, that carries a status, and
  falls back to `(Unknown, 0)`. `IsNotFound` answers true when that reason is
  `NotFound` or that code is 404 (HTTP 404 Not Found, section 15.5.5 of
  RFC 9110). The wrap chain is made explicit as `Chain`. The search is proved
  to return the status of the first carrier in that chain. Wrapping any number
  of times is proved to keep the classification.
- **API resource registration** (`Discovery`). The discovery service is a
  function from a group/version string to a response: an optional resource
  list plus an optional error. `IsAPIResourceRegistered` keeps the source's
  loop with its early return. `IsSccSupported` asks it about
  `securitycontextconstraints` in `security.openshift.io/v1`. Both are proved
  against `Reports`. Under `Reports`, an error that is not not-found comes back
  unchanged with false. Otherwise there is no error, and the answer is true
  exactly when a returned list holds an entry whose plural or singular name
  equals the requested name.
- **Namespace list joining** (`Namespaces`, `CommaLists`).
  `GetOpenshiftNamespaces` collects the listed names in a loop and joins them
  with `","`. A failed listing gives `""` and the listing error wrapped with
  the source's message. `Join` is proved to be undone by `Split` when the list
  is non-empty and no name contains a comma.
- **Fill-once cache** (`Namespaces.IgnoredNamespacesCache`). The package-level
  `ignoredNamespaces` string is a field of a class. A render fetches only while
  the field is `""`. A failed fetch stores `""`, and so does an empty listing,
  so the next render fetches again.

The reason `Unknown` is the empty string. That is the value the Kubernetes API
machinery gives `StatusReasonUnknown`, which is not part of this model.
`apierrors.IsNotFound`, the library classifier used inside
`isAPIResourceRegistered`, is not part of this model; it is assumed to follow
the same rule as this file's own `IsNotFound`, which stands in for it.

## Model

| member | source | states |
|---|---|---|
| `StatusErrors.Wrap` | pkg/network/multus_admission_controller.go:45 | wrapping nil gives nil; a wrapped error carries no status of its own and unwraps to the original error |
| `StatusErrors.Chain` | pkg/network/multus_admission_controller.go:162 | the chain that errors.As walks: it starts at the error itself, each member's cause is the next member, and the last member has no cause |
| `StatusErrors.FirstStatus` | pkg/network/multus_admission_controller.go:162 | the type assertion then errors.As search: an error that carries a status gives its own status, and an error with nothing to unwrap gives only its own status (or none); its full contract is FirstStatusIsFirstInChain |
| `StatusErrors.FirstStatusIsFirstInChain` | pkg/network/multus_admission_controller.go:162 | the search finds no status exactly when no chain member carries one; otherwise it returns the status of the first chain member that carries one |
| `StatusErrors.ReasonAndCodeForError` | pkg/network/multus_admission_controller.go:161-166 | a nil error, or a chain where no member carries a status, gives (Unknown, 0); otherwise it gives the reason and code of the first status carrier in the chain |
| `StatusErrors.IsNotFound` | pkg/network/multus_admission_controller.go:151-159 | false for nil; for a non-nil error, true exactly when the first status carrier in its chain has reason NotFound or code 404 |
| `StatusErrors.WrapAllKeepsClassification` | pkg/network/multus_admission_controller.go:151-152 | wrapping an error any number of times leaves its reason, code and not-found classification unchanged |
| `StatusErrors.OuterStatusShadows` | pkg/network/multus_admission_controller.go:162-163 | only the first carrier decides: an outer status that is not not-found hides a not-found status further down the chain |
| `StatusErrors.ClassifierExamples` | pkg/network/multus_admission_controller.go:153-165 | nil is false; (NotFound, 0) is true; (Unknown, 404) is true; (Forbidden, 403) is false; a status-less error is false; a not-found error wrapped twice is true |
| `Discovery.GroupVersionString` | pkg/network/multus_admission_controller.go:135 | the group/version string the discovery call is made with: it ends with the version, is just the version for the empty group, and otherwise starts with the group followed by "/" |
| `Discovery.IsAPIResourceRegistered` | pkg/network/multus_admission_controller.go:133-149 | a discovery error that is not not-found is returned unchanged with false; otherwise the error is nil and the result is true iff a returned list holds an entry whose Name or SingularName equals the requested name |
| `Discovery.IsSccSupported` | pkg/network/multus_admission_controller.go:123-131 | gives exactly the registration answer, errors included, for securitycontextconstraints in security.openshift.io/v1 |
| `Discovery.MissingGroupVersionIsNotRegistered` | pkg/network/multus_admission_controller.go:135-148 | any not-found discovery error (direct or wrapped, by reason or by code) with no list gives (false, nil) |
| `Discovery.ForbiddenIsPassedBack` | pkg/network/multus_admission_controller.go:136-138 | a Forbidden/403 discovery error is returned unchanged with false, even when a list came with it |
| `CommaLists.Join` | pkg/network/multus_admission_controller.go:51 | strings.Join with ",": no parts give "", the first part starts the result, and with two or more parts a "," follows the first part and the second part follows it; that the parts are kept in order is SplitJoin |
| `CommaLists.Split` | pkg/network/multus_admission_controller.go:51 | the inverse used to read a joined list back always yields at least one piece |
| `CommaLists.SplitJoin` | pkg/network/multus_admission_controller.go:51 | splitting a joined non-empty list of comma-free parts gives the list back, same parts in the same order |
| `CommaLists.JoinEmptyIff` | pkg/network/multus_admission_controller.go:51 | a join is "" exactly when there are no parts or a single empty part |
| `Namespaces.Names` | pkg/network/multus_admission_controller.go:48-50 | one name per listed namespace, in list order |
| `Namespaces.GetOpenshiftNamespaces` | pkg/network/multus_admission_controller.go:36-52 | a failed listing gives "" and the error wrapped with the fixed message; a successful one gives the names joined with "," in list order and no error |
| `Namespaces.ListFailureKeepsClassification` | pkg/network/multus_admission_controller.go:44-46 | the wrapped listing error is not-found exactly when the listing error was |
| `Namespaces.JoinedNamesReadBack` | pkg/network/multus_admission_controller.go:48-51 | the joined names read back as the listed names, in order, when at least one comma-free name was listed |
| `Namespaces.FilledUnlessNothingListed` | pkg/network/multus_admission_controller.go:62-67 | when every namespace has a name, a successful fetch leaves the cache empty exactly when nothing was listed |
| `Namespaces.IgnoredNamespacesCache.constructor` | pkg/network/multus_admission_controller.go:32-34 | the cache starts as the empty string |
| `Namespaces.IgnoredNamespacesCache.ResolveIgnoredNamespace` | pkg/network/multus_admission_controller.go:62-73 | it fetches exactly when the cache is ""; otherwise the cache is unchanged; after a fetch the cache holds the joined names, or "" if the fetch failed; the template value is the cached string |

## Left out

- The Kubernetes client calls are inputs, not operations. These are the namespace list (lines 41-43), the ServerResourcesForGroupVersion discovery call (line 135), and the ConfigMap and HostedControlPlane gets (lines 94-95, 107). The label selector of the namespace list belongs to that call and is not modelled.
- Filling the template data in renderMultusAdmissonControllerConfig is not modelled. That covers the environment variables, replicas, the HyperShift values, the service CA check and its base64 encoding (lines 70-113). Only the IgnoredNamespace value (line 73) is modelled. These are configuration copies with no stated invariant.
- render.RenderDir and the manifest templates (lines 115-120) are a foreign library and files on disk; they are not part of this model.
- The klog warning on a failed fetch (line 65) is output only. The model drops the error, as the source does after logging it.
- The race on the unsynchronised package variable `ignoredNamespaces` is not modelled. Only the sequential fill-when-empty rule is.
- StatusErrors.ReasonAndCodeForError: the search follows one cause per error. It does not model Go's multi-error trees (`Unwrap() []error`), custom `As` methods, or typed-nil errors that satisfy the status interface.
- StatusErrors.Wrap: errors.Wrap adds two status-less layers (a message and a stack trace); the model adds one. No statement here depends on how many layers are added. Error message text and stack traces are not modelled.
- Discovery.IsAPIResourceRegistered: the library classifier apierrors.IsNotFound is assumed to follow the package's own IsNotFound rule (reason NotFound or code 404). Library versions that test the 404 code only when the reason is not one they know would pass back a discovery error with status (Forbidden, 404), which this model treats as not-found and swallows.
- The `fmt.Errorf` errors of the HyperShift branch (lines 97, 101, 109) are not modelled. They belong to the template-data code left out above.
