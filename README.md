# Admission-decision core of the member operator's validating webhook

The webhook guards the creation of two custom resources, `CheCluster` and
`KubernetesImagePuller`. For each admission review it receives, it decides whether the
requesting user may create the resource. The rule is first-match-wins:

1. An undecodable body is denied. The denial message carries the HTML-escaped body.
2. A user whose name starts with `system:` is allowed, and the user directory is not asked.
3. A user the directory cannot return is denied (fail-closed).
4. A user whose record carries the provider label with the toolchain's value is denied as
   a sandbox user. The message names the resource kind.
5. Everybody else is allowed.

The answer is the admission review itself, marshalled with a response attached. The
response echoes the request UID and carries the verdict. A denial also carries a status
message. When marshalling fails, a fixed plain-text body is sent instead. The HTTP
adapters answer 500 with a fixed text when the request body cannot be read. Otherwise they
answer 200 with the rule's output, whether it allows or denies.

Files:

- `admission.dfy` (module `Admission`): the review, request, response and status values;
  the decode and lookup outcomes; the payload written back; the supplied library calls
  (`Runtime`); the label and prefix helpers; and the substring predicate used for messages.
- `decision.dfy` (module `Decision`): `validate.go`. It holds the classification of the
  requesting user, the denial messages, both response builders, the shared rule
  `AllowIfNonSandboxUser`, and the lemmas about the rule.
- `checluster_request.dfy` (module `CheClusterRequest`): the CheCluster validator, with its
  own copy of the rule and its HTTP handler.
- `k8simagepuller_request.dfy` (module `K8sImagePullerRequest`): the image-puller
  validator, which delegates to the shared rule, and its HTTP handler.
- `transport.dfy` (module `Transport`): the request body (read once, closed last) and the
  response writer, seen through the sequence of writes made to it.

The libraries stay abstract and are passed in as the `Runtime` value:

- the Kubernetes universal deserializer, as `decode: string -> DecodeResult`;
- `html.EscapeString`, as `escapeString`;
- `json.Marshal`, as `canMarshal`.

A successful marshal is represented by `Json(review)`, the document's content, not its
bytes. The directory client's `Get` of a user is a function `Directory` from user names
to `LookupFailed` or `Found(labels)`. The message texts follow the code: `errors.Errorf`
fills in the kind, and `errors.Wrapf` appends `": "` and the decoder's error text.

Three details of the code shape the model:

- After a failed decode, `denyAdmissionRequest` still copies the UID of whatever request
  the decoder filled in (validate.go:35, 67-69). `DecodeFailed` therefore carries the
  partial review.
- The lookup-failure message names only the resource kind. The user name goes only to the
  log (validate.go:49-50).
- The CheCluster copy of the rule spells its lookup-failure message with two spaces,
  "requesting the  creation" (validate_checluster_request.go:67).
  `SameDecisionAsSharedRule` proves that the two copies' outputs differ only there.

## Model

| member | source | states |
|---|---|---|
| `Decision.Classify` | pkg/webhook/validatingwebhook/validate.go:37-57 | the four classes are tried in order: a `system:` prefix makes a system user; otherwise a failed lookup makes an unverified user; a record whose labels map the provider key to the provider value makes a sandbox user; every other found record makes a regular user. A missing label never matches, because the marker value is non-empty |
| `Decision.DecodeFailureMessage` | pkg/webhook/validatingwebhook/validate.go:31-35 | the decode-failure message is non-empty and contains both the escaped body and the decoder's error text |
| `Decision.LookupFailureMessage` | pkg/webhook/validatingwebhook/validate.go:48-51 | the lookup-failure message contains the resource kind |
| `Decision.SandboxUserMessage` | pkg/webhook/validatingwebhook/validate.go:52-55 | the sandbox-user message contains the resource kind |
| `Decision.DenyAdmissionRequest` | pkg/webhook/validatingwebhook/validate.go:60-77 | the answer is the fallback text exactly when the review cannot be marshalled; otherwise it is the same review with a response that is not allowed and whose status message is the given text; its UID is the request UID when there is a request and empty otherwise; it is never an allow |
| `Decision.AllowAdmissionRequest` | pkg/webhook/validatingwebhook/validate.go:79-91 | the answer is the fallback text exactly when the review cannot be marshalled; otherwise it is the same review with an allowed response that has the request UID and no status; it is an allow exactly when marshalled |
| `Decision.AllowIfNonSandboxUser` | pkg/webhook/validatingwebhook/validate.go:29-58 | fail-closed: an allow only ever answers a decoded request from a system or regular user; an undecodable body gets the deny builder on the partial review with the decode-failure message; a decoded request gets the allow builder (system or regular user), or the deny builder with the lookup-failure message (unverified user) or with the sandbox message (sandbox user) |
| `Decision.SystemUserSkipsDirectory` | pkg/webhook/validatingwebhook/validate.go:37-41 | for a `system:` user the answer is the same under any two directories, so the directory is not consulted, and a marshalled answer is an allow |
| `Decision.DecodeFailureDenied` | pkg/webhook/validatingwebhook/validate.go:31-36 | an undecodable body gets the same answer under any two directories; it is never an allow, and its status message is non-empty and contains the escaped body |
| `Decision.LookupFailureDenied` | pkg/webhook/validatingwebhook/validate.go:42-51 | a non-system user the directory cannot return is never allowed; a marshalled answer carries the lookup-failure message for the request's kind |
| `Decision.SandboxUserDenied` | pkg/webhook/validatingwebhook/validate.go:52-55 | a user whose labels carry the provider marker is never allowed; a marshalled answer has a status message containing the kind |
| `Decision.RegularUserAllowed` | pkg/webhook/validatingwebhook/validate.go:56-57 | a found user whose label is absent or has another value is allowed whenever the answer is marshalled, and the answer has no status message |
| `Decision.UidEchoed` | pkg/webhook/validatingwebhook/validate.go:60-84 | for a decoded request, every marshalled answer (allow or deny) has a response with the request's UID |
| `Decision.NeverEmpty` | pkg/webhook/validatingwebhook/validate.go:71-90 | the answer is either a marshalled review or the non-empty fallback text, never nothing |
| `CheClusterRequest.CheLookupFailureMessage` | pkg/webhook/validatingwebhook/validate_checluster_request.go:65-68 | the CheCluster lookup-failure message contains the kind and differs from the shared rule's message |
| `CheClusterRequest.CheClusterRequestValidator.Validate` | pkg/webhook/validatingwebhook/validate_checluster_request.go:45-75 | the same first-match-wins rule as the shared one, fail-closed, with the CheCluster lookup-failure message; a `system:` user gets the allow builder without the directory's answer entering the result |
| `CheClusterRequest.CheClusterRequestValidator.HandleValidate` | pkg/webhook/validatingwebhook/validate_checluster_request.go:23-43 | an unreadable body gets one status write of 500 and then the fixed read-failure text; a readable body gets one status write of 200 and then the output of `Validate`; the body is closed; a close failure changes nothing that is written |
| `CheClusterRequest.SameDecisionAsSharedRule` | pkg/webhook/validatingwebhook/validate_checluster_request.go:45-75 | on every input, the copy allows exactly when the shared rule allows; when both are marshalled they echo the same request and UID; the two outputs differ only for a decoded request from an unverified user |
| `K8sImagePullerRequest.K8sImagePullerRequestValidator.Validate` | pkg/webhook/validatingwebhook/validate_k8simagepuller_request.go:36-39 | the answer is exactly the shared rule's answer for the validator's directory, so it is fail-closed too |
| `K8sImagePullerRequest.K8sImagePullerRequestValidator.HandleValidate` | pkg/webhook/validatingwebhook/validate_k8simagepuller_request.go:14-34 | an unreadable body gets one status write of 500 and then the fixed read-failure text; a readable body gets one status write of 200 and then the output of `Validate`, even for a denial; the body is closed; a close failure changes nothing that is written |

## Left out

- Decoding, HTML escaping and JSON marshalling are library calls. They are supplied functions, not codecs: the model does not say which bytes decode or how the review is encoded.
- The directory client (`Client.Get` of a `userv1.User`) is an external lookup. It is a supplied function from user name to result, and every error collapses to one failure.
- Request bodies are treated as strings (Go's `string(body)` conversion). No byte encoding is modelled.
- A successfully decoded review with a nil `Request` makes the Go code panic on the nil dereference. The model excludes it with the `HasRequestIfDecoded` precondition, so such a crash is not modelled.
- Logging (`log.Info`, `log.Error`, including after a failed body write or close) is observability only and is left out.
- The HTTP server, concurrent request handling and the context passed to the directory client are left out. Each call is one independent request.
- The values of `ProviderLabelKey` and `ProviderLabelValue` come from the toolchain API package, which is not part of this model. They are written as constants with the published values.
