/**
 The values the validating webhook works on: the admission review envelope it decodes and
 answers, the directory record of the requesting user, and the bytes it writes back.
 The libraries the webhook calls (the Kubernetes deserializer, `html.EscapeString`,
 `json.Marshal`) and the directory client are not modelled; they are supplied as functions.
 */
module Admission {
  import opened Wrappers

  /** `admissionv1.AdmissionRequest`, reduced to the fields the webhook reads:
      the correlation UID, `UserInfo.Username` and `Kind.Kind`. */
  datatype AdmissionRequest = AdmissionRequest(uid: string, username: string, kind: string)

  /** `metav1.Status`, reduced to its message. */
  datatype Status = Status(message: string)

  /** `admissionv1.AdmissionResponse`: UID, verdict and the optional `Result` status. */
  datatype AdmissionResponse = AdmissionResponse(uid: string, allowed: bool, result: Option<Status>)

  /** `admissionv1.AdmissionReview`: both pointers may be nil. */
  datatype AdmissionReview = AdmissionReview(request: Option<AdmissionRequest>, response: Option<AdmissionResponse>)

  /** What the universal deserializer leaves behind. On failure the review holds whatever
      the decoder managed to fill in before it gave up (often nothing), and the error text. */
  datatype DecodeResult =
    | Decoded(review: AdmissionReview)
    | DecodeFailed(partial: AdmissionReview, cause: string)

  /** The answer of the directory client's `Get` for a `userv1.User`: any error (not found,
      unreachable, malformed) collapses to `LookupFailed`. */
  datatype LookupResult = LookupFailed | Found(labels: map<string, string>)

  /** The directory client, queried by exact user name. */
  type Directory = string -> LookupResult

  /** Bytes written back to the caller: a marshalled review, or a plain-text message. */
  datatype Payload = Json(review: AdmissionReview) | Text(text: string)

  /** The library calls the webhook makes: decoding the body, `html.EscapeString` and
      whether `json.Marshal` accepts a review. */
  datatype Runtime = Runtime(
    decode: string -> DecodeResult,
    escapeString: string -> string,
    canMarshal: AdmissionReview -> bool)

  const SystemPrefix := "system:"

  /** `toolchainv1alpha1.ProviderLabelKey` and `ProviderLabelValue`, as published by the
      toolchain API. */
  const ProviderLabelKey := "toolchain.dev.openshift.com/provider"
  const ProviderLabelValue := "codeready-toolchain"

  const MarshalFailureText := "unable to marshal the admission review with response"

  /** A successfully decoded review carries a request: the Go code dereferences
      `admReview.Request` without a nil check once decoding succeeded. */
  predicate HasRequestIfDecoded(d: DecodeResult)
  {
    d.Decoded? ==> d.review.request.Some?
  }

  /** The body decodes to a review that carries a request. */
  predicate DecodesToRequest(rt: Runtime, body: string)
  {
    rt.decode(body).Decoded? && rt.decode(body).review.request.Some?
  }

  /** The request a decodable body carries. */
  function RequestOf(rt: Runtime, body: string): AdmissionRequest
    requires DecodesToRequest(rt, body)
  {
    rt.decode(body).review.request.value
  }

  /** `strings.HasPrefix`. */
  predicate HasPrefix(s: string, prefix: string)
  {
    |prefix| <= |s| && s[..|prefix|] == prefix
  }

  /** Go's map index on the user's labels: a missing key reads as the empty string. */
  function LabelValue(labels: map<string, string>, key: string): string
  {
    if key in labels then labels[key] else ""
  }

  /** The verdict carried by a payload, if it is a marshalled review with a response. */
  predicate Allowed(p: Payload)
  {
    p.Json? && p.review.response.Some? && p.review.response.value.allowed
  }

  /** The status message of a marshalled review's response, if it has one. */
  function StatusMessage(p: Payload): Option<string>
  {
    if p.Json? && p.review.response.Some? && p.review.response.value.result.Some? then
      Some(p.review.response.value.result.value.message)
    else None
  }

  predicate OccursAt(s: string, part: string, i: int)
  {
    0 <= i && i + |part| <= |s| && s[i..i + |part|] == part
  }

  /** `part` is a contiguous substring of `s`. */
  predicate Contains(s: string, part: string)
  {
    exists i :: 0 <= i <= |s| && OccursAt(s, part, i)
  }

  lemma ContainsMiddle(front: string, part: string, back: string)
    ensures Contains(front + part + back, part)
  {
    var s := front + part + back;
    assert s[|front|..|front| + |part|] == part;
    assert OccursAt(s, part, |front|);
  }
}
