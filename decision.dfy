/**
 The shared admission rule and the two response builders of
 pkg/webhook/validatingwebhook/validate.go. The rule is first-match-wins: an undecodable
 body is denied, a `system:` user is allowed without asking the directory, a user the
 directory cannot find is denied (fail-closed), a user labelled as a sandbox user is denied,
 and everybody else is allowed.
 */
module Decision {
  import opened Wrappers
  import opened Admission

  // ----- Identity classification -----

  /** The four kinds of requesting principal the rule tells apart. */
  datatype Principal = SystemUser | UnverifiedUser | SandboxUser | RegularUser

  /** The class of `username` given the directory, in the rule's order. A missing provider
      label reads as the empty string, which never equals the (non-empty) marker value. */
  function Classify(username: string, client: Directory): (p: Principal)
    ensures p == SystemUser <==> HasPrefix(username, SystemPrefix)
    ensures p == UnverifiedUser <==> !HasPrefix(username, SystemPrefix) && client(username).LookupFailed?
    ensures p == SandboxUser <==>
      && !HasPrefix(username, SystemPrefix)
      && client(username).Found?
      && ProviderLabelKey in client(username).labels
      && client(username).labels[ProviderLabelKey] == ProviderLabelValue
    ensures p == RegularUser <==>
      && !HasPrefix(username, SystemPrefix)
      && client(username).Found?
      && (ProviderLabelKey !in client(username).labels
          || client(username).labels[ProviderLabelKey] != ProviderLabelValue)
  {
    if HasPrefix(username, SystemPrefix) then SystemUser
    else match client(username)
      case LookupFailed => UnverifiedUser
      case Found(labels) =>
        if LabelValue(labels, ProviderLabelKey) == ProviderLabelValue then SandboxUser else RegularUser
  }

  /** The principals the rule admits. */
  predicate Admitted(p: Principal)
  {
    p == SystemUser || p == RegularUser
  }

  // ----- Denial messages -----

  /** `errors.Wrapf(err, "... - body: %v", escapedBody).Error()`: the wrapping text, then
      ": " and the decoder's own error text. */
  function DecodeFailureMessage(escapedBody: string, cause: string): (m: string)
    ensures |m| > 0
    ensures Contains(m, escapedBody)
    ensures Contains(m, cause)
  {
    var front := "unable to deserialize the admission review object - body: ";
    var m := front + escapedBody + ": " + cause;
    ContainsMiddle(front, escapedBody, ": " + cause);
    assert front + escapedBody + (": " + cause) == m;
    ContainsMiddle(front + escapedBody + ": ", cause, "");
    assert front + escapedBody + ": " + cause + "" == m;
    m
  }

  /** The lookup-failure message of the shared rule; it names the resource kind. */
  function LookupFailureMessage(kind: string): (m: string)
    ensures Contains(m, kind)
  {
    ContainsMiddle("unable to find the user requesting the creation of the ", kind, " resource");
    "unable to find the user requesting the creation of the " + kind + " resource"
  }

  /** The sandbox-user denial message; it names the resource kind. */
  function SandboxUserMessage(kind: string): (m: string)
    ensures Contains(m, kind)
  {
    var front := "this is a Dev Sandbox enforced restriction. you are trying to create a ";
    ContainsMiddle(front, kind, " resource, which is not allowed");
    front + kind + " resource, which is not allowed"
  }

  // ----- Response builders -----

  /** `json.Marshal` of the answered review, or the fixed fallback text when it fails. */
  function Serialize(rt: Runtime, review: AdmissionReview): Payload
  {
    if rt.canMarshal(review) then Json(review) else Text(MarshalFailureText)
  }

  /** `denyAdmissionRequest`: a refusal carrying `message`, echoing the request UID only
      when the review has a request (the UID stays empty otherwise). */
  function DenyAdmissionRequest(rt: Runtime, review: AdmissionReview, message: string): (out: Payload)
    ensures out.Text? ==> out.text == MarshalFailureText
    ensures out.Json? ==> rt.canMarshal(out.review) && out.review.request == review.request
    ensures out.Json? ==> out.review.response.Some?
    ensures out.Json? ==>
      var resp := out.review.response.value;
      && !resp.allowed
      && resp.result == Some(Status(message))
      && (review.request.Some? ==> resp.uid == review.request.value.uid)
      && (review.request.None? ==> resp.uid == "")
    ensures out.Text? ==>
      !rt.canMarshal(review.(response := Some(AdmissionResponse(
        if review.request.Some? then review.request.value.uid else "", false, Some(Status(message))))))
    ensures !Allowed(out)
  {
    var uid := if review.request.Some? then review.request.value.uid else "";
    Serialize(rt, review.(response := Some(AdmissionResponse(uid, false, Some(Status(message))))))
  }

  /** `allowAdmissionRequest`: an admission echoing the request UID, with no status. */
  function AllowAdmissionRequest(rt: Runtime, review: AdmissionReview): (out: Payload)
    requires review.request.Some?
    ensures out.Text? ==> out.text == MarshalFailureText
    ensures out.Json? ==> rt.canMarshal(out.review) && out.review.request == review.request
    ensures out.Json? ==>
      out.review.response == Some(AdmissionResponse(review.request.value.uid, true, None))
    ensures out.Text? ==>
      !rt.canMarshal(review.(response := Some(AdmissionResponse(review.request.value.uid, true, None))))
    ensures Allowed(out) <==> out.Json?
  {
    Serialize(rt, review.(response := Some(AdmissionResponse(review.request.value.uid, true, None))))
  }

  // ----- The rule -----

  /** `allowIfNonSandboxUser`: decode the body, classify the requesting user, answer. */
  function AllowIfNonSandboxUser(rt: Runtime, client: Directory, body: string): (out: Payload)
    requires HasRequestIfDecoded(rt.decode(body))
    // fail-closed: only a decoded request from an admitted principal is ever allowed
    ensures Allowed(out) ==>
      rt.decode(body).Decoded? && Admitted(Classify(rt.decode(body).review.request.value.username, client))
    ensures rt.decode(body).DecodeFailed? ==>
      out == DenyAdmissionRequest(rt, rt.decode(body).partial,
                                  DecodeFailureMessage(rt.escapeString(body), rt.decode(body).cause))
    ensures rt.decode(body).Decoded? ==>
      var review := rt.decode(body).review;
      var request := review.request.value;
      match Classify(request.username, client)
      case SystemUser => out == AllowAdmissionRequest(rt, review)
      case RegularUser => out == AllowAdmissionRequest(rt, review)
      case UnverifiedUser => out == DenyAdmissionRequest(rt, review, LookupFailureMessage(request.kind))
      case SandboxUser => out == DenyAdmissionRequest(rt, review, SandboxUserMessage(request.kind))
  {
    match rt.decode(body)
    case DecodeFailed(partial, cause) =>
      DenyAdmissionRequest(rt, partial, DecodeFailureMessage(rt.escapeString(body), cause))
    case Decoded(review) =>
      var request := review.request.value;
      if HasPrefix(request.username, SystemPrefix) then
        AllowAdmissionRequest(rt, review)
      else
        match client(request.username)
        case LookupFailed =>
          DenyAdmissionRequest(rt, review, LookupFailureMessage(request.kind))
        case Found(labels) =>
          if LabelValue(labels, ProviderLabelKey) == ProviderLabelValue then
            DenyAdmissionRequest(rt, review, SandboxUserMessage(request.kind))
          else
            AllowAdmissionRequest(rt, review)
  }

  // ----- Properties of the rule -----

  /** A `system:` user is allowed whatever the directory holds: the directory is not consulted. */
  lemma SystemUserSkipsDirectory(rt: Runtime, client: Directory, other: Directory, body: string)
    requires DecodesToRequest(rt, body) && HasPrefix(RequestOf(rt, body).username, SystemPrefix)
    ensures AllowIfNonSandboxUser(rt, client, body) == AllowIfNonSandboxUser(rt, other, body)
    ensures var out := AllowIfNonSandboxUser(rt, client, body);
      out.Json? ==> Allowed(out)
  {
  }

  /** An undecodable body is refused without consulting the directory, with a non-empty
      message that contains the escaped body. */
  lemma DecodeFailureDenied(rt: Runtime, client: Directory, other: Directory, body: string)
    requires rt.decode(body).DecodeFailed?
    ensures AllowIfNonSandboxUser(rt, client, body) == AllowIfNonSandboxUser(rt, other, body)
    ensures var out := AllowIfNonSandboxUser(rt, client, body);
      && !Allowed(out)
      && (out.Json? ==>
            && StatusMessage(out).Some?
            && |StatusMessage(out).value| > 0
            && Contains(StatusMessage(out).value, rt.escapeString(body)))
  {
  }

  /** Fail-closed: a non-system user the directory cannot find is refused, with the
      message naming the resource kind. */
  lemma LookupFailureDenied(rt: Runtime, client: Directory, body: string)
    requires DecodesToRequest(rt, body)
    requires var user := RequestOf(rt, body).username;
      !HasPrefix(user, SystemPrefix) && client(user).LookupFailed?
    ensures var out := AllowIfNonSandboxUser(rt, client, body);
      && !Allowed(out)
      && (out.Json? ==> StatusMessage(out) == Some(LookupFailureMessage(RequestOf(rt, body).kind)))
  {
  }

  /** A user whose record carries the provider marker is refused, with a message naming
      the resource kind. */
  lemma SandboxUserDenied(rt: Runtime, client: Directory, body: string)
    requires DecodesToRequest(rt, body)
    requires var user := RequestOf(rt, body).username;
      && !HasPrefix(user, SystemPrefix)
      && client(user).Found?
      && ProviderLabelKey in client(user).labels
      && client(user).labels[ProviderLabelKey] == ProviderLabelValue
    ensures var out := AllowIfNonSandboxUser(rt, client, body);
      && !Allowed(out)
      && (out.Json? ==> StatusMessage(out).Some? && Contains(StatusMessage(out).value, RequestOf(rt, body).kind))
  {
  }

  /** A found user without the marker, or with another value under the marker key, is
      allowed (unless marshalling fails). */
  lemma RegularUserAllowed(rt: Runtime, client: Directory, body: string)
    requires DecodesToRequest(rt, body)
    requires var user := RequestOf(rt, body).username;
      && !HasPrefix(user, SystemPrefix)
      && client(user).Found?
      && (ProviderLabelKey !in client(user).labels
          || client(user).labels[ProviderLabelKey] != ProviderLabelValue)
    ensures var out := AllowIfNonSandboxUser(rt, client, body);
      (Allowed(out) <==> out.Json?) && StatusMessage(out).None?
  {
  }

  /** Whenever a decoded request is answered with a marshalled review, allow or deny, the
      response carries the request's UID. */
  lemma UidEchoed(rt: Runtime, client: Directory, body: string)
    requires DecodesToRequest(rt, body)
    ensures var out := AllowIfNonSandboxUser(rt, client, body);
      out.Json? ==> out.review.response.Some? && out.review.response.value.uid == RequestOf(rt, body).uid
  {
  }

  /** Marshalling failures are never silent: the caller always receives some bytes, either
      the marshalled review or the fixed fallback text. */
  lemma NeverEmpty(rt: Runtime, client: Directory, body: string)
    requires HasRequestIfDecoded(rt.decode(body))
    ensures var out := AllowIfNonSandboxUser(rt, client, body);
      out.Json? || (out.Text? && out.text == MarshalFailureText && |out.text| > 0)
  {
  }
}
