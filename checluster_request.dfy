/**
 The CheCluster adapter, pkg/webhook/validatingwebhook/validate_checluster_request.go.
 Its `validate` is a copy of the shared rule, not a call to it; the copy differs only in
 the lookup-failure message, which reads "requesting the  creation" with two spaces.
 */
module CheClusterRequest {
  import opened Wrappers
  import opened Admission
  import opened Decision
  import opened Transport

  /** The CheCluster copy of the lookup-failure message. */
  function CheLookupFailureMessage(kind: string): (m: string)
    ensures Contains(m, kind)
    ensures m != LookupFailureMessage(kind)
  {
    var front := "unable to find the user requesting the  creation of the ";
    ContainsMiddle(front, kind, " resource");
    assert |front + kind + " resource"| != |LookupFailureMessage(kind)|;
    front + kind + " resource"
  }

  /** `CheClusterRequestValidator`, holding the directory client. */
  datatype CheClusterRequestValidator = CheClusterRequestValidator(client: Directory) {

    /** `validate`: the shared rule, restated with its own lookup-failure message. */
    function Validate(rt: Runtime, body: string): (out: Payload)
      requires HasRequestIfDecoded(rt.decode(body))
      ensures Allowed(out) ==>
        rt.decode(body).Decoded? && Admitted(Classify(rt.decode(body).review.request.value.username, client))
      ensures rt.decode(body).DecodeFailed? ==>
        out == DenyAdmissionRequest(rt, rt.decode(body).partial,
                                    DecodeFailureMessage(rt.escapeString(body), rt.decode(body).cause))
      ensures rt.decode(body).Decoded? ==>
        var review := rt.decode(body).review;
        var request := review.request.value;
        match Classify(request.username, client)
        case SystemUser => out == AllowAdmissionRequest(rt, review)
        case RegularUser => out == AllowAdmissionRequest(rt, review)
        case UnverifiedUser => out == DenyAdmissionRequest(rt, review, CheLookupFailureMessage(request.kind))
        case SandboxUser => out == DenyAdmissionRequest(rt, review, SandboxUserMessage(request.kind))
    {
      match rt.decode(body)
      case DecodeFailed(partial, cause) =>
        DenyAdmissionRequest(rt, partial, DecodeFailureMessage(rt.escapeString(body), cause))
      case Decoded(review) =>
        var request := review.request.value;
        if HasPrefix(request.username, SystemPrefix) then
          AllowAdmissionRequest(rt, review)
        else
          match client(request.username)
          case LookupFailed =>
            DenyAdmissionRequest(rt, review, CheLookupFailureMessage(request.kind))
          case Found(labels) =>
            if LabelValue(labels, ProviderLabelKey) == ProviderLabelValue then
              DenyAdmissionRequest(rt, review, SandboxUserMessage(request.kind))
            else
              AllowAdmissionRequest(rt, review)
    }

    /** `HandleValidate`: a body that cannot be read gets status 500 and a fixed text;
        otherwise status 200 and the output of `Validate`, allow or deny. The status is
        written once, before the single body write; the deferred close happens last and a
        failure to close is only logged. */
    method HandleValidate(rt: Runtime, w: ResponseWriter, r: RequestBody)
      requires r.content.ReadOk? ==> HasRequestIfDecoded(rt.decode(r.content.data))
      modifies w, r
      ensures r.closed
      ensures r.content.ReadErr? ==>
        w.events == old(w.events) + [HeaderWritten(StatusInternalServerError), BodyWritten(Text(ReadFailureText))]
      ensures r.content.ReadOk? ==>
        w.events == old(w.events) + [HeaderWritten(StatusOK), BodyWritten(Validate(rt, r.content.data))]
    {
      var respBody: Payload;
      var read := r.ReadAll();
      if read.ReadErr? {
        w.WriteHeader(StatusInternalServerError);
        respBody := Text(ReadFailureText);
      } else {
        respBody := Validate(rt, read.data);
        w.WriteHeader(StatusOK);
      }
      w.WriteString(respBody);
      var closeFailed := r.Close();
    }
  }

  /** The copy makes the same decision as the shared rule on every input and echoes the
      same UID; the two outputs differ only when the directory lookup failed, where the
      messages are the two spellings of the lookup-failure text. */
  lemma SameDecisionAsSharedRule(v: CheClusterRequestValidator, rt: Runtime, body: string)
    requires HasRequestIfDecoded(rt.decode(body))
    ensures Allowed(v.Validate(rt, body)) == Allowed(AllowIfNonSandboxUser(rt, v.client, body))
    ensures var che := v.Validate(rt, body);
      var shared := AllowIfNonSandboxUser(rt, v.client, body);
      che.Json? && shared.Json? ==>
        che.review.request == shared.review.request
        && che.review.response.Some? && shared.review.response.Some?
        && che.review.response.value.uid == shared.review.response.value.uid
    ensures v.Validate(rt, body) != AllowIfNonSandboxUser(rt, v.client, body) ==>
      DecodesToRequest(rt, body) && Classify(RequestOf(rt, body).username, v.client) == UnverifiedUser
  {
  }
}
