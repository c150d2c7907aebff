/**
 The KubernetesImagePuller adapter,
 pkg/webhook/validatingwebhook/validate_k8simagepuller_request.go: its `validate` hands the
 body to the shared rule.
 */
module K8sImagePullerRequest {
  import opened Admission
  import opened Decision
  import opened Transport

  /** `K8sImagePullerRequestValidator`, holding the directory client. */
  datatype K8sImagePullerRequestValidator = K8sImagePullerRequestValidator(client: Directory) {

    /** `validate`: exactly the shared rule's answer, so never an allow for an undecodable
        body, an unknown user or a sandbox user. */
    function Validate(rt: Runtime, body: string): (out: Payload)
      requires HasRequestIfDecoded(rt.decode(body))
      ensures out == AllowIfNonSandboxUser(rt, client, body)
      ensures Allowed(out) ==>
        rt.decode(body).Decoded? && Admitted(Classify(rt.decode(body).review.request.value.username, client))
    {
      AllowIfNonSandboxUser(rt, client, body)
    }

    /** `HandleValidate`: status 500 and a fixed text when the body cannot be read,
        otherwise status 200 and the output of `Validate`, even for a denial. One status
        write, then one body write; closing the body last, a close failure only logged. */
    method HandleValidate(rt: Runtime, w: ResponseWriter, r: RequestBody)
      requires r.content.ReadOk? ==> HasRequestIfDecoded(rt.decode(r.content.data))
      modifies w, r
      ensures r.closed
      ensures r.content.ReadErr? ==>
        w.events == old(w.events) + [HeaderWritten(StatusInternalServerError), BodyWritten(Text(ReadFailureText))]
      ensures r.content.ReadOk? ==>
        w.events == old(w.events) + [HeaderWritten(StatusOK), BodyWritten(Validate(rt, r.content.data))]
    {
      var respBody: Payload;
      var read := r.ReadAll();
      if read.ReadErr? {
        w.WriteHeader(StatusInternalServerError);
        respBody := Text(ReadFailureText);
      } else {
        respBody := Validate(rt, read.data);
        w.WriteHeader(StatusOK);
      }
      w.WriteString(respBody);
      var closeFailed := r.Close();
    }
  }
}
