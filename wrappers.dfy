/** Optional values: Go's nil pointers (`*AdmissionRequest`, `*metav1.Status`) become `None`. */
module Wrappers {

  datatype Option<+T> = None | Some(value: T)
}
