/** The notifications a component hands to `addToast(message, kind)`. The
    provider that displays and expires them is not part of this model; a
    component's toasts are the sequence of calls it made, oldest first. */
module Toasts {

  datatype ToastKind = Info | Success | Warning | Error

  datatype Toast = Toast(message: string, kind: ToastKind)
}
