/** Side effects the core only triggers and never observes: toast notifications and
    browser navigation. Operations return them as values, in the order they happen. */
module Effects {

  datatype ToastKind = ToastSuccess | ToastInfo | ToastError

  datatype Effect =
    | Toast(kind: ToastKind, message: string)
    | Navigate(url: string)
}
