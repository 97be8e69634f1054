/** The toast notifications the pages show, recorded in the order shown. */
module Toasts {

  datatype Toast = Success(text: string) | Failure(text: string) | Info(text: string)
}
