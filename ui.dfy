/** What the pages show besides their main content. */
module Ui {

  /** The last toast notification a page raised. */
  datatype Toast = SuccessToast(message: string) | ErrorToast(message: string)
}
