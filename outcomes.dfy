/**
 * Values shared by every module: an optional value and the outcome of a call
 * into a service whose behaviour is not modelled (the language-model API, the
 * speech model, the chat network).
 */
module Outcomes {

  datatype Option<+T> = None | Some(value: T)

  /**
   * What an awaited promise settles to: a value, or a rejection. The reason is
   * kept only where the code produces a fixed one; every catch block in the
   * source ignores it.
   */
  datatype Call<+T> = Success(value: T) | Failure(reason: string)
}

/** The transient notifications the web components raise through `toast(...)`. */
module Toasts {

  /** A toast: its title and whether it uses the destructive variant. */
  datatype Toast = Toast(title: string, destructive: bool)
}
