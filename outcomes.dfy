/** Result shapes shared by the descriptor model. */
module Outcomes {

  /** A value that may be absent; `None` also stands for a Java `null` argument. */
  datatype Option<+T> = None | Some(value: T)

  /** How a Java call completes: normally with a value, or abruptly by
      throwing `IllegalArgumentException`. */
  datatype Completion<+T> = Normal(value: T) | IllegalArgument
}
