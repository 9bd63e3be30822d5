/** Swift's `Optional` for value-typed payloads. Named `Nil`/`Some` so that it does not
    clash with the `None` case of `Workflow.Priority`. References use Dafny's nullable class types. */
module Wrappers {
  datatype Optional<+T> = Nil | Some(value: T)
}
