/** A Java reference that may be null: the model's stand-in for a `String`
    (or other object) argument or field that callers are allowed to set to null. */
module Nullable {

  datatype Nullable<+T> = Null | NonNull(value: T)
}
