/** Java's nullable references and the two error conditions of the mapper:
    an argument that is null where a value is required (org.wildfly.common.Assert.checkNotNullParam)
    and a builder used after it was built (ElytronMessages.builderAlreadyBuilt). */
module Checks {

  /** A Java reference that may be null. */
  datatype Nullable<+T> = Null | Ref(value: T)

  datatype Error =
    | BuilderAlreadyBuilt
    | NullParameter(name: string)

  /** The outcome of a Java call that either returns a value or throws one of the errors above. */
  datatype Result<+T> = Ok(value: T) | Err(error: Error)

  /** checkNotNullParam: passes a non-null argument through, and fails naming the parameter otherwise. */
  function CheckNotNull<T>(name: string, x: Nullable<T>): (r: Result<T>)
    ensures r.Ok? <==> x.Ref?
    ensures r.Ok? ==> r.value == x.value
    ensures r.Err? ==> r.error == NullParameter(name)
  {
    match x
    case Null => Err(NullParameter(name))
    case Ref(v) => Ok(v)
  }
}
