/** The null-or-value results of the C# code (`FirstOrDefault`, a JSON
    decode that may yield null, a nullable query result) as a datatype. */
module Wrappers {

  datatype Option<+T> = None | Some(value: T)
}
