/** Types shared by the models of the client's packages. */
module Prelude {

  datatype Option<+T> = None | Some(value: T)

  type Dest = string

  /** One message on a subscription channel: a body, or an error that is terminal for the subscription. */
  datatype Msg = Data(body: string) | Fault(cause: string)

  /** How often x occurs in s. */
  function Count<T(==)>(s: seq<T>, x: T): (n: nat) {
    if s == [] then 0 else Count(s[..|s|-1], x) + (if s[|s|-1] == x then 1 else 0)
  }
}
