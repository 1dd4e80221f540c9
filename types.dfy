/** The shape of a subscription plan, shared by the store and the client. */
module Types {

  /** A value that may be absent (the source's `T | null`). */
  datatype Option<+T> = None | Some(value: T)

  /** A plan's price: a numeric amount, or a label such as "Contact Sales". */
  datatype Price = Amount(amount: int) | Label(text: string)

  /** One subscription tier: its identifying code, display tag, price and currency symbol. */
  datatype Plan = Plan(price: Price, code: string, tag: string, currency: string)

  /** No two plans of the list share a code. */
  predicate UniqueCodes(plans: seq<Plan>)
  {
    forall i, j :: 0 <= i < j < |plans| ==> plans[i].code != plans[j].code
  }

  /** Some plan of the list has the given code. */
  predicate HasCode(plans: seq<Plan>, code: string)
  {
    exists i :: 0 <= i < |plans| && plans[i].code == code
  }
}
