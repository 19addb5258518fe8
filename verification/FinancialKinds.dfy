/** The two create operations of a purchase. */
module FinancialKinds {
  datatype Kind = Agreement | Subscription
}
