/** The steps of the payment form (`PaymentForm` in bot/states.py). A chat
    that is in no step at all has no active dialog; the handlers write that as
    `None`. */
module States {

  datatype FormState = Attachment | Amount | Note | Order | OrderSelection

  /** The step that follows a step of the form, in the order the handlers
      advance through them; the selection step is the last one. */
  function Next(s: FormState): (t: FormState)
    requires s != OrderSelection
  {
    match s
    case Attachment => Amount
    case Amount => Note
    case Note => Order
    case Order => OrderSelection
  }

  /** The position of a step in the form: the order in which `PaymentForm`
      declares its states (attachment, amount, note, order,
      order_selection). `Next` is written separately, from the handlers'
      `set_state` calls, so that the two agree is what says the handlers
      walk the states in their declared order. */
  function Rank(s: FormState): (n: nat)
    ensures n < 5
  {
    match s
    case Attachment => 0
    case Amount => 1
    case Note => 2
    case Order => 3
    case OrderSelection => 4
  }

  /** `Next` moves exactly one position forward. */
  lemma NextAdvancesOneStep(s: FormState)
    requires s != OrderSelection
    ensures Rank(Next(s)) == Rank(s) + 1
  {
  }
}
