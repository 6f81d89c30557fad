/**
 * The six transaction types the tracker offers and the rule table that says
 * how each one moves the two balances, seen from the party who records it
 * ("me") and the other party ("them").
 */
module Kinds {
  import opened Wrappers

  /** The transaction types, in the order the "Type" selector lists them. */
  datatype Kind =
    | YouPaidSplit   // "You Paid - Split 50/50"
    | YouPaidFull    // "You Paid - In Full for Them (You're owed all of it)"
    | TheyPaidSplit  // "They Paid - Split 50/50"
    | TheyPaidFull   // "They Paid - In Full for You (You owe all of it)"
    | TheyPaidYou    // "They Paid You (Settlement)"
    | YouPaidThem    // "You Paid Them (Settlement)"

  /** The label a record stores in its "type" field. */
  function Label(k: Kind): string {
    match k
    case YouPaidSplit => "You Paid - Split 50/50"
    case YouPaidFull => "You Paid - In Full for Them (You're owed all of it)"
    case TheyPaidSplit => "They Paid - Split 50/50"
    case TheyPaidFull => "They Paid - In Full for You (You owe all of it)"
    case TheyPaidYou => "They Paid You (Settlement)"
    case YouPaidThem => "You Paid Them (Settlement)"
  }

  /**
   * The string comparisons that pick a rule: the kind whose label is `s`,
   * and nothing when `s` is none of the six labels.
   */
  function ParseKind(s: string): (r: Option<Kind>)
    ensures r.Some? ==> Label(r.value) == s
    ensures r.None? ==> forall k :: Label(k) != s
  {
    if s == Label(YouPaidSplit) then Some(YouPaidSplit)
    else if s == Label(YouPaidFull) then Some(YouPaidFull)
    else if s == Label(TheyPaidSplit) then Some(TheyPaidSplit)
    else if s == Label(TheyPaidFull) then Some(TheyPaidFull)
    else if s == Label(TheyPaidYou) then Some(TheyPaidYou)
    else if s == Label(YouPaidThem) then Some(YouPaidThem)
    else None
  }

  /** The six labels are distinct, so the label of a kind selects that kind's rule. */
  lemma LabelRoundTrip(k: Kind)
    ensures ParseKind(Label(k)) == Some(k)
  {
  }

  /** The kinds whose label says the recording party paid. */
  predicate RecorderPaid(k: Kind) {
    k.YouPaidSplit? || k.YouPaidFull? || k.YouPaidThem?
  }

  /**
   * The rule table used when a transaction is added: the change of the
   * recording party's balance; the other party's balance changes by its
   * negation. With a positive amount the recorder's balance rises exactly
   * when the recorder paid.
   */
  function Delta(k: Kind, amount: real): (d: real)
    ensures amount > 0.0 ==> (d > 0.0 <==> RecorderPaid(k))
  {
    match k
    case YouPaidSplit => amount / 2.0
    case YouPaidFull => amount
    case TheyPaidSplit => -(amount / 2.0)
    case TheyPaidFull => -amount
    case TheyPaidYou => -amount
    case YouPaidThem => amount
  }

  /**
   * The rule table used when a transaction is deleted, written out case by
   * case as the delete handler has it: the change of the recording party's
   * balance. It is exactly the negation of the rule used to add it.
   */
  function Undo(k: Kind, amount: real): (d: real)
    ensures d == -Delta(k, amount)
  {
    match k
    case YouPaidSplit => -(amount / 2.0)
    case YouPaidFull => -amount
    case TheyPaidSplit => amount / 2.0
    case TheyPaidFull => amount
    case TheyPaidYou => amount
    case YouPaidThem => -amount
  }

  /**
   * "In full" and "settlement" kinds paid in the same direction move the
   * balances alike, and a 50/50 kind moves them by half of what the
   * matching "in full" kind does.
   */
  lemma KindsThatAgree(amount: real)
    ensures Delta(TheyPaidFull, amount) == Delta(TheyPaidYou, amount) == -amount
    ensures Delta(YouPaidFull, amount) == Delta(YouPaidThem, amount) == amount
    ensures Delta(YouPaidSplit, amount) == Delta(YouPaidFull, amount) / 2.0
    ensures Delta(TheyPaidSplit, amount) == Delta(TheyPaidFull, amount) / 2.0
  {
  }

  /** Two amounts of the same kind move the balances alike only when they are equal. */
  lemma DeltaInjective(k: Kind, a: real, b: real)
    ensures Delta(k, a) == Delta(k, b) <==> a == b
  {
  }

  /** The two parties, in the ledger's fixed roles. */
  datatype Party = PersonA | PersonB {
    function Other(): Party {
      if this == PersonA then PersonB else PersonA
    }
  }

  /** The recording party and the other party. */
  datatype Roles = Roles(me: Party, them: Party)

  /**
   * Actor resolution: the user is person A exactly when the name equals
   * person A's configured name; any other name is person B. The two roles
   * are always different parties.
   */
  function Resolve(user: string, personAName: string): (r: Roles)
    ensures r.me != r.them && r.them == r.me.Other()
    ensures r.me == PersonA <==> user == personAName
  {
    if user == personAName then Roles(PersonA, PersonB) else Roles(PersonB, PersonA)
  }
}
