# Split Tracker ledger, modelled in Dafny

Split Tracker is a two-person shared-expense ledger. The ledger document holds
two parties ("person_a" and "person_b"), each with a name and a balance, and
the ordered list of transaction records. A user adds a transaction by picking
one of six types ("You Paid - Split 50/50", "They Paid You (Settlement)", …)
and an amount. A fixed rule table then moves the user's balance by some change
`d` and the other party's by `-d`, and a record is appended. Deleting a record
removes the first equal one from the list and moves the balances back by the
rule for its recorded type, amount and user. The app also shows a settlement
suggestion read off person A's balance, and the ten newest records.

This project models that arithmetic core of `app.py`:

- `money.dfy` (module `Money`): `round(amount, 2)` on exact reals, and the
  0.01 minimum amount.
- `text.dfy` (module `Text`): `str.strip()` over Python's white-space code points.
- `kinds.dfy` (module `Kinds`): the six transaction types and their labels.
  Also the add-rule table (`Delta`), the delete-rule table (`Undo`) and actor
  resolution (`Resolve`).
- `records.dfy` (module `Records`): the transaction record, `list.remove`
  (`RemoveFirst`) and the recent-ten view (`Recent`).
- `ledger.dfy` (module `Tracker`): the ledger document as a value (`Book`),
  with `Moved`, `Applied`, `Unapplied`, `Deleted` and `Settlement` as
  functions. The class `Ledger` is the in-memory document the handlers
  mutate: its `Move`, `Apply`, `Reverse` and `Delete` methods update the fields in place and are
  each specified by one of those functions.

Proved properties:

- Every add and delete leaves `balA + balB` unchanged. So from the default
  document the balances cancel out after any sequence of actions
  (`RunKeepsSum`, `DefaultRunZeroSum`).
- The delete table is exactly the negation of the add table (`Undo`).
- Deleting the record an add just appended restores both balances exactly
  when the amount was already a whole number of cents, because the record
  keeps `round(amount, 2)` and not the amount applied (`DeleteUndoesApply`).
  The record list comes back as the same collection. It comes back as the
  same list when no equal record was there before.
- A stronger invariant: person A's balance equals the total change its
  records made (`Explained`). Adds of whole-cent amounts keep it, and every
  delete keeps it (`RunKeepsExplained`).
- Settlement directions and amounts (`Settlement`). Following the
  suggestion settles the ledger (`SettlingUpSettles`).

Three behaviours of the code shape the model:

- The code never checks the amount itself. The amount input's lower bound of
  0.01 is the only guard, so that bound is a precondition of `Apply`, not an
  error result.
- Deleting a missing record is the failure of `list.remove`, which happens
  before any balance moves. It is modelled as `Delete` returning `false`
  with nothing changed.
- Adding and then deleting a transaction brings both balances back if and
  only if the amount was a whole number of cents, since the record keeps the
  rounded amount. The records always come back as the same collection, and
  as the same list when no earlier record equals the new one. When an
  earlier record is equal, that earlier copy is the one removed, so the list
  can come back reordered.

Actor resolution on delete compares the recorded user name with the
*current* person-A name. After a rename, a record made under an old name
counts as person B's. The model keeps this behaviour: `Resolve` is used with
the document's `nameA` at the time of the call.

## Model

| member | source | states |
|---|---|---|
| `Money.Round2` | app.py:113 | the stored amount is a whole number of cents, within half a cent of the amount, and equal to it exactly when the amount is already whole cents |
| `Money.Round2Idempotent` | app.py:113 | rounding a rounded amount changes nothing |
| `Text.TrimStart` | app.py:114 | leading white space removed: a suffix that does not start with a space, everything cut being space |
| `Text.TrimEnd` | app.py:114 | trailing white space removed: a prefix that does not end with a space, everything cut being space |
| `Text.Strip` | app.py:114 | the stored reason is a contiguous part of the input that neither starts nor ends with a space, and every character outside it is a space |
| `Text.StripIdempotent` | app.py:114 | stripping a stripped reason changes nothing |
| `Kinds.ParseKind` | app.py:91-106 | the label comparisons select the kind whose label is the string, and no kind when the string is none of the labels |
| `Kinds.LabelRoundTrip` | app.py:76-83 | the six labels are distinct, so each label selects its own rule |
| `Kinds.Delta` | app.py:91-108 | with a positive amount, the recorder's balance rises exactly for the three "You Paid" types |
| `Kinds.Undo` | app.py:175-192 | the delete table moves the recorder's balance by exactly the negation of the add table's change |
| `Kinds.KindsThatAgree` | app.py:94-108 | "In Full" and "Settlement" types paid in the same direction move balances alike by the full amount; 50/50 types move them by half |
| `Kinds.DeltaInjective` | app.py:91-108 | two amounts of one type move the balances alike only if they are equal |
| `Kinds.Resolve` | app.py:88 | the user is person A exactly when the name equals person A's name, otherwise person B; "me" and "them" are always different parties |
| `Records.FirstIndex` | app.py:169 | the position `list.remove` finds holds the record and no earlier position does |
| `Records.RemoveFirst` | app.py:169 | removing a present record shrinks the list by one; removing an absent one changes nothing |
| `Records.RemoveFirstMultiset` | app.py:169 | exactly one copy of the record leaves the collection of records, if one was there |
| `Records.RemoveFirstAt` | app.py:169 | the record is spliced out at its first position, the records before and after keeping their order |
| `Records.RemoveFirstSplices` | app.py:169 | the same splice at the position `FirstIndex` finds |
| `Records.RemoveFirstAfter` | app.py:169 | records before the first equal one are untouched by the removal |
| `Records.RemoveLastAppended` | app.py:110 | removing a just-appended record that occurs nowhere else gives back the earlier list |
| `Records.Newest` | app.py:144 | `reversed`: same length, position i holds the i-th newest record |
| `Records.Recent` | app.py:141-144 | at most ten records, the last min(10, n) newest first; empty exactly when there are no records |
| `Tracker.Moved` | app.py:88-108 | add's balance moves: the recorder's balance moves by the rule's change and the other party's by its negation, so the sum stays; names and records untouched |
| `Tracker.Applied` | app.py:88-116 | add: each balance moves as `Moved` says, so their sum stays, and exactly one record with the rounded amount and stripped reason is appended after the unchanged earlier ones |
| `Tracker.Unapplied` | app.py:171-192 | delete's balance moves: recorder's balance moves back by the recorded change and the other's forward, the sum stays |
| `Tracker.Deleted` | app.py:168-192 | delete: no change when the record is absent; otherwise the first equal record is removed, the list shrinks by one, each balance moves as `Unapplied` says and their sum stays |
| `Tracker.UnappliedUndoesMoved` | app.py:171-192 | moving back for a record of the same user and type restores both balances if and only if the recorded amount is the amount applied |
| `Tracker.DeleteUndoesAppend` | app.py:169 | deleting an appended record of the same user and type restores the balances if and only if its amount is the amount applied; the records return as the same collection, and as the same list when no equal record preceded |
| `Tracker.DeleteUndoesApply` | app.py:88-192 | deleting a just-added record restores both balances if and only if the amount was whole cents; the records return as the same collection, and as the same list when no equal record preceded |
| `Tracker.CreditsAppend` | app.py:110 | an appended record adds its own change to the total its records account for |
| `Tracker.CreditsRemoveFirst` | app.py:169 | a removed record takes its own change away from that total |
| `Tracker.DefaultExplained` | app.py:31-35 | the default document's zero balances are accounted for by its empty record list |
| `Tracker.ApplyKeepsExplained` | app.py:91-116 | an add keeps balances accounted for by the records if and only if its amount is whole cents |
| `Tracker.DeleteKeepsExplained` | app.py:168-192 | a delete keeps balances accounted for by the records |
| `Tracker.StepKeepsExplained` | app.py:87-192 | one add of a whole-cent amount, or one delete, keeps balances accounted for |
| `Tracker.RunKeepsSum` | app.py:91-192 | no sequence of adds and deletes changes the sum of the two balances |
| `Tracker.DefaultRunZeroSum` | app.py:31-35 | from the default document, the balances cancel out after any sequence of adds and deletes |
| `Tracker.RunKeepsExplained` | app.py:87-192 | with whole-cent amounts, any sequence of adds and deletes keeps balances accounted for by the records |
| `Tracker.Settlement` | app.py:130-136 | B owes A when person A's balance is positive, A owes B when negative, settled when zero; the amount owed is positive and is the size of the net, which is also the size of the debtor's balance when the balances cancel |
| `Tracker.SettlingUpSettles` | app.py:106-108 | the debtor recording "You Paid Them (Settlement)" for the suggested amount leaves the ledger settled up |
| `Tracker.Ledger.constructor` | app.py:31-35 | the new document has names Alice and Bob, zero balances and no records |
| `Tracker.Ledger.Rename` | app.py:47-48 | the names are overwritten with the configured ones and nothing else changes |
| `Tracker.Ledger.Credit` | app.py:92 | adding to a party's balance changes that balance and nothing else |
| `Tracker.Ledger.Debit` | app.py:93 | subtracting from a party's balance changes that balance and nothing else |
| `Tracker.Ledger.Move` | app.py:88-108 | the document after the add handler's balance moves is `Moved` of the one before |
| `Tracker.Ledger.Apply` | app.py:87-116 | the document after adding is `Applied` of the one before, and a document whose balances cancel keeps them cancelling |
| `Tracker.Ledger.Reverse` | app.py:171-192 | the document after the delete handler's balance moves is `Unapplied` of the one before |
| `Tracker.Ledger.Delete` | app.py:167-192 | reports whether an equal record was present; if so the document after is `Deleted` of the one before, otherwise nothing changes; cancelling balances keep cancelling |

## Left out

- Loading and saving the document in MongoDB (app.py:13-16, 25-40): external I/O. Only the default document the loader creates is modelled.
- Reading the settings file (app.py:18-23): file I/O. `Ledger.Rename` takes the configured names as parameters.
- The Streamlit session, login flow, widgets, reruns, the confirm checkbox and all rendering (app.py:51-87, 122-129, 138-140, 151-167): user interface. The lower bound of the amount input becomes `Apply`'s precondition.
- `datetime.now()` (app.py:115): a clock read. The time stamp is a parameter.
- Python floats: balances and amounts are exact reals. Float `+=` rounding error is not modelled. Neither is a zero net that floats show as a tiny non-zero one.
- Money.Round2: rounds the exact decimal value, ties to even. Python rounds the binary float, so an amount like 2.675, stored just below that value, rounds to 2.67 there and to 2.68 here.
- Record formatting and the label-to-record map used to pick the delete target (app.py:145-149, 156-164): presentation. `Delete` takes the target record itself.
- Stored records whose "type" string is none of the six labels: the type is a closed `Kind`. `ParseKind` shows that such a string matches no rule. The source would then remove the record without moving any balance.
