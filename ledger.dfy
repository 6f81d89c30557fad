/**
 * The shared two-party ledger: two named balances and the ordered list of
 * transaction records. `Book` is the ledger document as a value, with the
 * operations on it as functions; `Ledger` is the mutable document the
 * tracker's handlers update in place, each of its methods specified by one of
 * those functions.
 */
module Tracker {
  import opened Wrappers
  import opened Money
  import opened Text
  import opened Kinds
  import opened Records

  /** The ledger document: each party's name and balance, and the records in insertion order. */
  datatype Book = Book(nameA: string, balA: real, nameB: string, balB: real, txs: seq<Tx>)

  /** The document created when the store holds none: zero balances, no records. */
  const DefaultBook: Book := Book("Alice", 0.0, "Bob", 0.0, [])

  /** The balance of party `p`. */
  function Balance(b: Book, p: Party): real {
    if p == PersonA then b.balA else b.balB
  }

  /** `ledger[p]["balance"] += x`. */
  function Shift(b: Book, p: Party, x: real): Book {
    if p == PersonA then b.(balA := b.balA + x) else b.(balB := b.balB + x)
  }

  /** The two balances cancel out: what one party is owed, the other owes. */
  predicate ZeroSum(b: Book) {
    b.balA + b.balB == 0.0
  }

  /** The record the tracker appends: the amount rounded to cents and the reason stripped. */
  function Record(user: string, k: Kind, amount: real, reason: string, timestamp: string): Tx {
    Tx(user, k, Round2(amount), Strip(reason), timestamp)
  }

  /**
   * The add handler's balance moves: the recorder's balance moves by the
   * rule table's change and the other party's by its negation, so their
   * sum stays what it was.
   */
  function Moved(b: Book, user: string, k: Kind, amount: real): (r: Book)
    ensures r.balA + r.balB == b.balA + b.balB
    ensures var roles := Resolve(user, b.nameA);
      Balance(r, roles.me) == Balance(b, roles.me) + Delta(k, amount) &&
      Balance(r, roles.them) == Balance(b, roles.them) - Delta(k, amount)
    ensures r.nameA == b.nameA && r.nameB == b.nameB && r.txs == b.txs
  {
    var roles := Resolve(user, b.nameA);
    var d := Delta(k, amount);
    Shift(Shift(b, roles.me, d), roles.them, -d)
  }

  /**
   * Adding a transaction: the balances move as `Moved` says, which keeps
   * their sum, and exactly one record is appended after the unchanged
   * earlier ones.
   */
  function Applied(b: Book, user: string, k: Kind, amount: real, reason: string, timestamp: string): (r: Book)
    ensures r.balA + r.balB == b.balA + b.balB
    ensures r.balA == Moved(b, user, k, amount).balA && r.balB == Moved(b, user, k, amount).balB
    ensures |r.txs| == |b.txs| + 1 && r.txs[..|b.txs|] == b.txs
    ensures r.txs[|b.txs|] == Record(user, k, amount, reason, timestamp)
    ensures r.nameA == b.nameA && r.nameB == b.nameB
  {
    var rec := Record(user, k, amount, reason, timestamp);
    assert (b.txs + [rec])[..|b.txs|] == b.txs;
    Moved(b, user, k, amount).(txs := b.txs + [rec])
  }

  /**
   * The delete handler's balance moves for `target`: the recorder's balance
   * moves back by the change its type and recorded amount made, and the
   * other party's by the opposite, so their sum stays what it was.
   */
  function Unapplied(b: Book, target: Tx): (r: Book)
    ensures r.balA + r.balB == b.balA + b.balB
    ensures var roles := Resolve(target.user, b.nameA);
      Balance(r, roles.me) == Balance(b, roles.me) - Delta(target.kind, target.amount) &&
      Balance(r, roles.them) == Balance(b, roles.them) + Delta(target.kind, target.amount)
    ensures r.nameA == b.nameA && r.nameB == b.nameB && r.txs == b.txs
  {
    var roles := Resolve(target.user, b.nameA);
    var d := Undo(target.kind, target.amount);
    Shift(Shift(b, roles.me, d), roles.them, -d)
  }

  /**
   * Deleting a record: nothing when no record equals `target` (`list.remove`
   * fails before any balance moves); otherwise the first equal record is
   * removed and the balances move back for its recorded kind, amount and
   * user, which leaves their sum as it was.
   */
  function Deleted(b: Book, target: Tx): (r: Option<Book>)
    ensures r.None? <==> target !in b.txs
    ensures r.Some? ==> r.value.txs == RemoveFirst(b.txs, target) && |r.value.txs| == |b.txs| - 1
    ensures r.Some? ==> r.value.balA + r.value.balB == b.balA + b.balB
    ensures r.Some? ==> r.value.balA == Unapplied(b, target).balA && r.value.balB == Unapplied(b, target).balB
    ensures r.Some? ==> r.value.nameA == b.nameA && r.value.nameB == b.nameB
  {
    if target !in b.txs then None
    else Some(Unapplied(b.(txs := RemoveFirst(b.txs, target)), target))
  }

  /**
   * Moving the balances back for a record of the same user and kind
   * restores them exactly when the recorded amount is the amount applied.
   */
  lemma UnappliedUndoesMoved(b: Book, user: string, k: Kind, amount: real, rec: Tx)
    requires rec.user == user && rec.kind == k
    ensures var back := Unapplied(Moved(b, user, k, amount), rec);
      back.balA == b.balA && back.balB == b.balB <==> rec.amount == amount
  {
    var moved := Moved(b, user, k, amount);
    var back := Unapplied(moved, rec);
    var me := Resolve(user, b.nameA).me;
    DeltaInjective(k, amount, rec.amount);
    assert Balance(back, me) - Balance(b, me) == Delta(k, amount) - Delta(k, rec.amount);
  }

  /**
   * Deleting the record an add just appended takes it out again and applies
   * the opposite change for the recorded amount. The balances come back to
   * what they were exactly when the amount was already a whole number of
   * cents, so that the recorded, rounded amount is the amount applied. The
   * records always come back as the same collection, and as the same list
   * when no equal record was there before.
   */
  lemma DeleteUndoesApply(b: Book, user: string, k: Kind, amount: real, reason: string, timestamp: string)
    ensures var after := Applied(b, user, k, amount, reason, timestamp);
      var rec := Record(user, k, amount, reason, timestamp);
      var back := Deleted(after, rec);
      back.Some? &&
      (back.value.balA == b.balA && back.value.balB == b.balB <==> IsCents(amount)) &&
      multiset(back.value.txs) == multiset(b.txs) &&
      (rec !in b.txs ==> back.value.txs == b.txs) &&
      (rec !in b.txs && IsCents(amount) ==> back.value == b)
  {
    var rec := Record(user, k, amount, reason, timestamp);
    assert Applied(b, user, k, amount, reason, timestamp) == Moved(b, user, k, amount).(txs := b.txs + [rec]);
    DeleteUndoesAppend(b, user, k, amount, rec);
  }

  /**
   * The core of `DeleteUndoesApply`, for any appended record of the same
   * user and kind: the balances come back exactly when its amount is the
   * amount applied.
   */
  lemma DeleteUndoesAppend(b: Book, user: string, k: Kind, amount: real, rec: Tx)
    requires rec.user == user && rec.kind == k
    ensures var back := Deleted(Moved(b, user, k, amount).(txs := b.txs + [rec]), rec);
      back.Some? &&
      (back.value.balA == b.balA && back.value.balB == b.balB <==> rec.amount == amount) &&
      multiset(back.value.txs) == multiset(b.txs) &&
      (rec !in b.txs ==> back.value.txs == b.txs) &&
      (rec !in b.txs && rec.amount == amount ==> back.value == b)
  {
    var moved := Moved(b, user, k, amount);
    assert rec in moved.(txs := b.txs + [rec]).txs;
    var back := Unapplied(moved.(txs := RemoveFirst(b.txs + [rec], rec)), rec);
    UnappliedUndoesMoved(b, user, k, amount, rec);
    assert back.balA == Unapplied(moved, rec).balA && back.balB == Unapplied(moved, rec).balB;
    RemoveFirstMultiset(b.txs + [rec], rec);
    assert multiset(b.txs + [rec]) - multiset{rec} == multiset(b.txs);
    if rec !in b.txs {
      RemoveLastAppended(b.txs, rec);
    }
  }

  /** The change one record made to person A's balance, as its recorded fields say. */
  function CreditA(t: Tx, personAName: string): real {
    var d := Delta(t.kind, t.amount);
    if Resolve(t.user, personAName).me == PersonA then d else -d
  }

  /** The total change the records of `s` made to person A's balance. */
  function Credits(s: seq<Tx>, personAName: string): real {
    if s == [] then 0.0 else CreditA(s[0], personAName) + Credits(s[1..], personAName)
  }

  /** A record appended at the end adds its own change to the total. */
  lemma {:induction false} CreditsAppend(s: seq<Tx>, t: Tx, personAName: string)
    ensures Credits(s + [t], personAName) == Credits(s, personAName) + CreditA(t, personAName)
  {
    if s != [] {
      assert (s + [t])[1..] == s[1..] + [t];
      CreditsAppend(s[1..], t, personAName);
    }
  }

  /** Removing a record takes away its own change from the total. */
  lemma {:induction false} CreditsRemoveFirst(s: seq<Tx>, x: Tx, personAName: string)
    requires x in s
    ensures Credits(RemoveFirst(s, x), personAName) == Credits(s, personAName) - CreditA(x, personAName)
  {
    if s[0] != x {
      assert s == [s[0]] + s[1..];
      CreditsRemoveFirst(s[1..], x, personAName);
      assert ([s[0]] + RemoveFirst(s[1..], x))[1..] == RemoveFirst(s[1..], x);
    }
  }

  /**
   * The balances are accounted for by the records: person A's balance is
   * the total change its records made, and person B's is its negation.
   */
  predicate Explained(b: Book) {
    b.balA == Credits(b.txs, b.nameA) && ZeroSum(b)
  }

  /** The default document is accounted for by its (empty) list of records. */
  lemma DefaultExplained()
    ensures Explained(DefaultBook)
  {
  }

  /**
   * Adding a transaction keeps the balances accounted for by the records
   * exactly when its amount is a whole number of cents: otherwise the
   * record stores a rounded amount that differs from the one applied.
   */
  lemma ApplyKeepsExplained(b: Book, user: string, k: Kind, amount: real, reason: string, timestamp: string)
    requires Explained(b)
    ensures Explained(Applied(b, user, k, amount, reason, timestamp)) <==> IsCents(amount)
  {
    var rec := Record(user, k, amount, reason, timestamp);
    var m := Moved(b, user, k, amount);
    var r := m.(txs := b.txs + [rec]);
    assert r == Applied(b, user, k, amount, reason, timestamp);
    CreditsAppend(b.txs, rec, b.nameA);
    assert Credits(r.txs, r.nameA) == b.balA + CreditA(rec, b.nameA);
    DeltaInjective(k, amount, rec.amount);
    if Resolve(user, b.nameA).me == PersonA {
      assert r.balA == b.balA + Delta(k, amount);
      assert CreditA(rec, b.nameA) == Delta(k, rec.amount);
    } else {
      assert r.balA == b.balA - Delta(k, amount);
      assert CreditA(rec, b.nameA) == -Delta(k, rec.amount);
    }
    assert rec.amount == amount <==> IsCents(amount);
  }

  /** Deleting a record keeps the balances accounted for by the records. */
  lemma DeleteKeepsExplained(b: Book, target: Tx)
    requires Explained(b)
    ensures Deleted(b, target).Some? ==> Explained(Deleted(b, target).value)
  {
    if target in b.txs {
      CreditsRemoveFirst(b.txs, target, b.nameA);
    }
  }

  /** A user action on the ledger: adding a transaction, or deleting a record. */
  datatype Op =
    | Add(user: string, kind: Kind, amount: real, reason: string, timestamp: string)
    | Remove(target: Tx)

  /** One action; a delete that finds no record leaves the ledger as it was. */
  function Step(b: Book, op: Op): Book {
    match op
    case Add(user, k, amount, reason, timestamp) => Applied(b, user, k, amount, reason, timestamp)
    case Remove(target) => if target in b.txs then Deleted(b, target).value else b
  }

  /** A sequence of actions, first to last. */
  function Run(b: Book, ops: seq<Op>): Book
    decreases |ops|
  {
    if ops == [] then b else Run(Step(b, ops[0]), ops[1..])
  }

  /**
   * No sequence of adds and deletes changes the sum of the two balances; so
   * from the default document the balances always cancel out.
   */
  lemma {:induction false} RunKeepsSum(b: Book, ops: seq<Op>)
    ensures Run(b, ops).balA + Run(b, ops).balB == b.balA + b.balB
    decreases |ops|
  {
    if ops != [] {
      RunKeepsSum(Step(b, ops[0]), ops[1..]);
    }
  }

  /** From the default document the balances always cancel out. */
  lemma DefaultRunZeroSum(ops: seq<Op>)
    ensures ZeroSum(Run(DefaultBook, ops))
  {
    RunKeepsSum(DefaultBook, ops);
  }

  /** Every amount added is a whole number of cents. */
  predicate CentAmounts(ops: seq<Op>) {
    forall i :: 0 <= i < |ops| && ops[i].Add? ==> IsCents(ops[i].amount)
  }

  /** One action keeps the balances accounted for when the amount it adds, if any, is in cents. */
  lemma StepKeepsExplained(b: Book, op: Op)
    requires Explained(b)
    requires op.Add? ==> IsCents(op.amount)
    ensures Explained(Step(b, op))
  {
    match op
    case Add(user, k, amount, reason, timestamp) =>
      ApplyKeepsExplained(b, user, k, amount, reason, timestamp);
    case Remove(target) =>
      DeleteKeepsExplained(b, target);
  }

  /**
   * When every amount added is a whole number of cents, any sequence of
   * adds and deletes keeps the balances accounted for by the records.
   */
  lemma {:induction false} RunKeepsExplained(b: Book, ops: seq<Op>)
    requires Explained(b) && CentAmounts(ops)
    ensures Explained(Run(b, ops))
    decreases |ops|
  {
    if ops != [] {
      StepKeepsExplained(b, ops[0]);
      assert CentAmounts(ops[1..]) by {
        forall i | 0 <= i < |ops| - 1 && ops[1..][i].Add?
          ensures IsCents(ops[1..][i].amount)
        {
          assert ops[1..][i] == ops[i + 1];
        }
      }
      RunKeepsExplained(Step(b, ops[0]), ops[1..]);
    }
  }

  /** The "Settlement Suggestion": who owes whom how much, or all settled up. */
  datatype Suggestion = BOwesA(amount: real) | AOwesB(amount: real) | SettledUp

  /**
   * The suggestion reads person A's balance as the net: B owes A when it is
   * positive, A owes B when it is negative, settled when it is zero. The
   * amount owed is always positive and is the size of the net; when the
   * balances cancel out, it is also the size of the debtor's balance.
   */
  function Settlement(b: Book): (s: Suggestion)
    ensures s.BOwesA? <==> b.balA > 0.0
    ensures s.AOwesB? <==> b.balA < 0.0
    ensures s.SettledUp? <==> b.balA == 0.0
    ensures !s.SettledUp? ==> s.amount > 0.0 && (s.amount == b.balA || s.amount == -b.balA)
    ensures ZeroSum(b) && s.BOwesA? ==> s.amount == -b.balB
    ensures ZeroSum(b) && s.AOwesB? ==> s.amount == -b.balA
  {
    var net := b.balA;
    if net > 0.0 then BOwesA(net)
    else if net < 0.0 then AOwesB(-net)
    else SettledUp
  }

  /**
   * Following the suggestion settles the ledger: when the debtor records
   * "You Paid Them (Settlement)" for the suggested amount, the ledger is
   * settled up afterwards.
   */
  lemma SettlingUpSettles(b: Book, user: string, reason: string, timestamp: string)
    requires !Settlement(b).SettledUp?
    requires Settlement(b).AOwesB? <==> user == b.nameA
    ensures Settlement(Applied(b, user, YouPaidThem, Settlement(b).amount, reason, timestamp)) == SettledUp
  {
    var x := Settlement(b).amount;
    var m := Moved(b, user, YouPaidThem, x);
    assert Applied(b, user, YouPaidThem, x, reason, timestamp).balA == m.balA;
    if user == b.nameA {
      assert m.balA == b.balA + x;
    } else {
      assert m.balA == b.balA - x;
    }
  }

  /**
   * The ledger document as the tracker holds it in memory and updates in
   * place before saving it back.
   */
  class Ledger {
    var nameA: string
    var balA: real
    var nameB: string
    var balB: real
    var txs: seq<Tx>

    /** The document's current value. */
    function Value(): Book
      reads this
    {
      Book(nameA, balA, nameB, balB, txs)
    }

    /** The default document: zero balances, no records. */
    constructor ()
      ensures Value() == DefaultBook
    {
      nameA, balA := "Alice", 0.0;
      nameB, balB := "Bob", 0.0;
      txs := [];
    }

    /** The parties' names are overwritten with the configured ones; nothing else changes. */
    method Rename(personAName: string, personBName: string)
      modifies this
      ensures Value() == old(Value()).(nameA := personAName, nameB := personBName)
    {
      nameA := personAName;
      nameB := personBName;
    }

    /** `ledger[p]["balance"] += x`. */
    method Credit(p: Party, x: real)
      modifies this
      ensures Value() == Shift(old(Value()), p, x)
    {
      if p == PersonA {
        balA := balA + x;
      } else {
        balB := balB + x;
      }
    }

    /** `ledger[p]["balance"] -= x`. */
    method Debit(p: Party, x: real)
      modifies this
      ensures Value() == Shift(old(Value()), p, -x)
    {
      if p == PersonA {
        balA := balA - x;
      } else {
        balB := balB - x;
      }
    }

    /**
     * The add handler's balance moves: resolve the user's role and move both
     * balances by the rule for the chosen type.
     */
    method Move(user: string, k: Kind, amount: real)
      modifies this
      ensures Value() == Moved(old(Value()), user, k, amount)
    {
      var roles := Resolve(user, nameA);
      var me, them := roles.me, roles.them;
      match k {
      case YouPaidSplit =>
        Credit(me, amount / 2.0);
        Debit(them, amount / 2.0);
      case YouPaidFull =>
        Credit(me, amount);
        Debit(them, amount);
      case TheyPaidSplit =>
        Debit(me, amount / 2.0);
        Credit(them, amount / 2.0);
      case TheyPaidFull =>
        Debit(me, amount);
        Credit(them, amount);
      case TheyPaidYou =>
        Debit(me, amount);
        Credit(them, amount);
      case YouPaidThem =>
        Credit(me, amount);
        Debit(them, amount);
      }
    }

    /**
     * "Add Transaction": move both balances by the rule for the chosen
     * type, then append the record.
     */
    method Apply(user: string, k: Kind, amount: real, reason: string, timestamp: string)
      requires amount >= MinAmount
      modifies this
      ensures Value() == Applied(old(Value()), user, k, amount, reason, timestamp)
      ensures ZeroSum(old(Value())) ==> ZeroSum(Value())
    {
      Move(user, k, amount);
      txs := txs + [Tx(user, k, Round2(amount), Strip(reason), timestamp)];
    }

    /**
     * The delete handler's balance moves: resolve the recorded user's role
     * and move both balances back by the rule for the recorded type and amount.
     */
    method Reverse(target: Tx)
      modifies this
      ensures Value() == Unapplied(old(Value()), target)
    {
      var roles := Resolve(target.user, nameA);
      var me, them := roles.me, roles.them;
      var amt := target.amount;
      match target.kind {
      case YouPaidSplit =>
        Debit(me, amt / 2.0);
        Credit(them, amt / 2.0);
      case YouPaidFull =>
        Debit(me, amt);
        Credit(them, amt);
      case TheyPaidSplit =>
        Credit(me, amt / 2.0);
        Debit(them, amt / 2.0);
      case TheyPaidFull =>
        Credit(me, amt);
        Debit(them, amt);
      case TheyPaidYou =>
        Credit(me, amt);
        Debit(them, amt);
      case YouPaidThem =>
        Debit(me, amt);
        Credit(them, amt);
      }
    }

    /**
     * "Delete Transaction": remove the first record equal to `target`, then
     * move both balances back by the rule for its recorded type, amount and
     * user. When no record equals `target` nothing changes and `found` is false.
     */
    method Delete(target: Tx) returns (found: bool)
      modifies this
      ensures found <==> target in old(txs)
      ensures found ==> Deleted(old(Value()), target) == Some(Value())
      ensures !found ==> Value() == old(Value())
      ensures ZeroSum(old(Value())) ==> ZeroSum(Value())
    {
      var i := 0;
      while i < |txs| && txs[i] != target
        invariant 0 <= i <= |txs|
        invariant target !in txs[..i]
      {
        i := i + 1;
      }
      if i == |txs| {
        assert txs[..i] == txs;
        return false;
      }
      RemoveFirstAt(txs, target, i);
      txs := txs[..i] + txs[i + 1..];
      Reverse(target);
      found := true;
    }
  }
}
