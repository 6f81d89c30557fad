/**
 * Transaction records and the two list operations the tracker performs on
 * them besides appending: `list.remove`, which deletes the first equal
 * record, and the "Recent Transactions" view.
 */
module Records {
  import opened Kinds

  /** A stored transaction: who recorded it, its type, amount, reason and time stamp. */
  datatype Tx = Tx(user: string, kind: Kind, amount: real, reason: string, timestamp: string)

  /** The position of the first record equal to `x`. */
  function FirstIndex(s: seq<Tx>, x: Tx): (i: nat)
    requires x in s
    ensures i < |s| && s[i] == x && x !in s[..i]
  {
    if s[0] == x then 0
    else
      assert s == [s[0]] + s[1..];
      var j := FirstIndex(s[1..], x);
      assert s[..j + 1] == [s[0]] + s[1..][..j];
      j + 1
  }

  /**
   * `list.remove(x)`: the list without its first record equal to `x`, one
   * shorter, or the list itself when no record equals `x`.
   */
  function RemoveFirst(s: seq<Tx>, x: Tx): (r: seq<Tx>)
    ensures x in s ==> |r| == |s| - 1
    ensures x !in s ==> r == s
  {
    if s == [] then []
    else if s[0] == x then s[1..]
    else
      assert s == [s[0]] + s[1..];
      [s[0]] + RemoveFirst(s[1..], x)
  }

  /** Exactly one copy of `x` leaves the collection of records, if there was one. */
  lemma {:induction false} RemoveFirstMultiset(s: seq<Tx>, x: Tx)
    ensures multiset(RemoveFirst(s, x)) == multiset(s) - multiset{x}
  {
    if s != [] {
      assert s == [s[0]] + s[1..];
      if s[0] != x {
        RemoveFirstMultiset(s[1..], x);
      }
    }
  }

  /**
   * Removing the first `x` splices it out at its first position: the
   * records before and after it keep their order.
   */
  lemma {:induction false} RemoveFirstAt(s: seq<Tx>, x: Tx, i: nat)
    requires i < |s| && s[i] == x && x !in s[..i]
    ensures RemoveFirst(s, x) == s[..i] + s[i + 1..]
    decreases i
  {
    var t := s[1..];
    if i == 0 {
      assert s[..0] + s[1..] == t;
    } else {
      assert s[..i] == [s[0]] + t[..i - 1];
      assert s[0] != x && x !in t[..i - 1];
      calc {
        RemoveFirst(s, x);
        [s[0]] + RemoveFirst(t, x);
        { RemoveFirstAt(t, x, i - 1); }
        [s[0]] + (t[..i - 1] + t[i..]);
        { assert t[i..] == s[i + 1..]; }
        s[..i] + s[i + 1..];
      }
    }
  }

  /** The splice of `RemoveFirstAt`, at the position `FirstIndex` finds. */
  lemma RemoveFirstSplices(s: seq<Tx>, x: Tx)
    requires x in s
    ensures var i := FirstIndex(s, x); RemoveFirst(s, x) == s[..i] + s[i + 1..]
  {
    RemoveFirstAt(s, x, FirstIndex(s, x));
  }

  /** A record that occurs nowhere before it is the one removed. */
  lemma {:induction false} RemoveFirstAfter(s: seq<Tx>, t: seq<Tx>, x: Tx)
    requires x !in s
    ensures RemoveFirst(s + t, x) == s + RemoveFirst(t, x)
    decreases |s|
  {
    if s != [] {
      assert s[0] != x;
      assert (s + t)[1..] == s[1..] + t;
      calc {
        RemoveFirst(s + t, x);
        [s[0]] + RemoveFirst(s[1..] + t, x);
        { RemoveFirstAfter(s[1..], t, x); }
        [s[0]] + (s[1..] + RemoveFirst(t, x));
        { assert s == [s[0]] + s[1..]; }
        s + RemoveFirst(t, x);
      }
    } else {
      assert s + t == t;
    }
  }

  /** Removing a record that was just appended, and occurs nowhere else, gives back the list. */
  lemma RemoveLastAppended(s: seq<Tx>, x: Tx)
    requires x !in s
    ensures RemoveFirst(s + [x], x) == s
  {
    RemoveFirstAfter(s, [x], x);
  }

  /** `reversed(s)`: the records of `s`, newest first. */
  function Newest(s: seq<Tx>): (r: seq<Tx>)
    ensures |r| == |s|
    ensures forall i :: 0 <= i < |s| ==> r[i] == s[|s| - 1 - i]
  {
    if s == [] then [] else [s[|s| - 1]] + Newest(s[..|s| - 1])
  }

  /** How many records the "Recent Transactions" list shows at most. */
  const RecentCount: nat := 10

  /**
   * `reversed(transactions[-10:])`: the last ten records, or all of them
   * when there are fewer, newest first. It is empty exactly when there are
   * no records ("No transactions yet.").
   */
  function Recent(s: seq<Tx>): (r: seq<Tx>)
    ensures |r| == if |s| < RecentCount then |s| else RecentCount
    ensures forall i :: 0 <= i < |r| ==> r[i] == s[|s| - 1 - i]
    ensures r == [] <==> s == []
  {
    var start := if |s| < RecentCount then 0 else |s| - RecentCount;
    Newest(s[start..])
  }
}
