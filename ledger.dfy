/**
 * The accounting rules of the service: the operations recorded on a
 * statement, the balance computed from them (`getBalance`) and the
 * statement filtered by calendar day (`GET /statement/date`).
 */
module Ledger {
  import opened Wrappers

  /** The calendar day (in the server's local time zone) of an instant. */
  type Day = int

  const CREDIT: string := "credit"
  const DEBIT: string := "debit"

  /**
   * One statement entry. `createdAt` keeps only the calendar day of the
   * creation instant, the only part of it the service ever compares.
   * `kind` is the free `type` string of the record: the service writes
   * "credit" or "debit", the balance only asks whether it is "credit".
   */
  datatype Operation = Operation(description: string, amount: int, createdAt: Day, kind: string)

  /** One step of the reduction: add a credit, subtract anything else. */
  function Step(acc: int, op: Operation): int
  {
    if op.kind == CREDIT then acc + op.amount else acc - op.amount
  }

  /**
   * `statement.reduce(Step, acc)`: a left-to-right fold. From any starting
   * value it adds the credits and takes away every other amount.
   */
  function FoldLeft(acc: int, s: seq<Operation>): (r: int)
    ensures r == acc + Credits(s) - Debits(s)
    decreases |s|
  {
    if s == [] then acc else FoldLeft(Step(acc, s[0]), s[1..])
  }

  /**
   * `getBalance(statement)`: the fold started at 0, which is the sum of the
   * credits minus the sum of everything else; an empty statement gives 0.
   */
  function Balance(s: seq<Operation>): (r: int)
    ensures r == Credits(s) - Debits(s)
    ensures s == [] ==> r == 0
  {
    FoldLeft(0, s)
  }

  // ---------------------------------------------------------------------
  // Reference definition: total of the credits minus total of the rest.

  /** What an operation contributes to a balance. */
  function Signed(op: Operation): int
  {
    if op.kind == CREDIT then op.amount else -op.amount
  }

  /** Sum of the amounts of the "credit" operations. */
  function Credits(s: seq<Operation>): int
  {
    if s == [] then 0
    else (if s[0].kind == CREDIT then s[0].amount else 0) + Credits(s[1..])
  }

  /** Sum of the amounts of every operation that is not a "credit". */
  function Debits(s: seq<Operation>): int
  {
    if s == [] then 0
    else (if s[0].kind == CREDIT then 0 else s[0].amount) + Debits(s[1..])
  }

  /** Credits and debits of a concatenation split over its parts. */
  lemma {:induction false} TotalsConcat(s: seq<Operation>, t: seq<Operation>)
    ensures Credits(s + t) == Credits(s) + Credits(t)
    ensures Debits(s + t) == Debits(s) + Debits(t)
    decreases |s|
  {
    if s == [] {
      assert s + t == t;
    } else {
      assert (s + t)[1..] == s[1..] + t;
      TotalsConcat(s[1..], t);
    }
  }

  /** The balance of a statement made of two parts is the sum of their balances. */
  lemma BalanceConcat(s: seq<Operation>, t: seq<Operation>)
    ensures Balance(s + t) == Balance(s) + Balance(t)
  {
    TotalsConcat(s, t);
  }

  /** Appending one operation moves the balance by exactly its signed amount. */
  lemma BalanceAppend(s: seq<Operation>, op: Operation)
    ensures Balance(s + [op]) == Balance(s) + Signed(op)
    ensures op.kind == CREDIT ==> Balance(s + [op]) == Balance(s) + op.amount
    ensures op.kind != CREDIT ==> Balance(s + [op]) == Balance(s) - op.amount
  {
    BalanceConcat(s, [op]);
    assert Balance([op]) == FoldLeft(Step(0, op), [op][1..]);
    assert [op][1..] == [];
  }

  /** The balance does not depend on the order of the operations. */
  lemma {:induction false} BalancePermutation(s: seq<Operation>, t: seq<Operation>)
    requires multiset(s) == multiset(t)
    ensures Balance(s) == Balance(t)
    decreases |s|
  {
    if s != [] {
      assert s[0] in multiset(t);
      var k :| 0 <= k < |t| && t[k] == s[0];
      var rest := t[..k] + t[k + 1..];
      assert t == t[..k] + [t[k]] + t[k + 1..];
      assert s == [s[0]] + s[1..];
      assert multiset(s[1..]) == multiset(rest) by {
        calc {
          multiset(s[1..]);
          multiset(s) - multiset{s[0]};
          multiset(t) - multiset{t[k]};
          multiset(t[..k]) + multiset(t[k + 1..]);
        }
      }
      BalancePermutation(s[1..], rest);
      BalanceConcat([s[0]], s[1..]);
      BalanceConcat(t[..k] + [t[k]], t[k + 1..]);
      BalanceConcat(t[..k], [t[k]]);
      BalanceConcat(t[..k], t[k + 1..]);
    }
  }

  // ---------------------------------------------------------------------
  // Statement filtered by calendar day.

  /**
   * Whether an operation falls on the requested day. `None` stands for a
   * query date that does not parse: its day string never equals that of a
   * real creation instant, so nothing matches it.
   */
  predicate OnDay(op: Operation, target: Option<Day>)
  {
    target.Some? && op.createdAt == target.value
  }

  /** `statement.filter(...)` with the day comparison of `GET /statement/date`. */
  function FilterByDay(s: seq<Operation>, target: Option<Day>): (r: seq<Operation>)
    ensures |r| <= |s|
    ensures forall op :: op in r <==> op in s && OnDay(op, target)
    ensures forall op :: multiset(r)[op] == if OnDay(op, target) then multiset(s)[op] else 0
    ensures target.None? ==> r == []
    decreases |s|
  {
    if s == [] then []
    else
      assert s == [s[0]] + s[1..];
      (if OnDay(s[0], target) then [s[0]] else []) + FilterByDay(s[1..], target)
  }

  /** `r` is read off `s` at the positions `idx`. */
  ghost predicate Picks(s: seq<Operation>, r: seq<Operation>, idx: seq<nat>)
  {
    |idx| == |r| && forall k :: 0 <= k < |idx| ==> idx[k] < |s| && r[k] == s[idx[k]]
  }

  ghost predicate StrictlyIncreasing(idx: seq<nat>)
  {
    forall k, l :: 0 <= k < l < |idx| ==> idx[k] < idx[l]
  }

  /** The positions `idx` are exactly those of `s` holding an operation of the target day. */
  ghost predicate Covers(s: seq<Operation>, idx: seq<nat>, target: Option<Day>)
  {
    forall i :: 0 <= i < |s| ==> (OnDay(s[i], target) <==> i in idx)
  }

  /**
   * `r` is drawn from `s` at the strictly increasing positions `idx`, and
   * those positions are exactly the ones holding an operation of that day.
   */
  ghost predicate SelectsExactly(s: seq<Operation>, r: seq<Operation>, idx: seq<nat>, target: Option<Day>)
  {
    Picks(s, r, idx) && StrictlyIncreasing(idx) && Covers(s, idx, target)
  }

  /** Every position moved one place to the right. */
  ghost function Shift(idx: seq<nat>): seq<nat>
  {
    seq(|idx|, k requires 0 <= k < |idx| => idx[k] + 1)
  }

  /**
   * The filtered statement is an order-preserving subsequence of the
   * statement that keeps every operation of the target day and no other.
   */
  lemma {:induction false} FilterSelectsExactly(s: seq<Operation>, target: Option<Day>) returns (idx: seq<nat>)
    ensures SelectsExactly(s, FilterByDay(s, target), idx, target)
    decreases |s|
  {
    if s == [] {
      idx := [];
    } else {
      var tailIdx := FilterSelectsExactly(s[1..], target);
      var tail := FilterByDay(s[1..], target);
      var hit := OnDay(s[0], target);
      idx := (if hit then [0] else []) + Shift(tailIdx);
      PicksCons(s, tail, tailIdx, hit);
      IncreasingCons(tailIdx, hit);
      CoversCons(s, tailIdx, target);
    }
  }

  // The three steps below split the inductive step of FilterSelectsExactly into
  // separate proof obligations, one per conjunct of SelectsExactly.

  lemma PicksCons(s: seq<Operation>, tail: seq<Operation>, tailIdx: seq<nat>, hit: bool)
    requires s != [] && Picks(s[1..], tail, tailIdx)
    ensures Picks(s, (if hit then [s[0]] else []) + tail, (if hit then [0] else []) + Shift(tailIdx))
  {
  }

  lemma IncreasingCons(tailIdx: seq<nat>, hit: bool)
    requires StrictlyIncreasing(tailIdx)
    ensures StrictlyIncreasing((if hit then [0] else []) + Shift(tailIdx))
  {
  }

  lemma CoversCons(s: seq<Operation>, tailIdx: seq<nat>, target: Option<Day>)
    requires s != [] && Covers(s[1..], tailIdx, target)
    ensures Covers(s, (if OnDay(s[0], target) then [0] else []) + Shift(tailIdx), target)
  {
    assert forall k :: 0 <= k < |tailIdx| ==> Shift(tailIdx)[k] == tailIdx[k] + 1;
  }

  /** Two operations recorded on days D and D + 1 are told apart by a query for day D. */
  lemma FilterSeparatesDays(s: seq<Operation>, d: Day)
    requires forall i :: 0 <= i < |s| ==> s[i].createdAt == d || s[i].createdAt == d + 1
    ensures forall op :: op in FilterByDay(s, Some(d)) <==> op in s && op.createdAt == d
    ensures forall op :: op in FilterByDay(s, Some(d + 1)) <==> op in s && op.createdAt != d
  {
  }
}
