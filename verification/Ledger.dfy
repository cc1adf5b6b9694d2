/** Sums of signed quantities and notionals over finite tables. */
module Ledger {

  datatype Amount = Amount(quantity: int, notional: real)

  const ZERO := Amount(0, 0.0)

  function Plus(a: Amount, b: Amount): Amount {
    Amount(a.quantity + b.quantity, a.notional + b.notional)
  }

  /** The sum of a table's entries; `TotalUpdate` shows the order of summation is immaterial. */
  ghost function Total(table: map<string, Amount>): Amount
    decreases |table|
  {
    if table == map[] then ZERO
    else
      var k :| k in table;
      Plus(table[k], Total(table - {k}))
  }

  lemma {:induction false} TotalWithout(table: map<string, Amount>, k: string)
    requires k in table
    ensures Total(table) == Plus(table[k], Total(table - {k}))
    decreases |table|
  {
    var first :| first in table && Total(table) == Plus(table[first], Total(table - {first}));
    if first != k {
      var rest := table - {first} - {k};
      assert rest == table - {k} - {first};
      TotalWithout(table - {first}, k);
      TotalWithout(table - {k}, first);
      assert Total(table - {first}) == Plus(table[k], Total(rest));
      assert Total(table - {k}) == Plus(table[first], Total(rest));
      assert Total(table) == Plus(table[first], Plus(table[k], Total(rest)));
    }
  }

  lemma TotalUpdate(table: map<string, Amount>, k: string, amount: Amount)
    ensures var before := if k in table then table[k] else ZERO;
            Plus(Total(table[k := amount]), before) == Plus(Total(table), amount)
  {
    var updated := table[k := amount];
    TotalWithout(updated, k);
    if k in table {
      TotalWithout(table, k);
      assert updated - {k} == table - {k};
    } else {
      assert updated - {k} == table;
    }
  }

  lemma PlusCancels(total: Amount, total': Amount, before: Amount, moved: Amount)
    requires Plus(total', before) == Plus(total, Plus(before, moved))
    ensures total' == Plus(total, moved)
  {
    assert total'.quantity == total.quantity + moved.quantity;
    assert total'.notional == total.notional + moved.notional;
  }

  /** Entries of nothing add nothing. */
  lemma {:induction false} TotalPadding(table: map<string, Amount>, padded: map<string, Amount>)
    requires table.Keys <= padded.Keys
    requires forall k :: k in padded ==> padded[k] == if k in table then table[k] else ZERO
    ensures Total(padded) == Total(table)
    decreases |padded|
  {
    if k :| k in padded && k !in table {
      TotalWithout(padded, k);
      TotalPadding(table, padded - {k});
    } else {
      assert padded == table;
    }
  }

  /** A sum of entries on one side is on that side. */
  lemma {:induction false} TotalOnOneSide(table: map<string, Amount>, long: bool)
    requires forall k :: k in table ==> if long then table[k].quantity >= 0 else table[k].quantity <= 0
    ensures if long then Total(table).quantity >= 0 else Total(table).quantity <= 0
    decreases |table|
  {
    if k :| k in table {
      TotalWithout(table, k);
      TotalOnOneSide(table - {k}, long);
    } else {
      assert table == map[];
    }
  }
}
