/** The currency's free balances, as far as the pallet relies on them: an account absent
    from the map has balance zero, and a transfer moves value between two accounts without
    creating or destroying any. */
module Ledger {
  import opened Types

  type Balances = map<AccountId, nat>

  function BalanceIn(m: Balances, a: AccountId): nat {
    if a in m then m[a] else 0
  }

  ghost function PickAccount(m: Balances): (a: AccountId)
    requires m != map[]
    ensures a in m
  {
    var a :| a in m; a
  }

  /** The total issuance held in `m`. */
  ghost function Total(m: Balances): nat
    decreases |m|
  {
    if m == map[] then 0
    else
      var a := PickAccount(m);
      assert |m - {a}| < |m| by { assert (m - {a}).Keys == m.Keys - {a}; }
      m[a] + Total(m - {a})
  }

  /** Any account, not only the one `Total` happens to pick, can be split off the sum. */
  lemma {:induction false} TotalRemove(m: Balances, a: AccountId)
    requires a in m
    ensures Total(m) == m[a] + Total(m - {a})
    decreases |m|
  {
    var b := PickAccount(m);
    assert (m - {b}).Keys == m.Keys - {b};
    if b != a {
      assert (m - {a}).Keys == m.Keys - {a};
      TotalRemove(m - {b}, a);
      TotalRemove(m - {a}, b);
      assert m - {b} - {a} == m - {a} - {b};
    }
  }

  /** Setting one account's balance changes the total by the difference. */
  lemma TotalUpdate(m: Balances, a: AccountId, v: nat)
    ensures Total(m[a := v]) + BalanceIn(m, a) == Total(m) + v
  {
    TotalRemove(m[a := v], a);
    assert m[a := v] - {a} == m - {a};
    if a in m {
      TotalRemove(m, a);
    } else {
      assert m - {a} == m;
    }
  }

  /** The balances after `v` moves from `from` to `to`. */
  function Moved(m: Balances, from: AccountId, to: AccountId, v: nat): Balances
    requires BalanceIn(m, from) >= v
  {
    var m1 := m[from := BalanceIn(m, from) - v];
    m1[to := BalanceIn(m1, to) + v]
  }

  /** Moving `v` from `from` to a different account `to` takes `v` from the one, adds it to
      the other, leaves every other account alone and keeps the total. */
  lemma TotalTransfer(m: Balances, from: AccountId, to: AccountId, v: nat)
    requires from != to && BalanceIn(m, from) >= v
    ensures BalanceIn(Moved(m, from, to, v), from) == BalanceIn(m, from) - v
    ensures BalanceIn(Moved(m, from, to, v), to) == BalanceIn(m, to) + v
    ensures forall a :: a != from && a != to ==> BalanceIn(Moved(m, from, to, v), a) == BalanceIn(m, a)
    ensures Total(Moved(m, from, to, v)) == Total(m)
  {
    var m1 := m[from := BalanceIn(m, from) - v];
    TotalUpdate(m, from, BalanceIn(m, from) - v);
    TotalUpdate(m1, to, BalanceIn(m1, to) + v);
  }
}
