/** Accounts, and the ledger that is updated in place while fills settle. */
module Ledgers {
  import opened Primitives
  import opened Sums
  import opened Sorting

  /** 256-bit blinding salt of an account leaf. */
  type Salt = s: seq<u8> | |s| == 32 witness seq(32, _ => 0)

  const NO_SALT: Salt := [0,0,0,0,0,0,0,0, 0,0,0,0,0,0,0,0, 0,0,0,0,0,0,0,0, 0,0,0,0,0,0,0,0]

  datatype Account = Account(cash: u128, inventory: map<u64, u64>, salt: Salt)

  type Accounts = map<u64, Account>

  const OPENED := Account(0, map[], NO_SALT)

  function InventoryOf(a: Account, instrument: u64): u64
  {
    if instrument in a.inventory then a.inventory[instrument] else 0
  }

  function CreditCash(a: Account, amount: u128): Result<Account>
  {
    var cash :- AddMoney(a.cash, amount);
    Ok(a.(cash := cash))
  }

  function DebitCash(a: Account, amount: u128): Result<Account>
  {
    var cash :- SubMoney(a.cash, amount);
    Ok(a.(cash := cash))
  }

  function CreditInventory(a: Account, instrument: u64, amount: u64): Result<Account>
  {
    var qty :- AddQty(InventoryOf(a, instrument), amount);
    Ok(a.(inventory := a.inventory[instrument := qty]))
  }

  /** An emptied position is erased rather than kept at zero. */
  function DebitInventory(a: Account, instrument: u64, amount: u64): Result<Account>
  {
    var qty :- SubQty(InventoryOf(a, instrument), amount);
    Ok(a.(inventory := if qty == 0 then a.inventory - {instrument} else a.inventory[instrument := qty]))
  }

  function Open(l: Accounts, id: u64): Accounts
  {
    if id in l then l else l[id := OPENED]
  }

  // ---- Totals ----

  ghost function Measure(l: Accounts, g: Account -> int): u64 -> int
  {
    (id: u64) => if id in l then g(l[id]) else 0
  }

  ghost function TotalBy(l: Accounts, g: Account -> int): int
  {
    Sum(Ascending(l.Keys), Measure(l, g))
  }

  ghost function Cash(): Account -> int { (a: Account) => a.cash }

  ghost function Holding(instrument: u64): Account -> int { (a: Account) => InventoryOf(a, instrument) }

  ghost function TotalCash(l: Accounts): nat
  {
    SumNonNegative(Ascending(l.Keys), Measure(l, Cash()));
    TotalBy(l, Cash())
  }

  ghost function TotalInventory(l: Accounts, instrument: u64): nat
  {
    SumNonNegative(Ascending(l.Keys), Measure(l, Holding(instrument)));
    TotalBy(l, Holding(instrument))
  }

  /** Replacing one account moves a total by that account's change. */
  lemma {:induction false} TotalUpdate(l: Accounts, id: u64, a: Account, g: Account -> int)
    requires id in l
    ensures l[id := a].Keys == l.Keys
    ensures TotalBy(l[id := a], g) == TotalBy(l, g) - g(l[id]) + g(a)
  {
    var keys := Ascending(l.Keys);
    assert l[id := a].Keys == l.Keys;
    AscendingKeys(l.Keys);
    SumChangeOne(keys, id, Measure(l, g), Measure(l[id := a], g));
  }

  /** Totals see only the account set and the measured component. */
  lemma {:induction false} TotalSame(l: Accounts, m: Accounts, g: Account -> int)
    requires l.Keys == m.Keys && forall id :: id in l ==> g(l[id]) == g(m[id])
    ensures TotalBy(l, g) == TotalBy(m, g)
  {
    AscendingKeys(l.Keys);
    SumSame(Ascending(l.Keys), Measure(l, g), Measure(m, g));
  }

  /** One step of adding up a non-negative measure in account order. */
  lemma {:induction false} RunningTotal(l: Accounts, g: Account -> int, i: nat)
    requires i < |Ascending(l.Keys)| && forall id :: id in l ==> 0 <= g(l[id])
    ensures Ascending(l.Keys)[i] in l
    ensures Sum(Ascending(l.Keys)[..i+1], Measure(l, g))
         == Sum(Ascending(l.Keys)[..i], Measure(l, g)) + g(l[Ascending(l.Keys)[i]])
    ensures Sum(Ascending(l.Keys)[..i+1], Measure(l, g)) <= TotalBy(l, g)
  {
    var keys := Ascending(l.Keys);
    AscendingKeys(l.Keys);
    assert keys[i] in keys;
    SumStep(keys, i, Measure(l, g));
    SumPrefixLe(keys, i + 1, Measure(l, g));
  }

  class Ledger {
    var accounts: Accounts

    constructor (initial: Accounts)
      ensures accounts == initial
    {
      accounts := initial;
    }

    method GetOrCreateAccount(id: u64) returns (a: Account)
      modifies this
      ensures accounts == Open(old(accounts), id) && a == accounts[id]
      ensures id in old(accounts) ==> accounts == old(accounts)
      ensures id !in old(accounts) ==>
                && accounts.Keys == old(accounts).Keys + {id}
                && (forall other :: other in old(accounts) ==> accounts[other] == old(accounts)[other])
                && a.cash == 0 && a.inventory == map[] && forall i :: 0 <= i < 32 ==> a.salt[i] == 0
    {
      accounts := Open(accounts, id);
      a := accounts[id];
    }

    /** Stores an updated account, or leaves the ledger alone on failure. */
    method Commit(id: u64, r: Result<Account>) returns (ok: bool)
      requires id in accounts
      modifies this
      ensures ok == r.Ok?
      ensures accounts == if ok then old(accounts)[id := r.value] else old(accounts)
    {
      ok := r.Ok?;
      if ok { accounts := accounts[id := r.value]; }
    }

    method TotalCashChecked() returns (r: Result<u128>)
      ensures r == if TotalCash(accounts) <= MAX128 then Ok(TotalCash(accounts)) else Err
    {
      var l := accounts;
      var keys := InOrder(l.Keys);
      var sum: u128 := 0;
      assert Sum(keys[..0], Measure(l, Cash())) == 0;
      SumAll(keys, Measure(l, Cash()));
      for i := 0 to |keys|
        invariant sum == Sum(keys[..i], Measure(l, Cash()))
      {
        RunningTotal(l, Cash(), i);
        var res := AddMoney(sum, l[keys[i]].cash);
        if res.Err? { return Err; }
        sum := res.value;
      }
      return Ok(sum);
    }

    method TotalInventoryChecked(instrument: u64) returns (r: Result<u64>)
      ensures r == if TotalInventory(accounts, instrument) <= MAX64 then Ok(TotalInventory(accounts, instrument)) else Err
    {
      var l := accounts;
      var keys := InOrder(l.Keys);
      var sum: u64 := 0;
      assert Sum(keys[..0], Measure(l, Holding(instrument))) == 0;
      SumAll(keys, Measure(l, Holding(instrument)));
      for i := 0 to |keys|
        invariant sum == Sum(keys[..i], Measure(l, Holding(instrument)))
      {
        RunningTotal(l, Holding(instrument), i);
        var res := AddQty(sum, InventoryOf(l[keys[i]], instrument));
        if res.Err? { return Err; }
        sum := res.value;
      }
      return Ok(sum);
    }
  }
}
