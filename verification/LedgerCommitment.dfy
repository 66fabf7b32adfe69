/** The ledger root of one instrument: accounts committed in ascending order,
    each under its blinding salt. */
module LedgerCommitment {
  import opened Primitives
  import opened Sorting
  import opened Ledgers
  import opened Commitments
  import opened Merkle

  function AccountLeaf(id: u64, a: Account, instrument: u64): Digest
  {
    Leaf(EncodeAccount(id, a.cash, instrument, InventoryOf(a, instrument), a.salt))
  }

  /** What an account's leaf states, byte by byte. */
  lemma {:induction false} AccountLeafStates(id: u64, a: Account, instrument: u64)
    ensures AccountLeaf(id, a, instrument).Leaf?
    ensures var s := AccountLeaf(id, a, instrument).payload;
            && |s| == 77 && TextAt(s, 0, "FCAC") && NumberAt(s, 4, 1, 1)
            && NumberAt(s, 5, 8, id) && NumberAt(s, 13, 16, a.cash) && NumberAt(s, 29, 8, instrument)
            && NumberAt(s, 37, 8, InventoryOf(a, instrument)) && SaltAt(s, 45, a.salt)
  {
    hide EncodeAccount, NumberAt, TextAt, SaltAt;
    AccountLayout(id, a.cash, instrument, InventoryOf(a, instrument), a.salt);
  }

  ghost function LeavesFor(l: Accounts, keys: seq<u64>, instrument: u64): seq<Digest>
    requires forall k :: k in keys ==> k in l
  {
    seq(|keys|, i requires 0 <= i < |keys| => AccountLeaf(keys[i], l[keys[i]], instrument))
  }

  ghost function AccountLeaves(l: Accounts, instrument: u64): seq<Digest>
  {
    AscendingKeys(l.Keys);
    LeavesFor(l, Ascending(l.Keys), instrument)
  }

  ghost function LedgerRoot(l: Accounts, instrument: u64): Digest
  {
    Root(AccountLeaves(l, instrument))
  }

  method CollectLeaves(ledger: Ledger, instrument: u64) returns (keys: seq<u64>, leaves: seq<Digest>)
    ensures keys == Ascending(ledger.accounts.Keys)
    ensures leaves == AccountLeaves(ledger.accounts, instrument)
  {
    var l := ledger.accounts;
    keys := InOrder(l.Keys);
    LeavesArePerfect(l, instrument);
    hide AccountLeaves, LeavesFor, AccountLeaf, Ascending;
    leaves := [];
    for i := 0 to |keys|
      invariant leaves == AccountLeaves(l, instrument)[..i]
    {
      LeafAt(l, instrument, i);
      leaves := leaves + [AccountLeaf(keys[i], l[keys[i]], instrument)];
    }
  }

  method ComputeLedgerRoot(ledger: Ledger, instrument: u64) returns (root: Digest)
    ensures root == LedgerRoot(ledger.accounts, instrument)
    ensures unchanged(ledger)
  {
    if ledger.accounts == map[] {
      AscendingKeys(ledger.accounts.Keys);
      return Empty;
    }
    var keys, leaves := CollectLeaves(ledger, instrument);
    var tree := new MerkleTree(leaves);
    root := tree.GetRoot();
  }

  /** The leaf and authentication path of one account, if it exists. */
  method LedgerAccountProof(ledger: Ledger, instrument: u64, id: u64) returns (r: Option<(Digest, seq<Step>)>)
    ensures r.Some? <==> id in ledger.accounts
    ensures r.Some? ==> r.value.0 == AccountLeaf(id, ledger.accounts[id], instrument)
    ensures r.Some? ==> Fold(r.value.1, r.value.0) == LedgerRoot(ledger.accounts, instrument)
    ensures unchanged(ledger)
  {
    hide AccountLeaves, LeavesFor, Root, Path, Fold, Ascending, AccountLeaf;
    var keys, leaves := CollectLeaves(ledger, instrument);
    var index: Option<nat> := None;
    for i := 0 to |keys|
      invariant index.Some? ==> index.value < i && keys[index.value] == id
      invariant index.None? ==> id !in keys[..i]
    {
      if keys[i] == id { index := Some(i); }
    }
    AscendingKeys(ledger.accounts.Keys);
    assert keys[..|keys|] == keys;
    if index.None? { return None; }
    LeavesArePerfect(ledger.accounts, instrument);
    LeafAt(ledger.accounts, instrument, index.value);
    var tree := new MerkleTree(leaves);
    var proof := tree.GenerateProof(index.value);
    InclusionComplete(leaves, index.value);
    return Some((leaves[index.value], proof.value));
  }

  // ---- What the root says about the ledger ----

  lemma {:induction false} LeavesArePerfect(l: Accounts, instrument: u64)
    ensures AllPerfect(AccountLeaves(l, instrument), 0)
    ensures |AccountLeaves(l, instrument)| == |Ascending(l.Keys)|
  {
    AscendingKeys(l.Keys);
  }

  lemma {:induction false} LeafAt(l: Accounts, instrument: u64, i: nat)
    requires i < |Ascending(l.Keys)|
    ensures Ascending(l.Keys)[i] in l
    ensures AccountLeaves(l, instrument)[i]
         == AccountLeaf(Ascending(l.Keys)[i], l[Ascending(l.Keys)[i]], instrument)
  {
    AscendingKeys(l.Keys);
    assert Ascending(l.Keys)[i] in Ascending(l.Keys);
  }

  lemma {:induction false} AccountLeafInjective(id: u64, a: Account, inst: u64, id': u64, b: Account, inst': u64)
    requires AccountLeaf(id, a, inst) == AccountLeaf(id', b, inst')
    ensures id == id' && inst == inst' && a.cash == b.cash && a.salt == b.salt
    ensures InventoryOf(a, inst) == InventoryOf(b, inst)
  {
    EncodeAccountInjective(id, a.cash, inst, InventoryOf(a, inst), a.salt, id', b.cash, inst', InventoryOf(b, inst'), b.salt);
  }

  ghost predicate SameAt(l: Accounts, m: Accounts, instrument: u64, id: u64)
  {
    && id in l && id in m
    && l[id].cash == m[id].cash && l[id].salt == m[id].salt
    && InventoryOf(l[id], instrument) == InventoryOf(m[id], instrument)
  }

  lemma {:induction false} SameLeavesSameAccounts(l: Accounts, m: Accounts, instrument: u64, i: nat)
    requires AccountLeaves(l, instrument) == AccountLeaves(m, instrument)
    requires i < |Ascending(l.Keys)|
    ensures i < |Ascending(m.Keys)| && Ascending(l.Keys)[i] == Ascending(m.Keys)[i]
    ensures SameAt(l, m, instrument, Ascending(l.Keys)[i])
  {
    LeavesArePerfect(l, instrument);
    LeavesArePerfect(m, instrument);
    LeafAt(l, instrument, i);
    LeafAt(m, instrument, i);
    var id, id' := Ascending(l.Keys)[i], Ascending(m.Keys)[i];
    AccountLeafInjective(id, l[id], instrument, id', m[id'], instrument);
  }

  lemma {:induction false} SameLeavesAt(l: Accounts, m: Accounts, instrument: u64, id: u64)
    requires AccountLeaves(l, instrument) == AccountLeaves(m, instrument) && id in l
    ensures SameAt(l, m, instrument, id)
  {
    AscendingKeys(l.Keys);
    var keys := Ascending(l.Keys);
    assert id in keys;
    var i :| 0 <= i < |keys| && keys[i] == id;
    SameLeavesSameAccounts(l, m, instrument, i);
  }

  lemma {:induction false} SameLeavesSameLedger(l: Accounts, m: Accounts, instrument: u64)
    requires AccountLeaves(l, instrument) == AccountLeaves(m, instrument)
    ensures l.Keys == m.Keys
    ensures forall id :: id in l ==> SameAt(l, m, instrument, id)
  {
    hide AccountLeaves;
    forall id | id in l ensures SameAt(l, m, instrument, id) { SameLeavesAt(l, m, instrument, id); }
    forall id | id in m ensures SameAt(m, l, instrument, id) { SameLeavesAt(m, l, instrument, id); }
  }

  /** A ledger root determines the account list: same ids, and in each account
      the same cash, instrument holding and salt, for every account count. */
  lemma {:induction false} RootDeterminesLedger(l: Accounts, m: Accounts, instrument: u64)
    requires LedgerRoot(l, instrument) == LedgerRoot(m, instrument)
    ensures l.Keys == m.Keys
    ensures forall id :: id in l ==> SameAt(l, m, instrument, id)
    ensures TotalCash(l) == TotalCash(m)
    ensures TotalInventory(l, instrument) == TotalInventory(m, instrument)
  {
    LeavesArePerfect(l, instrument);
    LeavesArePerfect(m, instrument);
    RootDeterminesLeaves(AccountLeaves(l, instrument), AccountLeaves(m, instrument));
    SameLeavesSameLedger(l, m, instrument);
    hide Ascending, LedgerRoot, Measure;
    TotalSame(l, m, Cash());
    TotalSame(l, m, Holding(instrument));
  }

  /** A participant's view: whatever path is presented, a balance that verifies
      against the published root is the balance the ledger holds. */
  lemma {:induction false} VerifiedBalanceIsHeld(l: Accounts, instrument: u64, path: seq<Step>, id: u64, claimed: Account, inst: u64)
    requires l != map[]
    requires Fold(path, AccountLeaf(id, claimed, inst)) == LedgerRoot(l, instrument)
    ensures inst == instrument && id in l && l[id].cash == claimed.cash && l[id].salt == claimed.salt
    ensures InventoryOf(l[id], instrument) == InventoryOf(claimed, instrument)
  {
    LeavesArePerfect(l, instrument);
    AscendingKeys(l.Keys);
    assert |l.Keys| > 0;
    var i := AnyPathSound(AccountLeaves(l, instrument), path, AccountLeaf(id, claimed, inst));
    LeafAt(l, instrument, i);
    var held := Ascending(l.Keys)[i];
    AccountLeafInjective(held, l[held], instrument, id, claimed, inst);
  }
}
