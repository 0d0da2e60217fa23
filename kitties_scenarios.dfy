/**
  Client scenarios of the kitties pallet over the test runtime's configuration
  (PledgeQuantity 1; accounts 1 and 2 start with 20, accounts 3 to 5 with
  10, account 6 with nothing). Each method follows one unit test of the
  pallet and checks, from the operations' contracts alone, what that test
  asserts; DNA and selectors are arbitrary parameters.
*/
module KittiesScenarios {
  import opened Wrappers
  import opened Currency
  import opened Genetics
  import opened Kitties

  function MockBalances(): (balances: map<AccountId, Balance>) {
    map[1 := 20, 2 := 20, 3 := 10, 4 := 10, 5 := 10]
  }

  method NewMockPallet() returns (p: Pallet)
    ensures fresh(p) && p.Valid() && p.pledge == 1
    ensures p.kitties == map[] && p.owners == map[] && p.prices == map[] && p.kittiesCount == None
    ensures FreeOf(p.currency, 1) == 20 && FreeOf(p.currency, 2) == 20 && FreeOf(p.currency, 3) == 10
    ensures FreeOf(p.currency, 4) == 10 && FreeOf(p.currency, 5) == 10 && FreeOf(p.currency, 6) == 0
    ensures NothingReserved(p.currency)
  {
    p := new Pallet(1, MockBalances());
  }

  method CreateWorks(dna: Dna) {
    var p := NewMockPallet();
    assert ReservedOf(p.currency, 1) == 0;
    var r := p.Create(1, dna);
    assert r == Ok(0);
    assert p.KittiesCount() == 1;
    assert p.owners[0] == 1 && p.kitties[0] == dna;
    assert ReservedOf(p.currency, 1) == 1;
  }

  method TwoCreatesAllocateZeroThenOne(dna0: Dna, dna1: Dna) {
    var p := NewMockPallet();
    var r0 := p.Create(1, dna0);
    var r1 := p.Create(2, dna1);
    assert r0 == Ok(0) && r1 == Ok(1);
    assert p.KittiesCount() == 2;
    assert p.owners[0] == 1 && p.owners[1] == 2;
  }

  method CreateFailsOnIndexOverflow(dna: Dna) {
    var p := NewMockPallet();
    p.kittiesCount := Some(MaxIndex as KittyIndex);
    var r := p.Create(1, dna);
    assert r == Err(KittiesCountOverflow);
    assert p.kittiesCount == Some(MaxIndex as KittyIndex) && p.kitties == map[];
    assert ReservedOf(p.currency, 1) == 0;
  }

  method CreateFailsWithoutFundsForPledge(dna: Dna) {
    var p := NewMockPallet();
    var r := p.Create(6, dna);
    assert r == Err(InsufficientBalance);
    assert p.kittiesCount == None && p.kitties == map[] && p.owners == map[];
  }

  method TransferWorks(dna: Dna) {
    var p := NewMockPallet();
    var c := p.Create(1, dna);
    assert ReservedOf(p.currency, 1) == 1 && p.owners[0] == 1;
    var r := p.Transfer(1, 2, 0);
    assert r == Ok(());
    assert ReservedOf(p.currency, 1) == 0 && ReservedOf(p.currency, 2) == 1;
    assert p.owners[0] == 2;
  }

  method TransferFailsWhenCallerIsNotOwner(dna: Dna) {
    var p := NewMockPallet();
    var c := p.Create(1, dna);
    var r := p.Transfer(2, 3, 0);
    assert r == Err(NotKittyOwner);
    assert p.owners[0] == 1;
  }

  method TransferFailsWhenRecipientCannotPledge(dna: Dna) {
    var p := NewMockPallet();
    var c := p.Create(1, dna);
    assert ReservedOf(p.currency, 1) == 1;
    var r := p.Transfer(1, 6, 0);
    assert r == Err(InsufficientBalance);
    assert p.owners[0] == 1 && ReservedOf(p.currency, 1) == 1 && ReservedOf(p.currency, 6) == 0;
  }

  method BreedWorks(dna0: Dna, dna1: Dna, selector: Dna) {
    var p := NewMockPallet();
    var c0 := p.Create(1, dna0);
    var c1 := p.Create(1, dna1);
    assert ReservedOf(p.currency, 1) == 2;
    var r := p.Breed(1, 0, 1, selector);
    assert r == Ok(2);
    assert ReservedOf(p.currency, 1) == 3;
    assert p.KittiesCount() == 3;
    assert p.kitties[2] == Crossover(selector, dna0, dna1);
  }

  method BreedFailsWhenParentMissing(dna: Dna, selector: Dna) {
    var p := NewMockPallet();
    var c := p.Create(1, dna);
    var r := p.Breed(1, 1, 2, selector);
    assert r == Err(InvalidKittyId);
    assert p.KittiesCount() == 1;
  }

  method BreedFailsWhenParentsAreSame(dna: Dna, selector: Dna) {
    var p := NewMockPallet();
    var c := p.Create(1, dna);
    var r := p.Breed(1, 1, 1, selector);
    assert r == Err(SameKitties);
  }

  method AskWorks(dna: Dna) {
    var p := NewMockPallet();
    var c := p.Create(1, dna);
    assert ReservedOf(p.currency, 1) == 1;
    var r := p.Ask(1, 0, Some(10));
    assert r == Ok(());
    assert p.KittyPrice(0) == Some(10);
  }

  method AskFailsWhenKittyMissing() {
    var p := NewMockPallet();
    var r := p.Ask(1, 0, Some(10));
    assert r == Err(InvalidKittyId);
  }

  method AskFailsWhenCallerIsNotOwner(dna: Dna) {
    var p := NewMockPallet();
    var c := p.Create(1, dna);
    var r := p.Ask(2, 0, Some(10));
    assert r == Err(NotKittyOwner);
    assert p.KittyPrice(0) == None;
  }

  /** The end-to-end sale: the buyer pays the listed price and takes over the pledge. */
  method BuyWorks(dna: Dna) {
    var p := NewMockPallet();
    assert ReservedOf(p.currency, 1) == 0 && ReservedOf(p.currency, 2) == 0;
    var c := p.Create(1, dna);
    assert ReservedOf(p.currency, 1) == 1 && FreeOf(p.currency, 1) == 19;
    var a := p.Ask(1, 0, Some(1));
    assert p.owners[0] == 1;
    var r := p.Buy(2, 0, 1);
    assert r == Ok(());
    assert ReservedOf(p.currency, 1) == 0 && ReservedOf(p.currency, 2) == 1;
    assert FreeOf(p.currency, 1) == 21 && FreeOf(p.currency, 2) == 18;
    assert p.owners[0] == 2 && p.KittyPrice(0) == None;
    assert p.Valid();
  }

  method BuyFailsWhenKittyMissing() {
    var p := NewMockPallet();
    var r := p.Buy(1, 0, 1);
    assert r == Err(InvalidKittyId);
  }

  method BuyFailsWhenNotForSale(dna: Dna) {
    var p := NewMockPallet();
    var c := p.Create(1, dna);
    var r := p.Buy(2, 0, 1);
    assert r == Err(KittyNotForSale);
  }

  method BuyFailsWhenBuyerCannotPay(dna: Dna) {
    var p := NewMockPallet();
    var c := p.Create(1, dna);
    var a := p.Ask(1, 0, Some(1));
    var r := p.Buy(6, 0, 1);
    assert r == Err(InsufficientBalance);
    assert p.owners[0] == 1 && p.KittyPrice(0) == Some(1);
  }

  /** Account 3 can pay the whole of its balance but then cannot pledge:
      the call fails, yet the price is paid, the listing is gone and account 3
      is recorded as owner while account 1 still holds the pledge. */
  method BuyLeavesKittyUnbackedWhenPledgeFails(dna: Dna) {
    var p := NewMockPallet();
    var c := p.Create(1, dna);
    var a := p.Ask(1, 0, Some(10));
    var r := p.Buy(3, 0, 10);
    assert r == Err(InsufficientBalance);
    assert p.owners[0] == 3 && p.KittyPrice(0) == None;
    assert FreeOf(p.currency, 1) == 29 && ReservedOf(p.currency, 1) == 1;
    assert FreeOf(p.currency, 3) == 0 && ReservedOf(p.currency, 3) == 0;
    assert OwnedCount(p.owners, 1) == 0 by {
      assert (set id | id in p.owners && p.owners[id] == 1) == {};
    }
    assert !p.EscrowBacked();
  }

  method BuyTransactionalFailsWhenKittyMissing() {
    var p := NewMockPallet();
    var r := p.BuyTransactional(1, 0, 1);
    assert r == Err(InvalidKittyId);
    assert p.owners == map[] && p.prices == map[];
  }

  /** The same call under a storage transaction changes nothing. */
  method BuyTransactionalRollsBackWhenPledgeFails(dna: Dna) {
    var p := NewMockPallet();
    var c := p.Create(1, dna);
    var a := p.Ask(1, 0, Some(10));
    var r := p.BuyTransactional(3, 0, 10);
    assert r == Err(InsufficientBalance);
    assert p.owners[0] == 1 && p.KittyPrice(0) == Some(10);
    assert FreeOf(p.currency, 3) == 10 && ReservedOf(p.currency, 1) == 1;
    assert p.Valid();
  }
}
