/**
  The kitties pallet: a ledger of kitties (16-byte DNA under a dense index),
  their owners and asking prices, where every owned kitty is backed by a fixed
  pledge reserved from its owner's balance. Storage items are fields of
  `Pallet`; each dispatchable is a method that checks its errors in the
  source's order and then writes storage step by step. The signed origin is an
  explicit caller parameter and the hashed randomness is an input.
*/
module Kitties {
  import opened Wrappers
  import opened Currency
  import opened Genetics

  /** Largest index: the test runtime configures KittyIndex as u32. */
  const MaxIndex := 0xFFFF_FFFF

  newtype KittyIndex = x: int | 0 <= x <= MaxIndex

  /** The pallet's errors, plus the balances pallet's InsufficientBalance. */
  datatype Error =
    | KittiesCountOverflow
    | NotKittyOwner
    | SameKitties
    | InvalidKittyId
    | KittyNotForSale
    | PriceTooLow
    | InsufficientBalance

  datatype Result<T> = Ok(value: T) | Err(error: Error)

  /** Number of kitties `who` owns. */
  function OwnedCount(owners: map<KittyIndex, AccountId>, who: AccountId): (n: nat) {
    |set id | id in owners && owners[id] == who|
  }

  /** Recording a new kitty for `who` adds one to `who`'s count and no other. */
  lemma {:induction false} OwnedCountInsertFresh(owners: map<KittyIndex, AccountId>, id: KittyIndex, who: AccountId)
    requires id !in owners
    ensures OwnedCount(owners[id := who], who) == OwnedCount(owners, who) + 1
    ensures forall a :: a != who ==> OwnedCount(owners[id := who], a) == OwnedCount(owners, a)
  {
    var owners' := owners[id := who];
    assert (set i | i in owners' && owners'[i] == who) == (set i | i in owners && owners[i] == who) + {id};
    forall a | a != who ensures OwnedCount(owners', a) == OwnedCount(owners, a) {
      assert (set i | i in owners' && owners'[i] == a) == (set i | i in owners && owners[i] == a);
    }
  }

  /** Handing kitty `id` to `to` moves one unit of count from its old owner to
      `to` (nothing changes when they are the same) and leaves every other count alone. */
  lemma {:induction false} OwnedCountReassign(owners: map<KittyIndex, AccountId>, id: KittyIndex, to: AccountId)
    requires id in owners
    ensures OwnedCount(owners, owners[id]) >= 1
    ensures owners[id] != to ==> OwnedCount(owners[id := to], owners[id]) + 1 == OwnedCount(owners, owners[id])
    ensures owners[id] != to ==> OwnedCount(owners[id := to], to) == OwnedCount(owners, to) + 1
    ensures forall a :: a != owners[id] && a != to ==> OwnedCount(owners[id := to], a) == OwnedCount(owners, a)
    ensures owners[id] == to ==> owners[id := to] == owners
  {
    var from := owners[id];
    var owners' := owners[id := to];
    var was := set i | i in owners && owners[i] == from;
    assert id in was;
    if from != to {
      assert (set i | i in owners' && owners'[i] == from) == was - {id};
      assert (set i | i in owners' && owners'[i] == to) == (set i | i in owners && owners[i] == to) + {id};
    }
    forall a | a != from && a != to ensures OwnedCount(owners', a) == OwnedCount(owners, a) {
      assert (set i | i in owners' && owners'[i] == a) == (set i | i in owners && owners[i] == a);
    }
  }

  /** `do_transfer`'s reserve-then-unreserve keeps one pledge reserved per owned
      kitty when the kitty changes hands, its old owner being the one released. */
  lemma {:induction false} EscrowAfterMove(pledge: Balance, owners0: map<KittyIndex, AccountId>, ledger0: Ledger, reserved: Ledger,
                        id: KittyIndex, to: AccountId)
    requires id in owners0
    requires forall a :: ReservedOf(ledger0, a) == pledge * OwnedCount(owners0, a)
    requires Reserve(ledger0, to, pledge) == Done(reserved)
    ensures forall a :: ReservedOf(Unreserve(reserved, owners0[id], pledge), a)
                     == pledge * OwnedCount(owners0[id := to], a)
  {
    var from := owners0[id];
    var owners' := owners0[id := to];
    var ledger' := Unreserve(reserved, from, pledge);
    OwnedCountReassign(owners0, id, to);
    forall a ensures ReservedOf(ledger', a) == pledge * OwnedCount(owners', a) {
      if a == from && a == to {
        assert owners' == owners0;
      } else if a == from {
        var n := OwnedCount(owners', from);
        assert OwnedCount(owners0, from) == n + 1;
        assert SameBalances(ledger0, reserved, from);
        MulSucc(pledge, n);
      } else if a == to {
        var m := OwnedCount(owners0, to);
        assert SameBalances(reserved, ledger', to);
        MulSucc(pledge, m);
      } else {
        assert SameBalances(ledger0, reserved, a);
        assert SameBalances(reserved, ledger', a);
      }
    }
  }

  lemma MulSucc(p: nat, n: nat)
    ensures p * (n + 1) == p * n + p
  {
  }

  /** `create_kitty`'s reservation keeps one pledge reserved per owned kitty. */
  lemma {:induction false} EscrowAfterCreate(pledge: Balance, owners0: map<KittyIndex, AccountId>, ledger0: Ledger, id: KittyIndex, owner: AccountId)
    requires id !in owners0
    requires forall a :: ReservedOf(ledger0, a) == pledge * OwnedCount(owners0, a)
    requires Reserve(ledger0, owner, pledge).Done?
    ensures forall a :: ReservedOf(Reserve(ledger0, owner, pledge).ledger, a)
                     == pledge * OwnedCount(owners0[id := owner], a)
  {
    var ledger' := Reserve(ledger0, owner, pledge).ledger;
    OwnedCountInsertFresh(owners0, id, owner);
    MulSucc(pledge, OwnedCount(owners0, owner));
    forall a ensures ReservedOf(ledger', a) == pledge * OwnedCount(owners0[id := owner], a) {
      if a != owner {
        assert SameBalances(ledger0, ledger', a);
      }
    }
  }

  /** The indices 0 .. n-1. */
  function IndicesBelow(n: nat): (ids: set<KittyIndex>)
    requires n <= MaxIndex + 1
    decreases n
  {
    if n == 0 then {} else IndicesBelow(n - 1) + {(n - 1) as KittyIndex}
  }

  /** There are exactly n indices below n. */
  lemma {:induction false} IndicesBelowSize(n: nat)
    requires n <= MaxIndex + 1
    ensures forall id :: id in IndicesBelow(n) <==> id as int < n
    ensures |IndicesBelow(n)| == n
  {
    if n > 0 {
      IndicesBelowSize(n - 1);
      assert (n - 1) as KittyIndex !in IndicesBelow(n - 1);
    }
  }

  /** With dense allocation the counter is exactly the number of kitties
      created so far: `create_kitty` allocates the counter's value and stores
      its successor, and nothing else adds a kitty. */
  lemma CounterCountsKitties(p: Pallet)
    requires p.Dense()
    ensures |p.kitties.Keys| == p.KittiesCount() as int
  {
    var n := p.KittiesCount() as int;
    IndicesBelowSize(n);
    assert p.kitties.Keys == IndicesBelow(n);
  }

  class Pallet {
    /** PledgeQuantity: the deposit reserved for every owned kitty. */
    const pledge: Balance
    /** Kitties: id to DNA. */
    var kitties: map<KittyIndex, Dna>
    /** KittyOwners: id to owner. */
    var owners: map<KittyIndex, AccountId>
    /** KittyPrice: id to the asked price; a stored None means not for sale. */
    var prices: map<KittyIndex, Option<Balance>>
    /** KittiesCount: the next index; absent until the first kitty is created. */
    var kittiesCount: Option<KittyIndex>
    /** The reservable currency's balances. */
    var currency: Ledger

    /** A fresh pallet over the genesis balances. */
    constructor (pledgeQuantity: Balance, balances: map<AccountId, Balance>)
      ensures Valid()
      ensures pledge == pledgeQuantity && currency == Genesis(balances)
      ensures kitties == map[] && owners == map[] && prices == map[] && kittiesCount == None
    {
      pledge := pledgeQuantity;
      kitties, owners, prices, kittiesCount := map[], map[], map[], None;
      currency := Genesis(balances);
    }

    /** The `kitties_count` read with an absent value taken as 0. */
    function KittiesCount(): (c: KittyIndex)
      reads this
    {
      if kittiesCount.Some? then kittiesCount.value else 0
    }

    /** The `kitty_price` getter: the stored asking price, None when absent.
        In a dense state only an existing kitty can have a price. */
    function KittyPrice(id: KittyIndex): (p: Option<Balance>)
      reads this
      ensures id !in prices ==> p == None
      ensures id in prices ==> p == prices[id]
      ensures Dense() && p.Some? ==> id in kitties
    {
      if id in prices then prices[id] else None
    }

    /** Ids are allocated densely: exactly the ids below the counter have a
        kitty, every kitty has an owner, and only kitties have prices. */
    ghost predicate Dense()
      reads this
    {
      && kitties.Keys == owners.Keys
      && prices.Keys <= kitties.Keys
      && forall id :: id in kitties <==> id < KittiesCount()
    }

    /** Every account has exactly one pledge reserved per kitty it owns. */
    ghost predicate EscrowBacked()
      reads this
    {
      forall a :: ReservedOf(currency, a) == pledge * OwnedCount(owners, a)
    }

    ghost predicate Valid()
      reads this
    {
      Dense() && EscrowBacked()
    }

    /** `next_kitty_id`: the counter's value, refused when it is the index
        type's maximum, so that the counter never wraps. */
    function NextKittyId(): (r: Result<KittyIndex>)
      reads this
      ensures r.Err? <==> KittiesCount() as int == MaxIndex
      ensures r.Err? ==> r.error == KittiesCountOverflow
      ensures r.Ok? ==> r.value == KittiesCount() && r.value as int + 1 <= MaxIndex
      ensures r.Ok? && Dense() ==> r.value !in kitties && r.value !in owners && r.value !in prices
    {
      var id := KittiesCount();
      if id as int == MaxIndex then Err(KittiesCountOverflow) else Ok(id)
    }

    /** `do_transfer`: reserves the pledge on `to` first, then releases it
        from `from` and records `to` as the owner. */
    method DoTransfer(from: AccountId, to: AccountId, id: KittyIndex) returns (r: Result<()>)
      modifies this
      ensures FreeOf(old(currency), to) < pledge ==> r == Err(InsufficientBalance) && unchanged(this)
      ensures FreeOf(old(currency), to) >= pledge ==>
        && r == Ok(())
        && currency == Unreserve(Reserve(old(currency), to, pledge).ledger, from, pledge)
        && owners == old(owners)[id := to]
        && kitties == old(kitties) && prices == old(prices) && kittiesCount == old(kittiesCount)
      ensures old(Valid()) && id in old(owners) && old(owners)[id] == from ==> Valid()
    {
      ghost var wasValid := Valid();
      ghost var owners0, ledger0 := owners, currency;
      var reserved := Reserve(currency, to, pledge);
      if reserved.Insufficient? {
        return Err(InsufficientBalance);
      }
      currency := Unreserve(reserved.ledger, from, pledge);
      owners := owners[id := to];
      r := Ok(());
      if wasValid && id in owners0 && owners0[id] == from {
        EscrowAfterMove(pledge, owners0, ledger0, reserved.ledger, id, to);
      }
    }

    /** `create_kitty`: allocates the next id, reserves the pledge on `owner`
        before any write, then stores the DNA, the owner and the new counter. */
    method CreateKitty(owner: AccountId, dna: Dna) returns (r: Result<KittyIndex>)
      modifies this
      ensures old(KittiesCount()) as int == MaxIndex ==> r == Err(KittiesCountOverflow) && unchanged(this)
      ensures old(KittiesCount()) as int < MaxIndex && FreeOf(old(currency), owner) < pledge ==>
        r == Err(InsufficientBalance) && unchanged(this)
      ensures old(KittiesCount()) as int < MaxIndex && FreeOf(old(currency), owner) >= pledge ==>
        var id := old(KittiesCount());
        && r == Ok(id)
        && kitties == old(kitties)[id := dna]
        && owners == old(owners)[id := owner]
        && kittiesCount == Some(id + 1)
        && prices == old(prices)
        && currency == Reserve(old(currency), owner, pledge).ledger
      ensures old(Valid()) ==> Valid()
    {
      ghost var wasValid := Valid();
      ghost var owners0, ledger0 := owners, currency;
      var next := NextKittyId();
      if next.Err? {
        return Err(next.error);
      }
      var id := next.value;
      var reserved := Reserve(currency, owner, pledge);
      if reserved.Insufficient? {
        return Err(InsufficientBalance);
      }
      currency := reserved.ledger;
      kitties := kitties[id := dna];
      owners := owners[id := owner];
      kittiesCount := Some(id + 1);
      r := Ok(id);
      if wasValid {
        EscrowAfterCreate(pledge, owners0, ledger0, id, owner);
      }
    }

    /** `create`: a new kitty for `owner` with DNA `randomValue`, which stands
        for the hashed on-chain randomness. */
    method Create(owner: AccountId, randomValue: Dna) returns (r: Result<KittyIndex>)
      modifies this
      ensures old(KittiesCount()) as int == MaxIndex ==> r == Err(KittiesCountOverflow) && unchanged(this)
      ensures old(KittiesCount()) as int < MaxIndex && FreeOf(old(currency), owner) < pledge ==>
        r == Err(InsufficientBalance) && unchanged(this)
      ensures old(KittiesCount()) as int < MaxIndex && FreeOf(old(currency), owner) >= pledge ==>
        var id := old(KittiesCount());
        && r == Ok(id)
        && kitties == old(kitties)[id := randomValue]
        && owners == old(owners)[id := owner]
        && kittiesCount == Some(id + 1)
        && prices == old(prices)
        && currency == Reserve(old(currency), owner, pledge).ledger
      ensures old(Valid()) ==> Valid()
    {
      r := CreateKitty(owner, randomValue);
    }

    /** `transfer`: the kitty must exist, then `sender` must own it; the move
        itself is `do_transfer`. */
    method Transfer(sender: AccountId, to: AccountId, id: KittyIndex) returns (r: Result<()>)
      modifies this
      ensures id !in old(kitties) ==> r == Err(InvalidKittyId) && unchanged(this)
      ensures id in old(kitties) && (id !in old(owners) || old(owners)[id] != sender) ==>
        r == Err(NotKittyOwner) && unchanged(this)
      ensures id in old(kitties) && id in old(owners) && old(owners)[id] == sender ==>
        if FreeOf(old(currency), to) < pledge then
          r == Err(InsufficientBalance) && unchanged(this)
        else
          && r == Ok(())
          && owners == old(owners)[id := to]
          && currency == Unreserve(Reserve(old(currency), to, pledge).ledger, sender, pledge)
          && kitties == old(kitties) && prices == old(prices) && kittiesCount == old(kittiesCount)
      ensures old(Valid()) ==> Valid()
    {
      if id !in kitties {
        return Err(InvalidKittyId);
      }
      if id !in owners || owners[id] != sender {
        return Err(NotKittyOwner);
      }
      r := DoTransfer(sender, to, id);
    }

    /** `breed`: refuses equal parent ids before looking them up, then needs
        both parents; the child's DNA is the crossover of the parents under
        `selector` (the hashed randomness), created for the caller. The caller
        need not own either parent. */
    method Breed(owner: AccountId, parentM: KittyIndex, parentF: KittyIndex, selector: Dna)
      returns (r: Result<KittyIndex>)
      modifies this
      ensures parentM == parentF ==> r == Err(SameKitties) && unchanged(this)
      ensures parentM != parentF && (parentM !in old(kitties) || parentF !in old(kitties)) ==>
        r == Err(InvalidKittyId) && unchanged(this)
      ensures parentM != parentF && parentM in old(kitties) && parentF in old(kitties) ==>
        var child := Crossover(selector, old(kitties)[parentM], old(kitties)[parentF]);
        if old(KittiesCount()) as int == MaxIndex then
          r == Err(KittiesCountOverflow) && unchanged(this)
        else if FreeOf(old(currency), owner) < pledge then
          r == Err(InsufficientBalance) && unchanged(this)
        else
          var id := old(KittiesCount());
          && r == Ok(id)
          && kitties == old(kitties)[id := child]
          && owners == old(owners)[id := owner]
          && kittiesCount == Some(id + 1)
          && prices == old(prices)
          && currency == Reserve(old(currency), owner, pledge).ledger
      ensures old(Valid()) ==> Valid()
    {
      if parentM == parentF {
        return Err(SameKitties);
      }
      if parentM !in kitties || parentF !in kitties {
        return Err(InvalidKittyId);
      }
      var dna := Mix(selector, kitties[parentM], kitties[parentF]);
      r := CreateKitty(owner, dna);
    }

    /** `ask`: the kitty must exist, then `sender` must own it; the price
        (None withdraws it from sale) is stored and nothing else changes. */
    method Ask(sender: AccountId, id: KittyIndex, price: Option<Balance>) returns (r: Result<()>)
      modifies this
      ensures id !in old(kitties) ==> r == Err(InvalidKittyId) && unchanged(this)
      ensures id in old(kitties) && (id !in old(owners) || old(owners)[id] != sender) ==>
        r == Err(NotKittyOwner) && unchanged(this)
      ensures id in old(kitties) && id in old(owners) && old(owners)[id] == sender ==>
        && r == Ok(())
        && KittyPrice(id) == price
        && (forall other :: other != id ==> KittyPrice(other) == old(KittyPrice(other)))
        && prices == old(prices)[id := price]
        && kitties == old(kitties) && owners == old(owners)
        && kittiesCount == old(kittiesCount) && currency == old(currency)
      ensures old(Valid()) ==> Valid()
    {
      if id !in kitties {
        return Err(InvalidKittyId);
      }
      if id !in owners || owners[id] != sender {
        return Err(NotKittyOwner);
      }
      prices := prices[id := price];
      r := Ok(());
    }

    /** `buy`, step by step as written: after its three checks it pays the
        listed price (not the offer) to the owner, removes the price, records
        the buyer as owner and only then runs `do_transfer`, whose pledge
        reservation on the buyer can still fail. No rollback is modelled: on
        that failure the payment, the price removal and the new owner stay. */
    method Buy(buyer: AccountId, id: KittyIndex, offer: Balance) returns (r: Result<()>)
      modifies this
      ensures id !in old(owners) ==> r == Err(InvalidKittyId) && unchanged(this)
      ensures id in old(owners) && old(KittyPrice(id)).None? ==> r == Err(KittyNotForSale) && unchanged(this)
      ensures id in old(owners) && old(KittyPrice(id)).Some? && offer < old(KittyPrice(id)).value ==>
        r == Err(PriceTooLow) && unchanged(this)
      ensures id in old(owners) && old(KittyPrice(id)).Some? && offer >= old(KittyPrice(id)).value ==>
        var seller, price := old(owners)[id], old(KittyPrice(id)).value;
        if FreeOf(old(currency), buyer) < price then
          r == Err(InsufficientBalance) && unchanged(this)
        else
          var paid := Currency.Transfer(old(currency), buyer, seller, price).ledger;
          && prices == old(prices) - {id}
          && owners == old(owners)[id := buyer]
          && kitties == old(kitties) && kittiesCount == old(kittiesCount)
          && if FreeOf(paid, buyer) < pledge then
               r == Err(InsufficientBalance) && currency == paid
             else
               r == Ok(()) && currency == Unreserve(Reserve(paid, buyer, pledge).ledger, seller, pledge)
      ensures old(Valid()) && r.Ok? ==> Valid()
    {
      ghost var wasValid := Valid();
      ghost var owners0, ledger0 := owners, currency;
      if id !in owners {
        return Err(InvalidKittyId);
      }
      var seller := owners[id];
      var asked := KittyPrice(id);
      if asked.None? {
        return Err(KittyNotForSale);
      }
      var price := asked.value;
      if offer < price {
        return Err(PriceTooLow);
      }
      var payment := Currency.Transfer(currency, buyer, seller, price);
      if payment.Insufficient? {
        return Err(InsufficientBalance);
      }
      currency := payment.ledger;
      prices := prices - {id};
      owners := owners[id := buyer];
      ghost var ledger1 := currency;
      r := DoTransfer(seller, buyer, id);
      if wasValid && r.Ok? {
        assert forall a :: ReservedOf(ledger1, a) == ReservedOf(ledger0, a);
        EscrowAfterMove(pledge, owners0, ledger1, Reserve(ledger1, buyer, pledge).ledger, id, buyer);
      }
    }

    /** `buy` run under a storage transaction, as an all-or-nothing dispatch
        would be: any error discards every write of the call. */
    method BuyTransactional(buyer: AccountId, id: KittyIndex, offer: Balance) returns (r: Result<()>)
      modifies this
      ensures r.Err? ==>
        && kitties == old(kitties) && owners == old(owners) && prices == old(prices)
        && kittiesCount == old(kittiesCount) && currency == old(currency)
      ensures id !in old(owners) ==> r == Err(InvalidKittyId)
      ensures id in old(owners) && old(KittyPrice(id)).None? ==> r == Err(KittyNotForSale)
      ensures id in old(owners) && old(KittyPrice(id)).Some? && offer < old(KittyPrice(id)).value ==>
        r == Err(PriceTooLow)
      ensures id in old(owners) && old(KittyPrice(id)).Some? && offer >= old(KittyPrice(id)).value ==>
        var seller, price := old(owners)[id], old(KittyPrice(id)).value;
        if FreeOf(old(currency), buyer) < price then
          r == Err(InsufficientBalance)
        else
          var paid := Currency.Transfer(old(currency), buyer, seller, price).ledger;
          if FreeOf(paid, buyer) < pledge then
            r == Err(InsufficientBalance)
          else
            && r == Ok(())
            && prices == old(prices) - {id}
            && owners == old(owners)[id := buyer]
            && kitties == old(kitties) && kittiesCount == old(kittiesCount)
            && currency == Unreserve(Reserve(paid, buyer, pledge).ledger, seller, pledge)
      ensures old(Valid()) ==> Valid()
    {
      var kitties0, owners0, prices0, count0, ledger0 := kitties, owners, prices, kittiesCount, currency;
      r := Buy(buyer, id, offer);
      if r.Err? {
        kitties, owners, prices, kittiesCount, currency := kitties0, owners0, prices0, count0, ledger0;
      }
    }
  }
}
