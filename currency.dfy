/**
  The reservable currency the kitties pallet is coupled to, abstracted to a
  free and a reserved balance per account. The balances pallet behind it is not
  part of this model; these three operations are the assumed behaviour of its
  ReservableCurrency and Currency interfaces, without existential deposits,
  locks or overflow of a balance.
*/
module Currency {
  type AccountId = nat
  type Balance = nat

  /** Free and reserved balances; an account absent from a map holds 0 there. */
  datatype Ledger = Ledger(free: map<AccountId, Balance>, reserved: map<AccountId, Balance>)

  /** The outcome of a currency call: the updated ledger, or the balances
      pallet's InsufficientBalance error (the ledger is then left as it was). */
  datatype Attempt = Done(ledger: Ledger) | Insufficient

  function FreeOf(l: Ledger, who: AccountId): (b: Balance) {
    if who in l.free then l.free[who] else 0
  }

  function ReservedOf(l: Ledger, who: AccountId): (b: Balance) {
    if who in l.reserved then l.reserved[who] else 0
  }

  /** The two ledgers hold the same balances for `who`. */
  predicate SameBalances(l: Ledger, l': Ledger, who: AccountId) {
    FreeOf(l, who) == FreeOf(l', who) && ReservedOf(l, who) == ReservedOf(l', who)
  }

  /** A ledger in which no account has anything reserved. */
  ghost predicate NothingReserved(l: Ledger) {
    forall who :: ReservedOf(l, who) == 0
  }

  /** Genesis: the given free balances and no reservations. */
  function Genesis(balances: map<AccountId, Balance>): (l: Ledger)
    ensures NothingReserved(l)
    ensures forall who :: who in balances ==> FreeOf(l, who) == balances[who]
    ensures forall who :: who !in balances ==> FreeOf(l, who) == 0
  {
    Ledger(balances, map[])
  }

  /** `reserve`: moves `amount` from the free to the reserved balance of `who`;
      refused when the free balance is short. */
  function Reserve(l: Ledger, who: AccountId, amount: Balance): (r: Attempt)
    ensures r.Insufficient? <==> FreeOf(l, who) < amount
    ensures r.Done? ==> FreeOf(r.ledger, who) + amount == FreeOf(l, who)
    ensures r.Done? ==> ReservedOf(r.ledger, who) == ReservedOf(l, who) + amount
    ensures r.Done? ==> forall a :: a != who ==> SameBalances(l, r.ledger, a)
  {
    if FreeOf(l, who) < amount then Insufficient
    else
      Done(Ledger(l.free[who := FreeOf(l, who) - amount],
                  l.reserved[who := ReservedOf(l, who) + amount]))
  }

  /** `unreserve`: moves as much of `amount` as is reserved back to the free
      balance of `who`; it never fails. */
  function Unreserve(l: Ledger, who: AccountId, amount: Balance): (l': Ledger)
    ensures ReservedOf(l, who) >= amount ==> ReservedOf(l', who) + amount == ReservedOf(l, who)
    ensures ReservedOf(l, who) >= amount ==> FreeOf(l', who) == FreeOf(l, who) + amount
    ensures ReservedOf(l, who) < amount ==> ReservedOf(l', who) == 0
    ensures FreeOf(l', who) + ReservedOf(l', who) == FreeOf(l, who) + ReservedOf(l, who)
    ensures forall a :: a != who ==> SameBalances(l, l', a)
  {
    var moved := if ReservedOf(l, who) < amount then ReservedOf(l, who) else amount;
    Ledger(l.free[who := FreeOf(l, who) + moved],
           l.reserved[who := ReservedOf(l, who) - moved])
  }

  /** `transfer`: pays `amount` from the free balance of `from` to the free
      balance of `to`; refused when the payer's free balance is short.
      Reserved balances are never touched. */
  function Transfer(l: Ledger, from: AccountId, to: AccountId, amount: Balance): (r: Attempt)
    ensures r.Insufficient? <==> FreeOf(l, from) < amount
    ensures r.Done? && from != to ==> FreeOf(r.ledger, from) + amount == FreeOf(l, from)
    ensures r.Done? && from != to ==> FreeOf(r.ledger, to) == FreeOf(l, to) + amount
    ensures r.Done? && from == to ==> SameBalances(l, r.ledger, from)
    ensures r.Done? ==> forall a :: ReservedOf(r.ledger, a) == ReservedOf(l, a)
    ensures r.Done? ==> forall a :: a != from && a != to ==> SameBalances(l, r.ledger, a)
  {
    if FreeOf(l, from) < amount then Insufficient
    else
      var debited := l.free[from := FreeOf(l, from) - amount];
      var credited := debited[to := (if to in debited then debited[to] else 0) + amount];
      Done(Ledger(credited, l.reserved))
  }

  /** Reserving and then unreserving the same amount restores every balance. */
  lemma ReserveUnreserveRoundTrip(l: Ledger, who: AccountId, amount: Balance)
    requires Reserve(l, who, amount).Done?
    ensures forall a :: SameBalances(l, Unreserve(Reserve(l, who, amount).ledger, who, amount), a)
  {
  }

  /** What every account owns, free plus reserved, is unchanged by a reservation. */
  lemma ReserveKeepsHoldings(l: Ledger, who: AccountId, amount: Balance, a: AccountId)
    requires Reserve(l, who, amount).Done?
    ensures FreeOf(Reserve(l, who, amount).ledger, a) + ReservedOf(Reserve(l, who, amount).ledger, a)
         == FreeOf(l, a) + ReservedOf(l, a)
  {
  }
}
