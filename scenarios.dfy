/** Handlers run one after the other on the store, as a player would. */
module Scenarios {
  import opened Common
  import opened Catalog
  import opened Accounts
  import opened Market
  import opened Economy

  /** Listing items and then cancelling that listing hands back exactly what
      was listed: the seller holds what they held before, and the market is
      as it was. */
  method SellThenCancel(s: Store, id: AccountId, item: Item, quantity: int, price: real) returns (sold: bool, cancelled: bool)
    requires s.Valid() && id in s.accounts
    modifies s
    ensures s.Valid() && id in s.accounts
    ensures sold == (PriceAllowed(price) && quantity > 0 && Qty(old(s.accounts[id]).inventory, item) >= quantity)
    ensures sold ==> cancelled
    ensures s.market == old(s.market)
    ensures s.accounts.Keys == old(s.accounts).Keys
    ensures forall x :: x in s.accounts && x != id ==> s.accounts[x] == old(s.accounts[x])
    ensures s.accounts[id] == old(s.accounts[id]).(inventory := s.accounts[id].inventory)
    ensures forall i :: Qty(s.accounts[id].inventory, i) == Qty(old(s.accounts[id]).inventory, i)
  {
    var listingId;
    ghost var market := s.market;
    ghost var accounts := s.accounts;
    sold, listingId := s.MarketSell(id, item, quantity, price);
    cancelled := false;
    if sold {
      var l := Listing(listingId, id, item, quantity, price);
      assert s.market == market + [l];
      ghost var listed := s.accounts;
      OwnListingFound(s.market, |market|);
      LastListingRemoved(market, l);
      cancelled := s.MarketCancel(id, listingId);
      assert s.market == market;
      assert s.accounts == listed[id := listed[id].(inventory := Add(listed[id].inventory, item, quantity))];
      RoundTripAccounts(accounts, listed, s.accounts, id, item, quantity);
    }
  }

  /** Taking the last listing out leaves the market as it was. */
  lemma LastListingRemoved(market: seq<Listing>, l: Listing)
    ensures RemoveAt(market + [l], |market|) == market
  {
    assert (market + [l])[..|market|] == market;
  }

  /** Taking items out of one account and putting them back leaves every
      account as it was, up to how its inventory map is written. */
  lemma RoundTripAccounts(before: map<AccountId, Account>, listed: map<AccountId, Account>, after: map<AccountId, Account>,
                          id: AccountId, item: Item, n: int)
    requires id in before
    requires listed == before[id := before[id].(inventory := Add(before[id].inventory, item, -n))]
    requires after == listed[id := listed[id].(inventory := Add(listed[id].inventory, item, n))]
    ensures after.Keys == before.Keys
    ensures forall x :: x in after && x != id ==> after[x] == before[x]
    ensures after[id] == before[id].(inventory := after[id].inventory)
    ensures forall i :: Qty(after[id].inventory, i) == Qty(before[id].inventory, i)
  {
  }
}
