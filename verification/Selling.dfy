/** The marketplace's writes (zomega/marketplace.py, zomega/registry.py): when each goes through, what exactly
    it records, and that a sale pays out on the terms its listing was created with. */
module Selling {
  import opened Tables
  import opened Pricing
  import opened Billing
  import opened Marketplace
  import opened Admission
  import opened RunBlocks
  import opened Transactions
  import opened Consistency

  // ----- publishers and versions -----

  predicate IsPublisher(b: Books, t: nat) {
    exists p :: p in b.publishers && p.tenant == t
  }

  lemma FindsPublisher(b: Books, t: nat)
    ensures FindPublisher(b, t).Some? <==> IsPublisher(b, t)
    ensures FindPublisher(b, t).Some? ==> b.publishers[FindPublisher(b, t).value].tenant == t
  {
    if IsPublisher(b, t) {
      var p :| p in b.publishers && p.tenant == t;
      var i :| 0 <= i < |b.publishers| && b.publishers[i] == p;
    }
  }

  /** A tenant becomes a publisher once, and updating its key adds nothing. */
  lemma RegistrationDecides(c: Catalog, db: DB, t: nat)
    ensures var db' := Apply(c, db, RegisterPublisher(t));
            db' == if t >= |db.books.wallets| || IsPublisher(db.books, t) then db
                   else db.(books := db.books.(publishers := db.books.publishers + [Publisher(t)]))
  {
    FindsPublisher(db.books, t);
    assert db.(books := db.books) == db;
  }

  /** Exactly a publisher can publish, and what it publishes is an active version of its own. */
  lemma PublicationDecides(db: DB, t: nat)
    ensures PublishSkill(db, t).Committed? <==> IsPublisher(db.books, t)
    ensures PublishSkill(db, t).Committed? ==>
              exists p: nat :: p < |db.books.publishers| && db.books.publishers[p].tenant == t
                               && PublishSkill(db, t).value == db.(versions := db.versions + [SkillVersion(p, true)])
  {
    FindsPublisher(db.books, t);
  }

  // ----- listings -----

  /** The version is active and the tenant's own. */
  predicate Owns(db: DB, t: nat, version: nat) {
    && version < |db.versions| && db.versions[version].active
    && db.versions[version].publisher < |db.books.publishers|
    && db.books.publishers[db.versions[version].publisher].tenant == t
  }

  predicate IsListed(db: DB, version: nat) {
    exists l :: l in db.listings && l.version == version
  }

  /** Exactly an unlisted active version of the tenant's own can be listed, for a positive price and a share
      between nothing and everything; the listing carries the terms as they were given. */
  lemma ListingDecides(db: DB, t: nat, version: nat, price: int, shareBps: int)
    ensures var result := CreateListing(db, t, version, price, shareBps);
            && (result.Committed? <==>
                  price > 0 && 0 <= shareBps <= 10000 && Owns(db, t, version) && !IsListed(db, version))
            && (result == RolledBack(InvalidRequest) <==> price <= 0 || shareBps < 0 || shareBps > 10000)
            && (result == RolledBack(ConstraintViolation) <==>
                  price > 0 && 0 <= shareBps <= 10000 && Owns(db, t, version) && IsListed(db, version))
            && (result.Committed? ==>
                  && |result.value.listings| == |db.listings| + 1
                  && result.value == db.(listings := result.value.listings)
                  && result.value.listings[..|db.listings|] == db.listings
                  && var l := result.value.listings[|db.listings|];
                  && l.version == version && l.price == price && l.shareBps == shareBps && l.active)
  {
    if IsListed(db, version) {
      var l :| l in db.listings && l.version == version;
      var i :| 0 <= i < |db.listings| && db.listings[i] == l;
    }
  }

  // ----- purchases -----

  /** An active listing of an active version. */
  predicate ForSale(db: DB, listing: nat) {
    && listing < |db.listings| && db.listings[listing].active
    && var l := db.listings[listing];
    && l.version < |db.versions| && db.versions[l.version].active
    && db.versions[l.version].publisher < |db.books.publishers|
  }

  function Seller(db: DB, listing: nat): nat
    requires ForSale(db, listing)
  {
    db.books.publishers[db.versions[db.listings[listing].version].publisher].tenant
  }

  /** Someone else's listing that the buyer can pay. */
  predicate Buyable(db: DB, buyer: nat, listing: nat) {
    && ForSale(db, listing)
    && Seller(db, listing) != buyer && Seller(db, listing) < |db.books.wallets| && buyer < |db.books.wallets|
    && db.books.wallets[buyer].available >= db.listings[listing].price
  }

  predicate Bought(b: Books, buyer: nat, key: string) {
    exists s :: s in b.sales && s.buyer == buyer && s.key == key
  }

  lemma FindsSale(b: Books, buyer: nat, key: string)
    ensures FindSale(b, buyer, key).Some? <==> Bought(b, buyer, key)
  {
    if Bought(b, buyer, key) {
      var s :| s in b.sales && s.buyer == buyer && s.key == key;
      var i :| 0 <= i < |b.sales| && b.sales[i] == s;
    }
  }

  /** A purchase under a new key goes through exactly when the listing is someone else's, for sale, and the
      buyer has at least its price. */
  lemma PurchaseDecides(db: DB, buyer: nat, listing: nat, key: string)
    requires !Bought(db.books, buyer, key)
    ensures PurchaseListing(db, buyer, listing, key).Committed? <==> 1 <= |key| <= 200 && Buyable(db, buyer, listing)
    ensures PurchaseListing(db, buyer, listing, key).Committed? ==>
              PurchaseListing(db, buyer, listing, key).value.1 == Purchase(|db.books.sales|, false)
  {
    FindsSale(db.books, buyer, key);
  }

  /** Which refusal a purchase under a new key gets: for its key, for a listing that is not for sale, for the
      publisher's own, or for want of credits. */
  lemma PurchaseRefusals(db: DB, buyer: nat, listing: nat, key: string)
    requires !Bought(db.books, buyer, key) && PurchaseListing(db, buyer, listing, key).RolledBack?
    ensures var (e, keyed) := (PurchaseListing(db, buyer, listing, key).error, 1 <= |key| <= 200);
            && (e == InvalidRequest <==> !keyed)
            && (e == OwnListing <==> keyed && ForSale(db, listing) && Seller(db, listing) == buyer)
            && (e == InsufficientCredits <==>
                  && keyed && ForSale(db, listing) && Seller(db, listing) != buyer
                  && Seller(db, listing) < |db.books.wallets| && buyer < |db.books.wallets|
                  && db.books.wallets[buyer].available < db.listings[listing].price)
            && e in {InvalidRequest, OwnListing, InsufficientCredits, NotFound}
  {
    FindsSale(db.books, buyer, key);
  }

  /** What a purchase moves and records: the buyer pays the price, the publisher gets `share`, and the sale, its
      ledger rows and the grant are added; nothing else changes. */
  ghost predicate SoldFor(db: DB, db': DB, buyer: nat, listing: nat, key: string, share: int)
    requires Buyable(db, buyer, listing)
  {
    var (b, b', l) := (db.books, db'.books, db.listings[listing]);
    var publisher := db.versions[l.version].publisher;
    var (seller, id) := (b.publishers[publisher].tenant, |b.sales|);
    && |b'.wallets| == |b.wallets|
    && b'.wallets[buyer]
    == Wallet(b.wallets[buyer].available - l.price, b.wallets[buyer].reserved, b.wallets[buyer].version + 1)
    && b'.wallets[seller]
    == Wallet(b.wallets[seller].available + share, b.wallets[seller].reserved, b.wallets[seller].version + 1)
    && (forall t :: 0 <= t < |b.wallets| && t != buyer && t != seller ==> b'.wallets[t] == b.wallets[t])
    && b'.sales == b.sales + [Sale(buyer, publisher, listing, key, l.price, share, l.price - share)]
    && b'.ledger == b.ledger + [LedgerRow(Entry(buyer, MarketplaceCharge, -l.price, PurchaseRef(id)), db.now)]
                    + (if share == 0 then []
                       else [LedgerRow(Entry(seller, MarketplaceEarning, share, SaleRef(id)), db.now)])
    && db' == db.(books := b.(wallets := b'.wallets, sales := b'.sales, ledger := b'.ledger),
                  grants := db.grants + {(buyer, l.version)})
  }

  /** share is the price times the basis points, rounded down to a whole credit. */
  predicate RoundedDown(price: int, shareBps: int, share: int) {
    10000 * share <= price * shareBps < 10000 * (share + 1)
  }

  lemma PurchaseRecords(db: DB, buyer: nat, listing: nat, key: string) returns (share: int)
    requires !Bought(db.books, buyer, key) && 1 <= |key| <= 200 && Buyable(db, buyer, listing)
    ensures RoundedDown(db.listings[listing].price, db.listings[listing].shareBps, share)
    ensures SoldFor(db, PurchaseListing(db, buyer, listing, key).value.0, buyer, listing, key, share)
  {
    FindsSale(db.books, buyer, key);
    var l := db.listings[listing];
    share := PublisherShare(l.price, l.shareBps);
    var publisher := db.versions[l.version].publisher;
    SaleRows(db.books, Sale(buyer, publisher, listing, key, l.price, share, l.price - share), db.now);
  }

  lemma SaleRows(b: Books, s: Sale, now: nat)
    requires s.publisher < |b.publishers|
    ensures Post(b.ledger, SaleEntries(b, s, |b.sales|), now)
         == b.ledger + [LedgerRow(Entry(s.buyer, MarketplaceCharge, -s.gross, PurchaseRef(|b.sales|)), now)]
            + (if s.publisherCredits == 0 then []
               else [LedgerRow(Entry(b.publishers[s.publisher].tenant, MarketplaceEarning, s.publisherCredits,
                                     SaleRef(|b.sales|)), now)])
  {
  }

  // ----- from the listing to the sale -----

  /** Listings, versions and publishers are only ever added. */
  predicate MarketGrows(db: DB, db': DB) {
    db.listings <= db'.listings && db.versions <= db'.versions && db.books.publishers <= db'.books.publishers
  }

  lemma MarketTxnsGrow(c: Catalog, db: DB, txn: Txn)
    requires txn.RegisterPublisher? || txn.Publish? || txn.List?
    ensures MarketGrows(db, Apply(c, db, txn))
  {
    hide FindPublisher;
  }

  lemma OtherTxnsGrow(c: Catalog, db: DB, txn: Txn)
    requires !txn.RegisterPublisher? && !txn.Publish? && !txn.List? && !txn.Buy? && !txn.AdmitAgent? && !txn.AdmitSkill?
    ensures MarketGrows(db, Apply(c, db, txn))
  {
    hide Post, FindReservation, FindPayment, HasInFlight, FindEvent, Backoff, Closed, ValidControl;
  }

  lemma WalletTxnsGrow(c: Catalog, db: DB, txn: Txn)
    requires txn.Buy? || txn.AdmitAgent? || txn.AdmitSkill?
    ensures MarketGrows(db, Apply(c, db, txn))
  {
    hide Post, FindSale, AdmissionError, RequestOf, PublisherShare;
  }

  lemma {:induction false} HistoryGrows(c: Catalog, db: DB, history: seq<Txn>)
    ensures MarketGrows(db, Replayed(c, db, history))
    decreases |history|
  {
    hide Apply;
    if |history| > 0 {
      var before := Replayed(c, db, history[..|history| - 1]);
      var txn := history[|history| - 1];
      HistoryGrows(c, db, history[..|history| - 1]);
      if txn.RegisterPublisher? || txn.Publish? || txn.List? {
        MarketTxnsGrow(c, before, txn);
      } else if txn.Buy? || txn.AdmitAgent? || txn.AdmitSkill? {
        WalletTxnsGrow(c, before, txn);
      } else {
        OtherTxnsGrow(c, before, txn);
      }
    }
  }

  /** A listing keeps its terms and its owner through any history. */
  lemma ListedForGood(c: Catalog, db: DB, t: nat, version: nat, price: int, shareBps: int, history: seq<Txn>)
    requires Consistent(db) && CreateListing(db, t, version, price, shareBps).Committed?
    ensures var now := Replayed(c, Apply(c, db, List(t, version, price, shareBps)), history);
            && Consistent(now) && Owns(now, t, version) && t < |now.books.wallets|
            && |db.listings| < |now.listings| && now.listings[|db.listings|] == Listing(version, price, shareBps, true)
  {
    ListingDecides(db, t, version, price, shareBps);
    var listed := Apply(c, db, List(t, version, price, shareBps));
    assert listed == CreateListing(db, t, version, price, shareBps).value;
    hide Consistent, Apply, CreateListing;
    ApplyKeeps(c, db, List(t, version, price, shareBps));
    HistoryKeeps(c, listed, history);
    HistoryGrows(c, listed, history);
    SellersHaveWallets(Replayed(c, listed, history), version);
  }

  /** End to end: after a listing and any history, the listing is for sale to everyone else who can pay the
      listed price, and selling it pays its publisher the listed share of that price, rounded down. */
  lemma ListThenBuy(c: Catalog, db: DB, t: nat, version: nat, price: int, shareBps: int, history: seq<Txn>, now: DB,
                    buyer: nat, key: string)
    requires Consistent(db) && CreateListing(db, t, version, price, shareBps).Committed?
    requires now == Replayed(c, Apply(c, db, List(t, version, price, shareBps)), history)
    requires !Bought(now.books, buyer, key) && 1 <= |key| <= 200
    ensures var listing := |db.listings|;
            && Owns(now, t, version)
            && (Buyable(now, buyer, listing) <==>
                  buyer != t && buyer < |now.books.wallets| && now.books.wallets[buyer].available >= price)
            && (Buyable(now, buyer, listing) ==>
                  && now.listings[listing].version == version && now.listings[listing].price == price
                  && var sold := Apply(c, now, Buy(buyer, listing, key));
                  exists share :: RoundedDown(price, shareBps, share) && SoldFor(now, sold, buyer, listing, key, share))
  {
    hide Consistent, Apply, PurchaseListing, CreateListing, Replayed, Bought, SoldFor;
    ListedForGood(c, db, t, version, price, shareBps, history);
    if Buyable(now, buyer, |db.listings|) {
      var share := PurchaseRecords(now, buyer, |db.listings|, key);
      BuyApplies(c, now, buyer, |db.listings|, key);
    }
  }

  lemma SellersHaveWallets(db: DB, version: nat)
    requires Consistent(db) && version < |db.versions|
    ensures db.versions[version].publisher < |db.books.publishers|
    ensures db.books.publishers[db.versions[version].publisher].tenant < |db.books.wallets|
  {
    assert db.versions[version] in db.versions;
    assert db.books.publishers[db.versions[version].publisher] in db.books.publishers;
  }

  lemma BuyApplies(c: Catalog, db: DB, buyer: nat, listing: nat, key: string)
    requires !Bought(db.books, buyer, key) && 1 <= |key| <= 200 && Buyable(db, buyer, listing)
    ensures PurchaseListing(db, buyer, listing, key).Committed?
    ensures Apply(c, db, Buy(buyer, listing, key)) == PurchaseListing(db, buyer, listing, key).value.0
  {
    PurchaseDecides(db, buyer, listing, key);
  }
}
