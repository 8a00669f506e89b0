/** Publishers, listings and purchases (zomega/marketplace.py, zomega/registry.py). */
module Marketplace {
  import opened Rows
  import opened Tables
  import opened Billing

  /** floor(price * bps / 10000); price and share are never negative */
  function PublisherShare(price: int, shareBps: int): int {
    price * shareBps / 10000
  }

  function SaleEntries(b: Books, s: Sale, id: nat): seq<Entry>
    requires s.publisher < |b.publishers|
  {
    [Entry(s.buyer, MarketplaceCharge, -s.gross, PurchaseRef(id))]
    + if s.publisherCredits == 0 then []
      else [Entry(b.publishers[s.publisher].tenant, MarketplaceEarning, s.publisherCredits, SaleRef(id))]
  }

  /** The two wallet movements, the sale row and its ledger rows. */
  function RecordSale(b: Books, s: Sale, now: nat): Books
    requires s.publisher < |b.publishers|
    requires s.buyer < |b.wallets| && b.publishers[s.publisher].tenant < |b.wallets|
  {
    var p := b.publishers[s.publisher].tenant;
    var buyer := b.wallets[s.buyer];
    var charged := b.wallets[s.buyer := Wallet(buyer.available - s.gross, buyer.reserved, buyer.version + 1)];
    var seller := charged[p];
    b.(wallets := charged[p := Wallet(seller.available + s.publisherCredits, seller.reserved, seller.version + 1)],
    sales := b.sales + [s],
    ledger := Post(b.ledger, SaleEntries(b, s, |b.sales|), now))
  }

  datatype Purchase = Purchase(sale: nat, replayed: bool)

  function FindSale(b: Books, buyer: nat, key: string): Option<nat> {
    IndexOf(b.sales, (s: Sale) => s.buyer == buyer && s.key == key)
  }

  function PurchaseListing(db: DB, buyer: nat, listing: nat, key: string): Outcome<(DB, Purchase)> {
    var b := db.books;
    if |key| == 0 || |key| > 200 then RolledBack(InvalidRequest)
    else if FindSale(b, buyer, key).Some? then
      Committed((db, Purchase(FindSale(b, buyer, key).value, true)))
    else if listing >= |db.listings| || !db.listings[listing].active then RolledBack(NotFound)
    else
      var l := db.listings[listing];
      if l.version >= |db.versions| || !db.versions[l.version].active then RolledBack(NotFound)
      else if db.versions[l.version].publisher >= |b.publishers| then RolledBack(NotFound)
      else
        var publisher := db.versions[l.version].publisher;
        var seller := b.publishers[publisher].tenant;
        if seller == buyer then RolledBack(OwnListing)
        else if buyer >= |b.wallets| || seller >= |b.wallets| then RolledBack(NotFound)
        else if b.wallets[buyer].available < l.price then RolledBack(InsufficientCredits)
        else
          var share := PublisherShare(l.price, l.shareBps);
          var sale := Sale(buyer, publisher, listing, key, l.price, share, l.price - share);
          Committed((db.(books := RecordSale(b, sale, db.now), grants := db.grants + {(buyer, l.version)}),
                     Purchase(|b.sales|, false)))
  }

  function FindPublisher(b: Books, t: nat): Option<nat> {
    IndexOf(b.publishers, (p: Publisher) => p.tenant == t)
  }

  /** create_or_update_publisher, once the key has been accepted */
  function UpsertPublisher(b: Books, t: nat): Outcome<Books> {
    if FindPublisher(b, t).Some? then Committed(b)
    else if t >= |b.wallets| then RolledBack(ConstraintViolation)
    else Committed(b.(publishers := b.publishers + [Publisher(t)]))
  }

  /** publish_skill, once the signature has been accepted */
  function PublishSkill(db: DB, t: nat): Outcome<DB> {
    var p := FindPublisher(db.books, t);
    if p.None? then RolledBack(NotFound)
    else Committed(db.(versions := db.versions + [SkillVersion(p.value, true)]))
  }

  function CreateListing(db: DB, t: nat, version: nat, price: int, shareBps: int): Outcome<DB> {
    if price <= 0 || shareBps < 0 || shareBps > 10000 then RolledBack(InvalidRequest)
    else if version >= |db.versions| || !db.versions[version].active then RolledBack(NotFound)
    else if db.versions[version].publisher >= |db.books.publishers| then RolledBack(NotFound)
    else if db.books.publishers[db.versions[version].publisher].tenant != t then RolledBack(NotFound)
    else if exists l :: 0 <= l < |db.listings| && db.listings[l].version == version then RolledBack(ConstraintViolation)
    else Committed(db.(listings := db.listings + [Listing(version, price, shareBps, true)]))
  }

  function PublisherCreditsOf(publisher: nat): Sale -> int {
    (s: Sale) => if s.publisher == publisher then s.publisherCredits else 0
  }

  function PublisherEarnings(b: Books, t: nat): int {
    var p := FindPublisher(b, t);
    if p.None? then 0 else Sum(b.sales, PublisherCreditsOf(p.value))
  }
}
