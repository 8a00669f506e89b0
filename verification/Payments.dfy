/** Payment deliveries: each event id credits once, whatever is repeated or reordered
    (process_verified_payment, and the event classification of the Stripe webhook). */
module Payments {
  import opened Rows
  import opened Tables
  import opened Billing

  /** The books after a sequence of webhook deliveries. */
  function DeliverAll(b: Books, ds: seq<PaymentEvent>, now: nat): Books {
    if |ds| == 0 then b
    else
      var before := DeliverAll(b, ds[..|ds| - 1], now);
      var result := ProcessPayment(before, ds[|ds| - 1], now);
      if result.Committed? then result.value.0 else before
  }

  /** A delivery the transaction does not roll back: its tenant exists if it names one, and a
      verified delivery names one and carries positive credits. */
  predicate Acceptable(tenants: nat, p: PaymentEvent) {
    && (p.tenant.Some? ==> p.tenant.value < tenants)
    && (p.verified ==> p.tenant.Some? && p.credits > 0)
  }

  predicate SeenBefore(events: seq<PaymentEvent>, id: string) {
    exists p :: p in events && p.id == id
  }

  /** For each new event id, the first delivery that commits. */
  function FirstCommitted(b: Books, ds: seq<PaymentEvent>): seq<PaymentEvent> {
    if |ds| == 0 then []
    else
      var first := FirstCommitted(b, ds[..|ds| - 1]);
      var p := ds[|ds| - 1];
      if Acceptable(|b.wallets|, p) && !SeenBefore(b.payments + first, p.id) then first + [p] else first
  }

  function CreditTo(t: nat): PaymentEvent -> int {
    (p: PaymentEvent) => if p.verified && p.tenant == Some(t) then p.credits else 0
  }

  function CreditsFor(t: nat): PaymentEvent -> int {
    (p: PaymentEvent) => if p.verified && p.tenant == Some(t) then 1 else 0
  }

  lemma FindIsSeen(payments: seq<PaymentEvent>, id: string)
    ensures FindPayment(payments, id).Some? <==> SeenBefore(payments, id)
  {
    if FindPayment(payments, id).None? {
      forall p | p in payments ensures p.id != id {
        var i :| 0 <= i < |payments| && payments[i] == p;
      }
    }
  }

  lemma OneDelivery(b: Books, p: PaymentEvent, now: nat, t: nat)
    requires t < |b.wallets|
    ensures var result := ProcessPayment(b, p, now);
            if !SeenBefore(b.payments, p.id) && Acceptable(|b.wallets|, p) then
              && result.Committed?
              && var b' := result.value.0;
              && |b'.wallets| == |b.wallets| && b'.payments == b.payments + [p]
              && b'.wallets[t].available == b.wallets[t].available + CreditTo(t)(p)
              && b'.wallets[t].reserved == b.wallets[t].reserved
              && b'.wallets[t].version == b.wallets[t].version + CreditsFor(t)(p)
            else result.Committed? ==> result.value.0 == b
  {
    FindIsSeen(b.payments, p.id);
  }

  /** One delivery: a known event id changes nothing; a new one is rolled back if it names no known tenant or is
      verified without credits; otherwise it is recorded, and credited with its ledger row if it is verified. */
  lemma DeliveryDecides(b: Books, p: PaymentEvent, now: nat)
    ensures var result := ProcessPayment(b, p, now);
            if SeenBefore(b.payments, p.id) then result == Committed((b, false))
            else if !Acceptable(|b.wallets|, p) then result.RolledBack?
            else if !p.verified then result == Committed((b.(payments := b.payments + [p]), true))
            else
              && p.tenant.Some? && p.tenant.value < |b.wallets|
              && var (t, w) := (p.tenant.value, b.wallets[p.tenant.value]);
              && var credited := Wallet(w.available + p.credits, w.reserved, w.version + 1);
              && var row := LedgerRow(Entry(t, Credit, p.credits, PaymentEventRef(p.id)), now);
              && var b' := b.(payments := b.payments + [p], wallets := b.wallets[t := credited],
                              ledger := b.ledger + [row]);
              result == Committed((b', true))
  {
    FindIsSeen(b.payments, p.id);
    if p.tenant.Some? {
      var entry := Entry(p.tenant.value, Credit, p.credits, PaymentEventRef(p.id));
      assert Post(b.ledger, [entry], now) == b.ledger + [LedgerRow(entry, now)];
    }
  }

  /** A tenant receives exactly the credits of the first committed delivery of each new event id. */
  lemma {:induction false} CreditsOncePerEvent(b: Books, ds: seq<PaymentEvent>, now: nat, t: nat)
    requires t < |b.wallets|
    ensures var b' := DeliverAll(b, ds, now);
            && |b'.wallets| == |b.wallets|
            && b'.payments == b.payments + FirstCommitted(b, ds)
            && b'.wallets[t].available == b.wallets[t].available + Sum(FirstCommitted(b, ds), CreditTo(t))
            && b'.wallets[t].reserved == b.wallets[t].reserved
            && b'.wallets[t].version == b.wallets[t].version + Sum(FirstCommitted(b, ds), CreditsFor(t))
    decreases |ds|
  {
    hide ProcessPayment, Acceptable, SeenBefore;
    if |ds| > 0 {
      var front := ds[..|ds| - 1];
      var p := ds[|ds| - 1];
      CreditsOncePerEvent(b, front, now, t);
      var before := DeliverAll(b, front, now);
      var first := FirstCommitted(b, front);
      OneDelivery(before, p, now, t);
      SumAppend(first, p, CreditTo(t));
      SumAppend(first, p, CreditsFor(t));
      assert b.payments + (first + [p]) == (b.payments + first) + [p];
    }
  }

  /** FirstCommitted picks a delivery exactly when it commits and no earlier one with its id does. */
  lemma {:induction false} FirstCommittedIsFirst(b: Books, ds: seq<PaymentEvent>, p: PaymentEvent)
    ensures p in FirstCommitted(b, ds)
        <==> !SeenBefore(b.payments, p.id)
             && exists i :: && 0 <= i < |ds| && ds[i] == p && Acceptable(|b.wallets|, p)
                            && forall j :: 0 <= j < i ==> !(ds[j].id == p.id && Acceptable(|b.wallets|, ds[j]))
    decreases |ds|
  {
    if |ds| > 0 {
      var n := |ds| - 1;
      var front := ds[..n];
      var last := ds[n];
      var first := FirstCommitted(b, front);
      FirstCommittedIsFirst(b, front, p);
      FirstCommittedSees(b, front, p.id);
      FirstCommittedSees(b, front, last.id);
      assert SeenBefore(b.payments + first, last.id) <==> SeenBefore(b.payments, last.id) || SeenBefore(first, last.id);
      if p in FirstCommitted(b, ds) && p !in first {
        assert ds[n] == p;
      }
    }
  }

  lemma {:induction false} FirstCommittedSees(b: Books, ds: seq<PaymentEvent>, id: string)
    ensures SeenBefore(b.payments, id) || SeenBefore(FirstCommitted(b, ds), id)
        <==> SeenBefore(b.payments, id)
             || exists j :: 0 <= j < |ds| && ds[j].id == id && Acceptable(|b.wallets|, ds[j])
    decreases |ds|
  {
    if |ds| > 0 {
      var n := |ds| - 1;
      var first := FirstCommitted(b, ds[..n]);
      FirstCommittedSees(b, ds[..n], id);
      assert SeenBefore(b.payments + first, id) <==> SeenBefore(b.payments, id) || SeenBefore(first, id);
      if ds[n].id == id && Acceptable(|b.wallets|, ds[n]) {
        assert SeenBefore(b.payments + first, id) || ds[n] in first + [ds[n]];
      }
      forall q | q in first ensures q in FirstCommitted(b, ds) {
      }
    }
  }

  /** Equal event ids carry equal contents. */
  predicate SameContents(ds: seq<PaymentEvent>, es: seq<PaymentEvent>) {
    forall p, q :: p in ds + es && q in ds + es && p.id == q.id ==> p == q
  }

  lemma {:induction false} FirstCommittedOfSame(b: Books, ds: seq<PaymentEvent>)
    requires SameContents(ds, ds)
    ensures forall p :: p in FirstCommitted(b, ds)
                   <==> p in ds && Acceptable(|b.wallets|, p) && !SeenBefore(b.payments, p.id)
    ensures forall i, j :: 0 <= i < j < |FirstCommitted(b, ds)| ==> FirstCommitted(b, ds)[i] != FirstCommitted(b, ds)[j]
    decreases |ds|
  {
    if |ds| > 0 {
      var n := |ds| - 1;
      var first := FirstCommitted(b, ds[..n]);
      assert forall p :: p in ds[..n] ==> p in ds;
      FirstCommittedOfSame(b, ds[..n]);
      assert SeenBefore(b.payments + first, ds[n].id)
        <==> SeenBefore(b.payments, ds[n].id) || SeenBefore(first, ds[n].id);
      assert SeenBefore(first, ds[n].id) <==> ds[n] in first;
      assert ds == ds[..n] + [ds[n]];
    }
  }

  lemma {:induction false} DistinctCount<T>(s: seq<T>, x: T)
    requires forall i, j :: 0 <= i < j < |s| ==> s[i] != s[j]
    ensures multiset(s)[x] == if x in s then 1 else 0
    decreases |s|
  {
    if |s| > 0 {
      var n := |s| - 1;
      DistinctCount(s[..n], x);
      assert s == s[..n] + [s[n]];
    }
  }

  lemma SameElements<T>(a: seq<T>, b: seq<T>)
    requires forall i, j :: 0 <= i < j < |a| ==> a[i] != a[j]
    requires forall i, j :: 0 <= i < j < |b| ==> b[i] != b[j]
    requires forall x :: x in a <==> x in b
    ensures multiset(a) == multiset(b)
  {
    forall x ensures multiset(a)[x] == multiset(b)[x] {
      DistinctCount(a, x);
      DistinctCount(b, x);
    }
  }

  /** Repeating or reordering deliveries changes no wallet. */
  lemma OrderAndRepeatsDoNotMatter(b: Books, ds: seq<PaymentEvent>, es: seq<PaymentEvent>, now: nat, t: nat)
    requires t < |b.wallets|
    requires SameContents(ds, es)
    requires forall p :: p in ds <==> p in es
    ensures |DeliverAll(b, ds, now).wallets| == |DeliverAll(b, es, now).wallets| == |b.wallets|
    ensures DeliverAll(b, ds, now).wallets[t] == DeliverAll(b, es, now).wallets[t]
  {
    FirstCommittedOfSame(b, ds);
    FirstCommittedOfSame(b, es);
    var first, other := FirstCommitted(b, ds), FirstCommitted(b, es);
    SameElements(first, other);
    SumPermutation(first, other, CreditTo(t));
    SumPermutation(first, other, CreditsFor(t));
    CreditsOncePerEvent(b, ds, now, t);
    CreditsOncePerEvent(b, es, now, t);
  }

  // ----- the webhook -----

  /** A Stripe event with a valid signature; `signedCredits` is 0 unless the metadata is all digits. */
  datatype StripeEvent = StripeEvent(
    id: string,
    eventType: string,
    paid: bool,
    tenant: Option<nat>,
    package: string,
    signedCredits: nat)

  const PACKAGES: map<string, int> := map["credits_1000" := 1000, "credits_5000" := 5000, "credits_20000" := 20000]

  predicate Checkout(e: StripeEvent) {
    e.eventType in {"checkout.session.completed", "checkout.session.async_payment_succeeded"}
  }

  function Classify(e: StripeEvent): PaymentEvent {
    if !Checkout(e) then PaymentEvent(e.id, e.eventType, None, 0, false)
    else if e.paid && e.tenant.Some? && e.package in PACKAGES && e.signedCredits == PACKAGES[e.package]
    then PaymentEvent(e.id, e.eventType, e.tenant, PACKAGES[e.package], true)
    else PaymentEvent(e.id, e.eventType, e.tenant, 0, false)
  }

  predicate PaysFor(e: StripeEvent, t: nat) {
    && Checkout(e) && e.paid && e.tenant == Some(t)
    && e.package in PACKAGES && e.signedCredits == PACKAGES[e.package]
  }

  /** A webhook event is rolled back only for a tenant that does not exist, and adds to a wallet
      exactly its package's credits if it is a paid checkout whose signed amount agrees. */
  lemma WebhookCredits(b: Books, e: StripeEvent, now: nat, t: nat)
    requires !SeenBefore(b.payments, e.id) && t < |b.wallets|
    ensures ProcessPayment(b, Classify(e), now).RolledBack?
        <==> Checkout(e) && e.tenant.Some? && e.tenant.value >= |b.wallets|
    ensures |DeliverAll(b, [Classify(e)], now).wallets| == |b.wallets|
    ensures DeliverAll(b, [Classify(e)], now).wallets[t].available - b.wallets[t].available
         == if !PaysFor(e, t) then 0
            else if e.package == "credits_1000" then 1000 else if e.package == "credits_5000" then 5000 else 20000
  {
    FindIsSeen(b.payments, e.id);
    assert DeliverAll(b, [Classify(e)][..0], now) == b;
  }
}
