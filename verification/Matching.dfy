/**
 * The coordinator: a registry of nodes kept alive by heartbeats, a book of
 * standing bids, and lowest-price matching. Signature checks are parameters,
 * price caps are natural numbers, and both clocks are passed in.
 */
module Matching {
  import opened Base
  import opened Decimal
  import opened RegistrySpec
  import opened Metering

  const HEARTBEAT_TIMEOUT: nat := 30

  datatype Registration = Registration(identity: string, publicKey: string, url: string, backends: seq<Backend>,
                                       maxTokens: nat, pricing: seq<BackendPrice>)

  datatype Entry = Entry(reg: Registration, lastSeen: nat)

  datatype Bid = Bid(identity: string, backend: Backend, pricePer1k: string, maxTokens: nat, validUntil: nat)

  type BidBook = map<(string, Backend), Bid>

  datatype JobSpec = JobSpec(backend: Backend, estimatedTokens: nat, maxUnits: nat)

  datatype JobMatch = JobMatch(url: string, publicKey: string)

  datatype Offer = Offer(price: nat, cap: nat)

  datatype Error = NotHex | Unauthorized | UnknownIdentity | BidExpired

  /** `verify_signed` on a request: a field that is not hex, a wrong signature, or neither. */
  datatype SigCheck = Malformed | Invalid | Verified

  function SigError(sig: SigCheck): Option<Error> {
    match sig case Malformed => Some(NotHex) case Invalid => Some(Unauthorized) case Verified => None
  }

  // ---- What a node offers ----

  function LiveBid(bids: BidBook, identity: string, k: Backend, now: nat): Option<Bid> {
    if (identity, k) in bids && bids[(identity, k)].validUntil > now then Some(bids[(identity, k)]) else None
  }

  function ListedPrice(pricing: seq<BackendPrice>, k: Backend): Option<string> {
    if pricing == [] then None
    else if pricing[0].backend == k then Some(pricing[0].pricePer1k)
    else ListedPrice(pricing[1..], k)
  }

  /** An unexpired bid replaces the registered price, and brings its own token cap. */
  function OfferOf(id: string, reg: Registration, bids: BidBook, k: Backend, now: nat): Option<Offer> {
    if k !in reg.backends then None
    else match LiveBid(bids, id, k, now)
      case Some(bid) =>
        (match ParseU128(bid.pricePer1k)
         case None => None
         case Some(p) => Some(Offer(p, bid.maxTokens)))
      case None =>
        match ListedPrice(reg.pricing, k)
        case None => None
        case Some(s) =>
          match ParseU128(s)
          case None => None
          case Some(p) => Some(Offer(p, reg.maxTokens))
  }

  predicate Eligible(id: string, reg: Registration, bids: BidBook, spec: JobSpec, now: nat) {
    var o := OfferOf(id, reg, bids, spec.backend, now);
    o.Some? && o.value.cap >= spec.estimatedTokens && o.value.price <= spec.maxUnits
  }

  function PriceOf(id: string, reg: Registration, bids: BidBook, spec: JobSpec, now: nat): nat
    requires Eligible(id, reg, bids, spec, now)
  {
    OfferOf(id, reg, bids, spec.backend, now).value.price
  }

  /** An eligible node than which no eligible node is cheaper. */
  predicate Cheapest(nodes: map<string, Entry>, bids: BidBook, spec: JobSpec, now: nat, id: string) {
    && id in nodes && Eligible(id, nodes[id].reg, bids, spec, now)
    && forall other :: other in nodes && Eligible(other, nodes[other].reg, bids, spec, now) ==>
         PriceOf(id, nodes[id].reg, bids, spec, now) <= PriceOf(other, nodes[other].reg, bids, spec, now)
  }

  /** The node's unexpired bid for the backend. */
  predicate HasBid(id: string, bids: BidBook, k: Backend, now: nat, bid: Bid) {
    (id, k) in bids && bids[(id, k)] == bid && now < bid.validUntil
  }

  predicate ListedFirst(pricing: seq<BackendPrice>, k: Backend, i: nat) {
    i < |pricing| && pricing[i].backend == k && forall j :: 0 <= j < i ==> pricing[j].backend != k
  }

  /** What the node asks for and can take, in terms of its bid or else its registration. */
  ghost predicate Asks(id: string, reg: Registration, bids: BidBook, k: Backend, now: nat, price: nat, cap: nat) {
    && k in reg.backends
    && ((exists bid :: HasBid(id, bids, k, now, bid)
                        && ParseU128(bid.pricePer1k) == Some(price) && cap == bid.maxTokens)
        || ((forall bid :: !HasBid(id, bids, k, now, bid))
            && cap == reg.maxTokens
            && exists i: nat :: ListedFirst(reg.pricing, k, i) && ParseU128(reg.pricing[i].pricePer1k) == Some(price)))
  }

  lemma {:induction false} ListedPriceIsFirst(pricing: seq<BackendPrice>, k: Backend)
    ensures ListedPrice(pricing, k) == None ==> forall i: nat :: !ListedFirst(pricing, k, i)
    ensures ListedPrice(pricing, k).Some? ==>
              exists i: nat :: ListedFirst(pricing, k, i) && ListedPrice(pricing, k) == Some(pricing[i].pricePer1k)
  {
    if pricing != [] {
      if pricing[0].backend == k {
        assert ListedFirst(pricing, k, 0);
      } else {
        ListedPriceIsFirst(pricing[1..], k);
        forall i: nat | ListedFirst(pricing, k, i) ensures i > 0 && ListedFirst(pricing[1..], k, i - 1) {
          assert forall j :: 0 <= j < i - 1 ==> pricing[1..][j] == pricing[j + 1];
        }
        forall i: nat | ListedFirst(pricing[1..], k, i) ensures ListedFirst(pricing, k, i + 1) {
          assert forall j :: 1 <= j < i + 1 ==> pricing[j] == pricing[1..][j - 1];
        }
      }
    }
  }

  /** A node is eligible exactly when it asks no more than the job pays and can take at least what it needs. */
  lemma EligibleIff(id: string, reg: Registration, bids: BidBook, spec: JobSpec, now: nat)
    ensures Eligible(id, reg, bids, spec, now)
            <==> exists price: nat, cap: nat :: Asks(id, reg, bids, spec.backend, now, price, cap)
                                      && price <= spec.maxUnits && spec.estimatedTokens <= cap
    ensures Eligible(id, reg, bids, spec, now) ==>
              exists cap: nat :: Asks(id, reg, bids, spec.backend, now, PriceOf(id, reg, bids, spec, now), cap)
  {
    OfferIsAsked(id, reg, bids, spec.backend, now);
    var o := OfferOf(id, reg, bids, spec.backend, now);
    if o.Some? {
      assert o == Some(Offer(o.value.price, o.value.cap));
      assert Asks(id, reg, bids, spec.backend, now, o.value.price, o.value.cap);
    }
    if Eligible(id, reg, bids, spec, now) {
      assert Asks(id, reg, bids, spec.backend, now, PriceOf(id, reg, bids, spec, now), o.value.cap);
    }
  }

  lemma OfferIsAsked(id: string, reg: Registration, bids: BidBook, k: Backend, now: nat)
    ensures forall price: nat, cap: nat :: Asks(id, reg, bids, k, now, price, cap)
                                 <==> OfferOf(id, reg, bids, k, now) == Some(Offer(price, cap))
  {
    ListedPriceIsFirst(reg.pricing, k);
    var live := LiveBid(bids, id, k, now);
    assert live.Some? ==> HasBid(id, bids, k, now, live.value);
    assert live == None ==> forall bid :: !HasBid(id, bids, k, now, bid);
    forall i: nat, j: nat | ListedFirst(reg.pricing, k, i) && ListedFirst(reg.pricing, k, j) ensures i == j {}
  }

  // ---- The coordinator ----

  class Coordinator {
    var nodes: map<string, Entry>
    var bids: BidBook

    /** Both maps are keyed by what their values say. */
    predicate Valid()
      reads this
    {
      && (forall id :: id in nodes ==> nodes[id].reg.identity == id)
      && (forall key :: key in bids ==> key == (bids[key].identity, bids[key].backend))
    }

    constructor ()
      ensures Valid() && nodes == map[] && bids == map[]
    {
      nodes, bids := map[], map[];
    }

    method Register(reg: Registration, sig: SigCheck, now: nat) returns (error: Option<Error>)
      requires Valid()
      modifies this`nodes
      ensures Valid()
      ensures error == SigError(sig)
      ensures nodes == if sig.Verified? then old(nodes)[reg.identity := Entry(reg, now)] else old(nodes)
    {
      if sig.Malformed? { return Some(NotHex); }
      if sig.Invalid? { return Some(Unauthorized); }
      nodes := nodes[reg.identity := Entry(reg, now)];
      error := None;
    }

    method Heartbeat(identity: string, sig: SigCheck, now: nat) returns (error: Option<Error>)
      requires Valid()
      modifies this`nodes
      ensures Valid()
      ensures error == (if !sig.Verified? then SigError(sig)
                        else if identity in old(nodes) then None else Some(UnknownIdentity))
      ensures nodes == if error != None then old(nodes)
                       else old(nodes)[identity := old(nodes)[identity].(lastSeen := now)]
    {
      if sig.Malformed? { return Some(NotHex); }
      if sig.Invalid? { return Some(Unauthorized); }
      if identity !in nodes { return Some(UnknownIdentity); }
      nodes := nodes[identity := nodes[identity].(lastSeen := now)];
      error := None;
    }

    method PostBid(bid: Bid, sig: SigCheck, unixNow: nat) returns (error: Option<Error>)
      requires Valid()
      modifies this`bids
      ensures Valid()
      ensures error == (if !sig.Verified? then SigError(sig)
                        else if bid.validUntil <= unixNow then Some(BidExpired) else None)
      ensures bids == if error == None then old(bids)[(bid.identity, bid.backend) := bid] else old(bids)
    {
      if sig.Malformed? { return Some(NotHex); }
      if sig.Invalid? { return Some(Unauthorized); }
      if bid.validUntil <= unixNow { return Some(BidExpired); }
      bids := bids[(bid.identity, bid.backend) := bid];
      error := None;
    }

    /** One round of the garbage collector. */
    method Collect(now: nat, unixNow: nat)
      requires Valid()
      modifies this
      ensures Valid()
      ensures nodes == map id | id in old(nodes) && now < old(nodes)[id].lastSeen + HEARTBEAT_TIMEOUT :: old(nodes)[id]
      ensures bids == Unexpired(old(bids), unixNow)
    {
      nodes := map id | id in nodes && now < nodes[id].lastSeen + HEARTBEAT_TIMEOUT :: nodes[id];
      bids := map key | key in bids && bids[key].validUntil > unixNow :: bids[key];
    }

    /**
     * Matching is sound and complete: some node is returned exactly when some
     * registered node is eligible, and the one returned is eligible and no
     * eligible node is cheaper, in whatever order the nodes are visited.
     */
    method MatchJob(spec: JobSpec, unixNow: nat) returns (r: Option<JobMatch>)
      requires Valid()
      ensures r.Some? <==> exists id :: id in nodes && Eligible(id, nodes[id].reg, bids, spec, unixNow)
      ensures r.Some? ==> exists id | Cheapest(nodes, bids, spec, unixNow, id) ::
                            r.value == JobMatch(nodes[id].reg.url, nodes[id].reg.publicKey)
    {
      var best: Option<(nat, Registration)> := None;
      ghost var winner := "";
      var toVisit := nodes.Keys;
      while toVisit != {}
        invariant toVisit <= nodes.Keys
        invariant best == None ==>
          forall id :: id in nodes && id !in toVisit ==> !Eligible(id, nodes[id].reg, bids, spec, unixNow)
        invariant best.Some? ==>
          && winner in nodes && Eligible(winner, nodes[winner].reg, bids, spec, unixNow)
          && best.value == (PriceOf(winner, nodes[winner].reg, bids, spec, unixNow), nodes[winner].reg)
          && forall id :: id in nodes && id !in toVisit && Eligible(id, nodes[id].reg, bids, spec, unixNow) ==>
               best.value.0 <= PriceOf(id, nodes[id].reg, bids, spec, unixNow)
        decreases |toVisit|
      {
        var id :| id in toVisit;
        toVisit := toVisit - {id};
        var reg := nodes[id].reg;
        if spec.backend !in reg.backends { continue; }
        var bid := LiveBid(bids, reg.identity, spec.backend, unixNow);
        var priceString, cap;
        if bid.Some? {
          priceString, cap := Some(bid.value.pricePer1k), bid.value.maxTokens;
        } else {
          priceString, cap := ListedPrice(reg.pricing, spec.backend), reg.maxTokens;
        }
        if priceString == None { continue; }
        var price := ParseU128(priceString.value);
        if price == None { continue; }
        if cap < spec.estimatedTokens { continue; }
        if price.value > spec.maxUnits { continue; }
        if best == None || price.value < best.value.0 {
          best := Some((price.value, reg));
          winner := id;
        }
      }
      if best == None { return None; }
      assert Cheapest(nodes, bids, spec, unixNow, winner);
      r := Some(JobMatch(best.value.1.url, best.value.1.publicKey));
    }
  }

  function Unexpired(bids: BidBook, unixNow: nat): BidBook {
    map key | key in bids && bids[key].validUntil > unixNow :: bids[key]
  }

  /** What is kept is exactly what still counts. */
  lemma KeptIsLive(bids: BidBook, unixNow: nat, id: string, k: Backend, bid: Bid)
    ensures (id, k) in Unexpired(bids, unixNow) && Unexpired(bids, unixNow)[(id, k)] == bid
            <==> HasBid(id, bids, k, unixNow, bid)
  {
  }

  /** Collecting expired bids changes no match, now or later: they had already stopped counting. */
  lemma CollectingBidsIsInvisible(id: string, reg: Registration, bids: BidBook, spec: JobSpec, collectedAt: nat,
                                  now: nat)
    requires collectedAt <= now
    ensures OfferOf(id, reg, Unexpired(bids, collectedAt), spec.backend, now)
         == OfferOf(id, reg, bids, spec.backend, now)
    ensures Eligible(id, reg, Unexpired(bids, collectedAt), spec, now) <==> Eligible(id, reg, bids, spec, now)
  {
    assert LiveBid(Unexpired(bids, collectedAt), id, spec.backend, now) == LiveBid(bids, id, spec.backend, now);
  }
}
