// Choosing the size of a dynamically created NodeGroup (pkg/events/creator.go:430-548,
// 649-685).
module KubeSizes {
  import opened Options
  import opened PodResources

  const DEFAULT_CPU := 500
  const MEBIBYTE := 1024 * 1024
  const DEFAULT_MEMORY := 256 * MEBIBYTE

  // CPU in cores, RAM in MiB.
  datatype Offer = Offer(id: int, cpu: nat, ram: nat, price: real)

  datatype Choice = Chosen(id: int) | NoClient | NoOffers | ListingFailed | AllInUse

  function WithDefaults(request: Request): Request {
    Request(if request.cpu == 0 then DEFAULT_CPU else request.cpu,
            if request.memory == 0 then DEFAULT_MEMORY else request.memory)
  }

  // The comparison made: memory is rounded down to whole MiB first.
  predicate Accepts(offer: Offer, request: Request) {
    offer.cpu * 1000 >= request.cpu && offer.ram >= request.memory / MEBIBYTE
  }

  predicate Holds(offer: Offer, request: Request) {
    offer.cpu * 1000 >= request.cpu && offer.ram * MEBIBYTE >= request.memory
  }

  // An accepted offer is too small exactly when it has just the whole MiB of a request
  // that is not a whole number of them.
  lemma RoundingGap(offer: Offer, request: Request)
    ensures Holds(offer, request) ==> Accepts(offer, request)
    ensures Accepts(offer, request) && !Holds(offer, request) <==>
              && offer.cpu * 1000 >= request.cpu
              && offer.ram == request.memory / MEBIBYTE && request.memory % MEBIBYTE != 0
  {
  }

  // So accepting an offer is safe, whatever the offer, exactly for requests of whole MiB.
  lemma RoundingHarmlessIff(request: Request)
    ensures (forall offer :: Accepts(offer, request) ==> Holds(offer, request)) <==> request.memory % MEBIBYTE == 0
  {
    var offer := JustTooSmall(request);
    assert Accepts(offer, request);
  }

  // All the CPU that is asked for, and the whole MiB.
  function JustTooSmall(request: Request): Offer {
    Offer(1, request.cpu, request.memory / MEBIBYTE, 1.0)
  }

  predicate ByPrice(sorted: seq<Offer>) {
    forall i, j :: 0 <= i < j < |sorted| ==> sorted[i].price <= sorted[j].price
  }

  predicate Unused(offer: Offer, used: set<int>) {
    offer.id !in used
  }

  // A cheapest of the unused offers that are accepted; with `any`, of all unused ones.
  predicate IsCheapest(offers: seq<Offer>, used: set<int>, request: Request, any: bool, o: Offer) {
    && o in offers && Unused(o, used) && (any || Accepts(o, request))
    && forall p :: p in offers && Unused(p, used) && (any || Accepts(p, request)) ==> o.price <= p.price
  }

  predicate Cheapest(offers: seq<Offer>, used: set<int>, request: Request, any: bool, id: int) {
    exists o :: o in offers && o.id == id && IsCheapest(offers, used, request, any, o)
  }

  predicate Available(offers: seq<Offer>, used: set<int>, request: Request, any: bool) {
    exists o :: o in offers && Unused(o, used) && (any || Accepts(o, request))
  }

  function UsedSizes(groups: seq<int>): set<int> {
    set size | size in groups
  }

  // One pass over the sorted offers.
  method FirstUnused(sorted: seq<Offer>, used: set<int>, request: Request, any: bool) returns (id: Option<int>)
    requires ByPrice(sorted)
    ensures id.Some? ==> Cheapest(sorted, used, request, any, id.value)
    ensures id == None ==> !Available(sorted, used, request, any)
  {
    for i := 0 to |sorted|
      invariant forall j :: 0 <= j < i ==> !Unused(sorted[j], used) || !(any || Accepts(sorted[j], request))
    {
      var offer := sorted[i];
      if Unused(offer, used) && (any || Accepts(offer, request)) {
        assert offer in sorted && IsCheapest(sorted, used, request, any, offer);
        return Some(offer.id);
      }
    }
    return None;
  }

  // `listed` are the offers, or None if they could not be fetched; `groups` the sizes of
  // the existing groups, or None if they were not or could not be fetched. `sorted` is
  // any order the sort by price can produce.
  method SelectOptimalKubeSizeID(hasClient: bool, staticID: int, listed: Option<seq<Offer>>, groups: Option<seq<int>>,
                                 pod: Pod, sorted: seq<Offer>)
    returns (choice: Choice)
    requires listed.Some? ==> ByPrice(sorted) && multiset(sorted) == multiset(listed.value)
    ensures var asked, request := RequestOf(pod), WithDefaults(RequestOf(pod));
            && request.cpu == (if asked.cpu == 0 then 500 else asked.cpu)
            && request.memory == (if asked.memory == 0 then 268_435_456 else asked.memory)
    ensures !hasClient ==> choice == if staticID > 0 then Chosen(staticID) else NoClient
    ensures hasClient && listed == None ==> choice == if staticID > 0 then Chosen(staticID) else ListingFailed
    ensures hasClient && listed == Some([]) ==> choice == NoOffers
    ensures hasClient && listed.Some? && listed.value != [] ==>
              var used := if groups.Some? then UsedSizes(groups.value) else {};
              var request := WithDefaults(RequestOf(pod));
              && (choice == AllInUse <==> forall o :: o in listed.value ==> o.id in used)
              && (choice == AllInUse || choice.Chosen?)
              && (choice.Chosen? ==>
                    Cheapest(listed.value, used, request, !Available(listed.value, used, request, false), choice.id))
  {
    if !hasClient {
      if staticID > 0 {
        return Chosen(staticID);
      }
      return NoClient;
    }
    if listed == None {
      if staticID > 0 {
        return Chosen(staticID);
      }
      return ListingFailed;
    }
    if |listed.value| == 0 {
      return NoOffers;
    }
    var used: set<int> := {};
    if groups.Some? {
      for i := 0 to |groups.value|
        invariant used == UsedSizes(groups.value[..i])
      {
        assert groups.value[..i + 1] == groups.value[..i] + [groups.value[i]];
        used := used + {groups.value[i]};
      }
      assert groups.value[..|groups.value|] == groups.value;
    }
    var request := CalculatePodResources(pod);
    if request.cpu == 0 {
      request := request.(cpu := DEFAULT_CPU);
    }
    if request.memory == 0 {
      request := request.(memory := DEFAULT_MEMORY);
    }
    SameOffers(sorted, listed.value, used, request);
    var id := FirstUnused(sorted, used, request, false);
    if id.Some? {
      return Chosen(id.value);
    }
    id := FirstUnused(sorted, used, request, true);
    if id.Some? {
      return Chosen(id.value);
    }
    return AllInUse;
  }

  // Sorting changes neither what is available nor what is cheapest.
  lemma SameOffers(a: seq<Offer>, b: seq<Offer>, used: set<int>, request: Request)
    requires multiset(a) == multiset(b)
    ensures forall any :: Available(a, used, request, any) <==> Available(b, used, request, any)
    ensures forall any, id :: Cheapest(a, used, request, any, id) <==> Cheapest(b, used, request, any, id)
  {
    assert forall o :: o in a <==> o in multiset(a);
    assert forall o :: o in b <==> o in multiset(b);
    forall any, o ensures IsCheapest(a, used, request, any, o) <==> IsCheapest(b, used, request, any, o) {
    }
  }

  // ----- When the selection lets a pod down -----

  // An offer the selection may return; both passes are meant.
  predicate Selectable(offers: seq<Offer>, used: set<int>, request: Request, o: Offer) {
    IsCheapest(offers, used, request, !Available(offers, used, request, false), o)
  }

  predicate SomeUnusedHolds(offers: seq<Offer>, used: set<int>, request: Request) {
    exists o :: o in offers && Unused(o, used) && Holds(o, request)
  }

  // One MiB more, at twice the price.
  function JustEnough(request: Request): Offer {
    Offer(2, request.cpu, request.memory / MEBIBYTE + 1, 2.0)
  }

  // As long as some unused offer holds the request, the selected one does: for all lists of
  // offers and used sizes exactly if the request is a whole number of MiB.
  lemma SelectionHoldsIff(request: Request)
    ensures (forall offers, used, o | SomeUnusedHolds(offers, used, request) && Selectable(offers, used, request, o) ::
               Holds(o, request))
            <==> request.memory % MEBIBYTE == 0
  {
    if request.memory % MEBIBYTE == 0 {
      forall offers, used, o | SomeUnusedHolds(offers, used, request) && Selectable(offers, used, request, o)
        ensures Holds(o, request)
      {
        var p :| p in offers && Unused(p, used) && Holds(p, request);
        RoundingGap(p, request);
        assert Available(offers, used, request, false);
        RoundingGap(o, request);
      }
    } else {
      var small, large := JustTooSmall(request), JustEnough(request);
      TwoOffers(request);
      assert SomeUnusedHolds([small, large], {}, request) && Selectable([small, large], {}, request, small);
    }
  }

  lemma TwoOffers(request: Request)
    ensures var small, large := JustTooSmall(request), JustEnough(request);
            && (forall o :: o in [small, large] <==> o == small || o == large)
            && Holds(large, request) && (Holds(small, request) <==> request.memory % MEBIBYTE == 0)
            && Available([small, large], {}, request, false)
            && IsCheapest([small, large], {}, request, false, small)
            && forall id :: Cheapest([small, large], {}, request, false, id) ==> id == small.id
  {
    var small, large := JustTooSmall(request), JustEnough(request);
    assert small in [small, large] && large in [small, large];
    assert Accepts(small, request) && Accepts(large, request);
  }

  // The witness, for any pod: the cheaper of two unused offers is returned. It cannot hold a
  // pod whose memory is not whole MiB, although the other one can.
  method TooSmallSizeSelected(pod: Pod) returns (small: Offer, large: Offer, choice: Choice)
    ensures choice == Chosen(small.id) && small.id != large.id && small.price < large.price
    ensures var request := WithDefaults(RequestOf(pod));
            Holds(large, request) && (Holds(small, request) <==> request.memory % MEBIBYTE == 0)
  {
    var request := CalculatePodResources(pod);
    request := WithDefaults(request);
    small, large := JustTooSmall(request), JustEnough(request);
    TwoOffers(request);
    choice := SelectOptimalKubeSizeID(true, 0, Some([small, large]), None, pod, [small, large]);
  }
}
