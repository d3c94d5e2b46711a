/**
 * The courier dashboard: the list of deliveries waiting for a courier, the
 * courier's own deliveries, accepting and finishing a delivery, the distance
 * and order-value filters, the day's statistics, and the approval gate that
 * hides all of it from a courier who is not approved yet.
 */
module CourierDashboard {
  import opened Common
  import opened ApiTypes

  /** The courier id the page stamps on every delivery it accepts. */
  const COURIER_ID := 1

  /** The courier's fee: a tenth of the order value. */
  const FEE_RATE: real := 0.1

  // ---------------------------------------------------------------------
  // lookup
  // ---------------------------------------------------------------------

  predicate HasDelivery(ds: seq<Delivery>, id: int)
  {
    exists i :: 0 <= i < |ds| && ds[i].id == id
  }

  ghost predicate UniqueDeliveryIds(ds: seq<Delivery>)
  {
    forall i, j :: 0 <= i < j < |ds| ==> ds[i].id != ds[j].id
  }

  /** `deliveries.find(d => d.id === id)`: the first delivery carrying the id. */
  function FirstIndex(ds: seq<Delivery>, id: int): (k: int)
    requires HasDelivery(ds, id)
    ensures 0 <= k < |ds| && ds[k].id == id
    ensures forall i :: 0 <= i < k ==> ds[i].id != id
  {
    if ds[0].id == id then 0
    else
      assert HasDelivery(ds[1..], id) by {
        var i :| 0 <= i < |ds| && ds[i].id == id;
        assert ds[1..][i - 1].id == id;
      }
      1 + FirstIndex(ds[1..], id)
  }

  // ---------------------------------------------------------------------
  // accepting and finishing a delivery
  // ---------------------------------------------------------------------

  /** The accepted copy: in transit, assigned to this courier, otherwise unchanged. */
  function Accepted(d: Delivery): (r: Delivery)
    ensures r.status == EmTransito && r.entregadorId == Some(COURIER_ID)
    ensures r.(status := d.status, entregadorId := d.entregadorId) == d
  {
    d.(status := EmTransito, entregadorId := Some(COURIER_ID))
  }

  /** The finished copy: delivered, stamped with the finishing time, otherwise unchanged. */
  function Completed(d: Delivery, now: int): (r: Delivery)
    ensures r.status == Entregue && r.updatedAt == now
    ensures r.(status := d.status, updatedAt := d.updatedAt) == d
  {
    d.(status := Entregue, updatedAt := now)
  }

  /** Every delivery carrying the id leaves the list; all others stay. */
  function WithoutDelivery(ds: seq<Delivery>, id: int): (r: seq<Delivery>)
    ensures !HasDelivery(r, id)
    ensures forall i :: 0 <= i < |r| ==> r[i] in ds
    ensures forall i :: 0 <= i < |ds| && ds[i].id != id ==> ds[i] in r
  {
    Filter(ds, (d: Delivery) => d.id != id)
  }

  /** The two lists the page keeps: deliveries waiting for a courier, and the courier's own. */
  datatype Lists = Lists(available: seq<Delivery>, mine: seq<Delivery>)

  /** No delivery of `available` has its id in `mine`. */
  ghost predicate Disjoint(available: seq<Delivery>, mine: seq<Delivery>)
  {
    forall i :: 0 <= i < |available| ==> !HasDelivery(mine, available[i].id)
  }

  /** Ids are unique within each list and no id is in both. */
  ghost predicate ListsInvariant(l: Lists)
  {
    UniqueDeliveryIds(l.available) && UniqueDeliveryIds(l.mine) && Disjoint(l.available, l.mine)
  }

  /**
   * `acceptDelivery`: an unknown id changes nothing; otherwise the first
   * delivery with the id is taken out of the waiting list and its accepted
   * copy is put at the front of the courier's list.
   */
  function Accept(l: Lists, id: int): (r: Lists)
    ensures !HasDelivery(l.available, id) ==> r == l
    ensures HasDelivery(l.available, id) ==>
              !HasDelivery(r.available, id) &&
              r.mine == [Accepted(l.available[FirstIndex(l.available, id)])] + l.mine &&
              r.mine[0].status == EmTransito && r.mine[0].id == id
  {
    if HasDelivery(l.available, id) then
      Lists(WithoutDelivery(l.available, id), [Accepted(l.available[FirstIndex(l.available, id)])] + l.mine)
    else l
  }

  /** `completeDelivery`: every delivery of the courier with the id becomes delivered at `now`. */
  function CompleteIn(mine: seq<Delivery>, id: int, now: int): (r: seq<Delivery>)
    ensures |r| == |mine|
    ensures forall i :: 0 <= i < |mine| ==> r[i].id == mine[i].id
    ensures forall i :: 0 <= i < |mine| && mine[i].id != id ==> r[i] == mine[i]
    ensures forall i :: 0 <= i < |mine| && mine[i].id == id ==> r[i] == Completed(mine[i], now)
  {
    MapWhere(mine, (d: Delivery) => d.id == id, (d: Delivery) => Completed(d, now))
  }

  // ---------------------------------------------------------------------
  // properties of accept and complete
  // ---------------------------------------------------------------------

  /** With unique ids, accepting moves exactly the one delivery: the other waiting deliveries stay, in order. */
  lemma AcceptMovesOne(l: Lists, id: int)
    requires UniqueDeliveryIds(l.available) && HasDelivery(l.available, id)
    ensures var k := FirstIndex(l.available, id);
            Accept(l, id).available == l.available[..k] + l.available[k + 1..]
  {
    var ds, k := l.available, FirstIndex(l.available, id);
    OnlyAtFirstIndex(ds, id);
    FilterRemovesOnlyAt(ds, (d: Delivery) => d.id != id, k);
  }

  /** With unique ids, the first delivery with the id is the only one. */
  lemma OnlyAtFirstIndex(ds: seq<Delivery>, id: int)
    requires UniqueDeliveryIds(ds) && HasDelivery(ds, id)
    ensures forall i :: 0 <= i < |ds| ==> (ds[i].id != id <==> i != FirstIndex(ds, id))
  {
    var k := FirstIndex(ds, id);
    forall i | 0 <= i < |ds| && i != k ensures ds[i].id != id {
      if i > k {
        assert ds[k].id != ds[i].id;
      }
    }
  }

  /** With unique ids, accepting never loses or duplicates a delivery: the two lists keep their combined size. */
  lemma AcceptKeepsTotal(l: Lists, id: int)
    requires UniqueDeliveryIds(l.available)
    ensures |Accept(l, id).available| + |Accept(l, id).mine| == |l.available| + |l.mine|
  {
    if HasDelivery(l.available, id) {
      AcceptMovesOne(l, id);
    }
  }

  /** A second accept of the same id does nothing: the delivery is no longer waiting. */
  lemma AcceptTwiceIsAcceptOnce(l: Lists, id: int)
    ensures Accept(Accept(l, id), id) == Accept(l, id)
  {
  }

  /** Taking out one delivery keeps the remaining ids unique. */
  lemma RemoveAtKeepsUnique(ds: seq<Delivery>, k: int)
    requires UniqueDeliveryIds(ds) && 0 <= k < |ds|
    ensures UniqueDeliveryIds(ds[..k] + ds[k + 1..])
  {
    var r := ds[..k] + ds[k + 1..];
    forall i, j | 0 <= i < j < |r| ensures r[i].id != r[j].id {
      var i' := if i < k then i else i + 1;
      var j' := if j < k then j else j + 1;
      assert r[i] == ds[i'] && r[j] == ds[j'];
    }
  }

  /** Putting a delivery with a new id in front keeps the ids unique. */
  lemma PrependKeepsUnique(d: Delivery, ds: seq<Delivery>)
    requires UniqueDeliveryIds(ds) && !HasDelivery(ds, d.id)
    ensures UniqueDeliveryIds([d] + ds)
  {
    var r := [d] + ds;
    forall i, j | 0 <= i < j < |r| ensures r[i].id != r[j].id {
      assert r[j] == ds[j - 1];
      if i > 0 {
        assert r[i] == ds[i - 1];
      }
    }
  }

  /** Keeping only deliveries of a disjoint list keeps it disjoint. */
  lemma SublistKeepsDisjoint(sub: seq<Delivery>, available: seq<Delivery>, mine: seq<Delivery>)
    requires Disjoint(available, mine)
    requires forall i :: 0 <= i < |sub| ==> sub[i] in available
    ensures Disjoint(sub, mine)
  {
    forall i | 0 <= i < |sub| ensures !HasDelivery(mine, sub[i].id) {
      var i' :| 0 <= i' < |available| && available[i'] == sub[i];
    }
  }

  /** Putting in front of `mine` a delivery whose id is not waiting keeps the lists disjoint. */
  lemma PrependKeepsDisjoint(available: seq<Delivery>, d: Delivery, mine: seq<Delivery>)
    requires Disjoint(available, mine) && !HasDelivery(available, d.id)
    ensures Disjoint(available, [d] + mine)
  {
    forall i | 0 <= i < |available| ensures !HasDelivery([d] + mine, available[i].id) {
      var x := available[i];
      assert x.id != d.id;
      forall j | 0 <= j < |[d] + mine| ensures ([d] + mine)[j].id != x.id {
        if j > 0 {
          assert ([d] + mine)[j] == mine[j - 1];
        }
      }
    }
  }

  /** Accepting keeps ids unique in each list and keeps the lists disjoint. */
  lemma AcceptPreservesInvariant(l: Lists, id: int)
    requires ListsInvariant(l)
    ensures ListsInvariant(Accept(l, id))
  {
    if HasDelivery(l.available, id) {
      var k := FirstIndex(l.available, id);
      var r := Accept(l, id);
      AcceptMovesOne(l, id);
      RemoveAtKeepsUnique(l.available, k);
      PrependKeepsUnique(Accepted(l.available[k]), l.mine);
      SublistKeepsDisjoint(r.available, l.available, l.mine);
      PrependKeepsDisjoint(r.available, Accepted(l.available[k]), l.mine);
    }
  }

  /** Finishing changes no id, so the list invariant survives it. */
  lemma CompletePreservesInvariant(l: Lists, id: int, now: int)
    requires ListsInvariant(l)
    ensures ListsInvariant(Lists(l.available, CompleteIn(l.mine, id, now)))
  {
  }

  /** Finishing the same delivery twice at the same moment is finishing it once. */
  lemma CompleteIdempotent(mine: seq<Delivery>, id: int, now: int)
    ensures CompleteIn(CompleteIn(mine, id, now), id, now) == CompleteIn(mine, id, now)
  {
  }

  // ---------------------------------------------------------------------
  // filters and statistics
  // ---------------------------------------------------------------------

  /**
   * One delivery against the two filters. `maxDistance` and `minValue` are
   * the filter inputs read as numbers (`None` when empty or not a number, in
   * which case every comparison with them is false); the delivery's own
   * distance is `None` when it has none or it does not read as a number.
   */
  predicate PassesFilters(d: Delivery, maxDistance: Option<real>, minValue: Option<real>)
  {
    !(maxDistance.Some? && d.distancia.Some? && d.distancia.value > maxDistance.value) &&
    !(minValue.Some? && d.valorTotal < minValue.value)
  }

  /** `filteredDeliveries`: the waiting deliveries shown under the current filters. */
  function FilteredDeliveries(ds: seq<Delivery>, maxDistance: Option<real>, minValue: Option<real>): (r: seq<Delivery>)
    ensures forall i :: 0 <= i < |r| ==>
              r[i] in ds &&
              (maxDistance.Some? && r[i].distancia.Some? ==> r[i].distancia.value <= maxDistance.value) &&
              (minValue.Some? ==> r[i].valorTotal >= minValue.value)
    ensures forall i :: 0 <= i < |ds| && PassesFilters(ds[i], maxDistance, minValue) ==> ds[i] in r
  {
    Filter(ds, (d: Delivery) => PassesFilters(d, maxDistance, minValue))
  }

  /** The filters only hide deliveries: what is shown keeps the list's order, each delivery once. */
  lemma FilteredDeliveriesKeepsOrder(ds: seq<Delivery>, maxDistance: Option<real>, minValue: Option<real>)
    ensures IsSubsequence(FilteredDeliveries(ds, maxDistance, minValue), ds)
  {
    FilterIsSubsequence(ds, (d: Delivery) => PassesFilters(d, maxDistance, minValue));
  }

  /** With neither filter set every waiting delivery is shown, in its order. */
  lemma NoFilterShowsAll(ds: seq<Delivery>)
    ensures FilteredDeliveries(ds, None, None) == ds
  {
    FilterKeepsAll(ds, (d: Delivery) => PassesFilters(d, None, None));
  }

  /** Raising the distance limit never hides a delivery that a lower limit showed. */
  lemma LargerDistanceShowsMore(ds: seq<Delivery>, a: real, b: real, minValue: Option<real>)
    requires a <= b
    ensures |FilteredDeliveries(ds, Some(a), minValue)| <= |FilteredDeliveries(ds, Some(b), minValue)|
  {
    CountMonotone(ds, (d: Delivery) => PassesFilters(d, Some(a), minValue),
                      (d: Delivery) => PassesFilters(d, Some(b), minValue));
  }

  /** Lowering the minimum order value never hides a delivery that a higher minimum showed. */
  lemma LowerMinimumShowsMore(ds: seq<Delivery>, maxDistance: Option<real>, a: real, b: real)
    requires b <= a
    ensures |FilteredDeliveries(ds, maxDistance, Some(a))| <= |FilteredDeliveries(ds, maxDistance, Some(b))|
  {
    CountMonotone(ds, (d: Delivery) => PassesFilters(d, maxDistance, Some(a)),
                      (d: Delivery) => PassesFilters(d, maxDistance, Some(b)));
  }

  /** `activeDeliveries`: the courier's deliveries in transit. */
  function ActiveDeliveries(mine: seq<Delivery>): (r: seq<Delivery>)
    ensures forall i :: 0 <= i < |r| ==> r[i] in mine && r[i].status == EmTransito
    ensures forall i :: 0 <= i < |mine| && mine[i].status == EmTransito ==> mine[i] in r
  {
    Filter(mine, (d: Delivery) => d.status == EmTransito)
  }

  /** The deliveries of the "completed" tab: every delivered one, whatever its day. */
  function DeliveredDeliveries(mine: seq<Delivery>): (r: seq<Delivery>)
    ensures forall i :: 0 <= i < |r| ==> r[i] in mine && r[i].status == Entregue
    ensures forall i :: 0 <= i < |mine| && mine[i].status == Entregue ==> mine[i] in r
  {
    Filter(mine, (d: Delivery) => d.status == Entregue)
  }

  /**
   * Delivered on the given local day. `localDay` maps a millisecond
   * timestamp to its calendar day in the browser's time zone (what comparing
   * `toDateString()` results does).
   */
  predicate CompletedOn(d: Delivery, localDay: int -> int, today: int)
  {
    d.status == Entregue && localDay(d.updatedAt) == today
  }

  /** `completedToday`: the courier's deliveries delivered today. */
  function CompletedToday(mine: seq<Delivery>, localDay: int -> int, today: int): (r: seq<Delivery>)
    ensures forall i :: 0 <= i < |r| ==> r[i] in mine && r[i].status == Entregue && localDay(r[i].updatedAt) == today
    ensures forall i :: 0 <= i < |mine| && CompletedOn(mine[i], localDay, today) ==> mine[i] in r
  {
    Filter(mine, (d: Delivery) => CompletedOn(d, localDay, today))
  }

  function ValorTotal(d: Delivery): real
  {
    d.valorTotal
  }

  /** The fee the courier earns on one delivery. */
  function Fee(d: Delivery): real
  {
    d.valorTotal * FEE_RATE
  }

  /** `totalEarningsToday`: a tenth of the value of the orders delivered today. */
  function TotalEarningsToday(mine: seq<Delivery>, localDay: int -> int, today: int): (r: real)
    ensures r == Sum(CompletedToday(mine, localDay, today), ValorTotal) * FEE_RATE
    ensures CompletedToday(mine, localDay, today) == [] ==> r == 0.0
  {
    SumScale(CompletedToday(mine, localDay, today), ValorTotal, Fee, FEE_RATE);
    Sum(CompletedToday(mine, localDay, today), Fee)
  }

  /** Order values are never negative, so neither are the day's earnings. */
  lemma EarningsNonNegative(mine: seq<Delivery>, localDay: int -> int, today: int)
    requires forall i :: 0 <= i < |mine| ==> mine[i].valorTotal >= 0.0
    ensures TotalEarningsToday(mine, localDay, today) >= 0.0
  {
    var done := CompletedToday(mine, localDay, today);
    assert forall x :: x in done ==> Fee(x) >= 0.0;
    SumNonNegative(done, Fee);
  }

  /** With unique ids, the delivery at `k` is the only one with its id. */
  lemma OnlyDeliveryAt(mine: seq<Delivery>, k: int)
    requires UniqueDeliveryIds(mine) && 0 <= k < |mine|
    ensures OnlyMatchAt(mine, (d: Delivery) => d.id == mine[k].id, k)
  {
  }

  /** Finishing a delivery in transit today adds its fee to the day's earnings. */
  lemma CompleteTodayAddsFee(mine: seq<Delivery>, k: int, now: int, localDay: int -> int, today: int)
    requires UniqueDeliveryIds(mine) && 0 <= k < |mine|
    requires mine[k].status == EmTransito && localDay(now) == today
    ensures TotalEarningsToday(CompleteIn(mine, mine[k].id, now), localDay, today)
         == TotalEarningsToday(mine, localDay, today) + Fee(mine[k])
  {
    var id := mine[k].id;
    OnlyDeliveryAt(mine, k);
    MapWhereFilteredSumOne(mine, (d: Delivery) => d.id == id, (d: Delivery) => Completed(d, now),
                           (d: Delivery) => CompletedOn(d, localDay, today), Fee, k);
  }

  /** Finishing a delivery in transit today adds one to the day's count. */
  lemma CompleteTodayCounts(mine: seq<Delivery>, k: int, now: int, localDay: int -> int, today: int)
    requires UniqueDeliveryIds(mine) && 0 <= k < |mine|
    requires mine[k].status == EmTransito && localDay(now) == today
    ensures |CompletedToday(CompleteIn(mine, mine[k].id, now), localDay, today)|
         == |CompletedToday(mine, localDay, today)| + 1
  {
    var id := mine[k].id;
    OnlyDeliveryAt(mine, k);
    MapWhereCountOne(mine, (d: Delivery) => d.id == id, (d: Delivery) => Completed(d, now),
                     (d: Delivery) => CompletedOn(d, localDay, today), k);
  }

  /** Finishing a delivery in transit takes one off the active count. */
  lemma CompleteLeavesActive(mine: seq<Delivery>, k: int, now: int)
    requires UniqueDeliveryIds(mine) && 0 <= k < |mine|
    requires mine[k].status == EmTransito
    ensures |ActiveDeliveries(CompleteIn(mine, mine[k].id, now))| == |ActiveDeliveries(mine)| - 1
  {
    var id := mine[k].id;
    OnlyDeliveryAt(mine, k);
    MapWhereCountOne(mine, (d: Delivery) => d.id == id, (d: Delivery) => Completed(d, now),
                     (d: Delivery) => d.status == EmTransito, k);
  }

  // ---------------------------------------------------------------------
  // what the page shows
  // ---------------------------------------------------------------------

  /**
   * The page: a courier whose profile is loaded and not approved sees only
   * the approval status; anyone else sees the board, whose waiting cards each
   * carry an accept button and whose active cards each carry a finish button.
   */
  datatype CourierView =
    | ApprovalStatusView(profile: DeliveryProfile)
    | Board(waiting: seq<Delivery>, active: seq<Delivery>, delivered: seq<Delivery>,
            completedTodayCount: nat, earningsToday: real)

  function Render(profile: Option<DeliveryProfile>, l: Lists, maxDistance: Option<real>, minValue: Option<real>,
                  localDay: int -> int, today: int): (v: CourierView)
    ensures v.ApprovalStatusView? <==> profile.Some? && profile.value.statusAprovacao != Aprovado
    ensures v.Board? ==>
              (forall i :: 0 <= i < |v.waiting| ==>
                 v.waiting[i] in l.available && PassesFilters(v.waiting[i], maxDistance, minValue)) &&
              (forall i :: 0 <= i < |v.active| ==> v.active[i] in l.mine && v.active[i].status == EmTransito) &&
              v.earningsToday == Sum(CompletedToday(l.mine, localDay, today), ValorTotal) * FEE_RATE
    ensures v.Board? ==>
              (forall i :: 0 <= i < |l.available| && PassesFilters(l.available[i], maxDistance, minValue) ==>
                 l.available[i] in v.waiting) &&
              (forall i :: 0 <= i < |l.mine| && l.mine[i].status == EmTransito ==> l.mine[i] in v.active) &&
              IsSubsequence(v.waiting, l.available)
  {
    if profile.Some? && profile.value.statusAprovacao != Aprovado then ApprovalStatusView(profile.value)
    else
      FilteredDeliveriesKeepsOrder(l.available, maxDistance, minValue);
      Board(FilteredDeliveries(l.available, maxDistance, minValue), ActiveDeliveries(l.mine),
            DeliveredDeliveries(l.mine), |CompletedToday(l.mine, localDay, today)|,
            TotalEarningsToday(l.mine, localDay, today))
  }

  // ---------------------------------------------------------------------
  // the page state
  // ---------------------------------------------------------------------

  class CourierBoard {
    var deliveries: seq<Delivery>
    var myDeliveries: seq<Delivery>
    var profile: Option<DeliveryProfile>

    ghost predicate Valid()
      reads this
    {
      ListsInvariant(Lists(deliveries, myDeliveries))
    }

    /** The page before anything is loaded. */
    constructor ()
      ensures Valid()
      ensures deliveries == [] && myDeliveries == [] && profile == None
    {
      deliveries := [];
      myDeliveries := [];
      profile := None;
    }

    /** The loaders (and `refreshDeliveries`): both lists and the profile are replaced by what was fetched. */
    method Load(available: seq<Delivery>, mine: seq<Delivery>, fetchedProfile: Option<DeliveryProfile>)
      modifies this
      ensures deliveries == available && myDeliveries == mine && profile == fetchedProfile
      ensures ListsInvariant(Lists(available, mine)) ==> Valid()
    {
      deliveries := available;
      myDeliveries := mine;
      profile := fetchedProfile;
    }

    method AcceptDelivery(id: int)
      modifies this
      ensures Lists(deliveries, myDeliveries) == Accept(old(Lists(deliveries, myDeliveries)), id)
      ensures old(Valid()) ==> Valid()
      ensures old(UniqueDeliveryIds(deliveries)) ==> |deliveries| + |myDeliveries| == old(|deliveries| + |myDeliveries|)
      ensures profile == old(profile)
    {
      var l := Lists(deliveries, myDeliveries);
      if ListsInvariant(l) {
        AcceptPreservesInvariant(l, id);
      }
      if UniqueDeliveryIds(deliveries) {
        AcceptKeepsTotal(l, id);
      }
      if HasDelivery(deliveries, id) {
        var d := deliveries[FirstIndex(deliveries, id)];
        deliveries := WithoutDelivery(deliveries, id);
        myDeliveries := [Accepted(d)] + myDeliveries;
      }
    }

    method CompleteDelivery(id: int, now: int)
      modifies this
      ensures myDeliveries == CompleteIn(old(myDeliveries), id, now)
      ensures old(Valid()) ==> Valid()
      ensures deliveries == old(deliveries) && profile == old(profile)
    {
      if Valid() {
        CompletePreservesInvariant(Lists(deliveries, myDeliveries), id, now);
      }
      myDeliveries := CompleteIn(myDeliveries, id, now);
    }
  }
}
