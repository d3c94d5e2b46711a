/**
 * The administrator's courier page: the courier registrations with their
 * search, approving or rejecting a pending one, and the counters.
 */
module AdminDeliverers {
  import opened Common
  import opened ApiTypes
  import CourierDashboard

  /** A courier registration as the administrator sees it. */
  datatype Deliverer = Deliverer(
    id: int,
    userId: int,
    userName: string,
    email: string,
    statusAprovacao: ApprovalStatus,
    veiculo: Option<string>,
    cnh: Option<string>,
    createdAt: string)

  ghost predicate UniqueDelivererIds(ds: seq<Deliverer>)
  {
    forall i, j :: 0 <= i < j < |ds| ==> ds[i].id != ds[j].id
  }

  /** Approve and reject are offered only for a pending registration: exactly when either decision would change it. */
  predicate CanDecide(d: Deliverer)
    ensures CanDecide(d) <==> Decide([d], d.id, Aprovado) != [d] && Decide([d], d.id, Rejeitado) != [d]
  {
    d.statusAprovacao == Pendente
  }

  /** `updateDelivererStatus`: every registration with the id gets the decision; nothing else about it changes. */
  function Decide(ds: seq<Deliverer>, id: int, decision: ApprovalStatus): (r: seq<Deliverer>)
    requires decision != Pendente
    ensures |r| == |ds|
    ensures forall i :: 0 <= i < |ds| ==>
              r[i].(statusAprovacao := ds[i].statusAprovacao) == ds[i] &&
              r[i].statusAprovacao == if ds[i].id == id then decision else ds[i].statusAprovacao
  {
    MapWhere(ds, (d: Deliverer) => d.id == id, (d: Deliverer) => d.(statusAprovacao := decision))
  }

  /** A decided registration is no longer offered approve or reject. */
  lemma DecidedIsFinal(ds: seq<Deliverer>, id: int, decision: ApprovalStatus)
    requires decision != Pendente
    ensures forall i :: 0 <= i < |ds| && ds[i].id == id ==> !CanDecide(Decide(ds, id, decision)[i])
  {
  }

  /** The courier's own profile for a registration. */
  function ProfileOf(d: Deliverer): DeliveryProfile
  {
    DeliveryProfile(d.id, d.userId, d.statusAprovacao, d.veiculo, d.cnh, d.createdAt)
  }

  /**
   * Approval is what opens the courier's board: once approved, the courier
   * dashboard shows the board; pending or rejected, only the approval status.
   */
  lemma ApprovalOpensBoard(ds: seq<Deliverer>, k: int, decision: ApprovalStatus, l: CourierDashboard.Lists,
                           maxDistance: Option<real>, minValue: Option<real>, localDay: int -> int, today: int)
    requires 0 <= k < |ds| && decision != Pendente
    ensures var p := ProfileOf(Decide(ds, ds[k].id, decision)[k]);
            CourierDashboard.Render(Some(p), l, maxDistance, minValue, localDay, today).Board? <==> decision == Aprovado
  {
  }

  /** The search: name or e-mail holds the term, ignoring case, or the vehicle does when there is one. */
  predicate DelivererMatches(d: Deliverer, term: string)
  {
    MatchesTerm(d.userName, term) || MatchesTerm(d.email, term) ||
    (d.veiculo.Some? && MatchesTerm(d.veiculo.value, term))
  }

  function FilteredDeliverers(ds: seq<Deliverer>, term: string): (r: seq<Deliverer>)
    ensures forall i :: 0 <= i < |r| ==> r[i] in ds && DelivererMatches(r[i], term)
    ensures forall i :: 0 <= i < |ds| && DelivererMatches(ds[i], term) ==> ds[i] in r
  {
    Filter(ds, (d: Deliverer) => DelivererMatches(d, term))
  }

  lemma EmptySearchShowsAll(ds: seq<Deliverer>)
    ensures FilteredDeliverers(ds, "") == ds
  {
    FilterKeepsAll(ds, (d: Deliverer) => DelivererMatches(d, ""));
  }

  datatype ReviewStats = ReviewStats(total: nat, pending: nat, approved: nat, rejected: nat)

  predicate IsPending(d: Deliverer) { d.statusAprovacao == Pendente }
  predicate IsApproved(d: Deliverer) { d.statusAprovacao == Aprovado }
  predicate IsRejected(d: Deliverer) { d.statusAprovacao == Rejeitado }

  /** The counters; every registration is in exactly one of the three status counts. */
  function Stats(ds: seq<Deliverer>): (s: ReviewStats)
    ensures s.total == |ds|
    ensures s.pending + s.approved + s.rejected == s.total
  {
    CountPartition3(ds, IsPending, IsApproved, IsRejected);
    ReviewStats(|ds|, Count(ds, IsPending), Count(ds, IsApproved), Count(ds, IsRejected))
  }

  /** With unique ids, deciding a pending registration moves it from the pending count to the decided one. */
  lemma DecideStats(ds: seq<Deliverer>, k: int, decision: ApprovalStatus)
    requires UniqueDelivererIds(ds) && 0 <= k < |ds| && CanDecide(ds[k]) && decision != Pendente
    ensures var before := Stats(ds);
            var after := Stats(Decide(ds, ds[k].id, decision));
            after.total == before.total &&
            after.pending == before.pending - 1 &&
            after.approved == before.approved + (if decision == Aprovado then 1 else 0) &&
            after.rejected == before.rejected + (if decision == Rejeitado then 1 else 0)
  {
    var id := ds[k].id;
    var matches := (d: Deliverer) => d.id == id;
    var f := (d: Deliverer) => d.(statusAprovacao := decision);
    assert OnlyMatchAt(ds, matches, k);
    MapWhereCountOne(ds, matches, f, IsPending, k);
    MapWhereCountOne(ds, matches, f, IsApproved, k);
    MapWhereCountOne(ds, matches, f, IsRejected, k);
  }

  class DeliverersPage {
    var deliverers: seq<Deliverer>

    /** `loadDeliverers`: the page starts with no registrations. */
    constructor ()
      ensures deliverers == []
    {
      deliverers := [];
    }

    method UpdateDelivererStatus(id: int, decision: ApprovalStatus)
      requires decision != Pendente
      modifies this
      ensures deliverers == Decide(old(deliverers), id, decision)
      ensures old(UniqueDelivererIds(deliverers)) ==> UniqueDelivererIds(deliverers)
    {
      deliverers := Decide(deliverers, id, decision);
    }
  }
}
