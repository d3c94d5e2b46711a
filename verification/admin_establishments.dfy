/**
 * The administrator's establishment page: the establishment list with its
 * search, approving or rejecting a pending establishment, and the counters.
 */
module AdminEstablishments {
  import opened Common
  import opened ApiTypes

  /** A shop registration; its review status is pending, approved or rejected. */
  datatype Establishment = Establishment(
    id: int,
    name: string,
    owner: string,
    email: string,
    status: ApprovalStatus,
    address: string,
    phone: Option<string>,
    createdAt: string)

  /** The status codes of this page ("PENDENTE", "APROVADO", "REJEITADO"). */
  function StatusCode(s: ApprovalStatus): string
  {
    match s
    case Pendente => "PENDENTE"
    case Aprovado => "APROVADO"
    case Rejeitado => "REJEITADO"
  }

  /** Distinct statuses have distinct codes. */
  lemma StatusCodeInjective(a: ApprovalStatus, b: ApprovalStatus)
    ensures StatusCode(a) == StatusCode(b) ==> a == b
  {
  }

  ghost predicate UniqueEstablishmentIds(es: seq<Establishment>)
  {
    forall i, j :: 0 <= i < j < |es| ==> es[i].id != es[j].id
  }

  /** Approve and reject are offered only for a pending establishment: exactly when either decision would change it. */
  predicate CanDecide(e: Establishment)
    ensures CanDecide(e) <==> Decide([e], e.id, Aprovado) != [e] && Decide([e], e.id, Rejeitado) != [e]
  {
    e.status == Pendente
  }

  /** `updateEstablishmentStatus`: every establishment with the id gets the decision; nothing else about it changes. */
  function Decide(es: seq<Establishment>, id: int, decision: ApprovalStatus): (r: seq<Establishment>)
    requires decision != Pendente
    ensures |r| == |es|
    ensures forall i :: 0 <= i < |es| ==>
              r[i].(status := es[i].status) == es[i] &&
              r[i].status == if es[i].id == id then decision else es[i].status
  {
    MapWhere(es, (e: Establishment) => e.id == id, (e: Establishment) => e.(status := decision))
  }

  /** A decided establishment is no longer offered approve or reject. */
  lemma DecidedIsFinal(es: seq<Establishment>, id: int, decision: ApprovalStatus)
    requires decision != Pendente
    ensures forall i :: 0 <= i < |es| && es[i].id == id ==> !CanDecide(Decide(es, id, decision)[i])
  {
  }

  /** The search: name, owner or e-mail holds the term, ignoring case. */
  predicate EstablishmentMatches(e: Establishment, term: string)
  {
    MatchesTerm(e.name, term) || MatchesTerm(e.owner, term) || MatchesTerm(e.email, term)
  }

  function FilteredEstablishments(es: seq<Establishment>, term: string): (r: seq<Establishment>)
    ensures forall i :: 0 <= i < |r| ==> r[i] in es && EstablishmentMatches(r[i], term)
    ensures forall i :: 0 <= i < |es| && EstablishmentMatches(es[i], term) ==> es[i] in r
  {
    Filter(es, (e: Establishment) => EstablishmentMatches(e, term))
  }

  lemma EmptySearchShowsAll(es: seq<Establishment>)
    ensures FilteredEstablishments(es, "") == es
  {
    FilterKeepsAll(es, (e: Establishment) => EstablishmentMatches(e, ""));
  }

  datatype ReviewStats = ReviewStats(total: nat, pending: nat, approved: nat, rejected: nat)

  predicate IsPending(e: Establishment) { e.status == Pendente }
  predicate IsApproved(e: Establishment) { e.status == Aprovado }
  predicate IsRejected(e: Establishment) { e.status == Rejeitado }

  /** The counters; every establishment is in exactly one of the three status counts. */
  function Stats(es: seq<Establishment>): (s: ReviewStats)
    ensures s.total == |es|
    ensures s.pending + s.approved + s.rejected == s.total
  {
    CountPartition3(es, IsPending, IsApproved, IsRejected);
    ReviewStats(|es|, Count(es, IsPending), Count(es, IsApproved), Count(es, IsRejected))
  }

  /** With unique ids, deciding a pending establishment moves it from the pending count to the decided one. */
  lemma DecideStats(es: seq<Establishment>, k: int, decision: ApprovalStatus)
    requires UniqueEstablishmentIds(es) && 0 <= k < |es| && CanDecide(es[k]) && decision != Pendente
    ensures var before := Stats(es);
            var after := Stats(Decide(es, es[k].id, decision));
            after.total == before.total &&
            after.pending == before.pending - 1 &&
            after.approved == before.approved + (if decision == Aprovado then 1 else 0) &&
            after.rejected == before.rejected + (if decision == Rejeitado then 1 else 0)
  {
    var id := es[k].id;
    var matches := (e: Establishment) => e.id == id;
    var f := (e: Establishment) => e.(status := decision);
    assert OnlyMatchAt(es, matches, k);
    MapWhereCountOne(es, matches, f, IsPending, k);
    MapWhereCountOne(es, matches, f, IsApproved, k);
    MapWhereCountOne(es, matches, f, IsRejected, k);
  }

  class EstablishmentsPage {
    var establishments: seq<Establishment>

    /** `loadEstablishments`: the page starts with no establishments. */
    constructor ()
      ensures establishments == []
    {
      establishments := [];
    }

    method UpdateEstablishmentStatus(id: int, decision: ApprovalStatus)
      requires decision != Pendente
      modifies this
      ensures establishments == Decide(old(establishments), id, decision)
      ensures old(UniqueEstablishmentIds(establishments)) ==> UniqueEstablishmentIds(establishments)
    {
      establishments := Decide(establishments, id, decision);
    }
  }
}
