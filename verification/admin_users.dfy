/**
 * The administrator's user page: the user list with its search, switching
 * a user between active, suspended and inactive, and the counters.
 */
module AdminUsers {
  import opened Common

  datatype UserStatus = Ativo | Inativo | Suspenso

  /** The kind of account: buyer, seller or courier. */
  datatype UserProfile = Buyer | Seller | Courier

  /** The profile as the page stores and searches it ("user", "vendedor", "entregador"). */
  function ProfileCode(p: UserProfile): string
  {
    match p
    case Buyer => "user"
    case Seller => "vendedor"
    case Courier => "entregador"
  }

  /** Distinct profiles have distinct codes. */
  lemma ProfileCodeInjective(a: UserProfile, b: UserProfile)
    ensures ProfileCode(a) == ProfileCode(b) ==> a == b
  {
  }

  datatype User = User(
    id: int,
    name: string,
    email: string,
    status: UserStatus,
    profile: UserProfile,
    createdAt: string,
    lastLogin: Option<string>)

  ghost predicate UniqueUserIds(users: seq<User>)
  {
    forall i, j :: 0 <= i < j < |users| ==> users[i].id != users[j].id
  }

  /** `updateUserStatus`: every user with the id gets the new status; nothing else about them changes. */
  function SetStatus(users: seq<User>, id: int, newStatus: UserStatus): (r: seq<User>)
    ensures |r| == |users|
    ensures forall i :: 0 <= i < |users| ==>
              r[i].(status := users[i].status) == users[i] &&
              r[i].status == if users[i].id == id then newStatus else users[i].status
  {
    MapWhere(users, (u: User) => u.id == id, (u: User) => u.(status := newStatus))
  }

  /** Only the last change counts. */
  lemma SetStatusLastWins(users: seq<User>, id: int, a: UserStatus, b: UserStatus)
    ensures SetStatus(SetStatus(users, id, a), id, b) == SetStatus(users, id, b)
  {
  }

  /** Each of the three status actions is disabled for a user already in that status: enabled exactly when it would change the user. */
  predicate ActionEnabled(u: User, target: UserStatus)
    ensures ActionEnabled(u, target) <==> SetStatus([u], u.id, target) != [u]
  {
    u.status != target
  }

  /** Every user is offered exactly the two statuses they are not in, and after a change the action just taken is disabled. */
  lemma ActionsAfterChange(users: seq<User>, id: int, newStatus: UserStatus)
    ensures forall i :: 0 <= i < |users| ==>
              (if ActionEnabled(users[i], Ativo) then 1 else 0) + (if ActionEnabled(users[i], Suspenso) then 1 else 0)
              + (if ActionEnabled(users[i], Inativo) then 1 else 0) == 2
    ensures forall i :: 0 <= i < |users| && users[i].id == id ==> !ActionEnabled(SetStatus(users, id, newStatus)[i], newStatus)
  {
  }

  /** The search: name, e-mail or profile code holds the term, ignoring case. */
  predicate UserMatches(u: User, term: string)
  {
    MatchesTerm(u.name, term) || MatchesTerm(u.email, term) || MatchesTerm(ProfileCode(u.profile), term)
  }

  function FilteredUsers(users: seq<User>, term: string): (r: seq<User>)
    ensures forall i :: 0 <= i < |r| ==> r[i] in users && UserMatches(r[i], term)
    ensures forall i :: 0 <= i < |users| && UserMatches(users[i], term) ==> users[i] in r
  {
    Filter(users, (u: User) => UserMatches(u, term))
  }

  lemma EmptySearchShowsAll(users: seq<User>)
    ensures FilteredUsers(users, "") == users
  {
    FilterKeepsAll(users, (u: User) => UserMatches(u, ""));
  }

  /** Searching for a profile code finds every user of that profile. */
  lemma SearchByProfileFindsAll(users: seq<User>, p: UserProfile)
    ensures forall i :: 0 <= i < |users| && users[i].profile == p ==> users[i] in FilteredUsers(users, ProfileCode(p))
  {
    forall i | 0 <= i < |users| && users[i].profile == p
      ensures UserMatches(users[i], ProfileCode(p))
    {
      MatchesSelf(ProfileCode(p));
    }
  }

  datatype UserStats = UserStats(total: nat, active: nat, suspended: nat, inactive: nat)

  predicate IsActive(u: User) { u.status == Ativo }
  predicate IsSuspended(u: User) { u.status == Suspenso }
  predicate IsInactive(u: User) { u.status == Inativo }

  /** The counters; every user is in exactly one of the three status counts. */
  function Stats(users: seq<User>): (s: UserStats)
    ensures s.total == |users|
    ensures s.active + s.suspended + s.inactive == s.total
  {
    CountPartition3(users, IsActive, IsSuspended, IsInactive);
    UserStats(|users|, Count(users, IsActive), Count(users, IsSuspended), Count(users, IsInactive))
  }

  /** With unique ids, changing one user's status moves them from their old count to the new one. */
  lemma SetStatusStats(users: seq<User>, k: int, newStatus: UserStatus)
    requires UniqueUserIds(users) && 0 <= k < |users|
    ensures var before := Stats(users);
            var after := Stats(SetStatus(users, users[k].id, newStatus));
            var old_ := users[k].status;
            after.total == before.total &&
            after.active == before.active - (if old_ == Ativo then 1 else 0) + (if newStatus == Ativo then 1 else 0) &&
            after.suspended == before.suspended - (if old_ == Suspenso then 1 else 0) + (if newStatus == Suspenso then 1 else 0) &&
            after.inactive == before.inactive - (if old_ == Inativo then 1 else 0) + (if newStatus == Inativo then 1 else 0)
  {
    var id := users[k].id;
    var matches := (u: User) => u.id == id;
    var f := (u: User) => u.(status := newStatus);
    assert OnlyMatchAt(users, matches, k);
    MapWhereCountOne(users, matches, f, IsActive, k);
    MapWhereCountOne(users, matches, f, IsSuspended, k);
    MapWhereCountOne(users, matches, f, IsInactive, k);
  }

  class UsersPage {
    var users: seq<User>

    /** `loadUsers`: the page starts with no users. */
    constructor ()
      ensures users == []
    {
      users := [];
    }

    method UpdateUserStatus(id: int, newStatus: UserStatus)
      modifies this
      ensures users == SetStatus(old(users), id, newStatus)
      ensures old(UniqueUserIds(users)) ==> UniqueUserIds(users)
    {
      users := SetStatus(users, id, newStatus);
    }
  }
}
