/** The account directory (src/controllers/account.controller.js and
    src/models/account.model.js): at most one live account per entity and
    company, a status update, a soft delete, and the newest-first listing.
    The account model has no pre-find hook; every query names
    `isDeleted: false` itself. */
module Accounts {
  import opened Common

  datatype Account = Account(
    id: Id,
    entityId: Id,
    entityType: string,
    status: string,
    companyId: Id,
    createdBy: Id,
    updatedBy: Option<Id>,
    deletedBy: Option<Id>,
    isDeleted: bool,
    createdAt: int)

  /** The body of `createAccount`; an omitted status takes the schema
      default 'Active'. */
  datatype AccountRequest = AccountRequest(
    entityId: Id,
    entityType: string,
    status: Option<string>,
    companyId: Id,
    createdBy: Id)

  const AlreadyExistsMessage := "Account already exists for this entity."
  const NotFoundMessage := "Account not found."

  /** At most one live account per (entity, company). */
  predicate UniqueLive(accounts: seq<Account>)
  {
    forall i, j :: 0 <= i < j < |accounts| && !accounts[i].isDeleted && !accounts[j].isDeleted ==>
      accounts[i].entityId != accounts[j].entityId || accounts[i].companyId != accounts[j].companyId
  }

  /** `findOne({ entityId, companyId, isDeleted: false })` */
  predicate LiveFor(e: Id, c: Id, a: Account)
  {
    !a.isDeleted && a.entityId == e && a.companyId == c
  }

  function LiveForOf(e: Id, c: Id): Account -> bool
  {
    a => LiveFor(e, c, a)
  }

  /** `findOne({ _id: id, isDeleted: false })` */
  predicate LiveWithId(id: Id, a: Account)
  {
    !a.isDeleted && a.id == id
  }

  function LiveWithIdOf(id: Id): Account -> bool
  {
    a => LiveWithId(id, a)
  }

  function NewAccount(req: AccountRequest, id: Id, now: int): (a: Account)
    ensures !a.isDeleted && a.entityId == req.entityId && a.companyId == req.companyId
    ensures a.status == (if req.status.Some? then req.status.value else "Active")
  {
    Account(id, req.entityId, req.entityType, if req.status.Some? then req.status.value else "Active",
            req.companyId, req.createdBy, None, None, false, now)
  }

  class AccountStore {
    var accounts: seq<Account>

    constructor()
      ensures accounts == []
    {
      accounts := [];
    }

    /** `createAccount`: refused while a live account exists for the pair;
        a soft-deleted one does not block. */
    method CreateAccount(req: AccountRequest, newId: Id, now: int) returns (r: Result<Account>)
      modifies this
      ensures FirstWhere(old(accounts), LiveForOf(req.entityId, req.companyId)).Some? ==>
        r == Err(400, AlreadyExistsMessage) && accounts == old(accounts)
      ensures FirstWhere(old(accounts), LiveForOf(req.entityId, req.companyId)).None? ==>
        r == Ok(NewAccount(req, newId, now)) && accounts == old(accounts) + [r.value]
      ensures UniqueLive(old(accounts)) ==> UniqueLive(accounts)
    {
      if FirstWhere(accounts, LiveForOf(req.entityId, req.companyId)).Some? {
        return Err(400, AlreadyExistsMessage);
      }
      var a := NewAccount(req, newId, now);
      CreateKeepsUnique(accounts, a);
      accounts := accounts + [a];
      r := Ok(a);
    }

    /** `updateAccount`: only `status` and `updatedBy` change, and the
        update is answered with the saved account. */
    method UpdateAccount(id: Id, status: string, user: Id) returns (r: Result<Account>)
      modifies this
      ensures FirstWhere(old(accounts), LiveWithIdOf(id)).None? ==>
        r == Err(404, NotFoundMessage) && accounts == old(accounts)
      ensures FirstWhere(old(accounts), LiveWithIdOf(id)).Some? ==>
        var i := FirstWhere(old(accounts), LiveWithIdOf(id)).value;
        && accounts == old(accounts)[i := old(accounts)[i].(status := status, updatedBy := Some(user))]
        && r == Ok(accounts[i])
      ensures UniqueLive(old(accounts)) ==> UniqueLive(accounts)
    {
      var i := FirstWhere(accounts, LiveWithIdOf(id));
      if i.None? {
        return Err(404, NotFoundMessage);
      }
      var a := accounts[i.value].(status := status, updatedBy := Some(user));
      accounts := accounts[i.value := a];
      r := Ok(a);
    }

    /** `deleteAccount`: sets `isDeleted` and `deletedBy` (the `createdBy`
        of the query string, absent when not given); an account already
        deleted is not found. */
    method DeleteAccount(id: Id, deletedBy: Option<Id>) returns (r: Result<()>)
      modifies this
      ensures FirstWhere(old(accounts), LiveWithIdOf(id)).None? ==>
        r == Err(404, NotFoundMessage) && accounts == old(accounts)
      ensures FirstWhere(old(accounts), LiveWithIdOf(id)).Some? ==>
        var i := FirstWhere(old(accounts), LiveWithIdOf(id)).value;
        && accounts == old(accounts)[i := old(accounts)[i].(isDeleted := true, deletedBy := deletedBy)]
        && r == Ok(())
      ensures UniqueLive(old(accounts)) ==> UniqueLive(accounts)
    {
      var i := FirstWhere(accounts, LiveWithIdOf(id));
      if i.None? {
        return Err(404, NotFoundMessage);
      }
      accounts := accounts[i.value := accounts[i.value].(isDeleted := true, deletedBy := deletedBy)];
      r := Ok(());
    }
  }

  /** Creating only when no live account exists for the pair keeps the pair
      unique among live accounts. */
  lemma CreateKeepsUnique(accounts: seq<Account>, a: Account)
    requires FirstWhere(accounts, LiveForOf(a.entityId, a.companyId)).None?
    ensures UniqueLive(accounts) ==> UniqueLive(accounts + [a])
  {
    var s := accounts + [a];
    if UniqueLive(accounts) {
      forall i, j | 0 <= i < j < |s| && !s[i].isDeleted && !s[j].isDeleted
        ensures s[i].entityId != s[j].entityId || s[i].companyId != s[j].companyId
      {
        if j == |accounts| {
          assert !LiveFor(a.entityId, a.companyId, accounts[i]);
        }
      }
    }
  }

  /** A status update keeps the account live under its id: a second
      lookup by id finds the same account, carrying the new status, and
      every listing counts as many accounts as before. */
  lemma UpdatedStillFound(accounts: seq<Account>, id: Id, status: string, user: Id, q: AccountQuery)
    requires FirstWhere(accounts, LiveWithIdOf(id)).Some?
    ensures var i := FirstWhere(accounts, LiveWithIdOf(id)).value;
      var s := accounts[i := accounts[i].(status := status, updatedBy := Some(user))];
      && FirstWhere(s, LiveWithIdOf(id)) == Some(i)
      && s[i].status == status && s[i].updatedBy == Some(user)
      && GetAccounts(s, q).totalRecords == GetAccounts(accounts, q).totalRecords
  {
    var i := FirstWhere(accounts, LiveWithIdOf(id)).value;
    var a := accounts[i].(status := status, updatedBy := Some(user));
    var s := accounts[i := a];
    assert forall j :: 0 <= j < |s| ==> LiveWithIdOf(id)(s[j]) == LiveWithIdOf(id)(accounts[j]);
    FirstWhereSameMatches(s, accounts, LiveWithIdOf(id));
    assert MatchOf(q)(accounts[i]) == MatchOf(q)(a);
    FilterCountUpdate(accounts, i, a, MatchOf(q));
  }

  /** After the soft delete of the live account of a pair, creating an
      account for that pair succeeds again, and the deleted one is no longer
      found by id. */
  lemma DeletedDoesNotBlock(accounts: seq<Account>, i: nat, deletedBy: Option<Id>)
    requires UniqueLive(accounts)
    requires i < |accounts| && !accounts[i].isDeleted
    requires forall j :: 0 <= j < |accounts| && j != i ==> accounts[j].id != accounts[i].id
    ensures var s := accounts[i := accounts[i].(isDeleted := true, deletedBy := deletedBy)];
      && FirstWhere(s, LiveForOf(accounts[i].entityId, accounts[i].companyId)).None?
      && FirstWhere(s, LiveWithIdOf(accounts[i].id)).None?
  {
    var s := accounts[i := accounts[i].(isDeleted := true, deletedBy := deletedBy)];
    var e, c := accounts[i].entityId, accounts[i].companyId;
    forall j | 0 <= j < |s| ensures !LiveFor(e, c, s[j]) {
      if j < i {
        assert !accounts[j].isDeleted ==> accounts[j].entityId != e || accounts[j].companyId != c;
      } else if j > i {
        assert !accounts[j].isDeleted ==> e != accounts[j].entityId || c != accounts[j].companyId;
      }
    }
    FirstWhereNone(s, LiveForOf(e, c));
    assert forall j :: 0 <= j < |s| ==> !LiveWithId(accounts[i].id, s[j]);
    FirstWhereNone(s, LiveWithIdOf(accounts[i].id));
  }

  // ---------------------------------------------------------------------
  // The listing.

  /** The query of `getAccounts`; an empty string counts as absent. */
  datatype AccountQuery = AccountQuery(companyId: Option<Id>, entityType: Option<string>, page: Pos, limit: Pos)

  datatype AccountPage = AccountPage(accounts: seq<Account>, totalRecords: nat, currentPage: nat, totalPages: nat)

  predicate Given(x: Option<string>) { x.Some? && x.value != "" }

  /** `{ isDeleted: false }` plus `companyId` and `entityType` when given. */
  predicate AccountMatch(q: AccountQuery, a: Account)
  {
    && !a.isDeleted
    && (!Given(q.companyId) || a.companyId == q.companyId.value)
    && (!Given(q.entityType) || a.entityType == q.entityType.value)
  }

  function MatchOf(q: AccountQuery): Account -> bool
  {
    a => AccountMatch(q, a)
  }

  function CreatedAt(a: Account): int { a.createdAt }

  /** `getAccounts`: the matches newest first (the sort applies before the
      skip and limit, whatever the order of the calls), the requested page,
      their count and the page count. */
  function GetAccounts(accounts: seq<Account>, q: AccountQuery): (r: AccountPage)
    ensures |r.accounts| <= q.limit
    ensures forall k :: 0 <= k < |r.accounts| ==> AccountMatch(q, r.accounts[k])
    ensures forall i, j :: 0 <= i < j < |r.accounts| ==> r.accounts[i].createdAt >= r.accounts[j].createdAt
    ensures r.totalRecords == |Filter(accounts, MatchOf(q))|
    ensures IsPage(r.accounts, SortDesc(Filter(accounts, MatchOf(q)), CreatedAt), q.page, q.limit)
    ensures PageCount(r.totalPages, r.totalRecords, q.limit)
  {
    var matches := Filter(accounts, MatchOf(q));
    var sorted := SortDesc(matches, CreatedAt);
    SortDescSorted(matches, CreatedAt);
    PermutationKeeps(matches, sorted, MatchOf(q));
    SortedPageOf(sorted, CreatedAt, MatchOf(q), q.page, q.limit);
    AccountPage(Paginate(sorted, q.page, q.limit), |matches|, q.page, CeilDiv(|matches|, q.limit))
  }

  /** No matching account is out of reach: the i-th newest match is item
      i % limit of page i / limit + 1. */
  lemma EveryAccountListed(accounts: seq<Account>, q: AccountQuery, i: nat)
    requires i < |Filter(accounts, MatchOf(q))| && q.page == i / q.limit + 1
    ensures i % q.limit < |GetAccounts(accounts, q).accounts|
    ensures GetAccounts(accounts, q).accounts[i % q.limit] == SortDesc(Filter(accounts, MatchOf(q)), CreatedAt)[i]
  {
    var sorted := SortDesc(Filter(accounts, MatchOf(q)), CreatedAt);
    var e := GetAccounts(accounts, q).accounts;
    assert IsPage(e, sorted, q.page, q.limit);
    OnPage(e, sorted, i, q.page, q.limit);
  }

  /** A listing never shows a soft-deleted account, and a newly created
      account is counted by every listing whose filters it meets. */
  lemma CreatedAccountListed(accounts: seq<Account>, a: Account, q: AccountQuery)
    requires !a.isDeleted
    ensures GetAccounts(accounts + [a], q).totalRecords ==
      GetAccounts(accounts, q).totalRecords + (if AccountMatch(q, a) then 1 else 0)
  {
    FilterAppend(accounts, [a], MatchOf(q));
    assert [a][1..] == [];
  }
}
