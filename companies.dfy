/** Companies (src/controllers/companies.controller.js and
    src/models/companies.model.js): the guards of `createCompany`, the
    reason rule of `updateCompanyAccessStatus`, and `addPaymentRecord`.
    Every `find…` on the collection passes the pre-find hook, which hides
    soft-deleted companies; the unique indexes on `name` and
    `registrationNumber` do not. */
module Companies {
  import opened Common
  import opened Text

  /** One entry of `paymentHistory`. */
  datatype PaymentEntry = PaymentEntry(date: Option<string>, amount: Option<int>, paymentMethod: Option<string>)

  datatype Company = Company(
    id: Id,
    name: string,
    registrationNumber: string,
    businessType: string,
    accessStatus: string,
    suspendedReason: Option<string>,
    revokedReason: Option<string>,
    paymentHistory: seq<PaymentEntry>,
    nextPaymentDue: Option<string>,
    gracePeriod: int,
    isDeleted: bool)

  /** A JavaScript truthy string: present and non-empty. */
  predicate Truthy(x: Option<string>) { x.Some? && x.value != "" }

  /** A JavaScript truthy number: present and not 0. */
  predicate TruthyNumber(x: Option<int>) { x.Some? && x.value != 0 }

  const RequiredMessage := "Name, Registration Number, and Business Type are required."
  const ExistsMessage := "Company already exists."
  const DuplicateKeyMessage := "E11000 duplicate key error"
  const ReasonMessage := "Suspension or Revocation requires a reason."
  const NotFoundMessage := "Company not found."

  datatype CompanyRequest = CompanyRequest(
    name: Option<string>,
    registrationNumber: Option<string>,
    businessType: Option<string>,
    accessStatus: Option<string>)

  /** `findOne({ name })` under the pre-find hook; the schema trims the
      name, in the stored document and in the query alike. */
  predicate LiveNamed(name: string, c: Company) { !c.isDeleted && c.name == Trim(name) }

  function LiveNamedOf(name: string): Company -> bool
  {
    c => LiveNamed(name, c)
  }

  /** A clash on a unique index, deleted companies included. */
  predicate IndexClash(name: string, reg: string, c: Company)
  {
    c.name == Trim(name) || c.registrationNumber == Trim(reg)
  }

  function IndexClashOf(name: string, reg: string): Company -> bool
  {
    c => IndexClash(name, reg, c)
  }

  predicate LiveWithId(id: Id, c: Company) { !c.isDeleted && c.id == id }

  function LiveWithIdOf(id: Id): Company -> bool
  {
    c => LiveWithId(id, c)
  }

  function NewCompany(req: CompanyRequest, id: Id): Company
    requires Truthy(req.name) && Truthy(req.registrationNumber) && Truthy(req.businessType)
  {
    Company(id, Trim(req.name.value), Trim(req.registrationNumber.value), req.businessType.value,
            if req.accessStatus.Some? then req.accessStatus.value else "Active",
            None, None, [], None, 0, false)
  }

  /** The access-status rule: 'Suspended' and 'Revoked' need a reason, and
      either reason satisfies either status. */
  predicate ReasonGiven(accessStatus: Option<string>, suspendedReason: Option<string>, revokedReason: Option<string>)
  {
    !(accessStatus in {Some("Suspended"), Some("Revoked")}) || Truthy(suspendedReason) || Truthy(revokedReason)
  }

  /** `findByIdAndUpdate(id, { accessStatus, suspendedReason, revokedReason })`:
      keys left undefined are dropped from the update. */
  function WithAccess(c: Company, accessStatus: Option<string>, suspendedReason: Option<string>,
                      revokedReason: Option<string>): (u: Company)
    ensures u.accessStatus == (if accessStatus.Some? then accessStatus.value else c.accessStatus)
    ensures u.suspendedReason == (if suspendedReason.Some? then Some(Trim(suspendedReason.value)) else c.suspendedReason)
    ensures u.revokedReason == (if revokedReason.Some? then Some(Trim(revokedReason.value)) else c.revokedReason)
    ensures u.(accessStatus := c.accessStatus, suspendedReason := c.suspendedReason, revokedReason := c.revokedReason) == c
  {
    c.(accessStatus := if accessStatus.Some? then accessStatus.value else c.accessStatus,
       suspendedReason := if suspendedReason.Some? then Some(Trim(suspendedReason.value)) else c.suspendedReason,
       revokedReason := if revokedReason.Some? then Some(Trim(revokedReason.value)) else c.revokedReason)
  }

  /** The effect of `addPaymentRecord` on a found company. */
  function WithPayment(c: Company, entry: PaymentEntry, nextPaymentDue: Option<string>, gracePeriod: Option<int>)
    : (u: Company)
    ensures u.paymentHistory == c.paymentHistory + [entry]
    ensures u.nextPaymentDue == (if Truthy(nextPaymentDue) then nextPaymentDue else c.nextPaymentDue)
    ensures u.gracePeriod == (if TruthyNumber(gracePeriod) then gracePeriod.value else c.gracePeriod)
    ensures u.(paymentHistory := c.paymentHistory, nextPaymentDue := c.nextPaymentDue, gracePeriod := c.gracePeriod) == c
  {
    c.(paymentHistory := c.paymentHistory + [entry],
       nextPaymentDue := if Truthy(nextPaymentDue) then nextPaymentDue else c.nextPaymentDue,
       gracePeriod := if TruthyNumber(gracePeriod) then gracePeriod.value else c.gracePeriod)
  }

  class CompanyStore {
    var companies: seq<Company>

    constructor()
      ensures companies == []
    {
      companies := [];
    }

    /** `createCompany`: the three required fields, then a live company of
        the same name, then the unique indexes, which a soft-deleted company
        still occupies. */
    method CreateCompany(req: CompanyRequest, newId: Id) returns (r: Result<Company>)
      modifies this
      ensures !(Truthy(req.name) && Truthy(req.registrationNumber) && Truthy(req.businessType)) ==>
        r == Err(400, RequiredMessage) && companies == old(companies)
      ensures (Truthy(req.name) && Truthy(req.registrationNumber) && Truthy(req.businessType)) ==>
        if FirstWhere(old(companies), LiveNamedOf(req.name.value)).Some? then
          r == Err(400, ExistsMessage) && companies == old(companies)
        else if FirstWhere(old(companies), IndexClashOf(req.name.value, req.registrationNumber.value)).Some? then
          r == Err(500, DuplicateKeyMessage) && companies == old(companies)
        else
          r == Ok(NewCompany(req, newId)) && companies == old(companies) + [r.value]
    {
      if !(Truthy(req.name) && Truthy(req.registrationNumber) && Truthy(req.businessType)) {
        return Err(400, RequiredMessage);
      }
      if FirstWhere(companies, LiveNamedOf(req.name.value)).Some? {
        return Err(400, ExistsMessage);
      }
      if FirstWhere(companies, IndexClashOf(req.name.value, req.registrationNumber.value)).Some? {
        return Err(500, DuplicateKeyMessage);
      }
      var c := NewCompany(req, newId);
      companies := companies + [c];
      r := Ok(c);
    }

    /** `updateCompanyAccessStatus`: the reason rule is checked before the
        lookup. */
    method UpdateCompanyAccessStatus(id: Id, accessStatus: Option<string>, suspendedReason: Option<string>,
                                     revokedReason: Option<string>) returns (r: Result<Company>)
      modifies this
      ensures !ReasonGiven(accessStatus, suspendedReason, revokedReason) ==>
        r == Err(400, ReasonMessage) && companies == old(companies)
      ensures ReasonGiven(accessStatus, suspendedReason, revokedReason) &&
              FirstWhere(old(companies), LiveWithIdOf(id)).None? ==>
        r == Err(404, NotFoundMessage) && companies == old(companies)
      ensures ReasonGiven(accessStatus, suspendedReason, revokedReason) &&
              FirstWhere(old(companies), LiveWithIdOf(id)).Some? ==>
        var i := FirstWhere(old(companies), LiveWithIdOf(id)).value;
        && companies == old(companies)[i := WithAccess(old(companies)[i], accessStatus, suspendedReason, revokedReason)]
        && r == Ok(companies[i])
    {
      if !ReasonGiven(accessStatus, suspendedReason, revokedReason) {
        return Err(400, ReasonMessage);
      }
      var i := FirstWhere(companies, LiveWithIdOf(id));
      if i.None? {
        return Err(404, NotFoundMessage);
      }
      var u := WithAccess(companies[i.value], accessStatus, suspendedReason, revokedReason);
      companies := companies[i.value := u];
      r := Ok(u);
    }

    /** `addPaymentRecord` */
    method AddPaymentRecord(id: Id, entry: PaymentEntry, nextPaymentDue: Option<string>, gracePeriod: Option<int>)
      returns (r: Result<Company>)
      modifies this
      ensures FirstWhere(old(companies), LiveWithIdOf(id)).None? ==>
        r == Err(404, NotFoundMessage) && companies == old(companies)
      ensures FirstWhere(old(companies), LiveWithIdOf(id)).Some? ==>
        var i := FirstWhere(old(companies), LiveWithIdOf(id)).value;
        && companies == old(companies)[i := WithPayment(old(companies)[i], entry, nextPaymentDue, gracePeriod)]
        && r == Ok(companies[i])
    {
      var i := FirstWhere(companies, LiveWithIdOf(id));
      if i.None? {
        return Err(404, NotFoundMessage);
      }
      var u := WithPayment(companies[i.value], entry, nextPaymentDue, gracePeriod);
      companies := companies[i.value := u];
      r := Ok(u);
    }
  }

  /** The reason rule only constrains 'Suspended' and 'Revoked'. */
  lemma ReasonRule(accessStatus: Option<string>, suspendedReason: Option<string>, revokedReason: Option<string>)
    ensures !ReasonGiven(accessStatus, suspendedReason, revokedReason) <==>
      (accessStatus == Some("Suspended") || accessStatus == Some("Revoked")) &&
      !Truthy(suspendedReason) && !Truthy(revokedReason)
  {
  }

  /** A grace period of 0 is falsy: it leaves the old period in place. */
  lemma ZeroGraceKeepsOld(c: Company, entry: PaymentEntry, nextPaymentDue: Option<string>)
    ensures WithPayment(c, entry, nextPaymentDue, Some(0)).gracePeriod == c.gracePeriod
  {
  }

  /** Two payments are recorded in the order they were added, each exactly
      once. */
  lemma PaymentsAccumulate(c: Company, e1: PaymentEntry, e2: PaymentEntry,
                           d1: Option<string>, d2: Option<string>, g1: Option<int>, g2: Option<int>)
    ensures WithPayment(WithPayment(c, e1, d1, g1), e2, d2, g2).paymentHistory == c.paymentHistory + [e1, e2]
  {
    assert c.paymentHistory + [e1] + [e2] == c.paymentHistory + [e1, e2];
  }

  /** A live company blocks a later create under the same trimmed name. */
  lemma CreatedNameBlocks(companies: seq<Company>, c: Company, name: string)
    requires !c.isDeleted && c.name == Trim(name)
    ensures FirstWhere(companies + [c], LiveNamedOf(name)).Some?
  {
    assert LiveNamedOf(name)((companies + [c])[|companies|]);
  }
}
