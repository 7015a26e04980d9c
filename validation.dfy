/** Request validation for accounts (src/middlewares/validation.middleware.js):
    the four field chains of `validateAccount` and the `validateRequest`
    gate that lets the handler run only when no chain reported an error. */
module Validation {
  import opened Common

  /** One entry of `validationResult(req).array()`: the field and message. */
  datatype FieldError = FieldError(path: string, msg: string)

  /** The fields of the request body the chains read; an absent field is
      `None`. */
  datatype AccountBody = AccountBody(
    entityId: Option<string>,
    entityType: Option<string>,
    status: Option<string>,
    companyId: Option<string>)

  /** What the validators see: an absent value is read as the empty string. */
  function Field(v: Option<string>): string
  {
    if v.Some? then v.value else ""
  }

  predicate IsHexDigit(c: char)
  {
    ('0' <= c <= '9') || ('a' <= c <= 'f') || ('A' <= c <= 'F')
  }

  predicate AllHex(s: string)
  {
    forall i :: 0 <= i < |s| ==> IsHexDigit(s[i])
  }

  /** Exactly 24 hexadecimal characters: the text of an ObjectId. */
  predicate IsHex24(s: string)
  {
    |s| == 24 && AllHex(s)
  }

  /** The optional `0x` / `0h` prefix (either case) of `isHexadecimal`. */
  predicate HasHexPrefix(s: string)
  {
    |s| >= 2 && s[0] == '0' && (s[1] == 'x' || s[1] == 'X' || s[1] == 'h' || s[1] == 'H')
  }

  /** validator.js `isHexadecimal`, `/^(0x|0h)?[0-9A-F]+$/i`: one or more
      hexadecimal digits after the optional prefix. Neither 'x' nor 'h' is
      a digit, so the prefix is taken whenever it is there. */
  predicate IsHexadecimal(s: string)
  {
    if HasHexPrefix(s) then |s| > 2 && AllHex(s[2..]) else |s| > 0 && AllHex(s)
  }

  /** `isMongoId`: `isHexadecimal` and 24 characters long, so a prefixed
      id carries 22 digits. */
  predicate IsMongoId(s: string)
  {
    IsHexadecimal(s) && |s| == 24
  }

  /** The ids `isMongoId` accepts: 24 hexadecimal digits, or a `0x` / `0h`
      prefix followed by 22 of them. */
  lemma MongoIdForms(s: string)
    ensures IsMongoId(s) <==> IsHex24(s) || (|s| == 24 && HasHexPrefix(s) && AllHex(s[2..]))
  {
    if HasHexPrefix(s) {
      assert !IsHexDigit(s[1]);
    }
  }

  /** The second validator of a chain. */
  datatype Check = MongoId | OneOf(allowed: seq<string>)

  predicate Passes(chk: Check, s: string)
  {
    match chk
    case MongoId => IsMongoId(s)
    case OneOf(allowed) => s in allowed
  }

  const EntityTypes: seq<string> := ["Customer", "Vendor", "Both"]
  const Statuses: seq<string> := ["Active", "Inactive", "Suspended"]

  const EntityIdRequired := "Entity ID is required"
  const EntityIdInvalid := "Invalid Entity ID format"
  const EntityTypeRequired := "Entity Type is required"
  const EntityTypeInvalid := "Invalid Entity Type"
  const StatusRequired := "Status is required"
  const StatusInvalid := "Invalid Status"
  const CompanyIdRequired := "Company ID is required"
  const CompanyIdInvalid := "Invalid Company ID format"

  /** One chain `body(path).notEmpty().withMessage(m1).<check>.withMessage(m2)`.
      There is no `bail()`, so both validators run and an empty value is
      reported twice when the check also rejects it. */
  function RuleErrors(path: string, value: string, requiredMsg: string, chk: Check, checkMsg: string)
    : (r: seq<FieldError>)
    ensures r == [] <==> value != "" && Passes(chk, value)
    ensures FieldError(path, requiredMsg) in r <==> value == "" || (requiredMsg == checkMsg && !Passes(chk, value))
    ensures FieldError(path, checkMsg) in r <==> !Passes(chk, value) || (requiredMsg == checkMsg && value == "")
    ensures forall k :: 0 <= k < |r| ==> r[k].path == path
  {
    (if value == "" then [FieldError(path, requiredMsg)] else []) +
    (if Passes(chk, value) then [] else [FieldError(path, checkMsg)])
  }

  /** What `validateAccount` accepts. */
  predicate AccountValid(b: AccountBody)
  {
    && IsMongoId(Field(b.entityId))
    && Field(b.entityType) in EntityTypes
    && Field(b.status) in Statuses
    && IsMongoId(Field(b.companyId))
  }

  /** The errors the four chains collect, in chain order. */
  function ValidateAccount(b: AccountBody): (r: seq<FieldError>)
    ensures r == [] <==> AccountValid(b)
    ensures |r| <= 8
  {
    var e1 := RuleErrors("entityId", Field(b.entityId), EntityIdRequired, MongoId, EntityIdInvalid);
    var e2 := RuleErrors("entityType", Field(b.entityType), EntityTypeRequired, OneOf(EntityTypes), EntityTypeInvalid);
    var e3 := RuleErrors("status", Field(b.status), StatusRequired, OneOf(Statuses), StatusInvalid);
    var e4 := RuleErrors("companyId", Field(b.companyId), CompanyIdRequired, MongoId, CompanyIdInvalid);
    e1 + e2 + e3 + e4
  }

  /** The errors of one chain are the errors of the whole list at its path. */
  lemma ChainErrors(b: AccountBody, e: FieldError)
    ensures e.path == "entityId" ==> (e in ValidateAccount(b) <==>
      e in RuleErrors("entityId", Field(b.entityId), EntityIdRequired, MongoId, EntityIdInvalid))
    ensures e.path == "entityType" ==> (e in ValidateAccount(b) <==>
      e in RuleErrors("entityType", Field(b.entityType), EntityTypeRequired, OneOf(EntityTypes), EntityTypeInvalid))
    ensures e.path == "status" ==> (e in ValidateAccount(b) <==>
      e in RuleErrors("status", Field(b.status), StatusRequired, OneOf(Statuses), StatusInvalid))
    ensures e.path == "companyId" ==> (e in ValidateAccount(b) <==>
      e in RuleErrors("companyId", Field(b.companyId), CompanyIdRequired, MongoId, CompanyIdInvalid))
  {
    var e1 := RuleErrors("entityId", Field(b.entityId), EntityIdRequired, MongoId, EntityIdInvalid);
    var e2 := RuleErrors("entityType", Field(b.entityType), EntityTypeRequired, OneOf(EntityTypes), EntityTypeInvalid);
    var e3 := RuleErrors("status", Field(b.status), StatusRequired, OneOf(Statuses), StatusInvalid);
    var e4 := RuleErrors("companyId", Field(b.companyId), CompanyIdRequired, MongoId, CompanyIdInvalid);
    assert ValidateAccount(b) == e1 + e2 + e3 + e4;
    if e.path == "entityId" {
      OtherPath(e, e2, "entityType"); OtherPath(e, e3, "status"); OtherPath(e, e4, "companyId");
    } else if e.path == "entityType" {
      OtherPath(e, e1, "entityId"); OtherPath(e, e3, "status"); OtherPath(e, e4, "companyId");
    } else if e.path == "status" {
      OtherPath(e, e1, "entityId"); OtherPath(e, e2, "entityType"); OtherPath(e, e4, "companyId");
    } else if e.path == "companyId" {
      OtherPath(e, e1, "entityId"); OtherPath(e, e2, "entityType"); OtherPath(e, e3, "status");
    }
  }

  lemma OtherPath(e: FieldError, errors: seq<FieldError>, path: string)
    requires forall k :: 0 <= k < |errors| ==> errors[k].path == path
    requires e.path != path
    ensures e !in errors
  {
  }

  /** Each message is reported exactly when its validator rejects the field:
      the "required" message for an empty field, the format or membership
      message for a value outside the accepted ones. */
  lemma AccountMessages(b: AccountBody)
    ensures FieldError("entityId", EntityIdRequired) in ValidateAccount(b) <==> Field(b.entityId) == ""
    ensures FieldError("entityId", EntityIdInvalid) in ValidateAccount(b) <==> !IsMongoId(Field(b.entityId))
    ensures FieldError("entityType", EntityTypeRequired) in ValidateAccount(b) <==> Field(b.entityType) == ""
    ensures FieldError("entityType", EntityTypeInvalid) in ValidateAccount(b) <==> Field(b.entityType) !in EntityTypes
    ensures FieldError("status", StatusRequired) in ValidateAccount(b) <==> Field(b.status) == ""
    ensures FieldError("status", StatusInvalid) in ValidateAccount(b) <==> Field(b.status) !in Statuses
    ensures FieldError("companyId", CompanyIdRequired) in ValidateAccount(b) <==> Field(b.companyId) == ""
    ensures FieldError("companyId", CompanyIdInvalid) in ValidateAccount(b) <==> !IsMongoId(Field(b.companyId))
  {
    ChainErrors(b, FieldError("entityId", EntityIdRequired));
    ChainErrors(b, FieldError("entityId", EntityIdInvalid));
    ChainErrors(b, FieldError("entityType", EntityTypeRequired));
    ChainErrors(b, FieldError("entityType", EntityTypeInvalid));
    ChainErrors(b, FieldError("status", StatusRequired));
    ChainErrors(b, FieldError("status", StatusInvalid));
    ChainErrors(b, FieldError("companyId", CompanyIdRequired));
    ChainErrors(b, FieldError("companyId", CompanyIdInvalid));
  }

  /** The outcome of the middleware: the handler runs, or 400 with every
      error. */
  datatype Gate = Proceed | Rejected(status: nat, errors: seq<FieldError>)

  /** `validateRequest` */
  function ValidateRequest(errors: seq<FieldError>): (r: Gate)
    ensures r.Proceed? <==> errors == []
    ensures r.Rejected? ==> r.status == 400 && r.errors == errors
  {
    if errors == [] then Proceed else Rejected(400, errors)
  }

  /** The account handler runs exactly for a body `validateAccount` accepts;
      any other body is answered 400 with at least one error. */
  lemma AccountGate(b: AccountBody)
    ensures ValidateRequest(ValidateAccount(b)).Proceed? <==> AccountValid(b)
    ensures !AccountValid(b) ==>
      ValidateRequest(ValidateAccount(b)).status == 400 && |ValidateRequest(ValidateAccount(b)).errors| >= 1
  {
  }

  /** An empty body is reported on all eight messages. */
  lemma EmptyBodyReportsEverything()
    ensures |ValidateAccount(AccountBody(None, None, None, None))| == 8
  {
    var b := AccountBody(None, None, None, None);
    assert !IsMongoId(Field(b.entityId)) && Field(b.entityType) !in EntityTypes && Field(b.status) !in Statuses;
  }
}
