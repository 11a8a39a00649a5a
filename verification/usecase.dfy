/** The dashboard usecases of categories, location and role: every operation validates
    the caller's token; the list operation also requires the caller's role to be named
    "admin", keeps the live rows only and pages them; the writes stamp the audit columns
    from the clock and the token's user id before handing the record to the repository. */
module Usecase {
  import opened Errors
  import opened Store
  import opened Entities
  import opened Helper
  import Decimal

  /** `ValidateJWTToken` followed by `GetClaimsOfJWTToken`, with the signing key and the
      clock fixed: the claims of a valid token, or the toolkit's error. */
  type Validator = string -> Result<Claims>

  datatype Pagination = Pagination(limit: int, page: int)

  datatype Response<B> = Response(limit: int, page: int, totalRows: int, totalPages: int, data: seq<Record<B>>)

  /** Which audit columns a usecase fills from the token besides the timestamps:
      categories and role fill `updated_by` and `deleted_by`, location neither. */
  datatype AuditPolicy = AuditPolicy(stampsUpdatedBy: bool, stampsDeletedBy: bool)

  const CategoriesPolicy: AuditPolicy := AuditPolicy(true, true)
  const RolePolicy: AuditPolicy := AuditPolicy(true, true)
  const LocationPolicy: AuditPolicy := AuditPolicy(false, false)

  /** Go's `/` on integers, which truncates toward zero. */
  function TruncDiv(a: int, b: int): int
    requires b != 0
  {
    var q := (if a < 0 then -a else a) / (if b < 0 then -b else b);
    if (a < 0) != (b < 0) then -q else q
  }

  /** The page count of the response: `(rows + limit - 1) / limit`, or 0 when there are
      no rows or no limit. */
  function TotalPages(rows: int, limit: int): int
  {
    if rows != 0 && limit != 0 then TruncDiv(rows + limit - 1, limit) else 0
  }

  /** For a positive limit the page count is the least number of pages of `limit` rows
      that hold all the rows. */
  lemma TotalPagesIsCeiling(rows: int, limit: int)
    requires rows >= 0 && limit > 0
    ensures var t := TotalPages(rows, limit);
            && t >= 0
            && rows <= t * limit
            && (t > 0 ==> (t - 1) * limit < rows)
            && (t == 0 <==> rows == 0)
  {
    if rows != 0 {
      var t := (rows + limit - 1) / limit;
      var m := (rows + limit - 1) % limit;
      assert t * limit + m == rows + limit - 1;
      assert TotalPages(rows, limit) == t;
    }
  }

  /** For a positive limit and a page number from 1, the page Paginate returns is
      non-empty exactly when the page number is at most the page count. */
  lemma PageNonEmptyIffWithinTotal<T>(s: seq<T>, page: int, limit: int)
    requires page >= 1 && limit > 0
    ensures Window(s, page, limit).Some?
    ensures Window(s, page, limit).value != [] <==> page <= TotalPages(|s|, limit)
  {
    WindowInRange(s, page, limit);
    TotalPagesIsCeiling(|s|, limit);
    var t := TotalPages(|s|, limit);
    var start := (page - 1) * limit;
    if page <= t {
      MulMonotone(page - 1, t - 1, limit);
    } else {
      MulMonotone(t, page - 1, limit);
    }
  }

  /** A role table: the role schema, and the builder's equality predicates on `name`. */
  ghost predicate RoleTable(roles: Db<Role>)
  {
    Table(roles, RoleSchema, RoleMatch)
  }

  /** The admin check in front of every list usecase: validate the token, parse its role
      id with `strconv.Atoi`, look the role up by id, and accept a role named "admin".
      Every error comes back as it is. A role with another name reaches
      `err.Error()` on a nil error, which panics. */
  function AdminGate(validate: Validator, roles: Db<Role>, token: string, f: ReadFaults): Result<Claims>
    requires Dense(roles)
  {
    match validate(token)
    case Fail(e) => Fail(e)
    case Ok(claims) =>
      match Decimal.Atoi(claims.roleId)
      case Fail(e) => Fail(e)
      case Ok(id) =>
        match DetailOf(roles, RoleById(id), [], f)
        case Fail(e) => Fail(e)
        case Ok(role) =>
          if role.biz.name == "admin" then Ok(claims)
          else Fail(Error(Panic, "invalid memory address or nil pointer dereference"))
  }

  /** The gate lets a caller through only when its token is valid and names, as a
      decimal role id, a stored role called "admin" (soft-deleted or not); the role id 0
      puts no condition on the id, so the lowest-id role is the one checked. */
  lemma GateAdmitsOnlyAdmins(validate: Validator, roles: Db<Role>, token: string, f: ReadFaults)
    requires RoleTable(roles)
    requires AdminGate(validate, roles, token, f).Ok?
    ensures validate(token).Ok? && AdminGate(validate, roles, token, f).value == validate(token).value
    ensures Decimal.Atoi(validate(token).value.roleId).Ok?
    ensures var id := Decimal.Atoi(validate(token).value.roleId).value;
            && (id != 0 ==> id in roles.rows && roles.rows[id].biz.name == "admin")
            && (id == 0 ==> 1 in roles.rows && roles.rows[1].biz.name == "admin")
  {
    var id := Decimal.Atoi(validate(token).value.roleId).value;
    var q := Query(RoleById(id), Slots("", ""));
    SelectedMembers(roles, q);
    var rows := Selected(roles, q);
    assert rows != [];
    assert rows[0] in rows;
    var row := rows[0];
    assert roles.rows[row.id] == row && ReadBack(roles.schema, row).biz.name == "admin";
    if id == 0 {
      assert 1 in roles.rows;
      assert Where(roles.engine, q, roles.rows[1]);
      assert roles.rows[1] in rows;
    }
  }

  /** Conversely, a valid token whose role id names a stored admin role passes the gate
      when the role read itself does not fail. */
  lemma GateAdmitsAdmin(validate: Validator, roles: Db<Role>, token: string, f: ReadFaults)
    requires RoleTable(roles)
    requires validate(token).Ok? && Decimal.Atoi(validate(token).value.roleId).Ok?
    requires var id := Decimal.Atoi(validate(token).value.roleId).value;
             id in roles.rows && roles.rows[id].biz.name == "admin"
    requires f.newBuilder.None? && f.build.None? && f.query.None? && f.scan.None?
    ensures AdminGate(validate, roles, token, f) == Ok(validate(token).value)
  {
    var id := Decimal.Atoi(validate(token).value.roleId).value;
    assert Matches(roles.engine, RoleById(id), roles.rows[id]);
    DetailFindsById(roles, RoleById(id), f);
  }

  /** A valid token whose role is found but is not called "admin" makes the gate panic. */
  lemma GateRejectsOtherRoles(validate: Validator, roles: Db<Role>, token: string, f: ReadFaults)
    requires RoleTable(roles)
    requires validate(token).Ok? && Decimal.Atoi(validate(token).value.roleId).Ok?
    requires var id := Decimal.Atoi(validate(token).value.roleId).value;
             id in roles.rows && roles.rows[id].biz.name != "admin"
    requires f.newBuilder.None? && f.build.None? && f.query.None? && f.scan.None?
    ensures AdminGate(validate, roles, token, f).Fail?
    ensures AdminGate(validate, roles, token, f).error.code == Panic
  {
    var id := Decimal.Atoi(validate(token).value.roleId).value;
    assert Matches(roles.engine, RoleById(id), roles.rows[id]);
    DetailFindsById(roles, RoleById(id), f);
  }

  /** GetListDashboard: the gate, the live rows matching the filter, and the requested
      page of them with the totals of the whole list. A Paginate panic is `Panic`. */
  function ListDashboard<B>(
    validate: Validator, roles: Db<Role>, db: Db<B>,
    param: Record<B>, paginate: Pagination, token: string, gate: ReadFaults, f: ReadFaults): Result<Response<B>>
    requires Dense(roles) && Dense(db)
  {
    match AdminGate(validate, roles, token, gate)
    case Fail(e) => Fail(e)
    case Ok(_) =>
      match ListOf(db, param, [NotDeletedOption], f)
      case Fail(e) => Fail(e)
      case Ok(results) =>
        match Window(results, paginate.page, paginate.limit)
        case None => Fail(Error(Panic, "index out of range"))
        case Some(data) =>
          Ok(Response(paginate.limit, paginate.page, |results|, TotalPages(|results|, paginate.limit), data))
  }

  /** Every record of the live list is a live stored row, read back. */
  lemma LiveListIsLive<B>(db: Db<B>, param: Record<B>, f: ReadFaults)
    requires Dense(db) && ListOf(db, param, [NotDeletedOption], f).Ok?
    ensures var all := ListOf(db, param, [NotDeletedOption], f).value;
            forall i :: 0 <= i < |all| ==>
              all[i].isDeleted == 0 && all[i].id in db.rows && all[i] == ReadBack(db.schema, db.rows[all[i].id])
  {
    var all := ListOf(db, param, [NotDeletedOption], f).value;
    LiveListing(db, param, f);
    forall i | 0 <= i < |all|
      ensures all[i].isDeleted == 0 && all[i].id in db.rows
    {
      assert all[i] in all;
      assert all[i].id in Ids(all);
    }
  }

  /** A successful list response went through the gate, and its totals count every live
      row matching the filter, not just the rows of the page. */
  lemma ListDashboardTotals<B>(
    validate: Validator, roles: Db<Role>, db: Db<B>,
    param: Record<B>, paginate: Pagination, token: string, gate: ReadFaults, f: ReadFaults)
    requires Dense(roles) && Dense(db)
    requires ListDashboard(validate, roles, db, param, paginate, token, gate, f).Ok?
    ensures AdminGate(validate, roles, token, gate).Ok?
    ensures ListOf(db, param, [NotDeletedOption], f).Ok?
    ensures var resp := ListDashboard(validate, roles, db, param, paginate, token, gate, f).value;
            var all := ListOf(db, param, [NotDeletedOption], f).value;
            && resp.limit == paginate.limit && resp.page == paginate.page
            && resp.totalRows == |all|
            && resp.totalPages == TotalPages(|all|, paginate.limit)
            && (forall k :: k in db.rows ==>
                  (k in Ids(all) <==> db.rows[k].isDeleted == 0 && Matches(db.engine, param, db.rows[k])))
  {
    LiveListing(db, param, f);
  }

  /** Every record on the page of a successful list response is a live stored row; for a
      page from 1 and a positive limit, the page is non-empty exactly when its number is
      at most the page count. */
  lemma ListDashboardPage<B>(
    validate: Validator, roles: Db<Role>, db: Db<B>,
    param: Record<B>, paginate: Pagination, token: string, gate: ReadFaults, f: ReadFaults)
    requires Dense(roles) && Dense(db)
    requires ListDashboard(validate, roles, db, param, paginate, token, gate, f).Ok?
    ensures var resp := ListDashboard(validate, roles, db, param, paginate, token, gate, f).value;
            && (forall i :: 0 <= i < |resp.data| ==>
                  resp.data[i].isDeleted == 0 && resp.data[i].id in db.rows &&
                  resp.data[i] == ReadBack(db.schema, db.rows[resp.data[i].id]))
            && (paginate.page >= 1 && paginate.limit > 0 ==> (resp.data != [] <==> paginate.page <= resp.totalPages))
    ensures ListOf(db, param, [NotDeletedOption], f).Ok?
    ensures Window(ListOf(db, param, [NotDeletedOption], f).value, paginate.page, paginate.limit).Some?
    ensures ListDashboard(validate, roles, db, param, paginate, token, gate, f).value.data ==
            Window(ListOf(db, param, [NotDeletedOption], f).value, paginate.page, paginate.limit).value
  {
    var all := ListOf(db, param, [NotDeletedOption], f).value;
    var data := Window(all, paginate.page, paginate.limit).value;
    assert ListDashboard(validate, roles, db, param, paginate, token, gate, f).value ==
           Response(paginate.limit, paginate.page, |all|, TotalPages(|all|, paginate.limit), data);
    LiveListIsLive(db, param, f);
    WindowIsSlice(all, paginate.page, paginate.limit);
    if paginate.page >= 1 && paginate.limit > 0 {
      PageNonEmptyIffWithinTotal(all, paginate.page, paginate.limit);
    }
  }

  // ----- audit stamping -----

  function StampCreate<B>(p: Record<B>, claims: Claims, now: Time): Record<B>
  {
    p.(createdAt := now, createdBy := claims.uid, isDeleted := 0)
  }

  function StampUpdate<B>(policy: AuditPolicy, p: Record<B>, claims: Claims, now: Time): Record<B>
  {
    p.(updatedAt := now, updatedBy := if policy.stampsUpdatedBy then claims.uid else p.updatedBy)
  }

  function StampDelete<B>(policy: AuditPolicy, p: Record<B>, claims: Claims, now: Time): Record<B>
  {
    p.(deletedAt := now, deletedBy := if policy.stampsDeletedBy then claims.uid else p.deletedBy, isDeleted := 1)
  }

  function DetailCase<B>(validate: Validator, db: Db<B>, param: Record<B>, token: string, f: ReadFaults): Result<Record<B>>
    requires Dense(db)
  {
    match validate(token)
    case Fail(e) => Fail(e)
    case Ok(_) => DetailOf(db, param, [], f)
  }

  function CreateCase<B>(validate: Validator, db: Db<B>, param: Record<B>, token: string, now: Time, f: WriteFaults): (w: Written<B>)
    requires Dense(db)
    ensures Dense(w.db)
  {
    match validate(token)
    case Fail(e) => Written(Fail(e), db)
    case Ok(claims) => CreateIn(db, StampCreate(param, claims, now), f)
  }

  function UpdateCase<B>(
    validate: Validator, policy: AuditPolicy, db: Db<B>, param: Record<B>, token: string, now: Time, f: WriteFaults): (w: Written<B>)
    requires Dense(db)
    ensures Dense(w.db)
  {
    match validate(token)
    case Fail(e) => Written(Fail(e), db)
    case Ok(claims) => UpdateIn(db, StampUpdate(policy, param, claims, now), f)
  }

  function DeleteCase<B>(
    validate: Validator, policy: AuditPolicy, db: Db<B>, param: Record<B>, token: string, now: Time, f: WriteFaults): (w: Written<B>)
    requires Dense(db)
    ensures Dense(w.db)
  {
    match validate(token)
    case Fail(e) => Written(Fail(e), db)
    case Ok(claims) => DeleteIn(db, StampDelete(policy, param, claims, now), f)
  }

  /** A token that fails validation changes nothing and its error comes back as it is. */
  lemma RejectedTokenChangesNothing<B>(
    validate: Validator, policy: AuditPolicy, db: Db<B>, param: Record<B>, token: string, now: Time, f: WriteFaults)
    requires Dense(db) && validate(token).Fail?
    ensures CreateCase(validate, db, param, token, now, f) == Written(Fail(validate(token).error), db)
    ensures UpdateCase(validate, policy, db, param, token, now, f) == Written(Fail(validate(token).error), db)
    ensures DeleteCase(validate, policy, db, param, token, now, f) == Written(Fail(validate(token).error), db)
  {
  }

  /** A successful create stores a live row under a fresh id, created now by the token's
      user; a list that matches it shows it. */
  lemma CreatedRowIsLive<B>(
    validate: Validator, db: Db<B>, param: Record<B>, token: string, now: Time, f: WriteFaults,
    filter: Record<B>, g: ReadFaults)
    requires Dense(db) && CreateCase(validate, db, param, token, now, f).result.Ok?
    ensures validate(token).Ok?
    ensures var w := CreateCase(validate, db, param, token, now, f);
            var id := w.result.value.id;
            && id !in db.rows && id in w.db.rows
            && w.db.rows[id].isDeleted == 0
            && w.db.rows[id].createdAt == now
            && w.db.rows[id].createdBy == validate(token).value.uid
            && w.db.rows[id].biz == param.biz
            && (Matches(w.db.engine, filter, w.db.rows[id]) && ListOf(w.db, filter, [NotDeletedOption], g).Ok? ==>
                  id in Ids(ListOf(w.db, filter, [NotDeletedOption], g).value))
  {
    var claims := validate(token).value;
    var w := CreateCase(validate, db, param, token, now, f);
    CreateEffect(db, StampCreate(param, claims, now), f);
    if ListOf(w.db, filter, [NotDeletedOption], g).Ok? {
      LiveListing(w.db, filter, g);
    }
  }

  /** A successful update stamps `updated_at` with the clock and, under the policy,
      `updated_by` with the token's user; nothing else about the audit changes. */
  lemma UpdateStampsAudit<B>(
    validate: Validator, policy: AuditPolicy, db: Db<B>, param: Record<B>, token: string, now: Time, f: WriteFaults)
    requires Dense(db) && UpdateCase(validate, policy, db, param, token, now, f).result.Ok?
    ensures validate(token).Ok? && param.id in db.rows
    ensures var w := UpdateCase(validate, policy, db, param, token, now, f);
            var row := w.db.rows[param.id];
            && row.updatedAt == Some(now)
            && row.updatedBy == Some(if policy.stampsUpdatedBy then validate(token).value.uid else param.updatedBy)
            && row.isDeleted == param.isDeleted
            && row.createdAt == db.rows[param.id].createdAt && row.createdBy == db.rows[param.id].createdBy
            && row.deletedAt == db.rows[param.id].deletedAt && row.deletedBy == db.rows[param.id].deletedBy
  {
    var claims := validate(token).value;
    UpdateEffect(db, StampUpdate(policy, param, claims, now), f);
  }

  /** A successful delete keeps the row, marks it deleted now (by the token's user under
      the policy) and takes it out of every live list. */
  lemma DeleteSoftDeletes<B>(
    validate: Validator, policy: AuditPolicy, db: Db<B>, param: Record<B>, token: string, now: Time, f: WriteFaults,
    filter: Record<B>, g: ReadFaults)
    requires Dense(db) && DeleteCase(validate, policy, db, param, token, now, f).result.Ok?
    ensures validate(token).Ok? && param.id in db.rows
    ensures var w := DeleteCase(validate, policy, db, param, token, now, f);
            && w.db.rows.Keys == db.rows.Keys
            && w.db.rows[param.id].isDeleted == 1
            && w.db.rows[param.id].deletedAt == Some(now)
            && w.db.rows[param.id].deletedBy == Some(if policy.stampsDeletedBy then validate(token).value.uid else param.deletedBy)
            && w.db.rows[param.id].biz == db.rows[param.id].biz
            && (ListOf(w.db, filter, [NotDeletedOption], g).Ok? ==>
                  param.id !in Ids(ListOf(w.db, filter, [NotDeletedOption], g).value))
  {
    var claims := validate(token).value;
    var p := StampDelete(policy, param, claims, now);
    DeleteEffect(db, p, f);
    DeleteHidesFromLiveList(db, p, f, filter, g);
  }

  /** The detail usecase checks only the token: no role, and no is_deleted filter, so a
      soft-deleted row is still returned by its id. */
  lemma DetailReturnsSoftDeleted<B>(validate: Validator, db: Db<B>, param: Record<B>, token: string, f: ReadFaults)
    requires Dense(db) && validate(token).Ok?
    requires param.id in db.rows && db.rows[param.id].isDeleted == 1
    requires Matches(db.engine, param, db.rows[param.id])
    requires f.newBuilder.None? && f.build.None? && f.query.None? && ScanError(db.schema, f).None?
    ensures DetailCase(validate, db, param, token, f) == Ok(ReadBack(db.schema, db.rows[param.id]))
    ensures DetailCase(validate, db, param, token, f).value.isDeleted == 1
  {
    DetailFindsById(db, param, f);
  }

  /** The usecase of one dashboard entity over its repository and the role repository;
      for the role usecase both are the same repository. */
  class EntityUsecase<B> {
    const validate: Validator
    const policy: AuditPolicy
    const repo: Repository<B>
    const roles: Repository<Role>

    ghost predicate Valid()
      reads this, repo, roles
    {
      repo.Valid() && roles.Valid()
    }

    constructor (validate: Validator, policy: AuditPolicy, repo: Repository<B>, roles: Repository<Role>)
      requires repo.Valid() && roles.Valid()
      ensures Valid()
      ensures this.validate == validate && this.policy == policy && this.repo == repo && this.roles == roles
    {
      this.validate := validate;
      this.policy := policy;
      this.repo := repo;
      this.roles := roles;
    }

    method CheckAdmin(token: string, f: ReadFaults) returns (r: Result<Claims>)
      requires Valid()
      ensures r == AdminGate(validate, roles.Snapshot(), token, f)
    {
      var claims := validate(token);
      if claims.Fail? {
        return Fail(claims.error);
      }
      var roleId := Decimal.Atoi(claims.value.roleId);
      if roleId.Fail? {
        return Fail(roleId.error);
      }
      var role := roles.GetDetail(RoleById(roleId.value), [], f);
      if role.Fail? {
        return Fail(role.error);
      }
      if role.value.biz.name != "admin" {
        return Fail(Error(Panic, "invalid memory address or nil pointer dereference"));
      }
      return Ok(claims.value);
    }

    method GetListDashboard(param: Record<B>, paginate: Pagination, token: string, gate: ReadFaults, f: ReadFaults)
      returns (r: Result<Response<B>>)
      requires Valid()
      ensures r == ListDashboard(validate, roles.Snapshot(), repo.Snapshot(), param, paginate, token, gate, f)
    {
      var admin := CheckAdmin(token, gate);
      if admin.Fail? {
        return Fail(admin.error);
      }
      var results := repo.GetList(param, [NotDeletedOption], f);
      if results.Fail? {
        return Fail(results.error);
      }
      var page := Paginate(results.value, paginate.page, paginate.limit);
      if page.None? {
        return Fail(Error(Panic, "index out of range"));
      }
      var totalRows := |results.value|;
      var totalPages := 0;
      if totalRows != 0 && paginate.limit != 0 {
        totalPages := TruncDiv(totalRows + paginate.limit - 1, paginate.limit);
      }
      return Ok(Response(paginate.limit, paginate.page, totalRows, totalPages, page.value));
    }

    method GetDetail(param: Record<B>, token: string, f: ReadFaults) returns (r: Result<Record<B>>)
      requires Valid()
      ensures r == DetailCase(validate, repo.Snapshot(), param, token, f)
    {
      var claims := validate(token);
      if claims.Fail? {
        return Fail(claims.error);
      }
      r := repo.GetDetail(param, [], f);
    }

    method Create(param: Record<B>, token: string, now: Time, f: WriteFaults) returns (r: Result<Record<B>>)
      requires Valid()
      modifies repo
      ensures Valid()
      ensures r == CreateCase(validate, old(repo.Snapshot()), param, token, now, f).result
      ensures repo.Snapshot() == CreateCase(validate, old(repo.Snapshot()), param, token, now, f).db
    {
      var claims := validate(token);
      if claims.Fail? {
        return Fail(claims.error);
      }
      r := repo.Create(StampCreate(param, claims.value, now), f);
    }

    method Update(param: Record<B>, token: string, now: Time, f: WriteFaults) returns (r: Result<Record<B>>)
      requires Valid()
      modifies repo
      ensures Valid()
      ensures r == UpdateCase(validate, policy, old(repo.Snapshot()), param, token, now, f).result
      ensures repo.Snapshot() == UpdateCase(validate, policy, old(repo.Snapshot()), param, token, now, f).db
    {
      var claims := validate(token);
      if claims.Fail? {
        return Fail(claims.error);
      }
      r := repo.Update(StampUpdate(policy, param, claims.value, now), f);
    }

    method Delete(param: Record<B>, token: string, now: Time, f: WriteFaults) returns (r: Result<Record<B>>)
      requires Valid()
      modifies repo
      ensures Valid()
      ensures r == DeleteCase(validate, policy, old(repo.Snapshot()), param, token, now, f).result
      ensures repo.Snapshot() == DeleteCase(validate, policy, old(repo.Snapshot()), param, token, now, f).db
    {
      var claims := validate(token);
      if claims.Fail? {
        return Fail(claims.error);
      }
      r := repo.Delete(StampDelete(policy, param, claims.value, now), f);
    }
  }
}
