/** The dashboard login: look the user up by email and password and the location by its
    secret, parse the four coordinates, reject a caller farther from the location than
    its allowed distance, sign a token carrying the user's id, email and role id, and
    answer with the user and the name of its role. */
module Auth {
  import opened Errors
  import opened Store
  import opened Entities
  import Decimal
  import Usecase

  datatype LoginBody = LoginBody(email: string, password: string, secret: string)
  datatype LoginHeader = LoginHeader(lat: string, long: string)
  datatype LoginResponse = LoginResponse(id: int, username: string, email: string, role: string, token: string)

  /** What the login calls and the model leaves abstract: `strconv.ParseFloat(v, 64)`,
      the toolkit's distance between two points truncated to an int64, token signing
      with the configured key, and the configured token lifetime in minutes. */
  datatype AuthEnv = AuthEnv(
    parseFloat: string -> Result<real>,
    distance: (real, real, real, real) -> int,
    sign: Claims -> Result<string>,
    expiryMinutes: int)

  datatype LoginFaults = LoginFaults(user: ReadFaults, location: ReadFaults, role: ReadFaults)

  const WrongCredentials: string := "Email Or Password Is Wrong"
  const WrongSecret: string := "Secret Is Wrong"
  const TooFar: string := "Your location is too far from the specified point"

  /** The user filter: only email and password are set. */
  function UserByCredentials(b: LoginBody): Record<User>
  {
    Record(0, User("", b.email, b.password, "", 0, 0), 0, ZeroTime, "", ZeroTime, "", ZeroTime, "")
  }

  /** The location filter: only the secret is set. */
  function LocationBySecret(b: LoginBody): Record<Location>
  {
    Record(0, Location("", "", 0, b.secret), 0, ZeroTime, "", ZeroTime, "", ZeroTime, "")
  }

  /** A lookup that found no row (or whose query failed) becomes Unauthorized with the
      given message; any other failure is passed on. */
  function Unauthorized<T>(r: Result<T>, message: string): Result<T>
  {
    if r.Fail? && r.error.code == SQLRead then Fail(Error(Code.Unauthorized, message)) else r
  }

  /** The values parsed in order; the first string that does not parse aborts with its
      error re-coded InvalidValue. */
  function ParseAll(parse: string -> Result<real>, vs: seq<string>): (r: Result<seq<real>>)
    ensures r.Ok? <==> forall i :: 0 <= i < |vs| ==> parse(vs[i]).Ok?
    ensures r.Ok? ==> |r.value| == |vs| && forall i :: 0 <= i < |vs| ==> parse(vs[i]) == Ok(r.value[i])
    ensures r.Fail? ==> exists k :: 0 <= k < |vs| && parse(vs[k]).Fail? && r.error == Recode(InvalidValue, parse(vs[k]).error) &&
                                     forall j :: 0 <= j < k ==> parse(vs[j]).Ok?
    decreases |vs|
  {
    if vs == [] then Ok([])
    else
      match parse(vs[0])
      case Fail(e) => Fail(Recode(InvalidValue, e))
      case Ok(v) =>
        match ParseAll(parse, vs[1..])
        case Fail(e) =>
          var k :| 0 <= k < |vs[1..]| && parse(vs[1..][k]).Fail? && e == Recode(InvalidValue, parse(vs[1..][k]).error) &&
                   forall j :: 0 <= j < k ==> parse(vs[1..][j]).Ok?;
          assert forall j :: 0 <= j < k + 1 ==> parse(vs[j]).Ok? by {
            forall j | 0 <= j < k + 1 ensures parse(vs[j]).Ok? {
              if j > 0 { assert vs[j] == vs[1..][j - 1]; }
            }
          }
          assert vs[k + 1] == vs[1..][k];
          Fail(e)
        case Ok(rest) => Ok([v] + rest)
  }

  /** The claims of the signed token: the user id and role id in decimal, issued now and
      expiring the configured number of minutes later. */
  function TokenClaims(user: Record<User>, now: Time, minutes: int): Claims
  {
    Claims(Decimal.Itoa(user.id), user.biz.email, Decimal.Itoa(user.biz.roleId), now, now + minutes * 60)
  }

  function Login(
    env: AuthEnv, users: Db<User>, locations: Db<Location>, roles: Db<Role>,
    body: LoginBody, header: LoginHeader, now: Time, f: LoginFaults): Result<LoginResponse>
    requires Dense(users) && Dense(locations) && Dense(roles)
  {
    match Unauthorized(DetailOf(users, UserByCredentials(body), [], f.user), WrongCredentials)
    case Fail(e) => Fail(e)
    case Ok(user) =>
      match Unauthorized(DetailOf(locations, LocationBySecret(body), [], f.location), WrongSecret)
      case Fail(e) => Fail(e)
      case Ok(loc) =>
        match ParseAll(env.parseFloat, [loc.biz.lat, loc.biz.long, header.lat, header.long])
        case Fail(e) => Fail(e)
        case Ok(c) =>
          if env.distance(c[0], c[1], c[2], c[3]) > loc.biz.distance then Fail(Error(Code.Unauthorized, TooFar))
          else
            match env.sign(TokenClaims(user, now, env.expiryMinutes))
            case Fail(e) => Fail(e)
            case Ok(token) =>
              match DetailOf(roles, RoleById(user.biz.roleId), [], f.role)
              case Fail(e) => Fail(e)
              case Ok(role) => Ok(LoginResponse(user.id, user.biz.username, user.biz.email, role.biz.name, token))
  }

  /** A successful login found the lowest-id user matching the given credentials and the
      lowest-id location matching the given secret, parsed all four coordinates, found
      the caller within the location's distance (the limit itself included), and answers
      with that user, the name of the role its role id names and the token signed over
      its claims. */
  lemma LoginSuccess(
    env: AuthEnv, users: Db<User>, locations: Db<Location>, roles: Db<Role>,
    body: LoginBody, header: LoginHeader, now: Time, f: LoginFaults)
    requires Dense(users) && Dense(locations) && Dense(roles)
    requires Login(env, users, locations, roles, body, header, now, f).Ok?
    ensures DetailOf(users, UserByCredentials(body), [], f.user).Ok?
    ensures DetailOf(locations, LocationBySecret(body), [], f.location).Ok?
    ensures var user := DetailOf(users, UserByCredentials(body), [], f.user).value;
            var loc := DetailOf(locations, LocationBySecret(body), [], f.location).value;
            var c := ParseAll(env.parseFloat, [loc.biz.lat, loc.biz.long, header.lat, header.long]);
            var resp := Login(env, users, locations, roles, body, header, now, f).value;
            && c.Ok?
            && env.distance(c.value[0], c.value[1], c.value[2], c.value[3]) <= loc.biz.distance
            && env.sign(TokenClaims(user, now, env.expiryMinutes)) == Ok(resp.token)
            && DetailOf(roles, RoleById(user.biz.roleId), [], f.role).Ok?
            && resp.role == DetailOf(roles, RoleById(user.biz.roleId), [], f.role).value.biz.name
            && resp.id == user.id && resp.username == user.biz.username && resp.email == user.biz.email
    ensures var user := DetailOf(users, UserByCredentials(body), [], f.user).value;
            && user.id in users.rows
            && Matches(users.engine, UserByCredentials(body), users.rows[user.id])
            && user == ReadBack(users.schema, users.rows[user.id])
            && forall k :: k in users.rows && Matches(users.engine, UserByCredentials(body), users.rows[k]) ==> user.id <= k
    ensures var loc := DetailOf(locations, LocationBySecret(body), [], f.location).value;
            && loc.id in locations.rows
            && Matches(locations.engine, LocationBySecret(body), locations.rows[loc.id])
            && loc == ReadBack(locations.schema, locations.rows[loc.id])
            && forall k :: k in locations.rows && Matches(locations.engine, LocationBySecret(body), locations.rows[k]) ==> loc.id <= k
  {
    DetailIsFirstMatch(users, UserByCredentials(body), [], f.user);
    DetailIsFirstMatch(locations, LocationBySecret(body), [], f.location);
  }

  /** A user lookup that finds no row ends the login as Unauthorized "Email Or Password Is
      Wrong"; any other failure of the user lookup comes back as it is. */
  lemma LoginRecodesUserLookup(
    env: AuthEnv, users: Db<User>, locations: Db<Location>, roles: Db<Role>,
    body: LoginBody, header: LoginHeader, now: Time, f: LoginFaults)
    requires Dense(users) && Dense(locations) && Dense(roles)
    requires DetailOf(users, UserByCredentials(body), [], f.user).Fail?
    ensures var e := DetailOf(users, UserByCredentials(body), [], f.user).error;
            Login(env, users, locations, roles, body, header, now, f) ==
              if e.code == SQLRead then Fail(Error(Code.Unauthorized, WrongCredentials)) else Fail(e)
  {
  }

  /** Once the user is found, a location lookup that finds no row ends the login as
      Unauthorized "Secret Is Wrong"; any other failure of that lookup comes back as it is. */
  lemma LoginRecodesLocationLookup(
    env: AuthEnv, users: Db<User>, locations: Db<Location>, roles: Db<Role>,
    body: LoginBody, header: LoginHeader, now: Time, f: LoginFaults)
    requires Dense(users) && Dense(locations) && Dense(roles)
    requires DetailOf(users, UserByCredentials(body), [], f.user).Ok?
    requires DetailOf(locations, LocationBySecret(body), [], f.location).Fail?
    ensures var e := DetailOf(locations, LocationBySecret(body), [], f.location).error;
            Login(env, users, locations, roles, body, header, now, f) ==
              if e.code == SQLRead then Fail(Error(Code.Unauthorized, WrongSecret)) else Fail(e)
  {
  }

  /** A caller within range whose token cannot be signed gets the signer's error as it is;
      once signed, a failed role lookup is passed on unchanged, not recoded. */
  lemma LoginPassesOnLateFailures(
    env: AuthEnv, users: Db<User>, locations: Db<Location>, roles: Db<Role>,
    body: LoginBody, header: LoginHeader, now: Time, f: LoginFaults)
    requires Dense(users) && Dense(locations) && Dense(roles)
    requires DetailOf(users, UserByCredentials(body), [], f.user).Ok?
    requires DetailOf(locations, LocationBySecret(body), [], f.location).Ok?
    requires var loc := DetailOf(locations, LocationBySecret(body), [], f.location).value;
             var c := ParseAll(env.parseFloat, [loc.biz.lat, loc.biz.long, header.lat, header.long]);
             c.Ok? && env.distance(c.value[0], c.value[1], c.value[2], c.value[3]) <= loc.biz.distance
    ensures var user := DetailOf(users, UserByCredentials(body), [], f.user).value;
            var signed := env.sign(TokenClaims(user, now, env.expiryMinutes));
            var role := DetailOf(roles, RoleById(user.biz.roleId), [], f.role);
            var r := Login(env, users, locations, roles, body, header, now, f);
            && (signed.Fail? ==> r == Fail(signed.error))
            && (signed.Ok? && role.Fail? ==> r == Fail(role.error))
  {
  }

  /** With no faults, a lookup that matches no user is the "no rows" read error, so the
      login answers Unauthorized "Email Or Password Is Wrong". */
  lemma UnknownCredentialsRejected(
    env: AuthEnv, users: Db<User>, locations: Db<Location>, roles: Db<Role>,
    body: LoginBody, header: LoginHeader, now: Time, f: LoginFaults)
    requires Dense(users) && Dense(locations) && Dense(roles)
    requires f.user.newBuilder.None? && f.user.build.None? && f.user.query.None?
    requires forall k :: k in users.rows ==> !Matches(users.engine, UserByCredentials(body), users.rows[k])
    ensures Login(env, users, locations, roles, body, header, now, f) == Fail(Error(Code.Unauthorized, WrongCredentials))
  {
    var q := Query(UserByCredentials(body), Slots("", ""));
    SelectedEmpty(users, q);
    var lookup := DetailOf(users, UserByCredentials(body), [], f.user);
    assert lookup == Fail(Error(SQLRead, "sql: no rows in result set"));
    assert Unauthorized(lookup, WrongCredentials) == Fail(Error(Code.Unauthorized, WrongCredentials));
  }

  /** Once the user and location are found and the coordinates parse, the login is
      refused as too far when the distance exceeds the location's limit, and goes on to
      succeed at a distance up to the limit itself when signing and the role lookup do. */
  lemma DistanceLimitIsInclusive(
    env: AuthEnv, users: Db<User>, locations: Db<Location>, roles: Db<Role>,
    body: LoginBody, header: LoginHeader, now: Time, f: LoginFaults)
    requires Dense(users) && Dense(locations) && Dense(roles)
    requires DetailOf(users, UserByCredentials(body), [], f.user).Ok?
    requires DetailOf(locations, LocationBySecret(body), [], f.location).Ok?
    requires var loc := DetailOf(locations, LocationBySecret(body), [], f.location).value;
             ParseAll(env.parseFloat, [loc.biz.lat, loc.biz.long, header.lat, header.long]).Ok?
    ensures var loc := DetailOf(locations, LocationBySecret(body), [], f.location).value;
            var c := ParseAll(env.parseFloat, [loc.biz.lat, loc.biz.long, header.lat, header.long]).value;
            var user := DetailOf(users, UserByCredentials(body), [], f.user).value;
            && (env.distance(c[0], c[1], c[2], c[3]) > loc.biz.distance ==>
                  Login(env, users, locations, roles, body, header, now, f) == Fail(Error(Code.Unauthorized, TooFar)))
            && (env.distance(c[0], c[1], c[2], c[3]) <= loc.biz.distance &&
                env.sign(TokenClaims(user, now, env.expiryMinutes)).Ok? &&
                DetailOf(roles, RoleById(user.biz.roleId), [], f.role).Ok? ==>
                  Login(env, users, locations, roles, body, header, now, f).Ok?)
  {
  }

  /** Once the user and location are found, a coordinate that does not parse ends the
      login with InvalidValue. */
  lemma BadCoordinateIsInvalidValue(
    env: AuthEnv, users: Db<User>, locations: Db<Location>, roles: Db<Role>,
    body: LoginBody, header: LoginHeader, now: Time, f: LoginFaults)
    requires Dense(users) && Dense(locations) && Dense(roles)
    requires DetailOf(users, UserByCredentials(body), [], f.user).Ok?
    requires DetailOf(locations, LocationBySecret(body), [], f.location).Ok?
    requires var loc := DetailOf(locations, LocationBySecret(body), [], f.location).value;
             exists v :: v in [loc.biz.lat, loc.biz.long, header.lat, header.long] && env.parseFloat(v).Fail?
    ensures Login(env, users, locations, roles, body, header, now, f).Fail?
    ensures Login(env, users, locations, roles, body, header, now, f).error.code == InvalidValue
  {
    var loc := DetailOf(locations, LocationBySecret(body), [], f.location).value;
    var vs := [loc.biz.lat, loc.biz.long, header.lat, header.long];
    var v :| v in vs && env.parseFloat(v).Fail?;
    var i :| 0 <= i < |vs| && vs[i] == v;
    assert ParseAll(env.parseFloat, vs).Fail?;
  }

  /** The token's claims carry the user's id and role id so that `strconv.Atoi` reads
      both back unchanged, for every id in the int64 range. */
  lemma ClaimsRoundTrip(user: Record<User>, now: Time, minutes: int)
    requires Decimal.Int64Min <= user.id <= Decimal.Int64Max
    requires Decimal.Int64Min <= user.biz.roleId <= Decimal.Int64Max
    ensures Decimal.Atoi(TokenClaims(user, now, minutes).uid) == Ok(user.id)
    ensures Decimal.Atoi(TokenClaims(user, now, minutes).roleId) == Ok(user.biz.roleId)
    ensures TokenClaims(user, now, minutes).expiresAt - TokenClaims(user, now, minutes).issuedAt == minutes * 60
  {
    Decimal.AtoiItoa(user.id);
    Decimal.AtoiItoa(user.biz.roleId);
  }

  /** A login token of a user whose role is the stored admin role passes the admin gate of
      the list usecases, provided the validator gives back the claims the token was
      signed over. */
  lemma AdminLoginPassesGate(
    env: AuthEnv, users: Db<User>, locations: Db<Location>, roles: Db<Role>,
    body: LoginBody, header: LoginHeader, now: Time, f: LoginFaults,
    validate: Usecase.Validator, gate: ReadFaults)
    requires Dense(users) && Dense(locations) && Usecase.RoleTable(roles)
    requires Login(env, users, locations, roles, body, header, now, f).Ok?
    requires var user := DetailOf(users, UserByCredentials(body), [], f.user).value;
             && Decimal.Int64Min <= user.id <= Decimal.Int64Max
             && Decimal.Int64Min <= user.biz.roleId <= Decimal.Int64Max
             && user.biz.roleId in roles.rows && roles.rows[user.biz.roleId].biz.name == "admin"
             && validate(Login(env, users, locations, roles, body, header, now, f).value.token) ==
                  Ok(TokenClaims(user, now, env.expiryMinutes))
    requires gate.newBuilder.None? && gate.build.None? && gate.query.None? && gate.scan.None?
    ensures Usecase.AdminGate(validate, roles, Login(env, users, locations, roles, body, header, now, f).value.token, gate).Ok?
  {
    var token := Login(env, users, locations, roles, body, header, now, f).value.token;
    var user := DetailOf(users, UserByCredentials(body), [], f.user).value;
    var claims := TokenClaims(user, now, env.expiryMinutes);
    assert validate(token) == Ok(claims);
    ClaimsRoundTrip(user, now, env.expiryMinutes);
    assert Decimal.Atoi(claims.roleId) == Ok(user.biz.roleId);
    Usecase.GateAdmitsAdmin(validate, roles, token, gate);
  }

  /** With an empty email and password the user filter is empty, so the lookup returns
      the user with the lowest id whatever the credentials; the same holds for the
      location with an empty secret. */
  lemma EmptyCredentialsSelectFirstRows(users: Db<User>, locations: Db<Location>, body: LoginBody, g: ReadFaults, h: ReadFaults)
    requires Dense(users) && Dense(locations) && 1 in users.rows && 1 in locations.rows
    requires forall p, r :: users.engine.bizMatch(p, r) == UserMatch(p, r)
    requires forall p, r :: locations.engine.bizMatch(p, r) == LocationMatch(p, r)
    requires g.newBuilder.None? && g.build.None? && g.query.None? && ScanError(users.schema, g).None?
    requires h.newBuilder.None? && h.build.None? && h.query.None? && ScanError(locations.schema, h).None?
    requires body.email == "" && body.password == "" && body.secret == ""
    ensures DetailOf(users, UserByCredentials(body), [], g) == Ok(ReadBack(users.schema, users.rows[1]))
    ensures DetailOf(locations, LocationBySecret(body), [], h) == Ok(ReadBack(locations.schema, locations.rows[1]))
  {
    UnfilteredDetailIsFirstRow(users, UserByCredentials(body), g);
    UnfilteredDetailIsFirstRow(locations, LocationBySecret(body), h);
  }

  lemma LookupUnchangedByDelete(users: Db<User>, q: Query<User>, p: Record<User>, wf: WriteFaults)
    requires Dense(users) && q.slots == Slots("", "")
    requires q.param.isDeleted == 0 && q.param.deletedAt == ZeroTime && q.param.deletedBy == ""
    ensures var users' := DeleteIn(users, p, wf).db;
            && users'.next == users.next && users'.engine == users.engine
            && forall k :: k in users.rows ==> Where(users.engine, q, users.rows[k]) == Where(users'.engine, q, users'.rows[k])
  {
    var users' := DeleteIn(users, p, wf).db;
    DeleteEffect(users, p, wf);
    forall k | k in users.rows
      ensures Where(users.engine, q, users.rows[k]) == Where(users'.engine, q, users'.rows[k])
    {
      if users' != users && k == p.id {
        SoftDeleteInvisibleToLookup(users.engine, q, users.rows[k], p);
      }
    }
  }

  /** The user lookup has no is_deleted filter: soft-deleting any user leaves the lookup
      as it was, finding the same user by id. */
  lemma SoftDeletedUserStillFound(users: Db<User>, body: LoginBody, p: Record<User>, wf: WriteFaults, g: ReadFaults)
    requires Dense(users)
    requires DetailOf(users, UserByCredentials(body), [], g).Ok?
    ensures var users' := DeleteIn(users, p, wf).db;
            && DetailOf(users', UserByCredentials(body), [], g).Ok?
            && DetailOf(users', UserByCredentials(body), [], g).value.id == DetailOf(users, UserByCredentials(body), [], g).value.id
            && DetailOf(users', UserByCredentials(body), [], g).value.biz == DetailOf(users, UserByCredentials(body), [], g).value.biz
  {
    var users' := DeleteIn(users, p, wf).db;
    var q := Query(UserByCredentials(body), Slots("", ""));
    LookupUnchangedByDelete(users, q, p, wf);
    SelectedSameIds(users, users', q);
    var rows, rows' := Selected(users, q), Selected(users', q);
    SelectedMembers(users, q);
    SelectedMembers(users', q);
    assert rows[0] in rows && rows'[0] in rows';
  }

  function Prepend(values: seq<real>, r: Result<seq<real>>): Result<seq<real>>
  {
    match r
    case Fail(e) => Fail(e)
    case Ok(rest) => Ok(values + rest)
  }

  lemma PrependNothing(r: Result<seq<real>>)
    ensures Prepend([], r) == r
  {
    if r.Ok? {
      assert [] + r.value == r.value;
    }
  }

  lemma PrependAppend(a: seq<real>, b: seq<real>, r: Result<seq<real>>)
    ensures Prepend(a, Prepend(b, r)) == Prepend(a + b, r)
  {
    if r.Ok? {
      assert a + (b + r.value) == (a + b) + r.value;
    }
  }

  /** Turns each coordinate into a float, in order; the loop of the login. */
  method ParseCoordinates(parse: string -> Result<real>, vs: seq<string>) returns (r: Result<seq<real>>)
    ensures r == ParseAll(parse, vs)
  {
    var values: seq<real> := [];
    assert vs[0..] == vs;
    PrependNothing(ParseAll(parse, vs));
    for i := 0 to |vs|
      invariant ParseAll(parse, vs) == Prepend(values, ParseAll(parse, vs[i..]))
    {
      assert vs[i..][1..] == vs[i + 1..];
      var value := parse(vs[i]);
      if value.Fail? {
        return Fail(Recode(InvalidValue, value.error));
      }
      PrependAppend(values, [value.value], ParseAll(parse, vs[i + 1..]));
      values := values + [value.value];
    }
    assert vs[|vs|..] == [];
    assert values + [] == values;
    return Ok(values);
  }

  /** The login usecase over the users, location and role repositories. */
  class AuthUsecase {
    const env: AuthEnv
    const users: Repository<User>
    const locations: Repository<Location>
    const roles: Repository<Role>

    ghost predicate Valid()
      reads this, users, locations, roles
    {
      users.Valid() && locations.Valid() && roles.Valid()
    }

    constructor (env: AuthEnv, users: Repository<User>, locations: Repository<Location>, roles: Repository<Role>)
      requires users.Valid() && locations.Valid() && roles.Valid()
      ensures Valid()
      ensures this.env == env && this.users == users && this.locations == locations && this.roles == roles
    {
      this.env := env;
      this.users := users;
      this.locations := locations;
      this.roles := roles;
    }

    method LoginDashboard(body: LoginBody, header: LoginHeader, now: Time, f: LoginFaults) returns (r: Result<LoginResponse>)
      requires Valid()
      ensures r == Login(env, users.Snapshot(), locations.Snapshot(), roles.Snapshot(), body, header, now, f)
    {
      var user := users.GetDetail(UserByCredentials(body), [], f.user);
      if user.Fail? {
        if user.error.code == SQLRead {
          return Fail(Error(Code.Unauthorized, WrongCredentials));
        }
        return Fail(user.error);
      }
      var loc := locations.GetDetail(LocationBySecret(body), [], f.location);
      if loc.Fail? {
        if loc.error.code == SQLRead {
          return Fail(Error(Code.Unauthorized, WrongSecret));
        }
        return Fail(loc.error);
      }
      var coordinates := ParseCoordinates(env.parseFloat, [loc.value.biz.lat, loc.value.biz.long, header.lat, header.long]);
      if coordinates.Fail? {
        return Fail(coordinates.error);
      }
      var c := coordinates.value;
      var distance := env.distance(c[0], c[1], c[2], c[3]);
      if distance > loc.value.biz.distance {
        return Fail(Error(Code.Unauthorized, TooFar));
      }
      var token := env.sign(TokenClaims(user.value, now, env.expiryMinutes));
      if token.Fail? {
        return Fail(token.error);
      }
      var role := roles.GetDetail(RoleById(user.value.biz.roleId), [], f.role);
      if role.Fail? {
        return Fail(role.error);
      }
      return Ok(LoginResponse(user.value.id, user.value.biz.username, user.value.biz.email, role.value.biz.name, token.value));
    }
  }
}
