/**
 * The shared bearer-token gate, packages/middlewares/src/jwtAuth.ts: it
 * reads `Authorization: Bearer <token>` (section 2.1 of RFC 6750),
 * verifies the token and records the caller's identity in `ctx.state`.
 */
module JwtGate {
  import opened Js
  import opened Koa

  datatype JwtOptions = JwtOptions(required: bool, roles: seq<string>, excludePaths: seq<string>)

  const DefaultOptions := JwtOptions(true, [], ["/api/users/login", "/api/users/register"])

  const MissingToken := "未提供认证令牌"
  const MalformedToken := "认证令牌格式错误"
  const Forbidden := "权限不足"
  const InvalidToken := "认证令牌无效或已过期"

  /** The token of a well-formed header: exactly two space-separated parts, the first `Bearer`. */
  function BearerToken(h: string): (t: Option<string>)
    ensures t.Some? <==> |Split(h, ' ')| == 2 && Split(h, ' ')[0] == "Bearer"
    ensures t.Some? ==> t.value == Split(h, ' ')[1]
  {
    var parts := Split(h, ' ');
    if |parts| == 2 && parts[0] == "Bearer" then Some(parts[1]) else None
  }

  /** A header is accepted exactly when it is `Bearer`, one space, and a token without spaces. */
  lemma BearerShape(h: string)
    ensures BearerToken(h).Some? <==> exists t :: h == "Bearer " + t && ' ' !in t
    ensures BearerToken(h).Some? ==> h == "Bearer " + BearerToken(h).value
  {
    if BearerToken(h).Some? {
      SplitJoin(h, ' ');
      var parts := Split(h, ' ');
      assert Join(parts, " ") == parts[0] + " " + parts[1];
    }
    if exists t :: h == "Bearer " + t && ' ' !in t {
      var t :| h == "Bearer " + t && ' ' !in t;
      BearerOf(t);
    }
  }

  /** `Bearer <t>` for a space-free `t` yields `t`, even the empty token. */
  lemma BearerOf(t: string)
    requires ' ' !in t
    ensures BearerToken("Bearer " + t) == Some(t)
  {
    assert "Bearer " + t == "Bearer" + [' '] + t;
    assert ' ' !in "Bearer";
    SplitAtFirst("Bearer", t, ' ');
    SplitNoSeparator(t, ' ');
  }

  /** Two spaces, or a scheme other than `Bearer`, are refused. */
  lemma DoubleSpaceRefused(t: string)
    ensures BearerToken("Bearer  " + t).None?
  {
    assert "Bearer  " + t == "Bearer" + [' '] + (" " + t);
    SplitAtFirst("Bearer", " " + t, ' ');
    assert " " + t == [] + [' '] + t;
    SplitAtFirst([], t, ' ');
  }

  /** `Array.isArray(decoded.roles) ? decoded.roles : []`. */
  function RolesOf(decoded: Json): (r: seq<Json>)
    ensures Field(decoded, "roles").Some? && Field(decoded, "roles").value.JArr? ==> r == Field(decoded, "roles").value.items
  {
    var roles := Field(decoded, "roles");
    if roles.Some? && roles.value.JArr? then roles.value.items else []
  }

  /** `{id: decoded.userId, username: decoded.username}`, undefined members left out. */
  function UserOf(decoded: Json): Json {
    var id := Field(decoded, "userId");
    var name := Field(decoded, "username");
    JObj((if id.Some? then [("id", id.value)] else []) + (if name.Some? then [("username", name.value)] else []))
  }

  /** The identity the gate records from a decoded token. */
  function Identify(st: map<string, Json>, decoded: Json): map<string, Json> {
    SetProp(st, "userId", Field(decoded, "userId"))["user" := UserOf(decoded)]["roles" := JArr(RolesOf(decoded))]
  }

  /** Where the gate stops, or the context it calls `next()` with. */
  datatype Gate = Pass(view: Snapshot) | Stop(view: Snapshot)

  /**
   * The decision before `next()`; `verify` is `jwt.verify`, None when it
   * throws, and `secret` is `JWT_SECRET` ("" when unset).
   */
  function Decide(v: Snapshot, o: JwtOptions, secret: string, verify: (string, string) -> Option<Json>): (g: Gate)
    ensures v.request.path in o.excludePaths ==> g == Pass(v)
    ensures v.request.path !in o.excludePaths && Header(v.request, "authorization") == "" ==>
      g == (if o.required then Stop(v.(status := 401, body := Some(Envelope(401, MissingToken)))) else Pass(v))
    ensures v.request.path !in o.excludePaths && Header(v.request, "authorization") != "" &&
            BearerToken(Header(v.request, "authorization")).None? ==>
      g == Stop(v.(status := 401, body := Some(Envelope(401, MalformedToken))))
    ensures v.request.path !in o.excludePaths && Header(v.request, "authorization") != "" &&
            BearerToken(Header(v.request, "authorization")).Some? ==>
      var decoded := verify(BearerToken(Header(v.request, "authorization")).value, if secret != "" then secret else "default-secret");
      (decoded.None? ==> g == Stop(v.(status := 401, body := Some(Envelope(401, InvalidToken))))) &&
      (decoded.Some? && o.roles != [] && !SharesRole(o.roles, RolesOf(decoded.value)) ==>
        g == Stop(v.(state := Identify(v.state, decoded.value), status := 403, body := Some(Envelope(403, Forbidden))))) &&
      (decoded.Some? && (o.roles == [] || SharesRole(o.roles, RolesOf(decoded.value))) ==>
        g == Pass(v.(state := Identify(v.state, decoded.value))))
    ensures g.Pass? && v.request.path !in o.excludePaths && Header(v.request, "authorization") != "" ==>
      var t := BearerToken(Header(v.request, "authorization"));
      t.Some? && verify(t.value, if secret != "" then secret else "default-secret").Some? &&
      "roles" in g.view.state && g.view.state["roles"].JArr? &&
      (o.roles != [] ==> SharesRole(o.roles, g.view.state["roles"].items))
    ensures g.Stop? ==> g.view.request == v.request && g.view.status in {401, 403} && Rejected(g.view, g.view.status)
  {
    if v.request.path in o.excludePaths then Pass(v)
    else
      var h := Header(v.request, "authorization");
      if h == "" then
        if o.required then Stop(v.(status := 401, body := Some(Envelope(401, MissingToken)))) else Pass(v)
      else
        var t := BearerToken(h);
        if t.None? then Stop(v.(status := 401, body := Some(Envelope(401, MalformedToken))))
        else
          var decoded := verify(t.value, if secret != "" then secret else "default-secret");
          if decoded.None? then Stop(v.(status := 401, body := Some(Envelope(401, InvalidToken))))
          else
            var w := v.(state := Identify(v.state, decoded.value));
            if o.roles != [] && !SharesRole(o.roles, RolesOf(decoded.value))
            then Stop(w.(status := 403, body := Some(Envelope(403, Forbidden))))
            else Pass(w)
  }

  /** `next()` is reached outside the try block: an exempt path, or no header when none is required. */
  predicate Unguarded(v: Snapshot, o: JwtOptions) {
    v.request.path in o.excludePaths || Header(v.request, "authorization") == ""
  }

  /** The gate's try block also covers `next()`: a downstream exception becomes 401. */
  function Finish(d: Downstream): (v: Snapshot)
    ensures d.thrown.Some? ==> Rejected(v, 401)
    ensures d.thrown.None? ==> v == d.view
  {
    if d.thrown.Some? then d.view.(status := 401, body := Some(Envelope(401, InvalidToken))) else d.view
  }

  /** The gate, step by step; `next` is the rest of the chain. */
  method JwtAuth(ctx: Context, o: JwtOptions, secret: string, verify: (string, string) -> Option<Json>,
                 next: Snapshot -> Downstream) returns (thrown: Option<Json>)
    modifies ctx
    ensures var g := Decide(old(ctx.View()), o, secret, verify);
      (g.Stop? ==> ctx.View() == g.view && thrown.None?) &&
      (g.Pass? && Unguarded(old(ctx.View()), o) ==> ctx.View() == next(g.view).view && thrown == next(g.view).thrown) &&
      (g.Pass? && !Unguarded(old(ctx.View()), o) ==> ctx.View() == Finish(next(g.view)) && thrown.None?)
  {
    thrown := None;
    if |o.excludePaths| > 0 && ctx.request.path in o.excludePaths {
      var d := next(ctx.View());
      ctx.Load(d.view);
      thrown := d.thrown;
      return;
    }
    var authHeader := Header(ctx.request, "authorization");
    if authHeader == "" {
      if o.required {
        ctx.status := 401;
        ctx.body := Some(Envelope(401, MissingToken));
        return;
      }
      var d := next(ctx.View());
      ctx.Load(d.view);
      thrown := d.thrown;
      return;
    }
    var pass := CheckToken(ctx, o, secret, verify);
    if !pass {
      return;
    }
    var d := next(ctx.View());
    ctx.Load(d.view);
    if d.thrown.Some? {
      ctx.status := 401;
      ctx.body := Some(Envelope(401, InvalidToken));
    }
  }

  /** The header-carrying part of the gate, up to the call of `next()`. */
  method CheckToken(ctx: Context, o: JwtOptions, secret: string, verify: (string, string) -> Option<Json>) returns (pass: bool)
    requires !Unguarded(ctx.View(), o)
    modifies ctx
    ensures var g := Decide(old(ctx.View()), o, secret, verify);
      pass == g.Pass? && ctx.View() == g.view
  {
    var parts := Split(Header(ctx.request, "authorization"), ' ');
    if |parts| != 2 || parts[0] != "Bearer" {
      ctx.status := 401;
      ctx.body := Some(Envelope(401, MalformedToken));
      return false;
    }
    var token := parts[1];
    var decoded := verify(token, if secret != "" then secret else "default-secret");
    if decoded.None? {
      ctx.status := 401;
      ctx.body := Some(Envelope(401, InvalidToken));
      return false;
    }
    SetIdentity(ctx, decoded.value);
    if |o.roles| > 0 {
      if !SharesRole(o.roles, RolesOf(decoded.value)) {
        ctx.status := 403;
        ctx.body := Some(Envelope(403, Forbidden));
        return false;
      }
    }
    pass := true;
  }
  /** The three writes to `ctx.state` once the token is verified. */
  method SetIdentity(ctx: Context, decoded: Json)
    modifies ctx
    ensures ctx.View() == old(ctx.View()).(state := Identify(old(ctx.state), decoded))
  {
    ctx.state := SetProp(ctx.state, "userId", Field(decoded, "userId"));
    ctx.state := ctx.state["user" := UserOf(decoded)];
    ctx.state := ctx.state["roles" := JArr(RolesOf(decoded))];
  }


  /** The login and register routes pass without any header. */
  lemma LoginExempt(v: Snapshot, secret: string, verify: (string, string) -> Option<Json>)
    requires v.request.path == "/api/users/login"
    ensures Decide(v, DefaultOptions, secret, verify) == Pass(v)
  {
  }

  /** An accepted token leaves its decoded roles in `state.roles`, or [] when they are not an array. */
  lemma PassRecordsIdentity(v: Snapshot, o: JwtOptions, secret: string, verify: (string, string) -> Option<Json>)
    requires v.request.path !in o.excludePaths && Header(v.request, "authorization") != ""
    requires Decide(v, o, secret, verify).Pass?
    ensures var t := BearerToken(Header(v.request, "authorization")).value;
      var decoded := verify(t, if secret != "" then secret else "default-secret").value;
      Decide(v, o, secret, verify).view.state == Identify(v.state, decoded) &&
      Prop(Decide(v, o, secret, verify).view.state, "userId") == Field(decoded, "userId")
  {
  }
}
