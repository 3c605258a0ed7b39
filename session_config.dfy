/** Session configuration and the session accessor
    (server/middleware/sessionConfig.js). A request's session is a keyed
    store of JavaScript values; `destroySession` removes it from the request,
    after which any further access through `req.session` throws. */
module SessionConfig {
  import opened Runtime

  datatype CookieOptions = CookieOptions(secure: bool, httpOnly: bool, maxAge: nat, sameSite: string)

  datatype SessionOptions = SessionOptions(secret: string, resave: bool, saveUninitialized: bool, cookie: CookieOptions)

  /** The options `initializeSession` hands to the session middleware, given
      the environment variable JWT_SECRET. */
  function InitializeSession(jwtSecret: Option<string>): (o: SessionOptions)
    ensures o.cookie.maxAge == 1800000
    ensures o.cookie.httpOnly && !o.cookie.secure && o.cookie.sameSite == "Lax"
    ensures !o.resave && !o.saveUninitialized
    ensures jwtSecret.Some? ==> o.secret == jwtSecret.value
    ensures jwtSecret.None? ==> o.secret == "undefined"
  {
    SessionOptions(EnvString(jwtSecret), false, false, CookieOptions(false, true, 30 * 60 * 1000, "Lax"))
  }

  /** Reading a property of a plain object: absent keys read as undefined. */
  function Lookup(data: map<string, Value>, key: string): Value {
    if key in data then data[key] else Undefined
  }

  /** Writes through `Lookup`: the written key reads back, the others keep
      their values, a second write to the same key replaces the first, and a
      key never written reads as undefined. */
  lemma LookupAfterUpdate(data: map<string, Value>, key: string, value: Value, other: string, later: Value)
    ensures Lookup(data[key := value], key) == value
    ensures other != key ==> Lookup(data[key := value], other) == Lookup(data, other)
    ensures data[key := value][key := later] == data[key := later]
    ensures other !in data ==> Lookup(data, other) == Undefined
  {
  }

  /** `req.session` for one request. `destroyed` records that
      `req.session.destroy()` has run and the request no longer has a session. */
  class Session {
    var data: map<string, Value>
    var destroyed: bool

    ghost predicate Valid()
      reads this
    {
      destroyed ==> data == map[]
    }

    /** The session as loaded for this request, holding `stored`. */
    constructor (stored: map<string, Value>)
      ensures Valid() && data == stored && !destroyed
    {
      data := stored;
      destroyed := false;
    }

    /** `SessionService.getSession(req, key)`. */
    function GetSession(key: string): (c: Completion<Value>)
      reads this
      ensures c.Throw? <==> destroyed
      ensures c.Normal? ==> c.value == Lookup(data, key)
    {
      if destroyed then Throw(TypeError("Cannot read properties of undefined"))
      else Normal(Lookup(data, key))
    }

    /** `SessionService.setSession(req, key, value)`. */
    method SetSession(key: string, value: Value) returns (c: Completion<()>)
      requires Valid()
      modifies this
      ensures Valid() && destroyed == old(destroyed)
      ensures c.Throw? <==> destroyed
      ensures data == if destroyed then old(data) else old(data)[key := value]
      ensures !destroyed ==> GetSession(key) == Normal(value)
      ensures forall k :: k != key ==> GetSession(k) == old(GetSession(k))
    {
      if destroyed {
        c := Throw(TypeError("Cannot set properties of undefined"));
      } else {
        data := data[key := value];
        c := Normal(());
      }
    }

    /** `SessionService.destroySession(req)`: all stored data is removed. */
    method DestroySession() returns (c: Completion<()>)
      requires Valid()
      modifies this
      ensures Valid() && destroyed && data == map[]
      ensures c.Throw? <==> old(destroyed)
      ensures forall k :: GetSession(k).Throw?
    {
      if destroyed {
        c := Throw(TypeError("Cannot read properties of undefined"));
      } else {
        data := map[];
        destroyed := true;
        c := Normal(());
      }
    }
  }

  /** Two writes to one key through the accessor: the second replaces the
      first, and no other key is touched. */
  method WriteTwice(s: Session, key: string, first: Value, second: Value)
    requires s.Valid() && !s.destroyed
    modifies s
    ensures s.Valid() && !s.destroyed
    ensures s.GetSession(key) == Normal(second)
    ensures s.data == old(s.data)[key := second]
  {
    var c1 := s.SetSession(key, first);
    var c2 := s.SetSession(key, second);
  }
}
