/**
 * The token registry of the license server: a table from token string to a
 * record holding the token's expiry date, its validity flag and the device the
 * token is bound to. Seeding inserts the fixed list of predefined tokens,
 * login binds a token to a device (a single-slot compare-and-set), and the
 * status query reports whether a token is free or occupied.
 *
 * The HTTP layer is replaced by the Response datatype, the SQLite table by a
 * map, and the outcome of each SQLite call by a boolean parameter.
 */
module TokenRegistry {

  datatype Option<T> = None | Some(value: T)

  /** One row of the `tokens` table (its key, `token`, is the map's key). */
  datatype Record = Record(expiry: string, isValid: bool, deviceId: Option<string>)

  type Table = map<string, Record>

  /** What a handler answers. */
  datatype Response =
    | BadRequest(error: string)     // HTTP 400
    | NotFound(error: string)       // HTTP 404
    | InternalError(error: string)  // HTTP 500
      /**
       * Login reads a missing row: the handler throws a TypeError inside the
       * store callback, no answer is sent, and nothing is written.
       */
    | Unhandled
      /**
       * The 200 body of login, `{Token, Expiry, IsValid, DeviceId}`: the device
       * named is the one holding the slot, the requester or another device.
       */
    | LoginOk(token: string, expiry: string, isValid: bool, deviceId: string)
      /** The 200 bodies of the status query. */
    | Occupied(token: string, deviceId: string)
    | Free(token: string)

  /** Whether the SELECT and the UPDATE issued by one request succeed. */
  datatype StoreIO = StoreIO(readOk: bool, writeOk: bool)

  /** The response of a login request together with the table it leaves behind. */
  datatype Outcome = Outcome(response: Response, table: Table)

  const PredefinedTokens: seq<string> :=
    ["NSB897sb64cX", "Zcu5o5H4gkJw", "0dSC8p3GYwcB", "xYIBwZ309PL6", "8T36n2wOiSe8"]

  const MissingLoginParams := "Missing token or deviceID parameter"
  const MissingStatusParam := "Missing token parameter"
  const InvalidToken := "Invalid token"
  const TokenNotFound := "Token not found"
  const ServerError := "Internal Server Error"

  /** JavaScript truthiness of a query parameter: absent and "" are both falsy. */
  predicate Given(p: Option<string>)
  {
    p.Some? && p.value != ""
  }

  /** JavaScript truthiness of a row's `deviceId`: null and "" both mean "free". */
  predicate IsBound(r: Record)
  {
    r.deviceId.Some? && r.deviceId.value != ""
  }

  /** Every predefined token has a row. */
  ghost predicate Seeded(t: Table)
  {
    forall k :: k in PredefinedTokens ==> k in t
  }

  /** The row seeding writes for a token it inserts. */
  function FreshRecord(expiry: string): Record
  {
    Record(expiry, true, None)
  }

  /** `INSERT OR IGNORE` of one seed row: an existing row wins, a missing one is added fresh. */
  function InsertOrIgnore(t: Table, token: string, expiry: string): (r: Table)
    ensures r.Keys == t.Keys + {token}
    ensures forall k :: k in t ==> r[k] == t[k]
    ensures token !in t ==> r[token] == FreshRecord(expiry)
  {
    if token in t then t else t[token := FreshRecord(expiry)]
  }

  /**
   * The table after seeding `tokens` in order into `t`: every token gets a
   * row, a new row is valid and free, and no row that existed is touched.
   */
  function SeedAll(t: Table, tokens: seq<string>, expiry: string): (r: Table)
    ensures r.Keys == t.Keys + set k | k in tokens
    ensures forall k :: k in t ==> k in r && r[k] == t[k]
    ensures forall k :: k in r && k !in t ==> r[k] == FreshRecord(expiry)
    decreases |tokens|
  {
    if tokens == [] then t
    else
      var init := tokens[..|tokens| - 1];
      assert forall k :: k in tokens <==> k in init || k == tokens[|tokens| - 1];
      InsertOrIgnore(SeedAll(t, init, expiry), tokens[|tokens| - 1], expiry)
  }

  /**
   * The login handler on table `t`. Both guards come first and answer 400;
   * a row that the table lacks makes the handler throw; a free slot or one
   * held by the requesting device is (re)bound; a slot held by another device
   * is reported, with `IsValid` true, and left alone.
   */
  function LoginStep(t: Table, token: Option<string>, deviceID: Option<string>, io: StoreIO): (o: Outcome)
    // no row is created or deleted
    ensures o.table.Keys == t.Keys
    // only the requested row can change
    ensures forall k :: k in t && token != Some(k) ==> o.table[k] == t[k]
    // a request that is not answered with a binding changes nothing
    ensures !o.response.LoginOk? ==> o.table == t
    // a binding answer names the requested token, its stored expiry and the
    // (non-empty) device that holds the slot afterwards
    ensures o.response.LoginOk? ==>
              && token.Some? && o.response.token == token.value && token.value in t
              && o.response.isValid
              && o.response.expiry == t[token.value].expiry
              && o.response.deviceId != ""
              && o.table[token.value].deviceId == Some(o.response.deviceId)
  {
    if !Given(token) || !Given(deviceID) then Outcome(BadRequest(MissingLoginParams), t)
    else if token.value !in PredefinedTokens then Outcome(BadRequest(InvalidToken), t)
    else if !io.readOk then Outcome(InternalError(ServerError), t)
    else if token.value !in t then Outcome(Unhandled, t)
    else
      var row := t[token.value];
      if !IsBound(row) || row.deviceId == deviceID then
        if !io.writeOk then Outcome(InternalError(ServerError), t)
        else
          Outcome(LoginOk(token.value, row.expiry, true, deviceID.value),
                  t[token.value := row.(deviceId := deviceID, isValid := true)])
      else
        Outcome(LoginOk(token.value, row.expiry, true, row.deviceId.value), t)
  }

  /**
   * The status handler on table `t`: it only reads, and answers Occupied
   * with the stored device, Free, 404 when there is no row, or an error.
   */
  function Status(t: Table, token: Option<string>, readOk: bool): (r: Response)
    ensures r.BadRequest? <==> !Given(token) || token.value !in PredefinedTokens
    ensures !Given(token) ==> r == BadRequest(MissingStatusParam)
    ensures Given(token) && token.value !in PredefinedTokens ==> r == BadRequest(InvalidToken)
    ensures r.InternalError? <==> Given(token) && token.value in PredefinedTokens && !readOk
    ensures r.NotFound? <==>
              Given(token) && token.value in PredefinedTokens && readOk && token.value !in t
    ensures r.Occupied? <==>
              Given(token) && token.value in PredefinedTokens && readOk && token.value in t
              && IsBound(t[token.value])
    ensures r.Free? <==>
              Given(token) && token.value in PredefinedTokens && readOk && token.value in t
              && !IsBound(t[token.value])
    ensures r.Occupied? ==> r == Occupied(token.value, t[token.value].deviceId.value)
    ensures r.Free? ==> r == Free(token.value)
    ensures !r.LoginOk? && !r.Unhandled?
  {
    if !Given(token) then BadRequest(MissingStatusParam)
    else if token.value !in PredefinedTokens then BadRequest(InvalidToken)
    else if !readOk then InternalError(ServerError)
    else if token.value !in t then NotFound(TokenNotFound)
    else if IsBound(t[token.value]) then Occupied(token.value, t[token.value].deviceId.value)
    else Free(token.value)
  }

  /** The server's token table, updated in place by seeding and by login. */
  class Registry {
    var table: Table

    /**
     * Opening the store: `CREATE TABLE IF NOT EXISTS` keeps whatever rows a
     * previous run left, so the registry starts from the stored table.
     */
    constructor (stored: Table)
      ensures table == stored
    {
      table := stored;
    }

    /** Seeding: one `INSERT OR IGNORE` per predefined token, in list order. */
    method Seed(expiry: string)
      modifies this
      ensures table == SeedAll(old(table), PredefinedTokens, expiry)
    {
      var i := 0;
      while i < |PredefinedTokens|
        invariant 0 <= i <= |PredefinedTokens|
        invariant table == SeedAll(old(table), PredefinedTokens[..i], expiry)
      {
        var token := PredefinedTokens[i];
        if token !in table {
          table := table[token := FreshRecord(expiry)];
        }
        assert PredefinedTokens[..i + 1][..i] == PredefinedTokens[..i];
        i := i + 1;
      }
      assert PredefinedTokens[..i] == PredefinedTokens;
    }

    /**
     * The login handler, the in-place form of `LoginStep`: validate, read the
     * row, and bind it if the slot allows.
     */
    method Login(token: Option<string>, deviceID: Option<string>, io: StoreIO) returns (r: Response)
      modifies this
      ensures Outcome(r, table) == LoginStep(old(table), token, deviceID, io)
    {
      if !Given(token) || !Given(deviceID) {
        return BadRequest(MissingLoginParams);
      }
      var tok, dev := token.value, deviceID.value;
      if tok !in PredefinedTokens {
        return BadRequest(InvalidToken);
      }
      if !io.readOk {
        return InternalError(ServerError);
      }
      if tok !in table {
        return Unhandled;
      }
      var row := table[tok];
      if !IsBound(row) || row.deviceId == Some(dev) {
        if !io.writeOk {
          return InternalError(ServerError);
        }
        table := table[tok := row.(deviceId := Some(dev), isValid := true)];
        return LoginOk(tok, row.expiry, true, dev);
      }
      return LoginOk(tok, row.expiry, true, row.deviceId.value);
    }

    /**
     * The status handler, the in-place form of `Status` on the current table;
     * it has no `modifies` clause, so it cannot change anything.
     */
    method QueryStatus(token: Option<string>, readOk: bool) returns (r: Response)
      ensures r == Status(table, token, readOk)
    {
      if !Given(token) {
        return BadRequest(MissingStatusParam);
      }
      var tok := token.value;
      if tok !in PredefinedTokens {
        return BadRequest(InvalidToken);
      }
      if !readOk {
        return InternalError(ServerError);
      }
      if tok !in table {
        return NotFound(TokenNotFound);
      }
      var row := table[tok];
      if IsBound(row) {
        return Occupied(tok, row.deviceId.value);
      }
      return Free(tok);
    }
  }
}
