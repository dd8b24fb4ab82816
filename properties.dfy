/**
 * Properties of the token registry that relate several calls: guards that
 * reject before any lookup, first-come-first-served binding, idempotence,
 * seeding that never clobbers, and the status a binding leaves behind.
 */
module RegistryProperties {
  import opened TokenRegistry

  /** One login request: its two query parameters and how the store behaves. */
  datatype LoginRequest = LoginRequest(token: Option<string>, deviceID: Option<string>, io: StoreIO)

  /** The table after serving `reqs` one after another, starting from `t`. */
  function Replay(t: Table, reqs: seq<LoginRequest>): (r: Table)
    ensures r.Keys == t.Keys
    decreases |reqs|
  {
    if reqs == [] then t
    else Replay(LoginStep(t, reqs[0].token, reqs[0].deviceID, reqs[0].io).table, reqs[1..])
  }

  /** A login missing either parameter, or naming an unlisted token, is refused with 400 and writes nothing. */
  lemma LoginGuards(t: Table, token: Option<string>, deviceID: Option<string>, io: StoreIO)
    ensures !Given(token) || !Given(deviceID) ==>
              LoginStep(t, token, deviceID, io) == Outcome(BadRequest(MissingLoginParams), t)
    ensures Given(token) && Given(deviceID) && token.value !in PredefinedTokens ==>
              LoginStep(t, token, deviceID, io) == Outcome(BadRequest(InvalidToken), t)
  {
  }

  /**
   * Login on a free slot, or on one the requesting device already holds,
   * binds that device and marks the row valid, keeping its expiry.
   */
  lemma LoginBindsFreeOrOwnSlot(t: Table, token: string, device: string, io: StoreIO)
    requires token in PredefinedTokens && token in t && device != ""
    requires io.readOk && io.writeOk
    requires !IsBound(t[token]) || t[token].deviceId == Some(device)
    ensures var o := LoginStep(t, Some(token), Some(device), io);
            && o.response == LoginOk(token, t[token].expiry, true, device)
            && o.table == t[token := Record(t[token].expiry, true, Some(device))]
  {
  }

  /**
   * Login by another device on an occupied slot leaves the table as it was
   * and answers with the occupying device and `IsValid` true.
   */
  lemma LoginReportsOccupant(t: Table, token: string, device: string, io: StoreIO)
    requires token in PredefinedTokens && token in t && device != ""
    requires io.readOk
    requires IsBound(t[token]) && t[token].deviceId != Some(device)
    ensures LoginStep(t, Some(token), Some(device), io)
            == Outcome(LoginOk(token, t[token].expiry, true, t[token].deviceId.value), t)
  {
  }

  /**
   * When the UPDATE that would bind a free slot, or the device's own slot,
   * fails, login answers 500 and the table is as it was.
   */
  lemma LoginWriteFails(t: Table, token: string, device: string, io: StoreIO)
    requires token in PredefinedTokens && token in t && device != ""
    requires io.readOk && !io.writeOk
    requires !IsBound(t[token]) || t[token].deviceId == Some(device)
    ensures LoginStep(t, Some(token), Some(device), io) == Outcome(InternalError(ServerError), t)
  {
  }

  /**
   * Login answers with a 200 body exactly when both parameters are given, the
   * token is listed, its row is read, and either another device holds the
   * slot or the binding UPDATE succeeds.
   */
  lemma LoginOkExactly(t: Table, token: Option<string>, deviceID: Option<string>, io: StoreIO)
    ensures LoginStep(t, token, deviceID, io).response.LoginOk? <==>
              && Given(token) && Given(deviceID) && token.value in PredefinedTokens
              && io.readOk && token.value in t
              && (io.writeOk || (IsBound(t[token.value]) && t[token.value].deviceId != deviceID))
  {
  }

  /**
   * Login reaches a missing row exactly when both parameters are given, the
   * token is listed, the read succeeds and the table has no row for it; a
   * failed read answers 500 whatever the table holds.
   */
  lemma LoginUnhandledExactly(t: Table, token: Option<string>, deviceID: Option<string>, io: StoreIO)
    ensures LoginStep(t, token, deviceID, io).response.Unhandled? <==>
              Given(token) && Given(deviceID) && token.value in PredefinedTokens
              && io.readOk && token.value !in t
    ensures Given(token) && Given(deviceID) && token.value in PredefinedTokens && !io.readOk ==>
              LoginStep(t, token, deviceID, io) == Outcome(InternalError(ServerError), t)
  {
  }

  /** A device bound to a token stays bound whatever logins follow. */
  lemma {:induction false} BindingNeverStolen(t: Table, reqs: seq<LoginRequest>, token: string)
    requires token in t && IsBound(t[token])
    ensures var r := Replay(t, reqs);
            token in r && r[token].deviceId == t[token].deviceId
    decreases |reqs|
  {
    if reqs != [] {
      var q := reqs[0];
      var o := LoginStep(t, q.token, q.deviceID, q.io);
      assert o.table[token].deviceId == t[token].deviceId by {
        if o.table != t {
          // the row changes only when the requesting device already holds it
          assert q.token == Some(token) ==> t[token].deviceId == q.deviceID;
        }
      }
      BindingNeverStolen(o.table, reqs[1..], token);
    }
  }

  /**
   * Repeating a login that got a 200 body gives the same answer, and leaves
   * the stored table as it was whatever the store does on the repeat.
   */
  lemma LoginIdempotent(t: Table, token: Option<string>, deviceID: Option<string>, io: StoreIO, io2: StoreIO)
    requires LoginStep(t, token, deviceID, io).response.LoginOk?
    ensures var o := LoginStep(t, token, deviceID, io);
            LoginStep(o.table, token, deviceID, io) == o
    ensures var o := LoginStep(t, token, deviceID, io);
            LoginStep(o.table, token, deviceID, io2).table == o.table
  {
  }

  /**
   * Two devices race for a free token one after the other: the first wins,
   * the second is told who holds it, and the table keeps the first.
   */
  lemma FirstDeviceWins(t: Table, token: string, a: string, b: string, io: StoreIO)
    requires token in PredefinedTokens && token in t && !IsBound(t[token])
    requires a != "" && b != "" && a != b
    requires io.readOk && io.writeOk
    ensures var first := LoginStep(t, Some(token), Some(a), io);
            var second := LoginStep(first.table, Some(token), Some(b), io);
            && first.response.LoginOk? && first.response.deviceId == a
            && second.response.LoginOk? && second.response.deviceId == a
            && second.table == first.table
            && Status(second.table, Some(token), true) == Occupied(token, a)
  {
  }

  /** After a login that answers with a binding, the status query reports that device. */
  lemma StatusAfterLogin(t: Table, token: Option<string>, deviceID: Option<string>, io: StoreIO)
    requires LoginStep(t, token, deviceID, io).response.LoginOk?
    ensures var o := LoginStep(t, token, deviceID, io);
            Status(o.table, token, true) == Occupied(token.value, o.response.deviceId)
  {
  }

  /** After seeding, every predefined token has a row and existing rows are as they were. */
  lemma SeedingSeeds(t: Table, expiry: string)
    ensures var s := SeedAll(t, PredefinedTokens, expiry);
            && Seeded(s)
            && (forall k :: k in t ==> s[k] == t[k])
            && (forall k :: k in s && k !in t ==> s[k] == Record(expiry, true, None))
  {
  }

  /** Seeding a second time, with any expiry, changes nothing. */
  lemma ReseedIsNoOp(t: Table, expiry: string, later: string)
    ensures var s := SeedAll(t, PredefinedTokens, expiry);
            SeedAll(s, PredefinedTokens, later) == s
  {
  }

  /**
   * Once seeded, the table stays seeded under any logins, so login never
   * reads a missing row and the status query never answers 404.
   */
  lemma SeededServesEveryListedToken(t: Table, reqs: seq<LoginRequest>, q: LoginRequest, readOk: bool)
    requires Seeded(t)
    ensures var r := Replay(t, reqs);
            && LoginStep(r, q.token, q.deviceID, q.io).response != Unhandled
            && !Status(r, q.token, readOk).NotFound?
  {
  }
}
