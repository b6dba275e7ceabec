/** The `useConnectionDetails` hook (src/hooks/useConnectionDetails.ts): one
    cell holding the room credential, an expiry test on its token, and the
    fetch-or-reuse policy.  `decodeJwt` and the clock are inputs. */
module ConnectionDetails {
  import opened Common
  import opened ApiClient

  const OneMinuteInMilliseconds: int := 60 * 1000

  /** `ConnectionDetails`: what is kept of a created session. */
  datatype Details = Details(room_name: string, token: string, session_id: string)

  /** The decoded JWT payload; only the `exp` claim (seconds) is read. */
  datatype JwtPayload = JwtPayload(exp: Option<int>)

  /** `if (!jwtPayload.exp)`: an absent claim and the number 0 are falsy. */
  predicate TruthyExp(exp: Option<int>)
  {
    exp.Some? && exp.value != 0
  }

  /** The instant, in milliseconds, from which a token with claim `exp`
      counts as expired: one minute before the claim. */
  function ExpiresAt(exp: int): (t: int)
    ensures t + OneMinuteInMilliseconds == exp * 1000
  {
    exp * 1000 - OneMinuteInMilliseconds
  }

  /** `isConnectionDetailsExpired()` at wall-clock time `now` (milliseconds).
      `decodeJwt` gives the payload of a token, or the message it throws. */
  function IsExpired(details: Option<Details>, decodeJwt: string -> Result<JwtPayload, string>, now: int)
    : (r: Result<bool, string>)
    ensures details.None? || details.value.token == "" ==> r == Ok(true)
    ensures r.Err? <==> details.Some? && details.value.token != "" && decodeJwt(details.value.token).Err?
    ensures r.Err? ==> r.error == decodeJwt(details.value.token).error
    ensures r == Ok(false) <==>
      && details.Some? && details.value.token != ""
      && decodeJwt(details.value.token).Ok?
      && TruthyExp(decodeJwt(details.value.token).value.exp)
      && now < ExpiresAt(decodeJwt(details.value.token).value.exp.value)
  {
    if details.None? || details.value.token == "" then Ok(true)
    else
      match decodeJwt(details.value.token)
      case Err(thrown) => Err(thrown)
      case Ok(payload) =>
        if !TruthyExp(payload.exp) then Ok(true)
        else Ok(ExpiresAt(payload.exp.value) <= now)
  }

  /** A token whose `exp` claim is truthy is treated as expired exactly from
      one minute before that claim on. */
  lemma ExpiresOneMinuteEarly(d: Details, decodeJwt: string -> Result<JwtPayload, string>, exp: int, now: int)
    requires d.token != "" && decodeJwt(d.token) == Ok(JwtPayload(Some(exp))) && exp != 0
    ensures IsExpired(Some(d), decodeJwt, now) == Ok(exp * 1000 - 60000 <= now)
  {
  }

  /** Once expired, always expired: expiry is monotone in the clock. */
  lemma ExpiryIsMonotone(details: Option<Details>, decodeJwt: string -> Result<JwtPayload, string>, now: int, later: int)
    requires now <= later
    requires IsExpired(details, decodeJwt, now) == Ok(true)
    ensures IsExpired(details, decodeJwt, later) == Ok(true)
  {
  }

  /** What `fetchConnectionDetails` resolves with given the envelope
      `apiClient.createSession()` returned, or the message it rejects with. */
  function FetchResult(response: ApiResponse<Session>): (r: Result<Details, string>)
    ensures r.Ok? <==> !Truthy(response.error) && response.data.Some?
    ensures r.Ok? ==>
      r.value == Details(response.data.value.room_name, response.data.value.token, response.data.value.session_id)
    ensures Truthy(response.error) ==> r == Err(response.error.value)
    ensures !Truthy(response.error) && response.data.None? ==> r == Err("No session data received")
  {
    if Truthy(response.error) then Err(response.error.value)
    else if response.data.None? then Err("No session data received")
    else
      var s := response.data.value;
      Ok(Details(s.room_name, s.token, s.session_id))
  }

  /** The state cell of one mounted hook. */
  class ConnectionDetailsHook {
    var connectionDetails: Option<Details>

    constructor ()
      ensures connectionDetails == None
    {
      connectionDetails := None;
    }

    /** `fetchConnectionDetails`: clear the cell, ask for a new session, and
        keep exactly the three fields of a successful answer.  `response` is
        the envelope the create-session call returns. */
    method FetchConnectionDetails(response: ApiResponse<Session>) returns (r: Result<Details, string>)
      modifies this
      ensures r == FetchResult(response)
      ensures connectionDetails == (if r.Ok? then Some(r.value) else None)
    {
      connectionDetails := None;
      r := FetchResult(response);
      if r.Ok? {
        connectionDetails := Some(r.value);
      }
    }

    /** `existingOrRefreshConnectionDetails`: reuse the cached details while
        they are unexpired at `now`, otherwise fetch new ones.  `fetched`
        says whether the create-session call was made. */
    method ExistingOrRefresh(decodeJwt: string -> Result<JwtPayload, string>, now: int, response: ApiResponse<Session>)
      returns (r: Result<Details, string>, fetched: bool)
      modifies this
      ensures fetched <==> IsExpired(old(connectionDetails), decodeJwt, now) == Ok(true)
      ensures !fetched ==> connectionDetails == old(connectionDetails)
      ensures fetched ==> r == FetchResult(response)
      ensures fetched ==> connectionDetails == (if r.Ok? then Some(r.value) else None)
      ensures !fetched && r.Ok? ==>
        old(connectionDetails) == Some(r.value) && IsExpired(Some(r.value), decodeJwt, now) == Ok(false)
      ensures !fetched && r.Err? ==>
        && IsExpired(old(connectionDetails), decodeJwt, now).Err?
        && r.error == IsExpired(old(connectionDetails), decodeJwt, now).error
    {
      var expired := IsExpired(connectionDetails, decodeJwt, now);
      if expired.Err? {
        return Err(expired.error), false;
      }
      if expired.value || connectionDetails.None? {
        r := FetchConnectionDetails(response);
        fetched := true;
      } else {
        r, fetched := Ok(connectionDetails.value), false;
      }
    }
  }
}
