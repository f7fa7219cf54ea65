/** The client-side view of a broker session (`SessionState`) and its
    single-record persistence (`SessionStore`). */
module Session {
  import opened Wrappers
  import opened Values
  import opened Wire

  /** Tokens with absolute expiry times in epoch seconds. */
  datatype SessionState = SessionState(
    aeId: string,
    sessionId: string,
    accessToken: string,
    accessExpiresAt: int,
    refreshToken: string,
    refreshExpiresAt: int)

  /** `SessionState.from_verify_response(ae_id, data)` at time `now`:
      the three tokens are required, a missing lifetime counts as 0. */
  function FromVerifyResponse(aeId: string, data: VerifyBody, now: int): (r: Result<SessionState, Error>)
    ensures r.Success? <==> data.sessionId.Some? && data.accessToken.Some? && data.refreshToken.Some?
    ensures r.Success? ==>
              && r.value.aeId == aeId
              && r.value.sessionId == data.sessionId.value
              && r.value.accessToken == data.accessToken.value
              && r.value.refreshToken == data.refreshToken.value
              && r.value.accessExpiresAt - now == data.expiresIn.GetOr(0)
              && r.value.refreshExpiresAt - now == data.refreshExpiresIn.GetOr(0)
    ensures data.sessionId.None? ==> r == Failure(KeyError("session_id"))
    ensures data.sessionId.Some? && data.accessToken.None? ==> r == Failure(KeyError("access_token"))
    ensures data.sessionId.Some? && data.accessToken.Some? && data.refreshToken.None? ==>
              r == Failure(KeyError("refresh_token"))
  {
    if data.sessionId.None? then Failure(KeyError("session_id"))
    else if data.accessToken.None? then Failure(KeyError("access_token"))
    else if data.refreshToken.None? then Failure(KeyError("refresh_token"))
    else Success(SessionState(
      aeId, data.sessionId.value,
      data.accessToken.value, now + data.expiresIn.GetOr(0),
      data.refreshToken.value, now + data.refreshExpiresIn.GetOr(0)))
  }

  /** `SessionState.from_refresh_response(ae_id, session_id, data)` at time
      `now`: identity comes from the caller, only tokens and expiries from
      the reply. */
  function FromRefreshResponse(aeId: string, sessionId: string, data: RefreshBody, now: int): (r: Result<SessionState, Error>)
    ensures r.Success? <==> data.accessToken.Some? && data.refreshToken.Some?
    ensures r.Success? ==>
              && r.value.aeId == aeId
              && r.value.sessionId == sessionId
              && r.value.accessToken == data.accessToken.value
              && r.value.refreshToken == data.refreshToken.value
              && r.value.accessExpiresAt - now == data.expiresIn.GetOr(0)
              && r.value.refreshExpiresAt - now == data.refreshExpiresIn.GetOr(0)
    ensures data.accessToken.None? ==> r == Failure(KeyError("access_token"))
    ensures data.accessToken.Some? && data.refreshToken.None? ==> r == Failure(KeyError("refresh_token"))
  {
    if data.accessToken.None? then Failure(KeyError("access_token"))
    else if data.refreshToken.None? then Failure(KeyError("refresh_token"))
    else Success(SessionState(
      aeId, sessionId,
      data.accessToken.value, now + data.expiresIn.GetOr(0),
      data.refreshToken.value, now + data.refreshExpiresIn.GetOr(0)))
  }

  // ------------------------------------------------------------------
  // Dictionary form (`dataclasses.asdict` / `cls(**raw)`)
  // ------------------------------------------------------------------

  const FieldNames: set<string> :=
    {"ae_id", "session_id", "access_token", "access_expires_at", "refresh_token", "refresh_expires_at"}

  function ToDict(s: SessionState): (d: map<string, Json>)
    ensures d.Keys == FieldNames
  {
    map["ae_id" := JStr(s.aeId),
        "session_id" := JStr(s.sessionId),
        "access_token" := JStr(s.accessToken),
        "access_expires_at" := JInt(s.accessExpiresAt),
        "refresh_token" := JStr(s.refreshToken),
        "refresh_expires_at" := JInt(s.refreshExpiresAt)]
  }

  predicate StrAt(raw: map<string, Json>, k: string) { k in raw && raw[k].JStr? }
  predicate IntAt(raw: map<string, Json>, k: string) { k in raw && raw[k].JInt? }

  /** `SessionState.from_dict(raw)`: exactly the six field names, or the
      dataclass constructor raises (`None` here). */
  function FromDict(raw: map<string, Json>): (r: Option<SessionState>)
    ensures r.Some? ==> raw.Keys == FieldNames
  {
    if raw.Keys == FieldNames
       && StrAt(raw, "ae_id") && StrAt(raw, "session_id") && StrAt(raw, "access_token")
       && IntAt(raw, "access_expires_at") && StrAt(raw, "refresh_token") && IntAt(raw, "refresh_expires_at")
    then Some(SessionState(
      raw["ae_id"].s, raw["session_id"].s,
      raw["access_token"].s, raw["access_expires_at"].i,
      raw["refresh_token"].s, raw["refresh_expires_at"].i))
    else None
  }

  /** `from_dict(to_dict(s)) == s`. */
  lemma DictRoundTrip(s: SessionState)
    ensures FromDict(ToDict(s)) == Some(s)
  {
    var d := ToDict(s);
    assert StrAt(d, "ae_id") && StrAt(d, "session_id") && StrAt(d, "access_token");
    assert IntAt(d, "access_expires_at") && StrAt(d, "refresh_token") && IntAt(d, "refresh_expires_at");
  }

  /** The other direction: a dictionary that `from_dict` accepts is exactly
      the `to_dict` of what it builds. */
  lemma DictRoundTripBack(raw: map<string, Json>)
    requires FromDict(raw).Some?
    ensures ToDict(FromDict(raw).value) == raw
  {
    var d := ToDict(FromDict(raw).value);
    assert d.Keys == raw.Keys;
    forall k | k in raw ensures d[k] == raw[k] {
      assert k in FieldNames;
    }
  }

  // ------------------------------------------------------------------
  // Expiration helpers: expired iff now >= expires_at - leeway
  // ------------------------------------------------------------------

  /** The access token counts as expired once it has at most `leeway`
      seconds left. */
  function IsAccessExpired(s: SessionState, now: int, leeway: int): (expired: bool)
    ensures expired <==> s.accessExpiresAt - now <= leeway
  {
    now >= s.accessExpiresAt - leeway
  }

  /** The same rule for the refresh token. */
  function IsRefreshExpired(s: SessionState, now: int, leeway: int): (expired: bool)
    ensures expired <==> s.refreshExpiresAt - now <= leeway
  {
    now >= s.refreshExpiresAt - leeway
  }

  /** Once expired, a token stays expired later and under a larger leeway. */
  lemma ExpiryMonotone(s: SessionState, now: int, now': int, leeway: int, leeway': int)
    requires now <= now' && leeway <= leeway'
    ensures IsAccessExpired(s, now, leeway) ==> IsAccessExpired(s, now', leeway')
    ensures IsRefreshExpired(s, now, leeway) ==> IsRefreshExpired(s, now', leeway')
  {
  }

  /** A session granted at `t` with `expires_in = 300` is live at `t` and
      expired from `t + 300` on (leeway 0). */
  lemma FreshSessionLifetime(aeId: string, data: VerifyBody, t: int, later: int)
    requires data.sessionId.Some? && data.accessToken.Some? && data.refreshToken.Some?
    requires data.expiresIn == Some(300) && later >= t + 300
    ensures FromVerifyResponse(aeId, data, t).Success?
    ensures !IsAccessExpired(FromVerifyResponse(aeId, data, t).value, t, 0)
    ensures IsAccessExpired(FromVerifyResponse(aeId, data, t).value, later, 0)
  {
  }

  // ------------------------------------------------------------------
  // SessionStore: one JSON record on disk
  // ------------------------------------------------------------------

  /** What the backing file holds: a JSON document, or bytes that do not
      parse (or cannot be read). */
  datatype FileContent = Parsed(doc: Json) | Garbled

  /** How writing the file went: fully written, `open` failed (file left as
      it was), or the write failed after `open("w")` truncated it. */
  datatype IoOutcome = Written | OpenFailed | WriteFailed

  /** What `load()` returns for a given file: any read, parse or shape
      failure is "no session", never an error. */
  function Loaded(file: Option<FileContent>): (r: Option<SessionState>)
    ensures file.None? || file == Some(Garbled) ==> r.None?
    ensures r.Some? ==> file == Some(Parsed(JObject(ToDict(r.value))))
  {
    match file
    case None => None
    case Some(Garbled) => None
    case Some(Parsed(doc)) =>
      if doc.JObject? && FromDict(doc.fields).Some? then
        DictRoundTripBack(doc.fields);
        FromDict(doc.fields)
      else None
  }

  /** The file after `save(s)`. */
  function Saved(file: Option<FileContent>, s: SessionState, io: IoOutcome): (r: Option<FileContent>)
    ensures io == Written ==> Loaded(r) == Some(s)
    ensures io == OpenFailed ==> r == file
    ensures io == WriteFailed ==> r.Some? && Loaded(r).None?
  {
    DictRoundTrip(s);
    match io
    case Written => Some(Parsed(JObject(ToDict(s))))
    case OpenFailed => file
    case WriteFailed => Some(Garbled)
  }

  /** The file after `clear()`; `removed` says whether `unlink` succeeded. */
  function Cleared(file: Option<FileContent>, removed: bool): (r: Option<FileContent>)
    ensures removed ==> r.None? && Loaded(r).None?
    ensures !removed ==> r == file
  {
    if file.Some? && removed then None else file
  }

  lemma LoadAfterSave(file: Option<FileContent>, s: SessionState)
    ensures Loaded(Saved(file, s, Written)) == Some(s)
  {
    DictRoundTrip(s);
  }

  /** A failed save never surfaces as an error; at worst `load` then finds
      no session. */
  lemma LoadAfterFailedSave(file: Option<FileContent>, s: SessionState, io: IoOutcome)
    requires io != Written
    ensures Loaded(Saved(file, s, io)) == (if io == OpenFailed then Loaded(file) else None)
  {
  }

  lemma ClearIdempotent(file: Option<FileContent>, removed: bool)
    ensures Cleared(file, true) == None
    ensures Loaded(Cleared(file, true)) == None
    ensures Cleared(Cleared(file, removed), removed) == Cleared(file, removed)
    ensures file == None ==> Cleared(file, removed) == None
  {
  }

  class SessionStore {
    var file: Option<FileContent>

    /** A store over a file that already holds `file` (or nothing). */
    constructor (file: Option<FileContent>)
      ensures this.file == file
    {
      this.file := file;
    }

    method Load() returns (r: Option<SessionState>)
      ensures r == Loaded(file)
      ensures file == None ==> r == None
    {
      match file {
        case None => r := None;
        case Some(Garbled) => r := None;
        case Some(Parsed(doc)) =>
          if doc.JObject? { r := FromDict(doc.fields); } else { r := None; }
      }
    }

    method Save(s: SessionState, io: IoOutcome)
      modifies this
      ensures file == Saved(old(file), s, io)
      ensures io == Written ==> Loaded(file) == Some(s)
    {
      match io {
        case Written => file := Some(Parsed(JObject(ToDict(s))));
        case OpenFailed =>
        case WriteFailed => file := Some(Garbled);
      }
      if io == Written { LoadAfterSave(old(file), s); }
    }

    method Clear(removed: bool)
      modifies this
      ensures file == Cleared(old(file), removed)
      ensures removed ==> Loaded(file) == None
    {
      if file.Some? && removed {
        file := None;
      }
    }
  }
}
