/**
 * The session registry and the request handlers over it. The profile store
 * is an explicit object passed to every handler: a map from session id to
 * the stored connection profile. A handler's answer is a status code with
 * either data or a message; a registry miss is code -400 and a transport
 * failure code -500. The transport itself (the HTTP round trip to the
 * webshell) is a parameter: a function from the profile to either a value
 * or a raised error.
 */
module Sessions {

  datatype Option<T> = None | Some(value: T)

  /** A session id: a UUID, that is a 128-bit number. */
  newtype Uuid = x: int | 0 <= x < 0x1_0000_0000_0000_0000_0000_0000_0000_0000

  /** A stored connection profile; only the id matters to the registry. */
  datatype SessionInfo = SessionInfo(
    sessionId: Uuid,
    sessionType: string,
    name: string,
    connection: map<string, string>)

  /** What a handler sends back under "data" or under "msg". */
  datatype Payload<T> = Data(value: T) | TextData(text: string) | Message(text: string)

  datatype Reply<T> = Reply(code: int, payload: Payload<T>)

  /** The two exceptions the transport raises; `detail` is `str(exc)`. */
  datatype TransportError = NetworkError(detail: string) | UnexpectedError(detail: string)

  /** What one transport call does: return a value or raise. */
  datatype Outcome<T> = Returned(value: T) | Raised(error: TransportError)

  /** A handler either replies or lets the exception escape to the web layer. */
  datatype Handled<T> = Replied(reply: Reply<T>) | Uncaught(error: TransportError)

  /** The listing `get_sessions` answers: every profile, or the one asked for. */
  datatype SessionsView = AllSessions(infos: set<SessionInfo>) | OneSession(info: SessionInfo)

  const OkCode := 0
  const NotFoundCode := -400
  const FailureCode := -500
  const NotFoundText := "没有这个session"
  /** Prefixes of the error messages; `test_webshell` uses a full-width colon. */
  const NetworkPrefix := "网络错误: "
  const UnexpectedPrefix := "未知错误: "
  const TestNetworkPrefix := "网络错误："

  function NotFound<T>(): Reply<T> {
    Reply(NotFoundCode, Message(NotFoundText))
  }

  /**
   * `session_manager`: the stored profiles keyed by id. Every profile is
   * filed under its own id.
   */
  class SessionStore {
    var sessions: map<Uuid, SessionInfo>

    ghost predicate Valid()
      reads this
    {
      forall id :: id in sessions ==> sessions[id].sessionId == id
    }

    constructor ()
      ensures Valid() && sessions == map[]
    {
      sessions := map[];
    }

    /** `get_session_info_by_id`: the profile filed under `id`, if any. */
    function GetSessionInfoById(id: Uuid): (r: Option<SessionInfo>)
      reads this
      ensures r.Some? <==> id in sessions
      ensures r.Some? ==> r.value == sessions[id]
      ensures Valid() && r.Some? ==> r.value.sessionId == id
    {
      if id in sessions then Some(sessions[id]) else None
    }

    /** `list_sessions_readable`: every stored profile. */
    function ListSessions(): (r: set<SessionInfo>)
      reads this
      requires Valid()
      ensures forall info :: info in r <==> info.sessionId in sessions && sessions[info.sessionId] == info
    {
      sessions.Values
    }

    /** `add_session_info`: files `info` under its id. */
    method AddSessionInfo(info: SessionInfo)
      requires Valid()
      modifies this
      ensures Valid()
      ensures sessions == old(sessions)[info.sessionId := info]
    {
      sessions := sessions[info.sessionId := info];
    }

    /** `delete_session_info_by_id`: removes whatever is filed under `id`. */
    method DeleteSessionInfoById(id: Uuid)
      requires Valid()
      modifies this
      ensures Valid()
      ensures sessions == old(sessions) - {id}
    {
      sessions := sessions - {id};
    }
  }

  /**
   * `get_sessions`: without an id, every profile; with an id, that profile,
   * or -400 when nothing is filed under it.
   */
  function GetSessions(store: SessionStore, sessionId: Option<Uuid>): (r: Reply<SessionsView>)
    reads store
    requires store.Valid()
    ensures r.code == NotFoundCode <==> sessionId.Some? && sessionId.value !in store.sessions
    ensures r.code == NotFoundCode ==> r == NotFound()
    ensures r.code != NotFoundCode ==> r.code == OkCode && r.payload.Data?
    ensures sessionId.None? ==> r.payload == Data(AllSessions(store.ListSessions()))
    ensures sessionId.Some? && r.code == OkCode ==>
              r.payload.value.OneSession? && r.payload.value.info.sessionId == sessionId.value &&
              r.payload.value.info == store.sessions[sessionId.value]
  {
    match sessionId
    case None => Reply(OkCode, Data(AllSessions(store.ListSessions())))
    case Some(id) =>
      match store.GetSessionInfoById(id)
      case None => NotFound()
      case Some(info) => Reply(OkCode, Data(OneSession(info)))
  }

  /**
   * `update_webshell`: if a profile is filed under the id it is deleted,
   * then `info` is added. Afterwards exactly `info` is filed under its id
   * and every other id is as before.
   */
  method UpdateWebshell(store: SessionStore, info: SessionInfo) returns (r: Reply<bool>)
    requires store.Valid()
    modifies store
    ensures store.Valid()
    ensures store.sessions == old(store.sessions)[info.sessionId := info]
    ensures store.sessions.Keys == old(store.sessions).Keys + {info.sessionId}
    ensures forall id :: id in store.sessions && id != info.sessionId ==> store.sessions[id] == old(store.sessions)[id]
    ensures r == Reply(OkCode, Data(true))
  {
    if store.GetSessionInfoById(info.sessionId).Some? {
      store.DeleteSessionInfoById(info.sessionId);
      assert info.sessionId !in store.sessions;
    }
    store.AddSessionInfo(info);
    r := Reply(OkCode, Data(true));
  }

  /**
   * `delete_session`: -400 and no change for an unknown id; otherwise the
   * profile is removed, and only it.
   */
  method DeleteSession(store: SessionStore, id: Uuid) returns (r: Reply<bool>)
    requires store.Valid()
    modifies store
    ensures store.Valid()
    ensures id !in old(store.sessions) ==> r == NotFound() && store.sessions == old(store.sessions)
    ensures id in old(store.sessions) ==> r == Reply(OkCode, Data(true)) && store.sessions == old(store.sessions) - {id}
  {
    var found := store.GetSessionInfoById(id);
    if found.None? {
      return NotFound();
    }
    store.DeleteSessionInfoById(id);
    r := Reply(OkCode, Data(true));
  }

  /** `text` is `prefix` followed by `detail`. */
  predicate Carries(text: string, prefix: string, detail: string) {
    |text| == |prefix| + |detail| && text[..|prefix|] == prefix && text[|prefix|..] == detail
  }

  /** The start of the -500 message of the `session_*` handlers, by the kind of exception. */
  function ErrorPrefix(e: TransportError): string {
    match e
    case NetworkError(_) => NetworkPrefix
    case UnexpectedError(_) => UnexpectedPrefix
  }

  /**
   * The `try`/`except` of the `session_*` handlers: a returned value is
   * code 0 with that value as data; either exception is code -500 with a
   * message naming its kind and carrying its text.
   */
  function ReplyTo<T>(o: Outcome<T>): (r: Reply<T>)
    ensures r.code == OkCode <==> o.Returned?
    ensures r.code == FailureCode <==> o.Raised?
    ensures o.Returned? ==> r.payload == Data(o.value)
    ensures o.Raised? && o.error.NetworkError? ==>
              r.payload.Message? && Carries(r.payload.text, NetworkPrefix, o.error.detail)
    ensures o.Raised? && o.error.UnexpectedError? ==>
              r.payload.Message? && Carries(r.payload.text, UnexpectedPrefix, o.error.detail)
  {
    match o
    case Returned(v) => Reply(OkCode, Data(v))
    case Raised(e) => Reply(FailureCode, Message(ErrorPrefix(e) + e.detail))
  }

  /**
   * The shape shared by `session_execute_cmd`, `session_get_pwd` and
   * `session_list_dir`: look the session up; on a miss answer -400 without
   * calling the transport, otherwise call it once on the stored profile.
   */
  function CallSession<T>(store: SessionStore, id: Uuid, call: SessionInfo -> Outcome<T>): (r: Reply<T>)
    reads store
    ensures id !in store.sessions ==> r == NotFound()
    ensures id in store.sessions ==> r == ReplyTo(call(store.sessions[id]))
    ensures r.code == NotFoundCode <==> id !in store.sessions
  {
    match store.GetSessionInfoById(id)
    case None => NotFound()
    case Some(info) => ReplyTo(call(info))
  }

  /** `session_execute_cmd`: runs `cmd` through the stored session. */
  function SessionExecuteCmd(store: SessionStore, id: Uuid, cmd: string,
                             executeCmd: (SessionInfo, string) -> Outcome<string>): (r: Reply<string>)
    reads store
    ensures id !in store.sessions ==> r == NotFound()
    ensures r.code == OkCode <==> id in store.sessions && executeCmd(store.sessions[id], cmd).Returned?
    ensures r.code == OkCode ==> r.payload == Data(executeCmd(store.sessions[id], cmd).value)
    ensures r.code == FailureCode <==> id in store.sessions && executeCmd(store.sessions[id], cmd).Raised?
    ensures r.code == FailureCode ==>
              r.payload == Message(ErrorPrefix(executeCmd(store.sessions[id], cmd).error) + executeCmd(store.sessions[id], cmd).error.detail)
  {
    CallSession(store, id, info => executeCmd(info, cmd))
  }

  /** `session_get_pwd`: asks the stored session for its working directory. */
  function SessionGetPwd(store: SessionStore, id: Uuid,
                         getPwd: SessionInfo -> Outcome<string>): (r: Reply<string>)
    reads store
    ensures id !in store.sessions ==> r == NotFound()
    ensures r.code == OkCode <==> id in store.sessions && getPwd(store.sessions[id]).Returned?
    ensures r.code == OkCode ==> r.payload == Data(getPwd(store.sessions[id]).value)
    ensures r.code == FailureCode <==> id in store.sessions && getPwd(store.sessions[id]).Raised?
    ensures r.code == FailureCode ==>
              r.payload == Message(ErrorPrefix(getPwd(store.sessions[id]).error) + getPwd(store.sessions[id]).error.detail)
  {
    CallSession(store, id, getPwd)
  }

  /** `session_list_dir`: lists `currentDir` through the stored session. */
  function SessionListDir<E>(store: SessionStore, id: Uuid, currentDir: string,
                             listDir: (SessionInfo, string) -> Outcome<seq<E>>): (r: Reply<seq<E>>)
    reads store
    ensures id !in store.sessions ==> r == NotFound()
    ensures r.code == OkCode <==> id in store.sessions && listDir(store.sessions[id], currentDir).Returned?
    ensures r.code == OkCode ==> r.payload == Data(listDir(store.sessions[id], currentDir).value)
    ensures r.code == FailureCode <==> id in store.sessions && listDir(store.sessions[id], currentDir).Raised?
    ensures r.code == FailureCode ==>
              r.payload == Message(ErrorPrefix(listDir(store.sessions[id], currentDir).error) + listDir(store.sessions[id], currentDir).error.detail)
  {
    CallSession(store, id, info => listDir(info, currentDir))
  }

  /**
   * `test_webshell`: probes the profile it is given (not the store). Only a
   * network error is caught, answered as -500 with the text under "data";
   * an unexpected error escapes the handler.
   */
  function TestWebshell(info: SessionInfo, testUsability: SessionInfo -> Outcome<bool>): (r: Handled<bool>)
    ensures r.Uncaught? <==> testUsability(info).Raised? && testUsability(info).error.UnexpectedError?
    ensures r.Uncaught? ==> r.error == testUsability(info).error
    ensures testUsability(info).Returned? ==> r == Replied(Reply(OkCode, Data(testUsability(info).value)))
    ensures testUsability(info).Raised? && testUsability(info).error.NetworkError? ==>
              r == Replied(Reply(FailureCode, TextData(TestNetworkPrefix + testUsability(info).error.detail)))
    ensures r.Replied? && r.reply.code != OkCode ==>
              r.reply.code == FailureCode && r.reply.payload == TextData(TestNetworkPrefix + testUsability(info).error.detail)
  {
    match testUsability(info)
    case Returned(ok) => Replied(Reply(OkCode, Data(ok)))
    case Raised(NetworkError(detail)) => Replied(Reply(FailureCode, TextData(TestNetworkPrefix + detail)))
    case Raised(e) => Uncaught(e)
  }

  /**
   * Because every profile is filed under its own id, the listing holds
   * exactly one profile per stored id.
   */
  lemma {:induction false} OneProfilePerId(m: map<Uuid, SessionInfo>)
    requires forall id :: id in m ==> m[id].sessionId == id
    ensures |m.Values| == |m.Keys|
    decreases |m.Keys|
  {
    if m != map[] {
      var k :| k in m;
      var rest := m - {k};
      OneProfilePerId(rest);
      forall v | v in m.Values ensures v in rest.Values + {m[k]} {
        var key :| key in m && m[key] == v;
        if key != k { assert key in rest && rest[key] == v; }
      }
      forall v | v in rest.Values ensures v in m.Values {
        var key :| key in rest && rest[key] == v;
        assert key in m && m[key] == v;
      }
      assert m.Values == rest.Values + {m[k]};
      assert m[k] !in rest.Values;
      assert m.Keys == rest.Keys + {k};
    }
  }

  /**
   * Upserting a profile twice under one id, then deleting it: the listing
   * holds the first profile, then only the second, and at the end the id
   * is unknown.
   */
  method UpsertReplaceDeleteScenario(a: Uuid)
  {
    var store := new SessionStore();
    var php := SessionInfo(a, "php", "target", map[]);
    var jsp := SessionInfo(a, "jsp", "target", map[]);
    var r := UpdateWebshell(store, php);
    assert store.sessions == map[a := php];
    assert store.ListSessions() == {php};
    r := UpdateWebshell(store, jsp);
    assert store.sessions == map[a := jsp];
    assert store.ListSessions() == {jsp};
    var d := DeleteSession(store, a);
    assert d == Reply(OkCode, Data(true));
    assert store.GetSessionInfoById(a) == None;
    assert GetSessions(store, Some(a)) == NotFound();
    d := DeleteSession(store, a);
    assert d == NotFound();
  }
}
