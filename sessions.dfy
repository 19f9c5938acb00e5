/**
  The MCP session table of the HTTP endpoint (src/index.ts:145-203): a map
  from session id to its Streamable HTTP transport, filled when a transport
  reports its session initialised and emptied when it closes, and the
  routing of POST, GET and DELETE requests by their `mcp-session-id` header.

  The transport itself belongs to the MCP SDK; here it is only the object
  that carries its session id.  A header that is absent and one that is the
  empty string are both falsy and are treated alike.
 */
module Sessions {
  import opened Json

  const BadRequestStatus: int := 400
  const NotFoundStatus: int := 404

  /** Where a request goes: an existing session, a new one, an error status, or a TypeError thrown by the handler. */
  datatype Route = Existing(sid: string) | NewSession | Reject(status: int) | Crash

  /** Names every plain object `{}` answers through `Object.prototype`. */
  const ObjectPrototypeMembers: set<string> := {
    "constructor", "hasOwnProperty", "isPrototypeOf", "propertyIsEnumerable",
    "toLocaleString", "toString", "valueOf", "__proto__",
    "__defineGetter__", "__defineSetter__", "__lookupGetter__", "__lookupSetter__"
  }

  /** What `transports[key]` finds in a plain object whose own keys are `known`. */
  datatype Lookup = OwnEntry | Inherited | Missing

  function JsLookup(known: set<string>, key: string): Lookup {
    if key in known then OwnEntry else if key in ObjectPrototypeMembers then Inherited else Missing
  }

  predicate HeaderFalsy(header: Option<string>) {
    header.None? || header.value == ""
  }

  /**
    POST routing as written: a truthy header whose lookup is truthy is used
    as a transport, which for an inherited member such as `toString` means
    calling `handleRequest` on a function that has none.
   */
  function PostRouteAsWritten(known: set<string>, header: Option<string>): Route {
    if !HeaderFalsy(header) && JsLookup(known, header.value) != Missing then
      if JsLookup(known, header.value) == OwnEntry then Existing(header.value) else Crash
    else if HeaderFalsy(header) then NewSession
    else Reject(BadRequestStatus)
  }

  /** GET and DELETE routing as written: the 404 check also lets inherited members through. */
  function SessionRouteAsWritten(known: set<string>, header: Option<string>): Route {
    if HeaderFalsy(header) || JsLookup(known, header.value) == Missing then Reject(NotFoundStatus)
    else if JsLookup(known, header.value) == OwnEntry then Existing(header.value)
    else Crash
  }

  /** POST routing with the lookup restricted to the table's own entries. */
  function PostRoute(known: set<string>, header: Option<string>): Route {
    if !HeaderFalsy(header) && header.value in known then Existing(header.value)
    else if HeaderFalsy(header) then NewSession
    else Reject(BadRequestStatus)
  }

  /** GET and DELETE routing with the lookup restricted to the table's own entries. */
  function SessionRoute(known: set<string>, header: Option<string>): Route {
    if HeaderFalsy(header) || header.value !in known then Reject(NotFoundStatus)
    else Existing(header.value)
  }

  /**
    With an empty table, a POST carrying the header `toString` is neither
    started as a new session nor refused with 400: the inherited method is
    taken for a transport and the handler throws.  GET does the same.
   */
  lemma PrototypeKeyIsTakenForASession()
    ensures PostRouteAsWritten({}, Some("toString")) == Crash
    ensures SessionRouteAsWritten({}, Some("toString")) == Crash
    ensures PostRoute({}, Some("toString")) == Reject(BadRequestStatus)
    ensures SessionRoute({}, Some("toString")) == Reject(NotFoundStatus)
  {
  }

  /** Away from the inherited names, the code as written routes exactly like the own-entry lookup. */
  lemma AsWrittenAgreesOffPrototype(known: set<string>, header: Option<string>)
    requires header.None? || header.value !in ObjectPrototypeMembers
    ensures PostRouteAsWritten(known, header) == PostRoute(known, header)
    ensures SessionRouteAsWritten(known, header) == SessionRoute(known, header)
  {
  }

  /**
    The corrected routing never crashes; POST and GET/DELETE find exactly the
    same sessions; a POST starts a session exactly when the header is
    missing or empty, and never for a GET or DELETE.
   */
  lemma RoutingAgrees(known: set<string>, header: Option<string>)
    ensures !PostRoute(known, header).Crash? && !SessionRoute(known, header).Crash?
    ensures PostRoute(known, header).Existing? <==> SessionRoute(known, header).Existing?
    ensures PostRoute(known, header).Existing? ==> PostRoute(known, header) == SessionRoute(known, header)
    ensures PostRoute(known, header).NewSession? <==> HeaderFalsy(header)
    ensures !SessionRoute(known, header).NewSession?
    ensures PostRoute(known, header).Existing? ==> PostRoute(known, header).sid in known
  {
  }

  // ---------------------------------------------------------------------------
  // The table's history, as a value

  datatype SessionEvent = Initialized(sid: string) | Closed(sid: string)

  function Apply(known: set<string>, e: SessionEvent): set<string> {
    match e
    case Initialized(sid) => known + {sid}
    case Closed(sid) => if sid != "" then known - {sid} else known
  }

  /** The session ids in the table after a history of events, starting empty. */
  function Known(es: seq<SessionEvent>): set<string>
    decreases |es|
  {
    if es == [] then {} else Apply(Known(es[..|es| - 1]), es[|es| - 1])
  }

  /**
    A session is in the table exactly when the last event naming it is its
    initialisation: once closed it stays gone, and a stale close of another
    session never removes it.
   */
  lemma {:induction false} LastEventDecides(es: seq<SessionEvent>, k: nat)
    requires k < |es| && es[k].sid != ""
    requires forall j :: k < j < |es| ==> es[j].sid != es[k].sid
    ensures es[k].sid in Known(es) <==> es[k].Initialized?
    decreases |es|
  {
    var last := |es| - 1;
    if k < last {
      var prefix := es[..last];
      assert forall j :: k < j < |prefix| ==> prefix[j] == es[j];
      LastEventDecides(prefix, k);
    }
  }

  /** A session id nothing ever initialised is never in the table. */
  lemma {:induction false} NeverInitialized(es: seq<SessionEvent>, sid: string)
    requires forall j :: 0 <= j < |es| ==> es[j] != Initialized(sid)
    ensures sid !in Known(es)
    decreases |es|
  {
    if es != [] {
      NeverInitialized(es[..|es| - 1], sid);
    }
  }

  // ---------------------------------------------------------------------------
  // The table itself

  /** The part of a Streamable HTTP transport the table relies on: its session id, set on initialisation. */
  class Transport {
    var sessionId: Option<string>

    constructor ()
      ensures sessionId == None
    {
      sessionId := None;
    }
  }

  class SessionTable {
    var transports: map<string, Transport>

    /** Every entry is the transport whose session id is its key, and no key is empty. */
    ghost predicate Valid()
      reads this, transports.Values
    {
      && "" !in transports
      && forall sid :: sid in transports ==> transports[sid].sessionId == Some(sid)
    }

    constructor ()
      ensures Valid() && transports == map[]
    {
      transports := map[];
    }

    /**
      `POST /mcp` (src/index.ts:147-185): an existing session's transport, a
      fresh transport with no session yet for a request without a header, or
      the 400 answer.  The lookup is the corrected own-entry one; it agrees
      with the code as written for every header that is not an
      `Object.prototype` member name.
     */
    method HandlePost(header: Option<string>) returns (route: Route, t: Transport?)
      requires Valid()
      ensures route == PostRoute(transports.Keys, header)
      ensures route.Existing? ==> t == transports[route.sid]
      ensures route.NewSession? ==> t != null && fresh(t) && t.sessionId == None
      ensures route.Reject? ==> t == null
      ensures header.None? || header.value !in ObjectPrototypeMembers ==> route == PostRouteAsWritten(transports.Keys, header)
    {
      if header.None? || header.value !in ObjectPrototypeMembers {
        AsWrittenAgreesOffPrototype(transports.Keys, header);
      }
      if !HeaderFalsy(header) && header.value in transports {
        route := Existing(header.value);
        t := transports[header.value];
      } else if HeaderFalsy(header) {
        route := NewSession;
        t := new Transport();
      } else {
        route := Reject(BadRequestStatus);
        t := null;
      }
    }

    /**
      `GET /mcp` and `DELETE /mcp` (src/index.ts:190-203): an existing
      session's transport, or 404, with the same corrected lookup as
      `HandlePost`.
     */
    method HandleSession(header: Option<string>) returns (route: Route, t: Transport?)
      requires Valid()
      ensures route == SessionRoute(transports.Keys, header)
      ensures route.Existing? ==> t == transports[route.sid] && t.sessionId == Some(route.sid)
      ensures route.Reject? ==> t == null
      ensures header.None? || header.value !in ObjectPrototypeMembers ==> route == SessionRouteAsWritten(transports.Keys, header)
    {
      if header.None? || header.value !in ObjectPrototypeMembers {
        AsWrittenAgreesOffPrototype(transports.Keys, header);
      }
      if HeaderFalsy(header) || header.value !in transports {
        route := Reject(NotFoundStatus);
        t := null;
      } else {
        route := Existing(header.value);
        t := transports[header.value];
      }
    }

    /**
      `onsessioninitialized`: the transport receives its generated id and is
      entered under it.  The id is a fresh UUID, so it is non-empty and not
      yet in the table.
     */
    method OnSessionInitialized(t: Transport, sid: string)
      requires Valid() && t.sessionId == None && sid != "" && sid !in transports
      modifies this, t
      ensures Valid()
      ensures transports == old(transports)[sid := t] && t.sessionId == Some(sid)
      ensures transports.Keys == Apply(old(transports.Keys), Initialized(sid))
    {
      t.sessionId := Some(sid);
      transports := transports[sid := t];
    }

    /**
      `onclose`: a transport with a truthy session id removes the entry under
      that id, which is the transport itself; every other session stays.
     */
    method OnClose(t: Transport)
      requires Valid()
      modifies this
      ensures Valid()
      ensures t.sessionId.Some? ==> transports.Keys == Apply(old(transports.Keys), Closed(t.sessionId.value))
      ensures t.sessionId.None? ==> transports == old(transports)
      ensures forall sid :: sid in transports ==> sid in old(transports) && transports[sid] == old(transports)[sid]
      ensures forall sid :: sid in transports ==> transports[sid] != t
    {
      if t.sessionId.Some? && t.sessionId.value != "" {
        transports := transports - {t.sessionId.value};
      }
    }
  }
}
