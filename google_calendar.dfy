/** The Google Calendar service (shared/google_calendar.py): the event body
    built by `create_event`, the field merge of `update_event`, the conversion
    of `HttpError` into `None`/`False`, the credential-source decision of
    `_authenticate`, and the lazily built process-wide service instance.

    Time is integer seconds. The remote calendar is a map from event ids to
    events; which reply the Google API gives to a request is an input. */
module GoogleCalendar {
  import opened Common

  const HOUR: int := 3600

  /** `{'dateTime': ..., 'timeZone': ...}` of an event's start or end. */
  datatype Slot = Slot(dateTime: int, timeZone: string)

  /** A remote event: the fields the service reads or writes, plus every other
      field of the resource as opaque `extras`. */
  datatype RemoteEvent = RemoteEvent(
    summary: Option<string>,
    description: Option<string>,
    start: Slot,
    end: Slot,
    extras: map<string, string>)

  // ---------------------------------------------------------------------------
  // create_event and update_event as functions on event records
  // ---------------------------------------------------------------------------

  /** The body `create_event` inserts. `now` is the clock reading of `utcnow()`. */
  function NewEventBody(title: Option<string>, description: Option<string>,
                        start: Option<int>, end: Option<int>, timezone: string, now: int): (r: RemoteEvent)
    ensures r.summary == title
    // `description or ''`
    ensures r.description == Some(if Truthy(description) then description.value else "")
    // a missing start defaults to now, a missing end to one hour after the start
    ensures start.Some? ==> r.start.dateTime == start.value
    ensures start.None? ==> r.start.dateTime == now
    ensures end.Some? ==> r.end.dateTime == end.value
    ensures end.None? ==> r.end.dateTime - r.start.dateTime == HOUR
    // both ends carry the same time zone
    ensures r.start.timeZone == timezone && r.end.timeZone == timezone
    ensures r.extras == map[]
  {
    var from := if start.Some? then start.value else now;
    var to := if end.Some? then end.value else from + HOUR;
    RemoteEvent(title, Some(Or(description, "")), Slot(from, timezone), Slot(to, timezone), map[])
  }

  /** The event `update_event` writes back after fetching `ev`. */
  function Merge(ev: RemoteEvent, title: Option<string>, description: Option<string>,
                 start: Option<int>, end: Option<int>): (r: RemoteEvent)
    // the title only when truthy
    ensures Truthy(title) ==> r.summary == title
    ensures !Truthy(title) ==> r.summary == ev.summary
    // the description whenever given, so "" clears it
    ensures description.Some? ==> r.description == description
    ensures description.None? ==> r.description == ev.description
    // the date-times when given; time zones are never touched
    ensures r.start.dateTime == (if start.Some? then start.value else ev.start.dateTime)
    ensures r.end.dateTime == (if end.Some? then end.value else ev.end.dateTime)
    ensures r.start.timeZone == ev.start.timeZone && r.end.timeZone == ev.end.timeZone
    // all other fields come back unchanged
    ensures r.extras == ev.extras
  {
    RemoteEvent(
      if Truthy(title) then title else ev.summary,
      if description.Some? then description else ev.description,
      if start.Some? then ev.start.(dateTime := start.value) else ev.start,
      if end.Some? then ev.end.(dateTime := end.value) else ev.end,
      ev.extras)
  }

  /** Merging the same update twice changes nothing more. */
  lemma MergeIdempotent(ev: RemoteEvent, title: Option<string>, description: Option<string>,
                        start: Option<int>, end: Option<int>)
    ensures var once := Merge(ev, title, description, start, end);
            Merge(once, title, description, start, end) == once
  {
  }

  /** An update that supplies nothing (or only an empty title) writes the
      fetched event back as it was. */
  lemma MergeNothingIsIdentity(ev: RemoteEvent, title: Option<string>)
    requires !Truthy(title)
    ensures Merge(ev, title, None, None, None) == ev
  {
  }

  /** The remote calendar after `update_event`. */
  function AfterUpdate(events: map<string, RemoteEvent>, eventId: string,
                       title: Option<string>, description: Option<string>, start: Option<int>, end: Option<int>,
                       fetch: Reply<()>, write: Reply<()>): map<string, RemoteEvent>
  {
    if fetch.Answer? && eventId in events && write.Answer? then
      events[eventId := Merge(events[eventId], title, description, start, end)]
    else events
  }

  /** The remote calendar after `delete_event`. */
  function AfterDelete(events: map<string, RemoteEvent>, eventId: string, reply: Reply<()>): map<string, RemoteEvent>
  {
    if reply.Answer? then events - {eventId} else events
  }

  // ---------------------------------------------------------------------------
  // _authenticate: where the credential comes from
  // ---------------------------------------------------------------------------

  /** The three properties of a credential the code consults. */
  datatype Creds = Creds(valid: bool, expired: bool, refreshToken: bool)

  /** `GOOGLE_TOKEN_B64`: unset (or empty), set but not decodable, or a decoded credential. */
  datatype TokenVar = TokenUnset | TokenGarbled | TokenBlob(creds: Creds)

  /** `GOOGLE_CREDENTIALS_B64`: unset (or empty); set but not decodable or
      rejected by `from_client_secrets_file` (both inside the `try` that
      turns any failure into RuntimeError); or a usable registration. */
  datatype ClientVar = ClientUnset | ClientGarbled | ClientReadable

  /** `token_file`: absent, present but not loadable (`pickle.load` raises), or
      holding a credential. */
  datatype TokenFile = NoTokenFile | TokenFileUnreadable | TokenStored(creds: Creds)

  /** `credentials_file`: absent, present but rejected by
      `from_client_secrets_file`, or a usable client registration. */
  datatype ClientFile = NoClientFile | ClientFileMalformed | ClientFileUsable

  /** The process environment and files as `_authenticate` sees them. */
  datatype AuthEnv = AuthEnv(tokenVar: TokenVar, tokenFile: TokenFile, clientVar: ClientVar, clientFile: ClientFile)

  datatype CredPath = UsedLoaded | Refreshed | InteractiveFromEnv | InteractiveFromFile

  /** The end of `_authenticate`: the credential used, the path that produced
      it and what was written to `token_file` (`None`: the file was not
      rewritten); or the exception raised. `OtherException` is what an
      unloadable token file or a rejected client file raises. */
  datatype AuthResult =
    | Authorized(creds: Creds, path: CredPath, written: Option<Creds>)
    | RuntimeError
    | FileNotFoundError
    | OtherException   // raised by reading one of the files, outside any try

  /** The credential loaded before any refresh or login. A set token variable
      is used alone: when it does not decode, the token file is not consulted. */
  function LoadedCreds(env: AuthEnv): (c: Option<Creds>)
    // a decoded token variable wins; an undecodable one yields nothing
    ensures env.tokenVar.TokenBlob? ==> c == Some(env.tokenVar.creds)
    ensures env.tokenVar.TokenGarbled? ==> c.None?
    // only without a token variable is the token file read
    ensures env.tokenVar.TokenUnset? ==> (c.Some? <==> env.tokenFile.TokenStored?)
    ensures env.tokenVar.TokenUnset? && c.Some? ==> c.value == env.tokenFile.creds
  {
    match env.tokenVar
    case TokenBlob(c) => Some(c)
    case TokenGarbled => None
    case TokenUnset => if env.tokenFile.TokenStored? then Some(env.tokenFile.creds) else None
  }

  /** The token file is consulted (no token variable is set) and cannot be
      loaded: `_authenticate` raises before any decision. */
  predicate TokenFileFails(env: AuthEnv)
  {
    env.tokenVar.TokenUnset? && env.tokenFile.TokenFileUnreadable?
  }

  predicate CanRefresh(c: Option<Creds>)
  {
    c.Some? && !c.value.valid && c.value.expired && c.value.refreshToken
  }

  /** No usable credential was loaded and none can be refreshed: a login is needed. */
  predicate NeedsLogin(env: AuthEnv)
  {
    var c := LoadedCreds(env);
    !TokenFileFails(env) && (c.None? || !c.value.valid) && !CanRefresh(c)
  }

  /** The credential-source decision. `granted` is what the interactive
      consent flow would produce. */
  function AuthDecision(env: AuthEnv, granted: Creds): (r: AuthResult)
    // a valid loaded credential is used as it is and not saved again
    // an unloadable token file raises before anything else
    ensures TokenFileFails(env) ==> r == OtherException
    ensures (r.Authorized? && r.path == UsedLoaded) <==> (LoadedCreds(env).Some? && LoadedCreds(env).value.valid)
    ensures r.Authorized? && r.path == UsedLoaded ==> r.creds == LoadedCreds(env).value
    // an invalid, expired credential with a refresh token is refreshed, never replaced by a login
    ensures (r.Authorized? && r.path == Refreshed) <==> CanRefresh(LoadedCreds(env))
    ensures r.Authorized? && r.path == Refreshed ==>
              r.creds == LoadedCreds(env).value.(valid := true, expired := false)
    // otherwise the client registration comes from the variable, then from the file
    ensures r == RuntimeError <==> NeedsLogin(env) && env.clientVar.ClientGarbled?
    ensures (r.Authorized? && r.path == InteractiveFromEnv) <==> NeedsLogin(env) && env.clientVar.ClientReadable?
    ensures (r.Authorized? && r.path == InteractiveFromFile) <==>
              NeedsLogin(env) && env.clientVar.ClientUnset? && env.clientFile.ClientFileUsable?
    ensures r == FileNotFoundError <==> NeedsLogin(env) && env.clientVar.ClientUnset? && env.clientFile.NoClientFile?
    ensures r == OtherException <==>
              TokenFileFails(env) || (NeedsLogin(env) && env.clientVar.ClientUnset? && env.clientFile.ClientFileMalformed?)
    ensures r.Authorized? && (r.path == InteractiveFromEnv || r.path == InteractiveFromFile) ==> r.creds == granted
    // the token file is rewritten exactly when the credential was refreshed or newly obtained
    ensures r.Authorized? ==> (r.written.Some? <==> r.path != UsedLoaded)
    ensures r.Authorized? && r.written.Some? ==> r.written.value == r.creds
  {
    var c := LoadedCreds(env);
    if TokenFileFails(env) then OtherException
    else if c.Some? && c.value.valid then Authorized(c.value, UsedLoaded, None)
    else if CanRefresh(c) then
      var renewed := c.value.(valid := true, expired := false);
      Authorized(renewed, Refreshed, Some(renewed))
    else
      match env.clientVar
      case ClientGarbled => RuntimeError
      case ClientReadable => Authorized(granted, InteractiveFromEnv, Some(granted))
      case ClientUnset =>
        match env.clientFile
        case ClientFileUsable => Authorized(granted, InteractiveFromFile, Some(granted))
        case ClientFileMalformed => OtherException
        case NoClientFile => FileNotFoundError
  }

  /** When the token variable is set but does not decode, the token file has
      no influence on the outcome. */
  lemma GarbledTokenIgnoresFile(env: AuthEnv, other: TokenFile, granted: Creds)
    requires env.tokenVar.TokenGarbled?
    ensures AuthDecision(env, granted) == AuthDecision(env.(tokenFile := other), granted)
    ensures AuthDecision(env, granted).Authorized? ==> AuthDecision(env, granted).path != Refreshed
  {
  }

  /** With no token, no client registration in the environment and no
      client file, authentication fails with FileNotFoundError. */
  lemma NoConfigurationFails(granted: Creds)
    ensures AuthDecision(AuthEnv(TokenUnset, NoTokenFile, ClientUnset, NoClientFile), granted) == FileNotFoundError
  {
  }

  /** `_authenticate`, step by step over the local `creds`. */
  method Authenticate(env: AuthEnv, granted: Creds) returns (r: AuthResult)
    ensures r == AuthDecision(env, granted)
  {
    var creds: Option<Creds> := None;
    match env.tokenVar {
      case TokenBlob(c) =>
        creds := Some(c);
      case TokenGarbled =>
        creds := None;
      case TokenUnset =>
        match env.tokenFile {
          case TokenStored(c) =>
            creds := Some(c);
          case TokenFileUnreadable =>
            return OtherException;
          case NoTokenFile =>
        }
    }
    if creds.Some? && creds.value.valid {
      return Authorized(creds.value, UsedLoaded, None);
    }
    var path: CredPath;
    if creds.Some? && creds.value.expired && creds.value.refreshToken {
      creds := Some(creds.value.(valid := true, expired := false));
      path := Refreshed;
    } else {
      if env.clientVar.ClientGarbled? {
        return RuntimeError;
      } else if env.clientVar.ClientReadable? {
        path := InteractiveFromEnv;
      } else if env.clientFile.ClientFileUsable? {
        path := InteractiveFromFile;
      } else if env.clientFile.ClientFileMalformed? {
        return OtherException;
      } else {
        return FileNotFoundError;
      }
      creds := Some(granted);
    }
    // the credential is saved to the token file
    r := Authorized(creds.value, path, Some(creds.value));
  }

  // ---------------------------------------------------------------------------
  // The remote calendar and the service
  // ---------------------------------------------------------------------------

  /** The user's primary Google calendar. `issued` records every id an insert
      has returned. */
  class Calendar {
    var events: map<string, RemoteEvent>
    ghost var issued: set<string>

    constructor (events: map<string, RemoteEvent>)
      ensures this.events == events && issued == {}
    {
      this.events := events;
      issued := {};
    }
  }

  /** `GoogleCalendarService` once authenticated. */
  class CalendarService {
    const calendar: Calendar
    const creds: Creds

    constructor (calendar: Calendar, creds: Creds)
      ensures this.calendar == calendar && this.creds == creds
    {
      this.calendar := calendar;
      this.creds := creds;
    }

    /** `create_event`: the remote id on success, `None` on HttpError. */
    method CreateEvent(title: Option<string>, description: Option<string>, start: Option<int>, end: Option<int>,
                       timezone: string, now: int, insert: Reply<string>) returns (r: Call<Option<string>>)
      modifies calendar
      ensures insert.Answer? ==> r == Returned(Some(insert.value))
      ensures insert.HttpFailure? ==> r == Returned(None)
      ensures insert.OtherFailure? ==> r == Raised
      ensures insert.Answer? ==>
                calendar.events == old(calendar.events)[insert.value := NewEventBody(title, description, start, end, timezone, now)]
                && calendar.issued == old(calendar.issued) + {insert.value}
      ensures !insert.Answer? ==> calendar.events == old(calendar.events) && calendar.issued == old(calendar.issued)
    {
      var body := NewEventBody(title, description, start, end, timezone, now);
      match insert {
        case Answer(id) =>
          calendar.events := calendar.events[id := body];
          calendar.issued := calendar.issued + {id};
          r := Returned(Some(id));
        case HttpFailure =>
          r := Returned(None);
        case OtherFailure =>
          r := Raised;
      }
    }

    /** `update_event`: fetch, merge in place, write back. `timezone` is accepted
        and not applied. A missing event is an HttpError (404) of the fetch. */
    method UpdateEvent(eventId: string, title: Option<string>, description: Option<string>,
                       start: Option<int>, end: Option<int>, timezone: string,
                       fetch: Reply<()>, write: Reply<()>) returns (r: Call<bool>)
      modifies calendar
      ensures r == Returned(true) <==> fetch.Answer? && eventId in old(calendar.events) && write.Answer?
      ensures r == Raised <==>
                fetch.OtherFailure? || (fetch.Answer? && eventId in old(calendar.events) && write.OtherFailure?)
      ensures calendar.events == AfterUpdate(old(calendar.events), eventId, title, description, start, end, fetch, write)
      ensures calendar.issued == old(calendar.issued)
    {
      if fetch.OtherFailure? {
        return Raised;
      }
      if fetch.HttpFailure? || eventId !in calendar.events {
        return Returned(false);
      }
      var event := calendar.events[eventId];
      if Truthy(title) {
        event := event.(summary := title);
      }
      if description.Some? {
        event := event.(description := description);
      }
      if start.Some? {
        event := event.(start := event.start.(dateTime := start.value));
      }
      if end.Some? {
        event := event.(end := event.end.(dateTime := end.value));
      }
      match write {
        case Answer(_) =>
          calendar.events := calendar.events[eventId := event];
          r := Returned(true);
        case HttpFailure =>
          r := Returned(false);
        case OtherFailure =>
          r := Raised;
      }
    }

    /** `delete_event`: `True` on success, `False` on HttpError (a missing event included). */
    method DeleteEvent(eventId: string, reply: Reply<()>) returns (r: Call<bool>)
      modifies calendar
      ensures r == Returned(true) <==> reply.Answer? && eventId in old(calendar.events)
      ensures r == Raised <==> reply.OtherFailure?
      ensures calendar.events == AfterDelete(old(calendar.events), eventId, reply)
      ensures eventId !in calendar.events <==> reply.Answer? || eventId !in old(calendar.events)
      ensures calendar.issued == old(calendar.issued)
    {
      match reply {
        case Answer(_) =>
          r := Returned(eventId in calendar.events);
          calendar.events := calendar.events - {eventId};
        case HttpFailure =>
          r := Returned(false);
        case OtherFailure =>
          r := Raised;
      }
    }

    /** `get_event`: the event, or `None` on HttpError (a missing event included). */
    method GetEvent(eventId: string, fetch: Reply<()>) returns (r: Call<Option<RemoteEvent>>)
      ensures r.Raised? <==> fetch.OtherFailure?
      ensures r.Returned? && r.value.Some? <==> fetch.Answer? && eventId in calendar.events
      ensures r.Returned? && r.value.Some? ==> r.value.value == calendar.events[eventId]
    {
      match fetch {
        case Answer(_) =>
          r := Returned(if eventId in calendar.events then Some(calendar.events[eventId]) else None);
        case HttpFailure =>
          r := Returned(None);
        case OtherFailure =>
          r := Raised;
      }
    }
  }

  /** The module global `_calendar_service` behind `get_calendar_service`.
      `built` counts the services ever constructed. */
  class Registry {
    const calendar: Calendar
    var instance: CalendarService?
    ghost var built: nat

    ghost predicate Valid()
      reads this
    {
      built <= 1
      && (instance == null <==> built == 0)
      && (instance != null ==> instance.calendar == calendar)
    }

    constructor (calendar: Calendar)
      ensures Valid() && this.calendar == calendar && instance == null
    {
      this.calendar := calendar;
      instance := null;
      built := 0;
    }

    /** `get_calendar_service()`: builds the service on the first successful
        call and returns that same instance on every later call. A failing
        construction raises and leaves the global unset. */
    method GetCalendarService(env: AuthEnv, granted: Creds) returns (r: Call<CalendarService>)
      requires Valid()
      modifies this
      ensures Valid()
      ensures r.Returned? ==> instance == r.value && r.value.calendar == calendar
      ensures old(instance) != null ==> r == Returned(old(instance)) && built == old(built)
      ensures old(instance) == null ==> (r.Returned? <==> AuthDecision(env, granted).Authorized?)
      ensures old(instance) == null && r.Returned? ==>
                fresh(r.value) && r.value.creds == AuthDecision(env, granted).creds
      ensures r.Raised? ==> instance == null
    {
      if instance == null {
        var auth := Authenticate(env, granted);
        if !auth.Authorized? {
          return Raised;
        }
        instance := new CalendarService(calendar, auth.creds);
        built := built + 1;
      }
      r := Returned(instance);
    }
  }
}
