/** The profile procedures of the API: `overview` assembles the signed-in
    user's overview from the fixture and the user's circles, `register`
    validates a sign-up and writes it to the user table, and
    `creatorByHandle` looks a creator profile up by handle.

    The database is a parameter: for `overview` the user table keyed by id
    (each user carrying its circles with their tasks and sessions), for
    `register` the user table keyed by email. zod's e-mail, UUID and
    date-time tests are predicate parameters, and the bcrypt hash of the
    password and the id the database gives a new user are plain parameters.
    Dates are carried as their ISO text. */
module ProfileRouter {
  import opened Wrappers
  import opened JsText
  import opened ProfileDomain
  import CreatorFixtures

  /** The tRPC error codes the procedures raise; `BadRequest` is an input
      that fails its zod schema, `InternalServerError` a result that fails
      its output schema. */
  datatype TrpcError = BadRequest | NotFound | Conflict | InternalServerError

  // ---------------------------------------------------------------------
  // overview
  // ---------------------------------------------------------------------

  datatype TaskRecord = TaskRecord(id: string, title: string, etaMinutes: int, status: string)

  datatype SessionRecord = SessionRecord(id: string, topic: string, scheduledFor: string)

  datatype CircleRecord = CircleRecord(
    id: string, name: string, cadence: string, members: int,
    companionTasks: seq<TaskRecord>, sessions: seq<SessionRecord>)

  /** A user row with its circles included; `None` is a null column. */
  datatype UserRecord = UserRecord(
    id: string, name: Option<string>, handle: Option<string>, image: Option<string>,
    birthdate: Option<string>, circles: seq<CircleRecord>)

  /** `xs.flatMap(f)` */
  function FlatMap<A, B(!new)>(xs: seq<A>, f: A -> seq<B>): (r: seq<B>)
    ensures forall y :: y in r <==> exists i :: 0 <= i < |xs| && y in f(xs[i])
  {
    if xs == [] then []
    else
      var rest := FlatMap(xs[1..], f);
      assert forall i :: 1 <= i < |xs| ==> xs[i] == xs[1..][i - 1];
      f(xs[0]) + rest
  }

  /** Flattening is compatible with concatenation, so items keep the order
      of their circles and, within a circle, their own order. */
  lemma {:induction false} FlatMapAppend<A, B(!new)>(xs: seq<A>, ys: seq<A>, f: A -> seq<B>)
    ensures FlatMap(xs + ys, f) == FlatMap(xs, f) + FlatMap(ys, f)
  {
    if xs != [] {
      assert (xs + ys)[1..] == xs[1..] + ys;
      FlatMapAppend(xs[1..], ys, f);
    } else {
      assert xs + ys == ys;
    }
  }

  function AllTasks(circles: seq<CircleRecord>): seq<TaskRecord> {
    FlatMap(circles, (c: CircleRecord) => c.companionTasks)
  }

  function AllSessions(circles: seq<CircleRecord>): seq<SessionRecord> {
    FlatMap(circles, (c: CircleRecord) => c.sessions)
  }

  /** `xs.slice(0, n)` */
  function Take<T>(xs: seq<T>, n: nat): (r: seq<T>)
    ensures |r| == if |xs| < n then |xs| else n
    ensures r <= xs
  {
    if |xs| < n then xs else xs[..n]
  }

  /** A circle as the overview lists it. */
  function CircleSummary(c: CircleRecord): ProfileCircleSummary {
    ProfileCircleSummary(c.id, c.name, c.cadence, c.members, "Active")
  }

  /** A task as the overview lists it: the eta in minutes and the status
      with its first underscore turned into a space. */
  function FocusTask(t: TaskRecord): ProfileTask {
    ProfileTask(t.id, t.title, IntToString(t.etaMinutes) + " min", ReplaceFirst(t.status, '_', ' '))
  }

  function AgendaItem(s: SessionRecord): ProfileAgendaItem {
    ProfileAgendaItem(s.id, s.topic, s.scheduledFor)
  }

  function Map<A, B>(xs: seq<A>, f: A -> B): (r: seq<B>)
    ensures |r| == |xs| && forall i :: 0 <= i < |xs| ==> r[i] == f(xs[i])
  {
    seq(|xs|, i requires 0 <= i < |xs| => f(xs[i]))
  }

  /** The overview built on `base` for `user`, field by field: what the
      procedure returns when `base` is the fixture. */
  function OverviewFrom(base: ProfileOverview, user: UserRecord): ProfileOverview {
    var tasks := AllTasks(user.circles);
    var sessions := AllSessions(user.circles);
    base.(
      id := user.id,
      name := user.name.GetOr(base.name),
      handle := user.handle.GetOr(base.handle),
      avatarUrl := if user.image.Some? then user.image else base.avatarUrl,
      birthdate := user.birthdate,
      circles := Map(user.circles, CircleSummary),
      companionFocus := if tasks == [] then base.companionFocus else Map(Take(tasks, 3), FocusTask),
      agenda := if sessions == [] then base.agenda else Map(Take(sessions, 3), AgendaItem),
      stats := [ProfileStat("Active circles", IntToString(|user.circles|)),
                ProfileStat("Companion tasks", IntToString(|tasks|))])
  }

  /** The `overview` procedure: a malformed id is refused, an unknown one
      is NOT_FOUND, and otherwise the fixture is copied and overwritten one
      field at a time. */
  method Overview(users: map<string, UserRecord>, userId: string, isUuid: string -> bool)
    returns (r: Result<ProfileOverview, TrpcError>)
    ensures !isUuid(userId) ==> r == Failure(BadRequest)
    ensures isUuid(userId) && userId !in users ==> r == Failure(NotFound)
    ensures isUuid(userId) && userId in users ==> r == Success(OverviewFrom(CreatorFixtures.ProfileOverviewMock, users[userId]))
  {
    if !isUuid(userId) {
      return Failure(BadRequest);
    }
    if userId !in users {
      return Failure(NotFound);
    }
    var user := users[userId];
    var base := CreatorFixtures.ProfileOverviewMock;
    base := base.(id := user.id);
    base := base.(name := user.name.GetOr(base.name));
    base := base.(handle := user.handle.GetOr(base.handle));
    base := base.(avatarUrl := if user.image.Some? then user.image else base.avatarUrl);
    base := base.(birthdate := user.birthdate);
    var circles := user.circles;
    base := base.(circles := Map(circles, CircleSummary));
    var allTasks := AllTasks(circles);
    var taskFocus := Map(Take(allTasks, 3), FocusTask);
    if |taskFocus| > 0 {
      base := base.(companionFocus := taskFocus);
    }
    var allSessions := AllSessions(circles);
    var agendaItems := Map(Take(allSessions, 3), AgendaItem);
    if |agendaItems| > 0 {
      base := base.(agenda := agendaItems);
    }
    base := base.(stats := [ProfileStat("Active circles", IntToString(|circles|)),
                            ProfileStat("Companion tasks", IntToString(|allTasks|))]);
    return Success(base);
  }

  /** The user's id and birthdate always win; name, handle and avatar fall
      back to the base only when the user's column is null; headline,
      location, availability, expertise, highlights and the followed
      creators are the base's. */
  lemma OverviewIdentity(base: ProfileOverview, user: UserRecord)
    ensures var o := OverviewFrom(base, user);
      && o.id == user.id && o.birthdate == user.birthdate
      && (user.name.Some? ==> o.name == user.name.value) && (user.name.None? ==> o.name == base.name)
      && (user.handle.Some? ==> o.handle == user.handle.value) && (user.handle.None? ==> o.handle == base.handle)
      && (user.image.Some? ==> o.avatarUrl == user.image) && (user.image.None? ==> o.avatarUrl == base.avatarUrl)
      && o.headline == base.headline && o.location == base.location && o.availability == base.availability
      && o.expertise == base.expertise && o.highlights == base.highlights && o.following == base.following
  {
  }

  /** One listed circle per user circle, in order, each with the circle's
      id, name, cadence and member count and the status "Active". */
  lemma OverviewCircles(base: ProfileOverview, user: UserRecord)
    ensures var o := OverviewFrom(base, user);
      && |o.circles| == |user.circles|
      && forall i :: 0 <= i < |user.circles| ==>
           var c := user.circles[i];
           o.circles[i].id == c.id && o.circles[i].name == c.name && o.circles[i].cadence == c.cadence
           && o.circles[i].members == c.members && o.circles[i].status == "Active"
  {
  }

  /** The companion focus is the first three tasks across all circles, in
      circle order (fewer if there are fewer); with no task at all the
      base's list stays. */
  lemma OverviewFocus(base: ProfileOverview, user: UserRecord)
    ensures var o := OverviewFrom(base, user);
      var tasks := AllTasks(user.circles);
      && (tasks == [] ==> o.companionFocus == base.companionFocus)
      && (tasks != [] ==>
           && 1 <= |o.companionFocus| <= 3
           && |o.companionFocus| == (if |tasks| < 3 then |tasks| else 3)
           && forall i :: 0 <= i < |o.companionFocus| ==> o.companionFocus[i] == FocusTask(tasks[i]))
  {
  }

  /** A focus entry's eta reads back as the task's minutes (`parseInt`
      stops at the space before "min"), and its status has one underscore
      fewer than the stored one, if it had any. */
  lemma FocusTaskReadsBack(t: TaskRecord)
    ensures ParseInt(FocusTask(t).eta) == Some(t.etaMinutes)
    ensures Count(FocusTask(t).status, '_') == if Count(t.status, '_') == 0 then 0 else Count(t.status, '_') - 1
    ensures |FocusTask(t).status| == |t.status|
  {
    ParseIntOfPrinted(t.etaMinutes, " min");
    ReplaceFirstCount(t.status, '_', ' ');
  }

  /** The status shown is the stored one with its first underscore, and
      only that one, turned into a space: `IN_PROGRESS` shows as `IN PROGRESS`. */
  lemma FocusStatusReplacesFirst(t: TaskRecord, before: string, after: string)
    requires '_' !in before && t.status == before + ['_'] + after
    ensures FocusTask(t).status == before + [' '] + after
  {
    ReplaceFirstAfter(before, after, '_', ' ');
  }

  /** The agenda is the first three sessions across all circles, in circle
      order; with no session at all the base's agenda stays. */
  lemma OverviewAgenda(base: ProfileOverview, user: UserRecord)
    ensures var o := OverviewFrom(base, user);
      var sessions := AllSessions(user.circles);
      && (sessions == [] ==> o.agenda == base.agenda)
      && (sessions != [] ==>
           && |o.agenda| == (if |sessions| < 3 then |sessions| else 3)
           && forall i :: 0 <= i < |o.agenda| ==>
                o.agenda[i].id == sessions[i].id && o.agenda[i].title == sessions[i].topic
                && o.agenda[i].time == sessions[i].scheduledFor)
  {
  }

  /** There are always exactly two stats, and their values read back as
      the number of circles and the number of tasks over all circles. */
  lemma OverviewStats(base: ProfileOverview, user: UserRecord)
    ensures var o := OverviewFrom(base, user);
      && |o.stats| == 2
      && o.stats[0].caption == "Active circles" && ParseInt(o.stats[0].value) == Some(|user.circles|)
      && o.stats[1].caption == "Companion tasks" && ParseInt(o.stats[1].value) == Some(|AllTasks(user.circles)|)
  {
    ParseIntRoundTrip(|user.circles|);
    ParseIntRoundTrip(|AllTasks(user.circles)|);
  }

  // ---------------------------------------------------------------------
  // register
  // ---------------------------------------------------------------------

  datatype RegisterRequest = RegisterRequest(
    email: string, firstName: string, lastName: string, handle: string, password: string,
    birthdate: Option<string>, headline: Option<string>)

  /** A user row as `register` reads and writes it; `None` is a null column. */
  datatype UserRow = UserRow(
    id: string, email: string, name: Option<string>, handle: Option<string>,
    birthdate: Option<string>, bio: Option<string>, image: Option<string>, passwordHash: Option<string>)

  /** The users with an e-mail address, keyed by it. */
  type UsersByEmail = map<string, UserRow>

  /** `/^[a-z0-9-_]+$/i`: ASCII letters of either case, digits, dash and underscore. */
  predicate HandleChar(c: char) {
    ('a' <= c <= 'z') || ('A' <= c <= 'Z') || ('0' <= c <= '9') || c == '-' || c == '_'
  }

  /** The `register` input schema. */
  predicate ValidRegisterInput(req: RegisterRequest, isEmail: string -> bool, isDatetime: string -> bool) {
    && isEmail(req.email)
    && |req.firstName| >= 1 && |req.lastName| >= 1
    && |req.handle| >= 3 && (forall i :: 0 <= i < |req.handle| ==> HandleChar(req.handle[i]))
    && 8 <= |req.password| <= 100
    && (req.birthdate.Some? ==> isDatetime(req.birthdate.value))
    && (req.headline.Some? ==> |req.headline.value| <= 160)
  }

  /** `${firstName.trim()} ${lastName.trim()}`.trim() */
  function FullName(firstName: string, lastName: string): string {
    Trim(Trim(firstName) + " " + Trim(lastName))
  }

  /** With both names non-blank the full name is the two trimmed names
      joined by one space; the outer trim then removes nothing. */
  lemma FullNameJoins(firstName: string, lastName: string)
    requires Trim(firstName) != [] && Trim(lastName) != []
    ensures FullName(firstName, lastName) == Trim(firstName) + " " + Trim(lastName)
  {
    var s := Trim(firstName) + " " + Trim(lastName);
    assert s[0] == Trim(firstName)[0] && s[|s| - 1] == Trim(lastName)[|Trim(lastName)| - 1];
    TrimOfTrimmed(s);
  }

  /** A last name of nothing but white space (which the schema lets
      through) leaves the trimmed first name alone, without a trailing space. */
  lemma FullNameBlankLast(firstName: string, lastName: string)
    requires Trim(lastName) == []
    ensures FullName(firstName, lastName) == Trim(firstName)
  {
    assert Trim(firstName) + " " + Trim(lastName) == Trim(firstName) + " ";
    TrimAppendedSpace(Trim(firstName));
  }

  /** Some user other than the one with this e-mail already holds the handle
      (`findFirst` with `handle` equal and `email` not equal). */
  predicate HandleTaken(users: UsersByEmail, email: string, handle: string) {
    exists e :: e in users && e != email && users[e].handle == Some(handle)
  }

  /** The row the upsert leaves under the request's e-mail: the existing
      row with the new fields, or a fresh row without an image. */
  function UpsertedRow(users: UsersByEmail, req: RegisterRequest, passwordHash: string, newId: string): UserRow {
    var name := FullName(req.firstName, req.lastName);
    if req.email in users then
      users[req.email].(name := Some(name), handle := Some(req.handle), birthdate := req.birthdate,
                        bio := req.headline, passwordHash := Some(passwordHash))
    else
      UserRow(newId, req.email, Some(name), Some(req.handle), req.birthdate, req.headline, None, Some(passwordHash))
  }

  /** The `register` procedure: the new state of the user table and the
      user's id. `passwordHash` is bcrypt's hash of the password and `newId`
      the id the database assigns when it creates the row. */
  function Register(users: UsersByEmail, req: RegisterRequest, isEmail: string -> bool, isDatetime: string -> bool,
                    passwordHash: string, newId: string): (r: Result<(UsersByEmail, string), TrpcError>)
    ensures r == Failure(BadRequest) <==> !ValidRegisterInput(req, isEmail, isDatetime)
    ensures r == Failure(Conflict) <==> ValidRegisterInput(req, isEmail, isDatetime) && HandleTaken(users, req.email, req.handle)
    ensures r.Success? || r == Failure(BadRequest) || r == Failure(Conflict)
  {
    if !ValidRegisterInput(req, isEmail, isDatetime) then Failure(BadRequest)
    else if HandleTaken(users, req.email, req.handle) then Failure(Conflict)
    else
      var row := UpsertedRow(users, req, passwordHash, newId);
      Success((users[req.email := row], row.id))
  }

  /** After a successful registration the e-mail's row carries the new
      name, handle, birthdate, bio and hash; an existing row keeps its id
      and image, a created one gets the new id and no image; the returned
      id is the row's. */
  lemma RegisterWrites(users: UsersByEmail, req: RegisterRequest, isEmail: string -> bool, isDatetime: string -> bool,
                       passwordHash: string, newId: string)
    requires Register(users, req, isEmail, isDatetime, passwordHash, newId).Success?
    ensures var (after, userId) := Register(users, req, isEmail, isDatetime, passwordHash, newId).value;
      && req.email in after
      && var row := after[req.email];
      && row.name == Some(FullName(req.firstName, req.lastName)) && row.handle == Some(req.handle)
      && row.birthdate == req.birthdate && row.bio == req.headline && row.passwordHash == Some(passwordHash)
      && userId == row.id
      && (req.email in users ==> row.id == users[req.email].id && row.image == users[req.email].image)
      && (req.email !in users ==> row.id == newId && row.image == None && row.email == req.email)
  {
  }

  /** A successful registration adds at most the one e-mail, leaves every
      other row untouched, and afterwards no other row holds the handle. */
  lemma RegisterKeepsOthers(users: UsersByEmail, req: RegisterRequest, isEmail: string -> bool, isDatetime: string -> bool,
                            passwordHash: string, newId: string)
    requires Register(users, req, isEmail, isDatetime, passwordHash, newId).Success?
    ensures var after := Register(users, req, isEmail, isDatetime, passwordHash, newId).value.0;
      && after.Keys == users.Keys + {req.email}
      && (forall e :: e in users && e != req.email ==> after[e] == users[e])
      && (forall e :: e in after && after[e].handle == Some(req.handle) ==> e == req.email)
  {
    var row := UpsertedRow(users, req, passwordHash, newId);
    assert !HandleTaken(users, req.email, req.handle);
    UpdateKeepsOthers(users, req.email, row, req.handle);
  }

  /** Writing `row` under `email` into a table where no other e-mail holds
      `handle` leaves that handle with `email` alone. */
  lemma UpdateKeepsOthers(users: UsersByEmail, email: string, row: UserRow, handle: string)
    requires !HandleTaken(users, email, handle)
    ensures var after := users[email := row];
      && after.Keys == users.Keys + {email}
      && (forall e :: e in users && e != email ==> after[e] == users[e])
      && (forall e :: e in after && after[e].handle == Some(handle) ==> e == email)
  {
  }

  /** Registering the same request twice in a row succeeds both times and
      yields the same user id: the second call updates the row the first
      one wrote, and since bcrypt salts every hash afresh, the only change
      it makes to the table is that row's new hash. */
  lemma RegisterTwice(users: UsersByEmail, req: RegisterRequest, isEmail: string -> bool, isDatetime: string -> bool,
                      passwordHash: string, passwordHash2: string, newId: string, newId2: string)
    requires Register(users, req, isEmail, isDatetime, passwordHash, newId).Success?
    ensures var (after, userId) := Register(users, req, isEmail, isDatetime, passwordHash, newId).value;
      var again := Register(after, req, isEmail, isDatetime, passwordHash2, newId2);
      && req.email in after
      && again.Success? && again.value.1 == userId
      && again.value.0 == after[req.email := after[req.email].(passwordHash := Some(passwordHash2))]
  {
    var (after, userId) := Register(users, req, isEmail, isDatetime, passwordHash, newId).value;
    RegisterWrites(users, req, isEmail, isDatetime, passwordHash, newId);
    RegisterKeepsOthers(users, req, isEmail, isDatetime, passwordHash, newId);
    assert !HandleTaken(after, req.email, req.handle);
  }

  // ---------------------------------------------------------------------
  // creatorByHandle
  // ---------------------------------------------------------------------

  /** The `creatorByHandle` procedure: the profile stored under the handle,
      or NOT_FOUND. */
  function CreatorByHandle(profiles: map<string, CreatorProfile>, handle: string): (r: Result<CreatorProfile, TrpcError>)
    ensures r.Success? <==> handle in profiles
    ensures r.Success? ==> r.value == profiles[handle]
    ensures r.Failure? ==> r.error == NotFound
  {
    if handle in profiles then Success(profiles[handle]) else Failure(NotFound)
  }

  /** Served from a map keyed by a builder that copies the handle (as both
      fixture builders do), every profile found carries the handle it was
      asked for. */
  lemma CreatorByHandleMatches(summaries: seq<CreatorSummary>, build: (CreatorSummary, nat) -> CreatorProfile, handle: string)
    requires forall s, i :: build(s, i).handle == s.handle
    ensures var r := CreatorByHandle(ProfilesByHandle(summaries, build), handle);
      r.Success? ==> r.value.handle == handle
  {
    ProfilesKeyedByHandle(summaries, build);
  }

  /** Served from the fixture map, the first creator's handle finds the
      single-profile fixture. */
  lemma CreatorByHandleFindsFirst()
    ensures CreatorByHandle(CreatorFixtures.CreatorProfilesMock, CreatorFixtures.CreatorEntries[0].handle)
            == Success(CreatorFixtures.CreatorProfileMock())
  {
    CreatorFixtures.FirstEntryProfile();
    CreatorFixtures.CreatorProfileMockIsFirstEntry();
  }

  /** The names every plain JavaScript object inherits from `Object.prototype`. */
  const InheritedKeys: set<string> := {
    "constructor", "__proto__", "toString", "toLocaleString", "valueOf", "hasOwnProperty",
    "isPrototypeOf", "propertyIsEnumerable", "__defineGetter__", "__defineSetter__",
    "__lookupGetter__", "__lookupSetter__"
  }

  /** What `record[key]` yields on an object literal. */
  datatype Lookup<T> = Own(value: T) | Inherited | Undefined

  function PropertyOf<T>(record: map<string, T>, key: string): (v: Lookup<T>)
    ensures v.Own? <==> key in record
    ensures v.Inherited? <==> key !in record && key in InheritedKeys
  {
    if key in record then Own(record[key])
    else if key in InheritedKeys then Inherited
    else Undefined
  }

  /** `creatorByHandle` as written: an inherited member such as
      `constructor` is truthy, so it passes the `!profile` test and is
      returned, and the output schema then rejects it. */
  function CreatorByHandleAsWritten(profiles: map<string, CreatorProfile>, handle: string): (r: Result<CreatorProfile, TrpcError>)
    ensures r.Success? <==> handle in profiles
    ensures r == Failure(InternalServerError) <==> handle !in profiles && handle in InheritedKeys
  {
    match PropertyOf(profiles, handle)
    case Own(p) => Success(p)
    case Inherited => Failure(InternalServerError)
    case Undefined => Failure(NotFound)
  }

  /** Asking for the handle "constructor" on a map that does not hold it
      yields INTERNAL_SERVER_ERROR as written, where NOT_FOUND is meant. */
  lemma ConstructorHandleIsServerError(profiles: map<string, CreatorProfile>)
    requires "constructor" !in profiles
    ensures CreatorByHandleAsWritten(profiles, "constructor") == Failure(InternalServerError)
    ensures CreatorByHandle(profiles, "constructor") == Failure(NotFound)
  {
    assert "constructor" in InheritedKeys;
  }

  /** The two versions agree on every handle that is not an inherited name. */
  lemma AsWrittenAgreesElsewhere(profiles: map<string, CreatorProfile>, handle: string)
    requires handle !in InheritedKeys
    ensures CreatorByHandleAsWritten(profiles, handle) == CreatorByHandle(profiles, handle)
  {
  }
}
