/** The mapping between database rows and API objects for circles: the
    access enum in both spellings, the row-to-DTO copy, and the defaults of
    the create input. Dates are carried as their ISO text. */
module CircleSerializer {
  import opened Wrappers
  import opened JsText

  datatype CircleAccess = Open | Waitlist | Premium

  /** The API spelling of an access level. */
  function AccessName(a: CircleAccess): string {
    match a
    case Open => "open"
    case Waitlist => "waitlist"
    case Premium => "premium"
  }

  /** `prismaAccessFromDto`: the database spelling. */
  function PrismaAccessFromDto(a: CircleAccess): string {
    match a
    case Open => "OPEN"
    case Waitlist => "WAITLIST"
    case Premium => "PREMIUM"
  }

  /** A stored circle; `access` is `None` when the stored value is not a string. */
  datatype CircleRow = CircleRow(
    id: string, name: string, focusArea: string, cadence: string, access: Option<string>,
    members: int, companionTone: string, ownerId: string, createdAt: string)

  /** The circle as the API returns it; `access` is whatever the lower-casing produced. */
  datatype CircleDto = CircleDto(
    id: string, name: string, focusArea: string, cadence: string, access: string,
    members: int, companionTone: string, ownerId: string, createdAt: string)

  /** `mapCircleToDto` */
  function MapCircleToDto(row: CircleRow): (dto: CircleDto)
    ensures dto.access == ToLower(row.access.GetOr("WAITLIST"))
    ensures && dto.id == row.id && dto.name == row.name && dto.focusArea == row.focusArea
            && dto.cadence == row.cadence && dto.members == row.members
            && dto.companionTone == row.companionTone && dto.ownerId == row.ownerId
            && dto.createdAt == row.createdAt
  {
    var accessValue := row.access.GetOr("WAITLIST");
    CircleDto(row.id, row.name, row.focusArea, row.cadence, ToLower(accessValue),
              row.members, row.companionTone, row.ownerId, row.createdAt)
  }

  /** Lower-casing the database spelling gives back the API spelling. */
  lemma AccessRoundTrip(a: CircleAccess)
    ensures ToLower(PrismaAccessFromDto(a)) == AccessName(a)
  {
    match a
    case Open => ToLowerIs("OPEN", "open");
    case Waitlist => ToLowerIs("WAITLIST", "waitlist");
    case Premium => ToLowerIs("PREMIUM", "premium");
  }

  /** The database spellings are pairwise distinct, so the two spellings
      are in one-to-one correspondence. */
  lemma PrismaAccessInjective(a: CircleAccess, b: CircleAccess)
    ensures PrismaAccessFromDto(a) == PrismaAccessFromDto(b) ==> a == b
  {
  }

  /** A row stored from an API access level maps back to that level; a
      non-string access falls back to "waitlist". */
  lemma MapCircleAccess(row: CircleRow, a: CircleAccess)
    ensures row.access == Some(PrismaAccessFromDto(a)) ==> MapCircleToDto(row).access == AccessName(a)
    ensures row.access.None? ==> MapCircleToDto(row).access == "waitlist"
  {
    AccessRoundTrip(a);
  }

  /** The create request before validation: `None` marks an omitted field. */
  datatype CreateCircleRequest = CreateCircleRequest(
    name: string, focusArea: string, cadence: string, access: Option<CircleAccess>,
    members: Option<int>, companionTone: string, ownerId: string)

  datatype CreateCircleInput = CreateCircleInput(
    name: string, focusArea: string, cadence: string, access: CircleAccess,
    members: nat, companionTone: string, ownerId: string)

  datatype ValidationError = NegativeMembers | OwnerIdNotUuid

  /** `createCircleInputSchema.parse`: access defaults to waitlist, members
      to 0; members must not be negative and the owner id must be a UUID
      (`isUuid` is zod's UUID test). */
  function ParseCreateCircle(request: CreateCircleRequest, isUuid: string -> bool): (r: Result<CreateCircleInput, ValidationError>)
    ensures r.Success? <==> request.members.GetOr(0) >= 0 && isUuid(request.ownerId)
    ensures r.Success? ==>
      && r.value.access == request.access.GetOr(Waitlist)
      && r.value.members == request.members.GetOr(0)
      && r.value.name == request.name && r.value.ownerId == request.ownerId
  {
    var members := request.members.GetOr(0);
    if members < 0 then Failure(NegativeMembers)
    else if !isUuid(request.ownerId) then Failure(OwnerIdNotUuid)
    else Success(CreateCircleInput(request.name, request.focusArea, request.cadence, request.access.GetOr(Waitlist),
                                   members, request.companionTone, request.ownerId))
  }

  /** With access and members left out, the circle opens as a waitlist with no members. */
  lemma CreateCircleDefaults(request: CreateCircleRequest, isUuid: string -> bool)
    requires request.access.None? && request.members.None? && isUuid(request.ownerId)
    ensures var r := ParseCreateCircle(request, isUuid);
      r.Success? && r.value.access == Waitlist && r.value.members == 0
  {
  }
}

/** The mapping between database rows and API objects for circle sessions. */
module CircleSessionSerializer {
  import opened Wrappers
  import opened JsText

  datatype SessionStatus = Scheduled | Live | Completed | Draft

  function StatusName(s: SessionStatus): string {
    match s
    case Scheduled => "scheduled"
    case Live => "live"
    case Completed => "completed"
    case Draft => "draft"
  }

  /** `prismaCircleSessionStatusFromDto` */
  function PrismaStatusFromDto(s: SessionStatus): string {
    match s
    case Scheduled => "SCHEDULED"
    case Live => "LIVE"
    case Completed => "COMPLETED"
    case Draft => "DRAFT"
  }

  datatype SessionRow = SessionRow(
    id: string, circleId: string, scheduledFor: string, topic: string, status: string,
    hostId: string, companionSummaryId: Option<string>)

  datatype SessionDto = SessionDto(
    id: string, circleId: string, scheduledFor: string, topic: string, status: string,
    hostId: string, companionSummaryId: Option<string>)

  /** `mapCircleSessionToDto` */
  function MapCircleSessionToDto(row: SessionRow): (dto: SessionDto)
    ensures dto.status == ToLower(row.status)
    ensures && dto.id == row.id && dto.circleId == row.circleId && dto.topic == row.topic
            && dto.hostId == row.hostId && dto.companionSummaryId == row.companionSummaryId
            && dto.scheduledFor == row.scheduledFor
  {
    SessionDto(row.id, row.circleId, row.scheduledFor, row.topic, ToLower(row.status), row.hostId, row.companionSummaryId)
  }

  /** All four statuses survive the trip to the database spelling and back. */
  lemma StatusRoundTrip(row: SessionRow, s: SessionStatus)
    ensures row.status == PrismaStatusFromDto(s) ==> MapCircleSessionToDto(row).status == StatusName(s)
  {
    match s
    case Scheduled => ToLowerIs("SCHEDULED", "scheduled");
    case Live => ToLowerIs("LIVE", "live");
    case Completed => ToLowerIs("COMPLETED", "completed");
    case Draft => ToLowerIs("DRAFT", "draft");
  }

  /** The database spellings are pairwise distinct. */
  lemma PrismaStatusInjective(s: SessionStatus, t: SessionStatus)
    ensures PrismaStatusFromDto(s) == PrismaStatusFromDto(t) ==> s == t
  {
  }

  datatype CreateSessionRequest = CreateSessionRequest(circleId: string, scheduledFor: string, topic: string, hostId: string)

  /** `createCircleSessionInputSchema`: UUID ids, an ISO date-time and a
      topic of at least five characters (`isUuid` and `isDatetime` are zod's tests). */
  predicate ValidCreateSession(request: CreateSessionRequest, isUuid: string -> bool, isDatetime: string -> bool) {
    isUuid(request.circleId) && isDatetime(request.scheduledFor) && |request.topic| >= 5 && isUuid(request.hostId)
  }

  /** A topic shorter than five characters is refused whatever else holds. */
  lemma ShortTopicRefused(request: CreateSessionRequest, isUuid: string -> bool, isDatetime: string -> bool)
    requires |request.topic| < 5
    ensures !ValidCreateSession(request, isUuid, isDatetime)
  {
  }
}

/** The mapping from database rows to API objects for companion tasks. */
module CompanionTaskSerializer {
  import opened Wrappers

  datatype PrismaTaskStatus = Queued | InProgress | Ready
  datatype PrismaTaskKind = Summary | Clip | Invites | Quiz

  /** `statusMap` */
  function StatusMap(s: PrismaTaskStatus): string {
    match s
    case Queued => "queued"
    case InProgress => "in_progress"
    case Ready => "ready"
  }

  /** `kindMap` */
  function KindMap(k: PrismaTaskKind): string {
    match k
    case Summary => "summary"
    case Clip => "clip"
    case Invites => "invites"
    case Quiz => "quiz"
  }

  /** A JSON value, as the payload column may hold. */
  datatype Json =
    | JNull
    | JBool(b: bool)
    | JNumber(n: int)
    | JString(s: string)
    | JArray(items: seq<Json>)
    | JObject(fields: map<string, Json>)

  datatype TaskRow = TaskRow(
    id: string, circleId: string, title: string, kind: PrismaTaskKind,
    status: PrismaTaskStatus, etaMinutes: int, payload: Json)

  datatype TaskDto = TaskDto(
    id: string, circleId: string, title: string, kind: string,
    status: string, etaMinutes: int, payload: Json)

  /** `typeof payload === "object" && payload !== null`, which arrays also pass. */
  predicate IsObjectLike(j: Json) {
    j.JArray? || j.JObject?
  }

  /** `mapCompanionTaskToDto` */
  function MapCompanionTaskToDto(row: TaskRow): (dto: TaskDto)
    ensures dto.payload == if IsObjectLike(row.payload) then row.payload else JObject(map[])
    ensures dto.kind == KindMap(row.kind) && dto.status == StatusMap(row.status)
    ensures dto.id == row.id && dto.circleId == row.circleId && dto.title == row.title && dto.etaMinutes == row.etaMinutes
  {
    var payload := if IsObjectLike(row.payload) then row.payload else JObject(map[]);
    TaskDto(row.id, row.circleId, row.title, KindMap(row.kind), StatusMap(row.status), row.etaMinutes, payload)
  }

  /** Both maps are one-to-one, so the DTO spelling determines the stored value. */
  lemma MapsAreInjective(s: PrismaTaskStatus, t: PrismaTaskStatus, k: PrismaTaskKind, l: PrismaTaskKind)
    ensures StatusMap(s) == StatusMap(t) ==> s == t
    ensures KindMap(k) == KindMap(l) ==> k == l
  {
  }

  /** The payload of the DTO is always an object or an array: null,
      booleans, numbers and strings become `{}`. */
  lemma PayloadIsObjectLike(row: TaskRow)
    ensures IsObjectLike(MapCompanionTaskToDto(row).payload)
    ensures !IsObjectLike(row.payload) ==> MapCompanionTaskToDto(row).payload == JObject(map[])
  {
  }
}
