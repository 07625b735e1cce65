# CircleCast core, modelled in Dafny

CircleCast is a web application. Creators run small "circles" with an AI
companion and members follow them. This project models the parts of its
code base that hold logic, with proofs about them:

- **Password records** (`password.dfy`, module `Password`). The scrypt
  password scheme of the core package:
  - `hashPassword` writes the record `scrypt:1:N:r:p:keyLength:salt:hash`;
  - `verifyPassword` checks a password against a record;
  - `needsRehash` asks whether a record was made with other parameters;
  - `isLegacyBcryptHash` spots old bcrypt strings;
  - `encodeHash` and `decodeHash` turn a record into text and back.

  scrypt (RFC 7914), base64 and the random salt come in as parameters.
- **Route guard** (`middleware.dfy`, module `Middleware`). The web
  middleware takes the session token from the first cookie present. A
  protected path without a session is sent to `/sign-in`. A signed-in
  visit to `/sign-in` is sent to `/dashboard`.
- **Notification merge** (`notifications.dfy`, module `Notifications`).
  This is the `select` callback of the creator-notifications query. It puts
  notifications not yet cached in front of the cached list.
- **Serializers** (`serializers.dfy`). These convert database rows to API
  objects for circles, circle sessions and companion tasks, and define the
  create-input schemas.
- **Profile data** (`profile_domain.dfy`, `creator_fixtures.dfy`,
  `web_profile_mocks.dfy`):
  - the profile records;
  - `Object.fromEntries`;
  - the fixture builders on the API side and the web side, which build one
    creator profile per creator summary and key them by handle.
- **Profile router** (`profile_router.dfy`, module `ProfileRouter`). The
  tRPC procedures:
  - `overview` copies the fixture overview and overwrites it from the
    user's database row;
  - `register` validates the input, refuses a handle held by another
    e-mail, and upserts the user;
  - `creatorByHandle` looks a creator profile up by handle.
- **Shared helpers** (`js_text.dfy`, module `JsText`). The JavaScript
  string operations the above rely on: `split`, `join`, `trim`,
  `startsWith`, `parseInt`, `String(n)`, `toLowerCase` and `replace`.
  `wrappers.dfy` holds `Option` and `Result`.

The database is a parameter throughout:
- for `overview`, a map from user id to the user and their circles;
- for `register`, a map from e-mail to user row.

A rejected promise or a thrown tRPC error is a `Failure` value.

## Model

| member | source | states |
|---|---|---|
| Password.ResolveOptionsFieldByField | packages/core/src/security/password.ts:99-102 | With no options the defaults apply: N=16384, r=8, p=1, keyLength 64, salt length 16. Each given option replaces exactly its own default. |
| Password.EncodeHash | packages/core/src/security/password.ts:44-52 | When no field holds a colon, the record splits at its colons back into its eight fields: algorithm, version, the four numbers in decimal, salt and hash. |
| Password.DecodeHash | packages/core/src/security/password.ts:54-92 | Stated by the lemmas below. It gives null unless there are exactly eight fields, four of them starting with an integer and with salt and hash non-empty (`DecodeNeedsSevenColons`, `DecodeRejectsBadFields`). It undoes `EncodeHash` (`EncodeDecodeRoundTrip`). |
| Password.DecodeNeedsSevenColons | packages/core/src/security/password.ts:54-58 | A record without exactly eight colon-separated fields never decodes. |
| Password.DecodeRejectsBadFields | packages/core/src/security/password.ts:59-92 | A record with eight fields fails to decode exactly when one of these holds: the salt field is empty, the hash field is empty, or one of the four numeric fields has no leading integer. |
| Password.EncodeDecodeRoundTrip | packages/core/src/security/password.js:23-68 | Decoding an encoded record gives back every component, provided the algorithm and version hold no colon and the salt and hash are non-empty. |
| Password.IsLegacyBcryptHash | packages/core/src/security/password.ts:94-96 | True exactly for strings starting `$2a$`, `$2b$` or `$2y$`. |
| Password.VerifyPassword | packages/core/src/security/password.js:101-107 | A record gets the legacy-migration error exactly when it is a legacy bcrypt string. |
| Password.VerifyRejectsForeignRecords | packages/core/src/security/password.ts:125-139 | A record that does not decode, or that names another algorithm or version, verifies as false without an error. |
| Password.VerifyComparesDerivedKey | packages/core/src/security/password.ts:141-152 | For a current record, the result is whether scrypt, run with the record's own salt and parameters, reproduces the stored hash byte for byte. A key of another length is a mismatch. A failure in scrypt is an error. |
| Password.HashPassword | packages/core/src/security/password.js:74-99 | Every record written starts with `scrypt:1:`. |
| Password.HashPasswordRecord | packages/core/src/security/password.ts:98-123 | A written record decodes to the scrypt identifier, version 1, the resolved parameters, the salt and the key scrypt derived from them. |
| Password.VerifyFreshRecord | packages/core/src/security/password.ts:113-153 | The hashed password verifies against its fresh record. Another password verifies exactly when scrypt gives it the same key under that salt. |
| Password.EmptySaltNeverVerifies | packages/core/src/security/password.js:89-115 | A record made with a salt length of 0 has an empty salt field, so no password ever verifies against it. |
| Password.NeedsRehash | packages/core/src/security/password.ts:155-177 | Stated by the lemmas below. It answers true for a bcrypt string, a record that does not decode or one of another scheme. For a current record it answers true exactly when N, r, p or the key length differs from the resolved options. |
| Password.NeedsRehashForeignRecords | packages/core/src/security/password.ts:155-164 | A record that does not decode, or that names another algorithm or version, always needs a rehash. |
| Password.NeedsRehashComparesParameters | packages/core/src/security/password.ts:166-176 | A decodable `scrypt:1` record needs a rehash exactly when its N, r, p or key length differs from the resolved options. The salt and the salt length play no part. |
| Password.LegacyNeedsRehash | packages/core/src/security/password.ts:155-164 | A legacy bcrypt string always needs a rehash. |
| Password.FreshRecordNeedsRehash | packages/core/src/security/password.js:131-153 | A fresh record needs a rehash exactly when the current options resolve to another N, r, p or key length; the salt length plays no part. Under the options it was made with, it never needs one. |
| JsText.ParseIntRoundTrip | apps/api/src/trpc/routers/profile.ts:98-101 | Parsing the decimal text of any integer gives that integer back. |
| JsText.SplitJoin | packages/core/src/security/password.ts:44-58 | Splitting a colon-joined list of colon-free fields gives the fields back. |
| Middleware.FirstPresent | apps/web/middleware.ts:7-12 | The result is the value of the first listed cookie that is present, even an empty one. It is absent only if no listed cookie is present. |
| Middleware.SessionTokenPrecedence | apps/web/middleware.ts:8-11 | The token comes from the first of the four names present, in the order current-secure, current, legacy-secure, legacy. |
| Middleware.EmptyCookieShadows | apps/web/middleware.ts:7-20 | An empty secure cookie hides the later ones and counts as no session, so `/dashboard` redirects to sign-in. |
| Middleware.MatchesAny | apps/web/middleware.ts:16-18 | True exactly when the path equals a listed path or starts with that path followed by `/`. |
| Middleware.RequiresAuthExactly | apps/web/middleware.ts:4 | Exactly `/dashboard`, `/profile` and the paths below them are protected. A mere prefix such as `/dashboardx` is not. |
| Middleware.Decide | apps/web/middleware.ts:6-31 | Stated by the three lemmas below. An anonymous request to a protected path goes to sign-in with its path as `callbackUrl`, a signed-in visit to `/sign-in` goes to the dashboard, and everything else passes. No redirect leads to another. |
| Middleware.GuardSendsAnonymousToSignIn | apps/web/middleware.ts:20-24 | The guard redirects to sign-in exactly for a protected path without a session, and passes the path back as `callbackUrl`. A protected path is let through only with a session. |
| Middleware.SignInRedirectsSignedInUsers | apps/web/middleware.ts:26-30 | The guard redirects to `/dashboard` exactly for a signed-in visit to `/sign-in`. Every other unprotected path passes. |
| Middleware.NoRedirectLoop | apps/web/middleware.ts:20-28 | The page a redirect points to lets the same cookies through. |
| Notifications.WithoutIds | apps/web/hooks/use-creator-notifications.ts:42-43 | Keeps exactly the incoming notifications whose id is not in the set, and never makes the list longer. |
| Notifications.WithoutIdsKeepsFresh | apps/web/hooks/use-creator-notifications.ts:43 | When no id is excluded, the list comes back whole, repeated ids included. |
| Notifications.WithoutIdsDropsSeen | apps/web/hooks/use-creator-notifications.ts:45-47 | When every id is excluded, nothing is left. |
| Notifications.WithoutIdsSingle | apps/web/hooks/use-creator-notifications.ts:42-43 | A single notification survives the filter exactly when its id is not among the cached ids. |
| Notifications.WithoutIdsAppend | apps/web/hooks/use-creator-notifications.ts:42-43 | The filter distributes over concatenation, so the unseen notifications keep their incoming order and their repetitions. |
| Notifications.Select | apps/web/hooks/use-creator-notifications.ts:31-50 | Stated by the lemmas below. Signed out the list is empty; signed in it is the unseen fetched notifications, in fetch order, followed by the whole cache. A second identical fetch changes nothing. |
| Notifications.SelectSignedOut | apps/web/hooks/use-creator-notifications.ts:32-34 | Signed out, the result is empty. |
| Notifications.SelectPrependsUnseen | apps/web/hooks/use-creator-notifications.ts:36-49 | Signed in, the result is the unseen incoming notifications followed by the whole cache. An empty fetch returns the cache. |
| Notifications.SelectKeepsCache | apps/web/hooks/use-creator-notifications.ts:38-49 | Nothing is invented and nothing cached is lost. Everything in front of the cache has an id the cache did not hold. |
| Notifications.SelectSelf | apps/web/hooks/use-creator-notifications.ts:42-46 | Merging a list into a cache that already holds it changes nothing. |
| Notifications.SelectIdempotent | apps/web/hooks/use-creator-notifications.ts:31-50 | Applying the same fetch a second time changes nothing. |
| Notifications.SelectIntoEmptyCache | apps/web/hooks/use-creator-notifications.ts:36-49 | With an empty or missing cache, the fetch is taken over exactly as it arrived. |
| CircleSerializer.MapCircleToDto | apps/api/src/serializers/circle.ts:30-55 | Every field is copied. Access is the lower-cased stored access, with `WAITLIST` used when the stored access is not a string. |
| CircleSerializer.AccessRoundTrip | apps/api/src/serializers/circle.ts:24-28 | Lower-casing the database spelling of an access level gives back the API spelling. |
| CircleSerializer.PrismaAccessInjective | apps/api/src/serializers/circle.ts:25-27 | Distinct access levels have distinct database spellings. |
| CircleSerializer.MapCircleAccess | apps/api/src/serializers/circle.ts:41-43 | A row stored from an access level maps back to that level. A non-string access maps to "waitlist". |
| CircleSerializer.ParseCreateCircle | apps/api/src/serializers/circle.ts:9-22 | The input is accepted exactly when members is not negative and the owner id is a UUID. Access defaults to waitlist and members to 0. |
| CircleSerializer.CreateCircleDefaults | apps/api/src/serializers/circle.ts:19-22 | With access and members omitted, the circle is a waitlist circle with 0 members. |
| CircleSessionSerializer.MapCircleSessionToDto | apps/api/src/serializers/circle-session.ts:29-48 | Every field is copied. The status is lower-cased. |
| CircleSessionSerializer.StatusRoundTrip | apps/api/src/serializers/circle-session.ts:19-27 | All four statuses survive the trip to the database spelling and back. |
| CircleSessionSerializer.PrismaStatusInjective | apps/api/src/serializers/circle-session.ts:22-27 | Distinct statuses have distinct database spellings. |
| CircleSessionSerializer.ShortTopicRefused | apps/api/src/serializers/circle-session.ts:4-9 | A topic shorter than five characters is refused, whatever the other fields hold. |
| CompanionTaskSerializer.MapCompanionTaskToDto | apps/api/src/serializers/companion-task.ts:21-43 | Kind and status go through their maps and the other fields are copied. A payload that is not an object or array becomes `{}`. |
| CompanionTaskSerializer.MapsAreInjective | apps/api/src/serializers/companion-task.ts:8-19 | Both maps are one-to-one. |
| CompanionTaskSerializer.PayloadIsObjectLike | apps/api/src/serializers/companion-task.ts:30-32 | The resulting payload is always an object or an array. Null and scalars become `{}`. |
| ProfileDomain.FirstWord | apps/api/src/data/profile.ts:232 | The result is the prefix of the name up to its first space, or the whole name if it has none. |
| ProfileDomain.GeneratedIds | apps/api/src/data/profile.ts:244-279 | The six generated ids all start with the handle and are pairwise distinct. |
| ProfileDomain.FromEntriesKeys | apps/api/src/data/profile.ts:287-289 | The map's keys are exactly the entry keys. |
| ProfileDomain.FromEntriesLastWins | apps/web/mocks/profile.ts:70-71 | An entry whose key does not occur again later provides that key's value. |
| ProfileDomain.ProfilesKeys | apps/web/mocks/profile.ts:70-77 | The profiles are keyed by exactly the summaries' handles. |
| ProfileDomain.ProfileAtHandle | apps/web/mocks/profile.ts:76-80 | The profile under a summary's handle is the one built from that summary at its own index, unless a later summary has the same handle. |
| ProfileDomain.ProfilesKeyedByHandle | apps/api/src/data/profile.ts:239-241 | For a builder that copies the handle, each key's profile carries that key as its handle. With distinct handles, every summary's profile is the one built from it. |
| CreatorFixtures.CadencesThreeApartDiffer | apps/api/src/data/profile.ts:212-221 | Cadences three positions apart in the cyclic list differ. |
| CreatorFixtures.FeaturedCircles | apps/api/src/data/profile.ts:242-259 | Gives two circles with the first two ids and the cadences at index and index+3 (mod 8), which differ. Members are 18 + 3·(index mod 5) and 14 + 2·(index mod 7). The names are built from the first words. |
| CreatorFixtures.Testimonials | apps/api/src/data/profile.ts:260-271 | Gives two testimonials with ids three and four. The author rotates through the five names by index mod 5, then "Member feedback snapshot". |
| CreatorFixtures.Highlights | apps/api/src/data/profile.ts:272-283 | Gives two highlights with the last two ids. The first is titled with the focus. |
| CreatorFixtures.BuildCreatorProfile | apps/api/src/data/profile.ts:231-285 | The profile copies the handle and headline, holds two of each kind with six distinct generated ids, and uses the circles and testimonials above. |
| CreatorFixtures.CreatorProfilesMockKeys | apps/api/src/data/profile.ts:287-289 | The API fixture is keyed by exactly the twenty entry handles. |
| CreatorFixtures.CreatorProfilesMockHandles | apps/api/src/data/profile.ts:288 | Every profile in the API fixture carries its key as its handle. |
| CreatorFixtures.FirstEntryProfile | apps/api/src/data/profile.ts:9-17 | The first entry's handle is in the fixture, holding the profile built from entry 0. |
| CreatorFixtures.CreatorProfileMock | apps/api/src/data/profile.ts:291 | The featured profile has the first entry's handle. |
| CreatorFixtures.CreatorProfileMockIsFirstEntry | apps/api/src/data/profile.ts:287-291 | The featured profile is the one built from entry 0. |
| CreatorFixtures.OverviewMockFollowsServed | apps/api/src/data/profile.ts:293-363 | The overview placeholder follows exactly the twenty creators that `following` serves. |
| CreatorFixtures.OverviewMockStatsAgree | apps/api/src/data/profile.ts:305-355 | The placeholder has four stats, and its "Active circles" value is the decimal count of the circles it lists. |
| WebProfileMocks.SummariesMirrorApi | apps/web/mocks/profile.ts:7-68 | The six web summaries are the first six API entries. |
| WebProfileMocks.MockCircles | apps/web/mocks/profile.ts:72-99 | Cadences alternate by index parity and always differ. The first circle has 16 + 2·index members and the second four fewer. The names are built from the first words. |
| WebProfileMocks.MockTestimonials | apps/web/mocks/profile.ts:100-111 | The authors are "Member momentum snapshot" and "CircleCast Pulse". |
| WebProfileMocks.MockHighlights | apps/web/mocks/profile.ts:112-124 | Gives two highlights carrying the last two ids. |
| WebProfileMocks.BuildMockProfile | apps/web/mocks/profile.ts:76-126 | The profile copies the handle and headline, holds two of each kind with six distinct generated ids, and uses the web circles and testimonials. |
| WebProfileMocks.CreatorProfilesMockKeys | apps/web/mocks/profile.ts:70-128 | The web fixture is keyed by exactly the six summary handles. |
| WebProfileMocks.SummaryHandlesDistinct | apps/web/mocks/profile.ts:8-62 | The six summary handles are pairwise distinct. |
| WebProfileMocks.CreatorProfilesMockHandles | apps/web/mocks/profile.ts:77-79 | Every profile in the web fixture carries its key as its handle. |
| WebProfileMocks.FirstSummaryProfile | apps/web/mocks/profile.ts:7-17 | The first summary's handle holds the profile built from summary 0. |
| WebProfileMocks.CreatorProfileMock | apps/web/mocks/profile.ts:200 | The featured web profile has the first summary's handle. |
| WebProfileMocks.CreatorProfileMockIsFirstSummary | apps/web/mocks/profile.ts:200-202 | The featured web profile is the one built from summary 0. |
| WebProfileMocks.OverviewMockMirrorsApi | apps/web/mocks/profile.ts:130-198 | The web overview placeholder is the API one except for whom it follows and for its circles, which differ only in their cadence. |
| WebProfileMocks.FollowingMockIsApiPrefix | apps/web/mocks/profile.ts:197-202 | The web placeholder follows its `followingCreatorsMock`, which is the first six creators the API serves. |
| ProfileRouter.FlatMap | apps/api/src/trpc/routers/profile.ts:75 | An item is in the result exactly when some element's list contains it. |
| ProfileRouter.FlatMapAppend | apps/api/src/trpc/routers/profile.ts:87 | Flattening distributes over concatenation. |
| ProfileRouter.Take | apps/api/src/trpc/routers/profile.ts:76 | `slice(0, n)` returns a prefix of length min(n, length). |
| ProfileRouter.Overview | apps/api/src/trpc/routers/profile.ts:18-104 | A malformed id gives BAD_REQUEST and an unknown user gives NOT_FOUND. Otherwise the result is the fixture overwritten from the user, as `OverviewFrom` defines. |
| ProfileRouter.OverviewIdentity | apps/api/src/trpc/routers/profile.ts:41-47 | The user's id and birthdate always win. Name, handle and avatar fall back to the fixture only when the column is null. The remaining fields are the fixture's. |
| ProfileRouter.OverviewCircles | apps/api/src/trpc/routers/profile.ts:67-73 | There is one entry per user circle, in order, with the circle's fields and the status "Active". |
| ProfileRouter.OverviewFocus | apps/api/src/trpc/routers/profile.ts:75-85 | The focus is the first min(3, n) tasks across all circles, in order, each shown as its focus entry (id, title, eta text and status). With no task, the fixture's focus stays. |
| ProfileRouter.FocusTaskReadsBack | apps/api/src/trpc/routers/profile.ts:79-80 | The eta parses back to the task's minutes. The status keeps its length and has one underscore fewer, if it had any. |
| ProfileRouter.FocusStatusReplacesFirst | apps/api/src/trpc/routers/profile.ts:80 | Exactly the first underscore of the status becomes a space and the rest is kept, so `IN_PROGRESS` shows as `IN PROGRESS`. |
| ProfileRouter.OverviewAgenda | apps/api/src/trpc/routers/profile.ts:87-96 | The agenda is the first min(3, n) sessions in order, with topic and time. With no session, the fixture's agenda stays. |
| ProfileRouter.OverviewStats | apps/api/src/trpc/routers/profile.ts:98-101 | There are exactly two stats, and their values parse back to the number of circles and the number of tasks. |
| ProfileRouter.FullNameJoins | apps/api/src/trpc/routers/profile.ts:129 | With both names non-blank, the full name is the trimmed first name, a space, and the trimmed last name. |
| ProfileRouter.FullNameBlankLast | apps/api/src/trpc/routers/profile.ts:112-129 | With a blank last name, the full name is the trimmed first name, with no trailing space. |
| ProfileRouter.Register | apps/api/src/trpc/routers/profile.ts:108-145 | BAD_REQUEST exactly when the input is invalid. CONFLICT exactly when the input is valid and another e-mail holds the handle. Otherwise success. |
| ProfileRouter.RegisterWrites | apps/api/src/trpc/routers/profile.ts:149-171 | The e-mail's row gets the new name, handle, birthdate, bio and hash. An existing row keeps its id and image; a new row gets the new id and no image. The returned id is the row's. |
| ProfileRouter.RegisterKeepsOthers | apps/api/src/trpc/routers/profile.ts:131-167 | Only the request's e-mail is added or changed. Afterwards no other row holds the handle. |
| ProfileRouter.UpdateKeepsOthers | apps/api/src/trpc/routers/profile.ts:149-151 | Writing one e-mail's row leaves the other rows untouched and keeps a handle unique to that e-mail. |
| ProfileRouter.RegisterTwice | apps/api/src/trpc/routers/profile.ts:126-171 | Repeating a successful registration succeeds and returns the same id. The table changes only in that row's password hash, since bcrypt salts each hash afresh. |
| ProfileRouter.CreatorByHandle | apps/api/src/trpc/routers/profile.ts:173-190 | Success exactly when the handle is a key, giving that key's profile; otherwise NOT_FOUND. |
| ProfileRouter.CreatorByHandleMatches | apps/api/src/trpc/routers/profile.ts:181-189 | On a fixture built by a handle-copying builder, a found profile carries the requested handle. |
| ProfileRouter.CreatorByHandleFindsFirst | apps/api/src/data/profile.ts:287-291 | Looking up the first entry's handle in the API fixture gives the featured profile. |
| ProfileRouter.PropertyOf | apps/api/src/trpc/routers/profile.ts:181 | A property read finds an own key, else an inherited `Object.prototype` member, else `undefined`. |
| ProfileRouter.CreatorByHandleAsWritten | apps/api/src/trpc/routers/profile.ts:179-187 | As written, an inherited property name that is not a key gives INTERNAL_SERVER_ERROR instead of NOT_FOUND. |
| ProfileRouter.ConstructorHandleIsServerError | apps/api/src/trpc/routers/profile.ts:182 | For the handle "constructor", the procedure as written fails with a server error, while the corrected one answers NOT_FOUND. |
| ProfileRouter.AsWrittenAgreesElsewhere | apps/api/src/trpc/routers/profile.ts:181-189 | For every handle that is not an inherited property name, both versions agree. |

## Left out

- scrypt, base64, `randomBytes` and `timingSafeEqual`'s constant running time are not modelled. scrypt and base64 are function parameters with only the properties the proofs need: scrypt's output length, and base64 round-tripping without colons. The salt is a parameter. The timing comparison is plain equality.
- bcrypt is left out. The hash `register` stores is a parameter. Legacy records are only recognised by prefix.
- The `try`/`catch` in `decodeHash` is left out: with the codec as a total function there is nothing to catch.
- JavaScript numbers are unbounded integers. Double rounding, `Infinity` from very long digit strings, and exponent notation at 1e21 and above are not modelled.
- A partial option given explicitly as `undefined` is treated like an omitted one.
- `toLowerCase` only lowers ASCII letters, and string lengths count characters rather than UTF-16 code units.
- Dates are carried as ISO text. The `Date` objects and `toISOString` are not modelled.
- zod's e-mail, UUID and date-time checks are predicate parameters. The output schemas (URL formats and so on) are not checked, except for the `creatorByHandle` case under Findings.
- Register: users without an e-mail are not represented. The database's unique index on handles is not modelled either. This matters only when another user with a null e-mail holds the handle.
- The `clearNotifications` part of the notifications hook is left out, and so are its query options (polling, retry, placeholder). The query cache is a parameter.
- The middleware's `matcher` configuration is left out, because the route filter runs outside the code. Session-token verification is not part of this model.
- `following` is modelled only as `FollowingCreatorsMock`, the constant it returns.
- CreatorFixtures.CreatorProfilesMockHandles: pairwise distinctness of all twenty API handles is not proved. Only the first entry's profile and the fact that every key's profile carries its own handle are proved.
- WebProfileMocks.CreatorProfilesMockHandles: for the web fixture, the profile under each of the six handles is not proved to be the one built from that summary. Only the first summary and the key-equals-handle fact are proved.
- The long fixture texts (quotes, descriptions, overview highlights) are carried as data, with no properties proved about them.

## Findings

| source | as written | input that shows it | evidently intended | confidence | as-written member | corrected member |
|---|---|---|---|---|---|---|
| apps/api/src/trpc/routers/profile.ts:181-187 | `creatorProfilesMock[input.handle]` also finds inherited `Object.prototype` members, which are truthy. The handler then returns a function, and output validation turns that into INTERNAL_SERVER_ERROR. | handle `"constructor"` (or `"toString"`, `"__proto__"`) | NOT_FOUND for every handle that is not a creator | not executed | ProfileRouter.CreatorByHandleAsWritten | ProfileRouter.CreatorByHandle |
