# Volunteers API: a Dafny model of the write paths and the search

The Volunteers API is a Django REST service where volunteers and organizations meet.

- Organizations publish opportunities (title, description, required skills, location, dates).
- Volunteers search them and apply; an application is PENDING until the organization sets its status.
- Volunteers log hours against their applications, and organizations leave one rated feedback per application.
- Every application, status change and feedback sends a notification. Only its own user may mark it read with PATCH; the PUT that the same URL inherits lets any signed-in user rewrite it (see Findings).

This project models that core against one in-memory database. Its modules follow the layers of the program:

| module | file | what it holds |
|---|---|---|
| `Wrappers`, `Text`, `Seqs` | wrappers.dfy, text.dfy, seqs.dfy | `Option`; ASCII case folding and `icontains`; queryset-like sequence operations (`filter`, `first`, reversal, subsequences) |
| `Geo` | geo.dfy | the geocoder and the distance function, as parameters |
| `Models` | models.dfy | the records and enums of `core/models.py`, their defaults and validators, the database `Tables` and its invariant `Consistent`, and the delete cascade |
| `Permissions` | permissions.dfy | the five permission classes as predicates over a `Principal` |
| `Serializers` | serializers.dfy | request bodies, the validation each serializer runs, and the records its `create`/`update` build |
| `Views` | views.dfy | error kinds, notification texts, the opportunity listing and the search filter chain (with the radius loop as a method) |
| `Transitions` | transitions.dfy | one function per table insertion, and lemmas that each insertion or replacement keeps `Consistent` |
| `Requests` | requests.dfy | every endpoint as a function from the database to the new database and the response |
| `Guarantees` | guarantees.dfy | what the endpoints promise: which check refuses, what a success writes, and that `Consistent` is kept |
| `Api` | store.dfy | the class `Store`, whose fields are the tables, with one method per ORM write and one per endpoint |

The database invariant `Models.Consistent` combines five rules:

- ids ascend in every table and lie below the next free id;
- creation times ascend and lie in the past of the clock;
- usernames and emails are unique, and each user has at most one profile of each kind;
- at most one application exists per (opportunity, volunteer) pair, and at most one feedback per application;
- every foreign key names an existing row, and hours and ratings are within their validators.

Each endpoint of `Requests` returns `Step(tables, result)`. Its checks run in the order the framework runs them:

1. the permission classes (401, then 403);
2. the object lookup (404) and the object permission (403);
3. the serializer (400);
4. the view's own code.

A refused request never changes the database. Each `Api.Store` endpoint method requires and keeps `Valid()`, which is `Consistent` of the fields. It ends in exactly the state and response of its `Requests` function.

Where the code and the design notes of the repository disagree, the model follows the code:

- The status notice carries the stored status value (`ACCEPTED`), not the label (`Accepted`).
- A second feedback for an application is a 400 from the model serializer's uniqueness validator on the one-to-one column, not a separate conflict error.
- Logging hours for someone else's application, or leaving feedback on another organization's application, raises Python's builtin `PermissionError`. The framework does not turn that into a 403, so the model answers `ServerError` (500).
- A duplicate username or email is not checked by the registration serializers. It fails in `create_user` on the unique columns, and the model answers `IntegrityError`.

## Model

| member | source | states |
|---|---|---|
| Models.ParseStatus | core/models.py:65-72 | a status value parses exactly when it is one of PENDING, ACCEPTED, REJECTED, and parses to the choice whose stored value it is |
| Models.EmptyConsistent | core/models.py:6-107 | the empty database meets every uniqueness, foreign-key and validator rule |
| Models.CascadeRemovesDependents | core/models.py:70-98 | after deleting an opportunity no opportunity has its id, no application refers to it, and no hour log or feedback refers to one of its applications |
| Models.CascadeKeepsOthers | core/models.py:70-98 | the cascade removes exactly the opportunity, its applications and their logs and feedback: every other row of every table is still there, and users, profiles and notifications are unchanged |
| Models.CascadeKeepsReferences | core/models.py:86-95 | the rows surviving the cascade refer only to surviving rows |
| Models.CascadeKeepsConsistent | core/models.py:70-98 | deleting an opportunity with its cascade keeps the database consistent |
| Permissions.OrgUser | core/permissions.py:12-14 | the user of organization profile `orgId` is found exactly when such a profile exists, and is that profile's user |
| Permissions.VolunteerUser | core/permissions.py:16-18 | the user of volunteer profile `volId` is found exactly when such a profile exists, and is that profile's user |
| Permissions.RolesExclusive | core/permissions.py:4-10 | no principal passes both `IsVolunteer` and `IsOrganization` |
| Permissions.OwnersAreAuthenticated | core/permissions.py:12-18 | any principal an ownership rule admits is authenticated |
| Permissions.ViaApplicationIsOwnerOfOpportunity | core/permissions.py:20-22 | owning an application's opportunity is the same as passing `IsOrgOwnerOfOpportunity` on that opportunity |
| Permissions.OwnerIsProfileUser | core/permissions.py:12-14 | a principal owning an opportunity is the user of the organization profile the opportunity belongs to |
| Geo.Geocode | core/services.py:9-18 | empty text has no coordinates and the lookup is not consulted; other text gets whatever the lookup answers |
| Serializers.Located | core/serializers.py:79-80 | blank location text gives no coordinates |
| Serializers.RegisteredVolunteerProfile | core/serializers.py:72-89 | the new profile belongs to the new user; location defaults to blank; skills default to []; availability defaults to {}; blank location gives null coordinates |
| Serializers.RegisteredOrganizationProfile | core/serializers.py:105-123 | the new profile belongs to the new user and carries the given name; mission and phone default to blank; blank location gives null coordinates |
| Serializers.UpdatedVolunteerProfile | core/serializers.py:22-35 | id and user are kept; each absent field keeps its value; the coordinates change, to the geocoder's answer, only when location text is in the body |
| Serializers.UpdatedOrganizationProfile | core/serializers.py:45-57 | id and user are kept; only those of name, mission and phone present in the body change; the coordinates are re-geocoded only when location text is present |
| Serializers.ProfileCoordinatesIgnored | core/serializers.py:22-57 | coordinates sent in a profile body change neither updated profile |
| Serializers.CreatedOpportunity | core/serializers.py:139-151 | the new opportunity has the given id, owner and creation time, the submitted fields, skills [] and blank location by default, null coordinates for blank location and the geocoder's answer otherwise |
| Serializers.SavedNotification | core/serializers.py:178-181 | a full notification update replaces type, title and message, keeps id and owner, and changes the read flag and creation time only when the body carries them |
| Serializers.UpdatedOpportunity | core/serializers.py:153-159 | id, owner and creation time are kept; absent fields keep their values; present location text re-geocodes, blank location clears both coordinates, no location text leaves them |
| Views.CreatedMessageNames | core/views.py:144-149 | the new-application notice contains the applicant's username and the opportunity's title |
| Views.StatusMessageNamesStatus | core/views.py:189-194 | the status notice contains the stored value of the new status |
| Views.FeedbackMessageNamesRating | core/views.py:262-267 | the feedback notice contains the rating in decimal |
| Text.NatToString | core/views.py:266 | the rating renders as a non-empty string of decimal digits |
| Views.ListOpportunities | core/views.py:65-70 | the listing is a subsequence of its input; with `mine=1` and an organization profile it holds exactly that organization's opportunities, otherwise everything |
| Views.NearbyIds | core/views.py:108-117 | the collection fails (`ValueError`) exactly when some row with coordinates makes the distance raise; otherwise an id is collected exactly when some row of the queryset has it and lies, with coordinates, within the radius |
| Views.CollectNearbyIds | core/views.py:110-116 | the loop over the queryset, skipping rows without coordinates and stopping at the first distance that raises, computes exactly `NearbyIds` |
| Views.SearchIsSubsequence | core/views.py:89-125 | every search filter only removes rows: the answer is a subsequence of the opportunities |
| Views.SearchKeepsOrder | core/views.py:89-125 | a descending input stays descending after the search |
| Views.PrefilteredSubset | core/views.py:95-101 | the date and skill steps keep, in order, exactly the rows meeting the criteria they switch on |
| Views.TextStepSubset | core/views.py:121-123 | the text step keeps, in order, exactly the rows whose title, description or location contains the `search` text |
| Views.RadiusStepMembership | core/views.py:107-118 | without parsed radius arguments, or when some row's distance raises, the step changes nothing; otherwise a row remains iff it has coordinates within the distance |
| Views.SearchMembership | core/views.py:89-125 | a row is in the answer iff it is in the input and meets each criterion the search applies: date overlap when start and end are both given, skill, text, and the radius when it parses and no candidate row's distance raises, combined with AND |
| Views.RadiusExcludesUnlocated | core/views.py:107-118 | a radius search whose distances all compute never returns an opportunity missing a latitude or a longitude |
| Views.UnparsedRadiusIgnored | core/views.py:107-118 | radius parameters that are absent, blank or do not parse give the same answer as no radius parameters |
| Views.RadiusFailureSkipsRadius | core/views.py:107-118 | when one candidate row's distance raises, the answer is that of the same query without radius parameters |
| Views.RadiusFailureKeepsUnlocated | core/views.py:107-118 | with `lat=inf`, a located and an unlocated row, the radius search returns the unlocated row; over the unlocated row alone it returns nothing |
| Views.GuardedSearchMembership | core/views.py:89-125 | with the guarded radius step, a row is in the answer iff it is in the input, meets the date, skill and text criteria, and lies within the radius whenever the radius parses |
| Views.GuardedSearchExcludesUnlocated | core/views.py:111-113 | with the guarded radius step, a radius search never returns an opportunity missing a latitude or a longitude |
| Views.GuardedSearchAgrees | core/views.py:107-118 | where no distance raises, the guarded search gives exactly the answer of the search as written |
| Views.SkillInListMatches | core/views.py:99-101 | a stored skill containing the query case-insensitively makes the opportunity match |
| Views.SkillMatchSpansItems | core/views.py:99-101 | the converse fails: the match runs over the JSON text, so a query spanning two items (`b", "c` against `["ab", "cd"]`) matches although neither skill contains it |
| Seqs.Find | core/views.py:229 | `.filter(...).first()`: the index found is the first row satisfying the filter, and none is found iff no row does |
| Transitions.AddUserKeepsConsistent | core/models.py:6-13 | a user with the next id and an unused username and email keeps the database consistent |
| Transitions.AddVolunteerKeepsConsistent | core/models.py:19-26 | a volunteer profile with the next id for an existing user without one keeps it consistent |
| Transitions.AddOrgKeepsConsistent | core/models.py:32-40 | an organization profile with the next id for an existing user without one keeps it consistent |
| Transitions.AddOpportunityKeepsConsistent | core/models.py:46-58 | an opportunity with the next id, stamped now, owned by an existing organization keeps it consistent |
| Transitions.AddApplicationKeepsConsistent | core/models.py:64-79 | an application with the next id, stamped now, to an existing opportunity by an existing volunteer, for a pair without one, keeps it consistent |
| Transitions.AddHourLogKeepsConsistent | core/models.py:85-90 | an hour log with the next id, stamped now, for an existing application, with hours in range, keeps it consistent |
| Transitions.AddFeedbackKeepsConsistent | core/models.py:93-98 | feedback with the next id, stamped now, for an existing application without feedback, with a rating in [1, 5], keeps it consistent |
| Transitions.AddNotificationKeepsConsistent | core/models.py:101-107 | a notification with the next id, stamped now, for an existing user keeps it consistent |
| Transitions.ReplaceVolunteerKeepsConsistent | core/models.py:19-26 | rewriting a volunteer profile with its id and user kept keeps the database consistent |
| Transitions.ReplaceOrgKeepsConsistent | core/models.py:32-40 | rewriting an organization profile with its id and user kept keeps it consistent |
| Transitions.ReplaceOpportunityKeepsConsistent | core/models.py:46-58 | rewriting an opportunity with its id, owner and creation time kept keeps it consistent |
| Transitions.ReplaceApplicationKeepsConsistent | core/models.py:64-79 | rewriting only the status of an application keeps it consistent |
| Transitions.ReplaceNotificationKeepsConsistent | core/models.py:101-107 | rewriting only the read flag of a notification keeps it consistent |
| Requests.PrincipalOf | core/permissions.py:4-10 | the caller is a member iff the token names an existing user, whose id and role it carries, and it has a volunteer (organization) profile iff that user has one |
| Requests.RegisterVolunteer | core/views.py:19-27 | a refused registration changes nothing |
| Requests.RegisterOrg | core/views.py:30-38 | a refused registration changes nothing |
| Requests.UpdateVolunteerProfile | core/views.py:42-47 | a refused profile update changes nothing |
| Requests.UpdateOrgProfile | core/views.py:50-55 | a refused profile update changes nothing |
| Requests.CreateOpportunity | core/views.py:72-75 | a refused creation changes nothing |
| Requests.OwnOpportunity | core/views.py:78-81 | an admitted caller gets the index of the opportunity with that id, and owns it |
| Requests.UpdateOpportunity | core/views.py:78-81 | a refused update changes nothing |
| Requests.DeleteOpportunity | core/views.py:78-81 | a refused delete changes nothing |
| Requests.ApplyTarget | core/views.py:130-138 | an admitted caller is an existing user, and the indices are its volunteer profile and the opportunity |
| Requests.Apply | core/views.py:130-151 | a refused apply changes nothing |
| Requests.StatusTarget | core/views.py:176-182 | an admitted caller gets the index of the application with that id, and owns it through its opportunity |
| Requests.UpdateApplicationStatus | core/views.py:176-194 | a refused status update changes nothing, and no notice is sent |
| Requests.MarkNotificationRead | core/views.py:207-218 | a refused mark-read changes nothing |
| Requests.ReplaceNotification | core/views.py:207-210 | a refused full update of a notification changes nothing |
| Requests.OwnReplaceNotification | core/views.py:212-215 | a refused owner-checked full update changes nothing |
| Requests.LogHoursTarget | core/views.py:223-231 | an admitted log gets the index of the application it names |
| Requests.LogHours | core/views.py:223-232 | a refused hour log changes nothing |
| Requests.FeedbackTarget | core/views.py:247-257 | an admitted feedback gets the application, the caller's organization profile, which owns the application's opportunity, and a rating in [1, 5] |
| Requests.LeaveFeedback | core/views.py:247-267 | a refused feedback changes nothing, and no notice is sent |
| Requests.ListOpportunitiesRequest | core/views.py:60-70 | the listing is refused exactly to anonymous callers |
| Requests.SearchRequest | core/views.py:85-86 | the search is refused exactly to anonymous callers |
| Guarantees.RegisterVolunteerKeepsConsistent | core/serializers.py:72-89 | registering a volunteer keeps the database consistent |
| Guarantees.RegisterOrgKeepsConsistent | core/serializers.py:105-123 | registering an organization keeps the database consistent |
| Guarantees.UpdateVolunteerProfileKeepsConsistent | core/serializers.py:22-35 | a volunteer profile update keeps the database consistent |
| Guarantees.UpdateOrgProfileKeepsConsistent | core/serializers.py:45-57 | an organization profile update keeps the database consistent |
| Guarantees.CreateOpportunityKeepsConsistent | core/serializers.py:139-151 | creating an opportunity keeps the database consistent |
| Guarantees.UpdateOpportunityKeepsConsistent | core/serializers.py:153-159 | updating an opportunity keeps the database consistent |
| Guarantees.DeleteOpportunityKeepsConsistent | core/views.py:78-81 | deleting an opportunity keeps the database consistent |
| Guarantees.ApplyKeepsConsistent | core/views.py:133-151 | applying keeps the database consistent, in particular one application per pair |
| Guarantees.UpdateApplicationStatusKeepsConsistent | core/views.py:184-194 | a status update keeps the database consistent |
| Guarantees.MarkNotificationReadKeepsConsistent | core/views.py:212-218 | marking a notification read keeps the database consistent |
| Guarantees.LogHoursKeepsConsistent | core/views.py:227-232 | logging hours keeps the database consistent, hours within the validator included |
| Guarantees.LeaveFeedbackKeepsConsistent | core/views.py:251-267 | leaving feedback keeps the database consistent, one feedback per application and ratings in [1, 5] included |
| Guarantees.ApplyCreatedWrites | core/views.py:140-149 | a created application is the next row for a pair that had none, followed by one notice to the organization's user |
| Guarantees.ApplyRefusals | core/views.py:130-140 | anonymous gives 401; a non-volunteer gives 403; a volunteer without a profile gives 500; a missing opportunity gives 404; otherwise the apply succeeds (each an iff) |
| Guarantees.ApplyReturnsPair | core/views.py:140 | the answer is the caller's application to that opportunity, and it is an existing one iff the pair already had an application |
| Guarantees.ApplyExistingChangesNothing | core/views.py:140-151 | an existing application is returned as stored and nothing changes, no notice included |
| Guarantees.ApplyCreatedIsPending | core/views.py:140 | a created application is PENDING with the next id and the current time, it is the one new application, and the tables other than applications and notifications are unchanged |
| Guarantees.ApplyCreatedNotifies | core/views.py:142-149 | creating appends exactly one unread APPLICATION_CREATED notice to the opportunity's organization user, naming the applicant and the opportunity |
| Guarantees.ApplyLeavesOnePair | core/models.py:76-79 | after a successful apply, the returned application is stored and is the only one for its pair |
| Guarantees.ApplyAgainIsExisting | core/views.py:140-151 | applying again returns the same application as existing and changes nothing |
| Guarantees.LogHoursRefusals | core/views.py:223-231 | anonymous gives 401; a non-volunteer gives 403; an unknown application or bad hours or note gives 400; someone else's application gives 500; otherwise the log succeeds (each an iff) |
| Guarantees.LogHoursWrites | core/views.py:227-232 | an accepted log is the one new row, with the submitted values, an empty note by default, the next id and the current time |
| Guarantees.LogHoursIgnoresStatus | core/views.py:227-232 | changing an application's status changes no answer of the hour-log endpoint |
| Guarantees.UpdateApplicationStatusRefusals | core/views.py:176-186 | anonymous gives 401; a non-organization gives 403; an unknown application gives 404; a non-owner gives 403; an unknown status value gives 400; otherwise the update succeeds (each an iff) |
| Guarantees.UpdateApplicationStatusWrites | core/views.py:184-194 | only that application's status changes, to the submitted one, and exactly one unread APPLICATION_STATUS_CHANGED notice naming it goes to the volunteer's user, also when the status is unchanged |
| Guarantees.MarkNotificationReadRefusals | core/views.py:207-215 | anonymous gives 401; an unknown id gives 404; another user's notification gives 403; the own user succeeds (each an iff) |
| Guarantees.MarkNotificationReadWrites | core/views.py:216-218 | success sets that notification's read flag and changes nothing else |
| Guarantees.MarkNotificationReadIdempotent | core/views.py:212-218 | marking twice gives the same answer and database as marking once |
| Guarantees.MarkReadNotificationChangesNothing | core/views.py:216-217 | marking a notification already read leaves the database as it was |
| Guarantees.ReplaceNotificationRefusals | core/views.py:207-210 | a PUT to the mark-read URL gives 401 to the anonymous, 404 for an unknown id, 400 for an invalid body, and otherwise succeeds; it never answers 403 (each an iff) |
| Guarantees.ReplaceNotificationByStranger | core/views.py:207-210 | a signed-in user's valid PUT rewrites the type, title and message of another user's notification |
| Guarantees.OwnReplaceNotificationGuards | core/views.py:212-215 | with the owner check, a stranger gets 403 and changes nothing, the owner gets the update as written, and only the owner's request changes the database |
| Guarantees.LeaveFeedbackRefusals | core/views.py:247-257 | anonymous gives 401; a non-organization gives 403; an unknown application, existing feedback or a rating outside [1, 5] gives 400; an application of another organization gives 500; otherwise the feedback succeeds (each an iff) |
| Guarantees.LeaveFeedbackWrites | core/views.py:251-267 | the feedback is signed by the caller's organization, which owns the opportunity; it is the one new feedback row; exactly one unread FEEDBACK_LEFT notice containing the rating goes to the volunteer's user |
| Guarantees.LeaveFeedbackOnce | core/models.py:94-96 | after feedback is left for an application, any further feedback for it by an organization is refused as invalid |
| Guarantees.CreateOpportunityRefusals | core/views.py:72-75 | anonymous gives 401; a non-organization gives 403; invalid data gives 400; an organization user without profile gives 500; otherwise the creation succeeds (each an iff) |
| Guarantees.CreateOpportunityOwnedByCaller | core/serializers.py:139-142 | the created opportunity is the one new row, has the next id and the current time, and its creator passes the owner check |
| Guarantees.CreateOpportunityIgnoresReadOnly | core/serializers.py:137 | organization, coordinates and creation time in the body change nothing |
| Guarantees.CreateOpportunityWithoutLocation | core/serializers.py:145-149 | without location text the geocoder is never consulted: any two geocoders give the same result |
| Guarantees.OwnOpportunityRefusals | core/views.py:78-81 | anonymous gives 401; a non-organization gives 403; an unknown id gives 404; a non-owner gives 403; the owner is admitted (each an iff) |
| Guarantees.UpdateOpportunityWrites | core/views.py:78-81 | a refusal is a guard's or a 400 for invalid data; success rewrites that one opportunity, keeping id, owner and creation time, so the caller still owns it |
| Guarantees.UpdateOpportunityIgnoresReadOnly | core/serializers.py:137 | read-only fields in an update body change nothing |
| Guarantees.DeleteOpportunityRemoves | core/models.py:70-71 | a delete removes the opportunity and every application to it, keeps users, profiles and notifications, and deleting again gives 404 |
| Guarantees.RegisterVolunteerRefusals | core/views.py:19-27 | invalid data gives 400; a used username or email gives an integrity error; otherwise registration succeeds (each an iff) |
| Guarantees.RegisterOrgRefusals | core/views.py:30-38 | invalid data gives 400; a used username or email gives an integrity error; otherwise registration succeeds (each an iff) |
| Guarantees.RegisteringTakesCredentials | core/models.py:12 | after registering, any credentials sharing the username or the email are taken |
| Guarantees.RegisterVolunteerSignsIn | core/serializers.py:72-89 | the new user has the next id and the VOLUNTEER role; presenting that id it passes `IsVolunteer` and has a volunteer profile and no organization profile |
| Guarantees.RegisterOrgSignsIn | core/serializers.py:105-123 | the new user has the next id and the ORG role; presenting that id it passes `IsOrganization` and has an organization profile with the given name and no volunteer profile |
| Guarantees.UpdateVolunteerProfileRefusals | core/views.py:42-47 | anonymous gives 401; a non-volunteer gives 403; no profile gives 500; invalid data gives 400; otherwise the update succeeds (each an iff) |
| Guarantees.UpdateVolunteerProfileWrites | core/serializers.py:22-35 | success rewrites the caller's own profile, keeping its id and user, and nothing else |
| Guarantees.UpdateOrgProfileRefusals | core/views.py:50-55 | anonymous gives 401; a non-organization gives 403; no profile gives 500; invalid data gives 400; otherwise the update succeeds (each an iff) |
| Guarantees.UpdateOrgProfileWrites | core/serializers.py:45-57 | success rewrites the caller's own profile, keeping its id and user, and nothing else |
| Guarantees.NewestFirst | core/views.py:66 | newest first holds exactly the stored opportunities, descending in creation time and in id |
| Guarantees.ListOpportunitiesRequestResults | core/views.py:65-70 | the listing is newest first; with `mine=1` and an organization profile a row is listed iff it belongs to the caller's organization, otherwise all rows are |
| Guarantees.SearchRequestResults | core/views.py:89-125 | the search answer is a subsequence of the opportunities newest first, is itself newest first, and holds a stored row iff it meets every criterion the search applies (the radius only when no candidate row's distance raises) |
| Api.Store.constructor | core/models.py:6-107 | a new store is empty and consistent |
| Api.Store.InsertUser | core/serializers.py:73-78 | `create_user` appends the user and spends an id |
| Api.Store.InsertVolunteer | core/serializers.py:81-88 | the profile row is appended and spends an id |
| Api.Store.InsertOrg | core/serializers.py:114-122 | the profile row is appended and spends an id |
| Api.Store.InsertOpportunity | core/serializers.py:151 | the opportunity is appended, spending an id and a clock tick |
| Api.Store.InsertApplication | core/views.py:140 | the application is appended, spending an id and a clock tick |
| Api.Store.InsertHourLog | core/views.py:232 | the hour log is appended, spending an id and a clock tick |
| Api.Store.InsertFeedback | core/views.py:259 | the feedback is appended, spending an id and a clock tick |
| Api.Store.Notify | core/views.py:144-149 | `Notification.objects.create` appends an unread notice with the next id, stamped now |
| Api.Store.SaveVolunteer | core/serializers.py:34 | `save()` writes one profile row and nothing else |
| Api.Store.SaveOrg | core/serializers.py:56 | `save()` writes one profile row and nothing else |
| Api.Store.SaveOpportunity | core/serializers.py:159 | `save()` writes one opportunity row and nothing else |
| Api.Store.SaveApplication | core/views.py:186 | `save()` writes one application row and nothing else |
| Api.Store.SaveNotification | core/views.py:216-217 | `save()` writes one notification row and nothing else |
| Api.Store.DeleteOpportunityRows | core/models.py:70-98 | the delete removes the opportunity with its cascade |
| Api.Store.RegisterVolunteer | core/views.py:19-27 | answers and changes the store exactly as `Requests.RegisterVolunteer`, keeping it consistent |
| Api.Store.RegisterOrg | core/views.py:30-38 | answers and changes the store exactly as `Requests.RegisterOrg`, keeping it consistent |
| Api.Store.UpdateVolunteerProfile | core/views.py:42-47 | answers and changes the store exactly as `Requests.UpdateVolunteerProfile`, keeping it consistent |
| Api.Store.UpdateOrgProfile | core/views.py:50-55 | answers and changes the store exactly as `Requests.UpdateOrgProfile`, keeping it consistent |
| Api.Store.CreateOpportunity | core/views.py:72-75 | answers and changes the store exactly as `Requests.CreateOpportunity`, keeping it consistent |
| Api.Store.UpdateOpportunity | core/views.py:78-81 | answers and changes the store exactly as `Requests.UpdateOpportunity`, keeping it consistent |
| Api.Store.DeleteOpportunity | core/views.py:78-81 | answers and changes the store exactly as `Requests.DeleteOpportunity`, keeping it consistent |
| Api.Store.Apply | core/views.py:130-151 | answers and changes the store exactly as `Requests.Apply`, keeping it consistent |
| Api.Store.UpdateApplicationStatus | core/views.py:176-194 | answers and changes the store exactly as `Requests.UpdateApplicationStatus`, keeping it consistent |
| Api.Store.MarkNotificationRead | core/views.py:207-218 | answers and changes the store exactly as `Requests.MarkNotificationRead`, keeping it consistent |
| Api.Store.LogHours | core/views.py:223-232 | answers and changes the store exactly as `Requests.LogHours`, keeping it consistent |
| Api.Store.LeaveFeedback | core/views.py:247-267 | answers and changes the store exactly as `Requests.LeaveFeedback`, keeping it consistent |

## Left out

- The Nominatim geocoder (core/services.py:7-18) is network I/O with a timeout and swallowed exceptions. The model takes it as a parameter `lookup: Resolver`, and fixes only that blank text gets no coordinates.
- `haversine_km` (core/services.py:20-26) is floating-point trigonometry. The distance is a parameter `dist: Distance`, and `None` stands for the `ValueError` it raises on a math domain error.
- Python's `float()` on the radius parameters is a parameter `parse: FloatParser`, and `None` stands for its `ValueError`. Infinities and NaN are not reals: they show only through what `dist` answers, so any answer `dist` gives, including a failure, is covered.
- Password validation (core/serializers.py:68-70) and password hashing are library calls. Passwords are not modelled.
- JWT token issuance and refresh (core/urls.py:19-20) are library calls. A request carries the caller's user id, or none.
- URL routing (core/urls.py) and admin registration (core/admin.py) are framework wiring. They are not modelled.
- The HTTP tests in core/tests.py are not modelled.
- ORM details are not modelled: `select_related`, query compilation, pagination, and the `updated_at` auto-timestamp. The response bodies (`UserSerializer`, `ApplicationSerializer`, ...) are modelled as the stored record.
- The database atomicity of `get_or_create` under concurrent requests is not modelled. The model is sequential; it states pair uniqueness as a store invariant and proves that apply keeps it.
- The read-only list endpoints `MyApplicationsView`, `OpportunityApplicantsView`, `MyNotificationsView` and `MyHoursView` (core/views.py:154-173, 199-204, 235-242) are not modelled. Neither are the GET retrievals of a profile or of one opportunity. None of them changes state, and their logic is a single filter and ordering.
- Dates are day numbers: the parsing of `start`/`end` query parameters and of date fields is not modelled. A date parameter that is present is taken as parsed.
- The skill filter matches over the JSON text of the skill list, `["a", "b"]`. JSON escaping is not modelled: neither of quotes and backslashes inside an item, nor of non-ASCII characters, which `json.dumps` writes as `\uXXXX` (so `skill=café` does not match a stored `café`).
- `trim_whitespace` of character fields, email format validation and email normalisation are not modelled. Blank means the empty string.
- JSON values of arbitrary type are not modelled: skills are a list of strings, and availability is a map from strings to strings.
- The serializers' `update` methods assign fields of the instance in place and then call `save()`. The model computes the updated record as a value (`Serializers.Updated*`) and writes it with one `Save*` method of `Api.Store`. Aliasing between instances is therefore not modelled.
- The PUT on the mark-read URL (`Requests.ReplaceNotification`) is not a method of `Api.Store`: it may set `created_at` to any time, which breaks the creation-time order in `Consistent`. Its answers and writes are stated as functions and lemmas.
- A notification's `type` column is free text up to 50 characters; the model writes a `TypeTag` from the views and an arbitrary string only through the PUT.
- Deleting a user or a profile, and their cascades, are endpoints of the admin only. They are not modelled; the opportunity cascade (which includes the application cascade to hour logs and feedback) is.
- `timezone.now` is a counter `clock` that advances with every stamped row. The id sequences of the separate tables are one counter `nextId`.
- Models.DefaultRole: the default role VOLUNTEER is stated as a constant only. Every registration path sets the role explicitly, so no operation of the model uses the default.
- Text.Lower: folds ASCII letters only. Django's `icontains` folds case according to the database's collation, beyond ASCII.
- Serializers.HourLogShapeValid: hours are integer hundredths in [0, 999999]. Parsing a decimal string with more than two decimals is not modelled.
- Views.SearchMembership: it requires distinct ids along the queryset, because the radius step filters by id. The stored tables always meet this (`Guarantees.SearchRequestResults`).

## Findings

| source | as written | input that shows it | evidently intended | confidence | as-written member | corrected member |
|---|---|---|---|---|---|---|
| core/views.py:107-118 | a `ValueError` from `haversine_km` on any located row is caught by the same `except` as a parse error, so the whole radius filter is dropped and every row, unlocated ones included, is returned | `lat=inf&lng=0&radius_km=5` over one located and one unlocated opportunity returns the unlocated one; over the unlocated one alone it returns nothing | a row whose distance cannot be computed is outside the radius, and a radius search never returns an unlocated row | not executed | Views.RadiusFailureKeepsUnlocated | Views.GuardedSearchExcludesUnlocated |
| core/views.py:207-218 | `MarkNotificationReadView` overrides only `patch`, so the `put` inherited from `UpdateAPIView` runs with `IsAuthenticated` alone and saves a full `NotificationSerializer` body | a signed-in user's PUT to `notifications/<id>/read/` with a valid body, for another user's notification, answers 200 and rewrites its type, title and message | the URL answers 403 to anyone but the notification's user, as `patch` does | not executed | Guarantees.ReplaceNotificationByStranger | Guarantees.OwnReplaceNotificationGuards |
