/**
 * Every endpoint of the API as a function from the database before the request to the database
 * after it and the response. The checks run in the order the framework runs them: the permission
 * classes (401, then 403), the object lookup (404), the object permissions (403), the serializer
 * (400), and last the view's own code, whose uncaught exceptions are 500s. A refused request
 * never changes the database.
 */
module Requests {
  import opened Wrappers
  import opened Seqs
  import opened Geo
  import opened Models
  import opened Permissions
  import opened Serializers
  import opened Views
  import opened Transitions

  /** The database after a request, and the response. */
  datatype Step<T> = Step(tables: Tables, result: Result<T>)

  /** 201 versus 200 from the apply endpoint. */
  datatype ApplyOutcome = Created | Existing

  // Row lookups: the index of the matching row, if there is one.

  function UserAt(t: Tables, uid: nat): Option<nat> {
    Find(t.users, (u: User) => u.id == uid)
  }

  /** `user.volunteer_profile`. */
  function VolunteerOf(t: Tables, uid: nat): Option<nat> {
    Find(t.volunteers, (v: VolunteerProfile) => v.user == uid)
  }

  /** `user.org_profile`. */
  function OrgOf(t: Tables, uid: nat): Option<nat> {
    Find(t.orgs, (o: OrganizationProfile) => o.user == uid)
  }

  function OpportunityAt(t: Tables, id: nat): Option<nat> {
    Find(t.opportunities, (o: Opportunity) => o.id == id)
  }

  function ApplicationAt(t: Tables, id: nat): Option<nat> {
    Find(t.applications, (a: Application) => a.id == id)
  }

  function NotificationAt(t: Tables, id: nat): Option<nat> {
    Find(t.notifications, (n: Notification) => n.id == id)
  }

  /** The application of volunteer profile `volId` to opportunity `oppId`. */
  function PairAt(t: Tables, oppId: nat, volId: nat): Option<nat> {
    Find(t.applications, (a: Application) => a.opportunity == oppId && a.volunteer == volId)
  }

  /** `application.feedback`. */
  function FeedbackFor(t: Tables, appId: nat): Option<nat> {
    Find(t.feedback, (f: Feedback) => f.application == appId)
  }

  /**
   * `request.user`: the user a valid token names, or anonymous for a request without one (or
   * whose user no longer exists).
   */
  function PrincipalOf(t: Tables, caller: Option<nat>): (p: Principal)
    ensures p.Member? <==> caller.Some? && UserAt(t, caller.value).Some?
    ensures p.Member? ==> p.id == caller.value && p.role == t.users[UserAt(t, p.id).value].role
    ensures p.Member? ==> (p.hasVolunteerProfile <==> VolunteerOf(t, p.id).Some?)
    ensures p.Member? ==> (p.hasOrgProfile <==> OrgOf(t, p.id).Some?)
  {
    if caller.None? then Anonymous
    else match UserAt(t, caller.value)
      case None => Anonymous
      case Some(i) =>
        Member(caller.value, t.users[i].role, VolunteerOf(t, caller.value).Some?, OrgOf(t, caller.value).Some?)
  }

  /** The username or the email is already in use. */
  predicate Taken(users: seq<User>, c: Credentials) {
    exists i :: 0 <= i < |users| && (users[i].username == c.username || users[i].email == c.email)
  }

  // Registration

  /**
   * `RegisterVolunteerView`: a user with the volunteer role and its profile. A used username
   * or email passes the serializer, which declares no uniqueness check, and fails in
   * `create_user` on the unique columns.
   */
  function RegisterVolunteer(t: Tables, d: VolunteerRegistration, lookup: Resolver): (s: Step<User>)
    ensures s.result.Err? ==> s.tables == t
  {
    if !VolunteerRegistrationValid(d) then Step(t, Err(Invalid))
    else if Taken(t.users, d.credentials) then Step(t, Err(IntegrityError))
    else
      var u := User(t.nextId, d.credentials.username, d.credentials.email, Volunteer);
      var t1 := WithUser(t, u);
      Step(WithVolunteer(t1, RegisteredVolunteerProfile(t1.nextId, u.id, d, lookup)), Ok(u))
  }

  /** `RegisterOrgView`: a user with the organization role and its profile. */
  function RegisterOrg(t: Tables, d: OrganizationRegistration, lookup: Resolver): (s: Step<User>)
    ensures s.result.Err? ==> s.tables == t
  {
    if !OrganizationRegistrationValid(d) then Step(t, Err(Invalid))
    else if Taken(t.users, d.credentials) then Step(t, Err(IntegrityError))
    else
      var u := User(t.nextId, d.credentials.username, d.credentials.email, Org);
      var t1 := WithUser(t, u);
      Step(WithOrg(t1, RegisteredOrganizationProfile(t1.nextId, u.id, d, lookup)), Ok(u))
  }

  // Profiles

  /**
   * `MyVolunteerProfileView` (PUT or PATCH). A volunteer without a profile makes `get_object`
   * raise an exception the framework does not translate.
   */
  function UpdateVolunteerProfile(t: Tables, caller: Option<nat>, d: VolunteerProfileData, lookup: Resolver)
    : (s: Step<VolunteerProfile>)
    ensures s.result.Err? ==> s.tables == t
  {
    var p := PrincipalOf(t, caller);
    if !IsAuthenticated(p) then Step(t, Err(NotAuthenticated))
    else if !IsVolunteer(p) then Step(t, Err(Forbidden))
    else match VolunteerOf(t, p.id)
      case None => Step(t, Err(ServerError))
      case Some(k) =>
        if !VolunteerProfileDataValid(d) then Step(t, Err(Invalid))
        else
          var v := UpdatedVolunteerProfile(t.volunteers[k], d, lookup);
          Step(t.(volunteers := t.volunteers[k := v]), Ok(v))
  }

  /** `MyOrgProfileView` (PUT when not `partial`, PATCH when `partial`). */
  function UpdateOrgProfile(t: Tables, caller: Option<nat>, d: OrganizationProfileData, partial: bool,
                            lookup: Resolver): (s: Step<OrganizationProfile>)
    ensures s.result.Err? ==> s.tables == t
  {
    var p := PrincipalOf(t, caller);
    if !IsAuthenticated(p) then Step(t, Err(NotAuthenticated))
    else if !IsOrganization(p) then Step(t, Err(Forbidden))
    else match OrgOf(t, p.id)
      case None => Step(t, Err(ServerError))
      case Some(k) =>
        if !OrganizationProfileDataValid(d, partial) then Step(t, Err(Invalid))
        else
          var o := UpdatedOrganizationProfile(t.orgs[k], d, lookup);
          Step(t.(orgs := t.orgs[k := o]), Ok(o))
  }

  // Opportunities

  /**
   * `OpportunityCreateListView.post`: only the organization role may create, and the owner is
   * the caller's organization profile, whatever the body says.
   */
  function CreateOpportunity(t: Tables, caller: Option<nat>, req: OpportunityRequest, lookup: Resolver)
    : (s: Step<Opportunity>)
    ensures s.result.Err? ==> s.tables == t
  {
    var p := PrincipalOf(t, caller);
    var d := Writable(req);
    if !IsAuthenticated(p) then Step(t, Err(NotAuthenticated))
    else if p.role != Org then Step(t, Err(Forbidden))
    else if !OpportunityDataValid(d, false) then Step(t, Err(Invalid))
    else match OrgOf(t, p.id)
      case None => Step(t, Err(ServerError))
      case Some(k) =>
        var o := CreatedOpportunity(t.nextId, t.orgs[k].id, d, lookup, t.clock);
        Step(WithOpportunity(t, o), Ok(o))
  }

  /** The guards of `OpportunityRetrieveUpdateDeleteView`, with the index of the opportunity. */
  function OwnOpportunity(t: Tables, caller: Option<nat>, id: nat): (r: Result<nat>)
    ensures r.Ok? ==> r.value < |t.opportunities| && t.opportunities[r.value].id == id
    ensures r.Ok? ==> IsOrgOwnerOfOpportunity(PrincipalOf(t, caller), t.opportunities[r.value], t.orgs)
  {
    var p := PrincipalOf(t, caller);
    if !IsAuthenticated(p) then Err(NotAuthenticated)
    else if !IsOrganization(p) then Err(Forbidden)
    else match OpportunityAt(t, id)
      case None => Err(NotFound)
      case Some(k) =>
        if !IsOrgOwnerOfOpportunity(p, t.opportunities[k], t.orgs) then Err(Forbidden) else Ok(k)
  }

  /** PUT (not `partial`) or PATCH (`partial`) of an opportunity by its owner. */
  function UpdateOpportunity(t: Tables, caller: Option<nat>, id: nat, req: OpportunityRequest, partial: bool,
                             lookup: Resolver): (s: Step<Opportunity>)
    ensures s.result.Err? ==> s.tables == t
  {
    match OwnOpportunity(t, caller, id)
    case Err(e) => Step(t, Err(e))
    case Ok(k) =>
      var d := Writable(req);
      if !OpportunityDataValid(d, partial) then Step(t, Err(Invalid))
      else
        var o := UpdatedOpportunity(t.opportunities[k], d, lookup);
        Step(t.(opportunities := t.opportunities[k := o]), Ok(o))
  }

  /** DELETE of an opportunity by its owner, cascading to its applications. */
  function DeleteOpportunity(t: Tables, caller: Option<nat>, id: nat): (s: Step<()>)
    ensures s.result.Err? ==> s.tables == t
  {
    match OwnOpportunity(t, caller, id)
    case Err(e) => Step(t, Err(e))
    case Ok(_) => Step(DeleteOpportunityCascade(t, id), Ok(()))
  }

  // Applications, notifications, hours and feedback

  /** `Notification.objects.create`: unread, with the next id, stamped now. */
  function Notify(t: Tables, user: nat, kind: NotificationType, title: string, message: string): Tables {
    WithNotification(t, Notification(t.nextId, user, TypeTag(kind), title, message, false, t.clock))
  }

  /** The foreign keys of an opportunity lead to an organization user. */
  lemma OpportunityOwnerExists(t: Tables, k: nat)
    requires OpportunitiesReference(t.opportunities, t.orgs) && k < |t.opportunities|
    ensures OrgUser(t.orgs, t.opportunities[k].organization).Some?
  {
    var i :| 0 <= i < |t.orgs| && OrgKey(t.orgs[i]) == t.opportunities[k].organization;
  }

  /** The foreign keys of an application lead to its opportunity and to a volunteer user. */
  lemma ApplicationRowsExist(t: Tables, k: nat)
    requires ApplicationsReference(t.applications, t.opportunities, t.volunteers) && k < |t.applications|
    ensures OpportunityAt(t, t.applications[k].opportunity).Some?
    ensures VolunteerUser(t.volunteers, t.applications[k].volunteer).Some?
  {
    var i :| 0 <= i < |t.opportunities| && OpportunityKey(t.opportunities[i]) == t.applications[k].opportunity;
    var j :| 0 <= j < |t.volunteers| && VolunteerKey(t.volunteers[j]) == t.applications[k].volunteer;
  }

  /**
   * The guards of `ApplyToOpportunityView.post`, with the caller's volunteer profile and the
   * opportunity. A volunteer without a profile makes `request.user.volunteer_profile` raise.
   */
  function ApplyTarget(t: Tables, caller: Option<nat>, oppId: nat): (r: Result<(nat, nat)>)
    ensures r.Ok? ==> caller.Some? && UserAt(t, caller.value).Some?
    ensures r.Ok? ==> VolunteerOf(t, caller.value) == Some(r.value.0) && OpportunityAt(t, oppId) == Some(r.value.1)
  {
    var p := PrincipalOf(t, caller);
    if !IsAuthenticated(p) then Err(NotAuthenticated)
    else if !IsVolunteer(p) then Err(Forbidden)
    else match VolunteerOf(t, p.id)
      case None => Err(ServerError)
      case Some(v) =>
        match OpportunityAt(t, oppId)
        case None => Err(NotFound)
        case Some(k) => Ok((v, k))
  }

  /**
   * `ApplyToOpportunityView.post`: get-or-create on the (opportunity, volunteer) pair. Only a
   * created application notifies the organization's user.
   */
  function Apply(t: Tables, caller: Option<nat>, oppId: nat): (s: Step<(Application, ApplyOutcome)>)
    requires OpportunitiesReference(t.opportunities, t.orgs)
    ensures s.result.Err? ==> s.tables == t
  {
    match ApplyTarget(t, caller, oppId)
    case Err(e) => Step(t, Err(e))
    case Ok((v, k)) =>
      var vol := t.volunteers[v].id;
      match PairAt(t, oppId, vol)
      case Some(j) => Step(t, Ok((t.applications[j], Existing)))
      case None =>
        var opp := t.opportunities[k];
        var a := Application(t.nextId, oppId, vol, DefaultStatus, t.clock);
        OpportunityOwnerExists(t, k);
        var message := CreatedMessage(t.users[UserAt(t, caller.value).value].username, opp.title);
        Step(Notify(WithApplication(t, a), OrgUser(t.orgs, opp.organization).value,
                    ApplicationCreated, CreatedTitle, message),
             Ok((a, Created)))
  }

  /**
   * The permission classes and the object lookup of `UpdateApplicationStatusView`, with the
   * object permission checked on the application found.
   */
  function StatusTarget(t: Tables, caller: Option<nat>, appId: nat): (r: Result<nat>)
    ensures r.Ok? ==> r.value < |t.applications| && t.applications[r.value].id == appId
    ensures r.Ok? ==> IsOrgOwnerViaApplication(PrincipalOf(t, caller), t.applications[r.value], t.opportunities, t.orgs)
  {
    var p := PrincipalOf(t, caller);
    if !IsAuthenticated(p) then Err(NotAuthenticated)
    else if !IsOrganization(p) then Err(Forbidden)
    else match ApplicationAt(t, appId)
      case None => Err(NotFound)
      case Some(k) =>
        if !IsOrgOwnerViaApplication(p, t.applications[k], t.opportunities, t.orgs) then Err(Forbidden) else Ok(k)
  }

  /**
   * `UpdateApplicationStatusView` (PUT or PATCH; `status` has a default, so it may be absent
   * on both). The volunteer is notified of the status after the save, changed or not.
   */
  function UpdateApplicationStatus(t: Tables, caller: Option<nat>, appId: nat, status: Option<string>)
    : (s: Step<Application>)
    requires ApplicationsReference(t.applications, t.opportunities, t.volunteers)
    ensures s.result.Err? ==> s.tables == t
  {
    match StatusTarget(t, caller, appId)
    case Err(e) => Step(t, Err(e))
    case Ok(k) =>
      var app := t.applications[k];
      var parsed := if status.Some? then ParseStatus(status.value) else Some(app.status);
      if parsed.None? then Step(t, Err(Invalid))
      else
        var a := app.(status := parsed.value);
        ApplicationRowsExist(t, k);
        var opp := t.opportunities[OpportunityAt(t, app.opportunity).value];
        Step(Notify(t.(applications := t.applications[k := a]), VolunteerUser(t.volunteers, app.volunteer).value,
                    ApplicationStatusChanged, StatusChangedTitle, StatusChangedMessage(opp.title, a.status)),
             Ok(a))
  }

  /** `MarkNotificationReadView.patch`: only the notification's own user may mark it. */
  function MarkNotificationRead(t: Tables, caller: Option<nat>, id: nat): (s: Step<Notification>)
    ensures s.result.Err? ==> s.tables == t
  {
    var p := PrincipalOf(t, caller);
    if !IsAuthenticated(p) then Step(t, Err(NotAuthenticated))
    else match NotificationAt(t, id)
      case None => Step(t, Err(NotFound))
      case Some(k) =>
        if t.notifications[k].user != p.id then Step(t, Err(Forbidden))
        else
          var n := t.notifications[k].(isRead := true);
          Step(t.(notifications := t.notifications[k := n]), Ok(n))
  }

  /**
   * `MarkNotificationReadView.put`, inherited from `UpdateAPIView` and not overridden: a full
   * update through `NotificationSerializer`. Only `IsAuthenticated` guards it; whose
   * notification it is never comes into it.
   */
  function ReplaceNotification(t: Tables, caller: Option<nat>, id: nat, d: NotificationData): (s: Step<Notification>)
    ensures s.result.Err? ==> s.tables == t
  {
    var p := PrincipalOf(t, caller);
    if !IsAuthenticated(p) then Step(t, Err(NotAuthenticated))
    else match NotificationAt(t, id)
      case None => Step(t, Err(NotFound))
      case Some(k) =>
        if !NotificationDataValid(d) then Step(t, Err(Invalid))
        else
          var n := SavedNotification(t.notifications[k], d);
          Step(t.(notifications := t.notifications[k := n]), Ok(n))
  }

  /**
   * The full update as evidently intended: refused with 403, as `patch` refuses, when the
   * notification belongs to another user.
   */
  function OwnReplaceNotification(t: Tables, caller: Option<nat>, id: nat, d: NotificationData): (s: Step<Notification>)
    ensures s.result.Err? ==> s.tables == t
  {
    var p := PrincipalOf(t, caller);
    if !IsAuthenticated(p) then Step(t, Err(NotAuthenticated))
    else match NotificationAt(t, id)
      case None => Step(t, Err(NotFound))
      case Some(k) =>
        if t.notifications[k].user != p.id then Step(t, Err(Forbidden))
        else ReplaceNotification(t, caller, id, d)
  }

  /**
   * The checks of `LogHoursView` up to the save, with the application. The serializer rejects an
   * unknown application or bad hours or note; the view's ownership check raises the builtin
   * `PermissionError`, which the framework does not turn into a 403. The application's status
   * is never looked at.
   */
  function LogHoursTarget(t: Tables, caller: Option<nat>, d: HourLogData): (r: Result<nat>)
    ensures r.Ok? ==> r.value < |t.applications| && t.applications[r.value].id == d.application
  {
    var p := PrincipalOf(t, caller);
    if !IsAuthenticated(p) then Err(NotAuthenticated)
    else if !IsVolunteer(p) then Err(Forbidden)
    else match ApplicationAt(t, d.application)
      case None => Err(Invalid)
      case Some(k) =>
        if !HourLogShapeValid(d) then Err(Invalid)
        else if VolunteerUser(t.volunteers, t.applications[k].volunteer) != Some(p.id) then Err(ServerError)
        else Ok(k)
  }

  /** `LogHoursView`: the log is stored with an empty note when none is given. */
  function LogHours(t: Tables, caller: Option<nat>, d: HourLogData): (s: Step<HourLog>)
    ensures s.result.Err? ==> s.tables == t
  {
    match LogHoursTarget(t, caller, d)
    case Err(e) => Step(t, Err(e))
    case Ok(_) =>
      var l := HourLog(t.nextId, d.application, d.workDate, d.hours, d.note.GetOr(""), t.clock);
      Step(WithHourLog(t, l), Ok(l))
  }

  /**
   * The checks of `LeaveFeedbackView` up to the save, with the application, the caller's
   * organization and the application's opportunity. The serializer rejects an unknown
   * application, an application that already has feedback (the one-to-one column) and a rating
   * outside [1, 5]; the view then needs the caller's organization to own the opportunity.
   */
  function FeedbackTarget(t: Tables, caller: Option<nat>, d: FeedbackData): (r: Result<(nat, nat, nat)>)
    requires ApplicationsReference(t.applications, t.opportunities, t.volunteers)
    ensures r.Ok? ==> var (k, g, o) := r.value;
      && k < |t.applications| && t.applications[k].id == d.application && ApplicationAt(t, d.application) == Some(k)
      && caller.Some? && OrgOf(t, caller.value) == Some(g)
      && OpportunityAt(t, t.applications[k].opportunity) == Some(o)
      && VolunteerUser(t.volunteers, t.applications[k].volunteer).Some?
      && ValidRating(d.rating)
  {
    var p := PrincipalOf(t, caller);
    if !IsAuthenticated(p) then Err(NotAuthenticated)
    else if !IsOrganization(p) then Err(Forbidden)
    else match ApplicationAt(t, d.application)
      case None => Err(Invalid)
      case Some(k) =>
        if FeedbackFor(t, d.application).Some? || !ValidRating(d.rating) then Err(Invalid)
        else match OrgOf(t, p.id)
          case None => Err(ServerError)
          case Some(g) =>
            ApplicationRowsExist(t, k);
            var o := OpportunityAt(t, t.applications[k].opportunity).value;
            if t.opportunities[o].organization != t.orgs[g].id then Err(ServerError)
            else Ok((k, g, o))
  }

  /** `LeaveFeedbackView`: the feedback, signed by the caller's organization, and a notice to the volunteer. */
  function LeaveFeedback(t: Tables, caller: Option<nat>, d: FeedbackData): (s: Step<Feedback>)
    requires ApplicationsReference(t.applications, t.opportunities, t.volunteers)
    ensures s.result.Err? ==> s.tables == t
  {
    match FeedbackTarget(t, caller, d)
    case Err(e) => Step(t, Err(e))
    case Ok((k, g, o)) =>
      var app := t.applications[k];
      var org := t.orgs[g];
      var opp := t.opportunities[o];
      var f := Feedback(t.nextId, app.id, org.id, d.rating, d.comment.GetOr(""), t.clock);
      Step(Notify(WithFeedback(t, f), VolunteerUser(t.volunteers, app.volunteer).value,
                  FeedbackLeft, FeedbackTitle, FeedbackMessage(org.name, opp.title, d.rating as nat)),
           Ok(f))
  }

  // Reads

  /** `order_by("-created_at")`: rows are stored in creation order, so newest first is reversed. */
  function Newest(t: Tables): seq<Opportunity> {
    Reverse(t.opportunities)
  }

  /** `OpportunityCreateListView.get`. */
  function ListOpportunitiesRequest(t: Tables, caller: Option<nat>, mine: Option<string>): (r: Result<seq<Opportunity>>)
    ensures r.Err? <==> PrincipalOf(t, caller).Anonymous?
  {
    var p := PrincipalOf(t, caller);
    if !IsAuthenticated(p) then Err(NotAuthenticated)
    else
      var org := match OrgOf(t, p.id) case Some(g) => Some(t.orgs[g].id) case None => None;
      Ok(ListOpportunities(Newest(t), mine, org))
  }

  /** `OpportunitySearchView.get`. */
  function SearchRequest(t: Tables, caller: Option<nat>, q: SearchQuery, parse: FloatParser, dist: Distance)
    : (r: Result<seq<Opportunity>>)
    ensures r.Err? <==> PrincipalOf(t, caller).Anonymous?
  {
    if !IsAuthenticated(PrincipalOf(t, caller)) then Err(NotAuthenticated)
    else Ok(Search(Newest(t), q, parse, dist))
  }
}
