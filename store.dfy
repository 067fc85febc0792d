/**
 * The API against one in-memory database whose tables change in place. The write methods of
 * the ORM (`objects.create`, `save`, `delete`) each change one table; each endpoint runs the
 * permission checks, the object lookups and the serializer validation in the order the
 * framework runs them and then calls those writes. Each endpoint method answers exactly as the
 * endpoint's function in `Requests` does, leaves the tables as that function describes, and
 * keeps the database consistent.
 */
module Api {
  import opened Wrappers
  import opened Geo
  import opened Models
  import opened Permissions
  import opened Serializers
  import opened Views
  import opened Transitions
  import opened Requests
  import Guarantees

  class Store {
    var users: seq<User>
    var volunteers: seq<VolunteerProfile>
    var orgs: seq<OrganizationProfile>
    var opportunities: seq<Opportunity>
    var applications: seq<Application>
    var hourLogs: seq<HourLog>
    var feedback: seq<Feedback>
    var notifications: seq<Notification>
    /** Source of row ids. */
    var nextId: nat
    /** `timezone.now`, as a counter that advances with every stamped row. */
    var clock: nat

    /** The tables as one value. */
    function State(): Tables
      reads this
    {
      Tables(users, volunteers, orgs, opportunities, applications, hourLogs, feedback,
             notifications, nextId, clock)
    }

    ghost predicate Valid()
      reads this
    {
      Consistent(State())
    }

    /** A fresh, empty database. */
    constructor ()
      ensures State() == EmptyTables
      ensures Valid()
    {
      users, volunteers, orgs := [], [], [];
      opportunities, applications, hourLogs := [], [], [];
      feedback, notifications := [], [];
      nextId, clock := 0, 0;
      new;
      EmptyConsistent();
    }

    // Writes: each inserts, updates or deletes rows of one table.

    method InsertUser(u: User)
      modifies this
      ensures State() == WithUser(old(State()), u)
    {
      users, nextId := users + [u], nextId + 1;
    }

    method InsertVolunteer(v: VolunteerProfile)
      modifies this
      ensures State() == WithVolunteer(old(State()), v)
    {
      volunteers, nextId := volunteers + [v], nextId + 1;
    }

    method InsertOrg(o: OrganizationProfile)
      modifies this
      ensures State() == WithOrg(old(State()), o)
    {
      orgs, nextId := orgs + [o], nextId + 1;
    }

    method InsertOpportunity(o: Opportunity)
      modifies this
      ensures State() == WithOpportunity(old(State()), o)
    {
      opportunities, nextId, clock := opportunities + [o], nextId + 1, clock + 1;
    }

    method InsertApplication(a: Application)
      modifies this
      ensures State() == WithApplication(old(State()), a)
    {
      applications, nextId, clock := applications + [a], nextId + 1, clock + 1;
    }

    method InsertHourLog(l: HourLog)
      modifies this
      ensures State() == WithHourLog(old(State()), l)
    {
      hourLogs, nextId, clock := hourLogs + [l], nextId + 1, clock + 1;
    }

    method InsertFeedback(f: Feedback)
      modifies this
      ensures State() == WithFeedback(old(State()), f)
    {
      feedback, nextId, clock := feedback + [f], nextId + 1, clock + 1;
    }

    /** `Notification.objects.create`: unread, with the next id, stamped now. */
    method Notify(user: nat, kind: NotificationType, title: string, message: string)
      modifies this
      ensures State() == Requests.Notify(old(State()), user, kind, title, message)
    {
      notifications := notifications + [Notification(nextId, user, TypeTag(kind), title, message, false, clock)];
      nextId, clock := nextId + 1, clock + 1;
    }

    method SaveVolunteer(k: nat, v: VolunteerProfile)
      requires k < |volunteers|
      modifies this
      ensures State() == old(State()).(volunteers := old(volunteers)[k := v])
    {
      volunteers := volunteers[k := v];
    }

    method SaveOrg(k: nat, o: OrganizationProfile)
      requires k < |orgs|
      modifies this
      ensures State() == old(State()).(orgs := old(orgs)[k := o])
    {
      orgs := orgs[k := o];
    }

    method SaveOpportunity(k: nat, o: Opportunity)
      requires k < |opportunities|
      modifies this
      ensures State() == old(State()).(opportunities := old(opportunities)[k := o])
    {
      opportunities := opportunities[k := o];
    }

    method SaveApplication(k: nat, a: Application)
      requires k < |applications|
      modifies this
      ensures State() == old(State()).(applications := old(applications)[k := a])
    {
      applications := applications[k := a];
    }

    method SaveNotification(k: nat, n: Notification)
      requires k < |notifications|
      modifies this
      ensures State() == old(State()).(notifications := old(notifications)[k := n])
    {
      notifications := notifications[k := n];
    }

    /** `Opportunity.delete()`, with the database's cascade to applications, hour logs and feedback. */
    method DeleteOpportunityRows(id: nat)
      modifies this
      ensures State() == DeleteOpportunityCascade(old(State()), id)
    {
      var after := DeleteOpportunityCascade(State(), id);
      opportunities, applications := after.opportunities, after.applications;
      hourLogs, feedback := after.hourLogs, after.feedback;
    }

    // Endpoints

    /** `POST auth/register/volunteer/`: the serializer's checks, `create_user` (refused for a used username or email), then the profile. */
    method RegisterVolunteer(d: VolunteerRegistration, lookup: Resolver) returns (r: Result<User>)
      requires Valid()
      modifies this
      ensures Valid()
      ensures Step(State(), r) == Requests.RegisterVolunteer(old(State()), d, lookup)
    {
      ghost var t := State();
      if !VolunteerRegistrationValid(d) { return Err(Invalid); }
      if Taken(users, d.credentials) { return Err(IntegrityError); }
      var u := User(nextId, d.credentials.username, d.credentials.email, Volunteer);
      InsertUser(u);
      InsertVolunteer(RegisteredVolunteerProfile(nextId, u.id, d, lookup));
      r := Ok(u);
      Guarantees.RegisterVolunteerKeepsConsistent(t, d, lookup);
    }

    /** `POST auth/register/org/`, as for volunteers. */
    method RegisterOrg(d: OrganizationRegistration, lookup: Resolver) returns (r: Result<User>)
      requires Valid()
      modifies this
      ensures Valid()
      ensures Step(State(), r) == Requests.RegisterOrg(old(State()), d, lookup)
    {
      ghost var t := State();
      if !OrganizationRegistrationValid(d) { return Err(Invalid); }
      if Taken(users, d.credentials) { return Err(IntegrityError); }
      var u := User(nextId, d.credentials.username, d.credentials.email, Org);
      InsertUser(u);
      InsertOrg(RegisteredOrganizationProfile(nextId, u.id, d, lookup));
      r := Ok(u);
      Guarantees.RegisterOrgKeepsConsistent(t, d, lookup);
    }

    /** `PUT`/`PATCH me/volunteer-profile/`: the caller's own profile, updated field by field. */
    method UpdateVolunteerProfile(caller: Option<nat>, d: VolunteerProfileData, lookup: Resolver)
      returns (r: Result<VolunteerProfile>)
      requires Valid()
      modifies this
      ensures Valid()
      ensures Step(State(), r) == Requests.UpdateVolunteerProfile(old(State()), caller, d, lookup)
    {
      var t := State();
      var p := PrincipalOf(t, caller);
      if !IsAuthenticated(p) { return Err(NotAuthenticated); }
      if !IsVolunteer(p) { return Err(Forbidden); }
      var k := VolunteerOf(t, p.id);
      if k.None? { return Err(ServerError); }
      if !VolunteerProfileDataValid(d) { return Err(Invalid); }
      var v := UpdatedVolunteerProfile(t.volunteers[k.value], d, lookup);
      SaveVolunteer(k.value, v);
      r := Ok(v);
      Guarantees.UpdateVolunteerProfileKeepsConsistent(t, caller, d, lookup);
    }

    /** `PUT` (not `partial`) or `PATCH` (`partial`) of `me/org-profile/`. */
    method UpdateOrgProfile(caller: Option<nat>, d: OrganizationProfileData, partial: bool, lookup: Resolver)
      returns (r: Result<OrganizationProfile>)
      requires Valid()
      modifies this
      ensures Valid()
      ensures Step(State(), r) == Requests.UpdateOrgProfile(old(State()), caller, d, partial, lookup)
    {
      var t := State();
      var p := PrincipalOf(t, caller);
      if !IsAuthenticated(p) { return Err(NotAuthenticated); }
      if !IsOrganization(p) { return Err(Forbidden); }
      var k := OrgOf(t, p.id);
      if k.None? { return Err(ServerError); }
      if !OrganizationProfileDataValid(d, partial) { return Err(Invalid); }
      var o := UpdatedOrganizationProfile(t.orgs[k.value], d, lookup);
      SaveOrg(k.value, o);
      r := Ok(o);
      Guarantees.UpdateOrgProfileKeepsConsistent(t, caller, d, partial, lookup);
    }

    /** `POST opportunities/`: `perform_create` makes the caller's organization profile the owner. */
    method CreateOpportunity(caller: Option<nat>, req: OpportunityRequest, lookup: Resolver)
      returns (r: Result<Opportunity>)
      requires Valid()
      modifies this
      ensures Valid()
      ensures Step(State(), r) == Requests.CreateOpportunity(old(State()), caller, req, lookup)
    {
      var t := State();
      var p := PrincipalOf(t, caller);
      var d := Writable(req);
      if !IsAuthenticated(p) { return Err(NotAuthenticated); }
      if p.role != Org { return Err(Forbidden); }
      if !OpportunityDataValid(d, false) { return Err(Invalid); }
      var k := OrgOf(t, p.id);
      if k.None? { return Err(ServerError); }
      var o := CreatedOpportunity(nextId, t.orgs[k.value].id, d, lookup, clock);
      InsertOpportunity(o);
      r := Ok(o);
      Guarantees.CreateOpportunityKeepsConsistent(t, caller, req, lookup);
    }

    /** `PUT` (not `partial`) or `PATCH` (`partial`) of `opportunities/<pk>/` by the owner. */
    method UpdateOpportunity(caller: Option<nat>, id: nat, req: OpportunityRequest, partial: bool,
                             lookup: Resolver) returns (r: Result<Opportunity>)
      requires Valid()
      modifies this
      ensures Valid()
      ensures Step(State(), r) == Requests.UpdateOpportunity(old(State()), caller, id, req, partial, lookup)
    {
      var t := State();
      var own := OwnOpportunity(t, caller, id);
      if own.Err? { return Err(own.error); }
      var d := Writable(req);
      if !OpportunityDataValid(d, partial) { return Err(Invalid); }
      var o := UpdatedOpportunity(t.opportunities[own.value], d, lookup);
      SaveOpportunity(own.value, o);
      r := Ok(o);
      Guarantees.UpdateOpportunityKeepsConsistent(t, caller, id, req, partial, lookup);
    }

    /** `DELETE opportunities/<pk>/` by the owner. */
    method DeleteOpportunity(caller: Option<nat>, id: nat) returns (r: Result<()>)
      requires Valid()
      modifies this
      ensures Valid()
      ensures Step(State(), r) == Requests.DeleteOpportunity(old(State()), caller, id)
    {
      ghost var t := State();
      var own := OwnOpportunity(State(), caller, id);
      if own.Err? { return Err(own.error); }
      DeleteOpportunityRows(id);
      r := Ok(());
      Guarantees.DeleteOpportunityKeepsConsistent(t, caller, id);
    }

    /** `POST opportunities/<opportunity_id>/apply/`: get-or-create, and only a created application notifies the organization. */
    method Apply(caller: Option<nat>, oppId: nat) returns (r: Result<(Application, ApplyOutcome)>)
      requires Valid()
      modifies this
      ensures Valid()
      ensures Step(State(), r) == Requests.Apply(old(State()), caller, oppId)
    {
      var t := State();
      var g := ApplyTarget(t, caller, oppId);
      if g.Err? { return Err(g.error); }
      var (v, k) := g.value;
      var vol := t.volunteers[v].id;
      var j := PairAt(t, oppId, vol);
      if j.Some? { return Ok((t.applications[j.value], Existing)); }
      var opp := t.opportunities[k];
      OpportunityOwnerExists(t, k);
      var owner := OrgUser(t.orgs, opp.organization).value;
      var name := t.users[UserAt(t, caller.value).value].username;
      var a := Application(nextId, oppId, vol, DefaultStatus, clock);
      InsertApplication(a);
      Notify(owner, ApplicationCreated, CreatedTitle, CreatedMessage(name, opp.title));
      r := Ok((a, Created));
      Guarantees.ApplyKeepsConsistent(t, caller, oppId);
    }

    /** `PUT`/`PATCH applications/<pk>/status/`: the status is saved, then the volunteer is notified of it. */
    method UpdateApplicationStatus(caller: Option<nat>, appId: nat, status: Option<string>)
      returns (r: Result<Application>)
      requires Valid()
      modifies this
      ensures Valid()
      ensures Step(State(), r) == Requests.UpdateApplicationStatus(old(State()), caller, appId, status)
    {
      var t := State();
      var g := StatusTarget(t, caller, appId);
      if g.Err? { return Err(g.error); }
      var k := g.value;
      var app := t.applications[k];
      var parsed := if status.Some? then ParseStatus(status.value) else Some(app.status);
      if parsed.None? { return Err(Invalid); }
      var a := app.(status := parsed.value);
      ApplicationRowsExist(t, k);
      var opp := t.opportunities[OpportunityAt(t, app.opportunity).value];
      var volunteer := VolunteerUser(t.volunteers, app.volunteer).value;
      SaveApplication(k, a);
      Notify(volunteer, ApplicationStatusChanged, StatusChangedTitle, StatusChangedMessage(opp.title, a.status));
      r := Ok(a);
      Guarantees.UpdateApplicationStatusKeepsConsistent(t, caller, appId, status);
    }

    /** `PATCH notifications/<pk>/read/`: `is_read = True` and `save()`, for the notification's own user. */
    method MarkNotificationRead(caller: Option<nat>, id: nat) returns (r: Result<Notification>)
      requires Valid()
      modifies this
      ensures Valid()
      ensures Step(State(), r) == Requests.MarkNotificationRead(old(State()), caller, id)
    {
      var t := State();
      var p := PrincipalOf(t, caller);
      if !IsAuthenticated(p) { return Err(NotAuthenticated); }
      var k := NotificationAt(t, id);
      if k.None? { return Err(NotFound); }
      if t.notifications[k.value].user != p.id { return Err(Forbidden); }
      var n := t.notifications[k.value].(isRead := true);
      SaveNotification(k.value, n);
      r := Ok(n);
      Guarantees.MarkNotificationReadKeepsConsistent(t, caller, id);
    }

    /** `POST hours/log/`. */
    method LogHours(caller: Option<nat>, d: HourLogData) returns (r: Result<HourLog>)
      requires Valid()
      modifies this
      ensures Valid()
      ensures Step(State(), r) == Requests.LogHours(old(State()), caller, d)
    {
      ghost var t := State();
      var g := LogHoursTarget(State(), caller, d);
      if g.Err? { return Err(g.error); }
      var l := HourLog(nextId, d.application, d.workDate, d.hours, d.note.GetOr(""), clock);
      InsertHourLog(l);
      r := Ok(l);
      Guarantees.LogHoursKeepsConsistent(t, caller, d);
    }

    /** `POST feedback/`: the feedback, signed by the caller's organization, then the volunteer's notice. */
    method LeaveFeedback(caller: Option<nat>, d: FeedbackData) returns (r: Result<Feedback>)
      requires Valid()
      modifies this
      ensures Valid()
      ensures Step(State(), r) == Requests.LeaveFeedback(old(State()), caller, d)
    {
      var t := State();
      var g := FeedbackTarget(t, caller, d);
      if g.Err? { return Err(g.error); }
      var (k, o, i) := g.value;
      var app, org, opp := t.applications[k], t.orgs[o], t.opportunities[i];
      var volunteer := VolunteerUser(t.volunteers, app.volunteer).value;
      var f := Feedback(nextId, app.id, org.id, d.rating, d.comment.GetOr(""), clock);
      InsertFeedback(f);
      Notify(volunteer, FeedbackLeft, FeedbackTitle, FeedbackMessage(org.name, opp.title, d.rating as nat));
      r := Ok(f);
      Guarantees.LeaveFeedbackKeepsConsistent(t, caller, d);
    }

  }
}
