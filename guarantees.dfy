/**
 * What the endpoints guarantee: every request keeps the database consistent, and each endpoint
 * makes exactly the change its view code makes, or refuses and changes nothing.
 */
module Guarantees {
  import opened Wrappers
  import opened Text
  import opened Seqs
  import opened Geo
  import opened Models
  import opened Permissions
  import opened Serializers
  import opened Views
  import opened Transitions
  import opened Requests

  // Facts about fresh ids and foreign keys used below.

  /** A write that leaves users and profiles alone leaves every caller's principal alone. */
  lemma SamePrincipal(t: Tables, t': Tables, caller: Option<nat>)
    requires t'.users == t.users && t'.volunteers == t.volunteers && t'.orgs == t.orgs
    ensures PrincipalOf(t', caller) == PrincipalOf(t, caller)
  {
  }

  /** No profile belongs to the user id about to be handed out. */
  lemma NextIdHasNoProfile(t: Tables)
    requires IdsFresh(t) && ReferencesExist(t)
    ensures forall i :: 0 <= i < |t.volunteers| ==> t.volunteers[i].user != t.nextId
    ensures forall i :: 0 <= i < |t.orgs| ==> t.orgs[i].user != t.nextId
  {
    var key: User -> nat := UserKey;
    forall i | 0 <= i < |t.volunteers| ensures t.volunteers[i].user != t.nextId {
      var j :| 0 <= j < |t.users| && key(t.users[j]) == t.volunteers[i].user;
    }
    forall i | 0 <= i < |t.orgs| ensures t.orgs[i].user != t.nextId {
      var j :| 0 <= j < |t.users| && key(t.users[j]) == t.orgs[i].user;
    }
  }

  lemma FreshWhenNotTaken(users: seq<User>, c: Credentials, u: User)
    requires !Taken(users, c) && u.username == c.username && u.email == c.email
    ensures FreshCredentials(users, u)
  {
  }

  /** The owner of an organization profile is a user. */
  lemma OrgUserIsUser(t: Tables, orgId: nat)
    requires ReferencesExist(t) && OrgUser(t.orgs, orgId).Some?
    ensures OrgUser(t.orgs, orgId).value in Keys(t.users, UserKey)
  {
  }

  /** The owner of a volunteer profile is a user. */
  lemma VolunteerUserIsUser(t: Tables, volId: nat)
    requires ReferencesExist(t) && VolunteerUser(t.volunteers, volId).Some?
    ensures VolunteerUser(t.volunteers, volId).value in Keys(t.users, UserKey)
  {
  }

  /** A row a lookup finds carries a key of its table. */
  lemma FoundKeys(t: Tables, oppId: nat, appId: nat, uid: nat)
    ensures OpportunityAt(t, oppId).Some? ==> oppId in Keys(t.opportunities, OpportunityKey)
    ensures ApplicationAt(t, appId).Some? ==> appId in Keys(t.applications, ApplicationKey)
    ensures VolunteerOf(t, uid).Some? ==> t.volunteers[VolunteerOf(t, uid).value].id in Keys(t.volunteers, VolunteerKey)
    ensures OrgOf(t, uid).Some? ==> t.orgs[OrgOf(t, uid).value].id in Keys(t.orgs, OrgKey)
  {
  }

  /** A pair with no application differs from every application. */
  lemma NoPairDiffers(t: Tables, oppId: nat, volId: nat, a: Application)
    requires PairAt(t, oppId, volId).None? && a.opportunity == oppId && a.volunteer == volId
    ensures forall i :: 0 <= i < |t.applications| ==> DifferentPair(t.applications[i], a)
  {
    assert forall i :: 0 <= i < |t.applications| ==>
      !(t.applications[i].opportunity == oppId && t.applications[i].volunteer == volId);
  }

  // Every endpoint keeps the database consistent.

  lemma RegisterVolunteerKeepsConsistent(t: Tables, d: VolunteerRegistration, lookup: Resolver)
    requires Consistent(t)
    ensures Consistent(RegisterVolunteer(t, d, lookup).tables)
  {
    if VolunteerRegistrationValid(d) && !Taken(t.users, d.credentials) {
      var u := User(t.nextId, d.credentials.username, d.credentials.email, Volunteer);
      FreshWhenNotTaken(t.users, d.credentials, u);
      AddUserKeepsConsistent(t, u);
      NextIdHasNoProfile(t);
      KeysAppend(t.users, u, UserKey);
      var t1 := WithUser(t, u);
      AddVolunteerKeepsConsistent(t1, RegisteredVolunteerProfile(t1.nextId, u.id, d, lookup));
    }
  }

  lemma RegisterOrgKeepsConsistent(t: Tables, d: OrganizationRegistration, lookup: Resolver)
    requires Consistent(t)
    ensures Consistent(RegisterOrg(t, d, lookup).tables)
  {
    if OrganizationRegistrationValid(d) && !Taken(t.users, d.credentials) {
      var u := User(t.nextId, d.credentials.username, d.credentials.email, Org);
      FreshWhenNotTaken(t.users, d.credentials, u);
      AddUserKeepsConsistent(t, u);
      NextIdHasNoProfile(t);
      KeysAppend(t.users, u, UserKey);
      var t1 := WithUser(t, u);
      AddOrgKeepsConsistent(t1, RegisteredOrganizationProfile(t1.nextId, u.id, d, lookup));
    }
  }

  lemma UpdateVolunteerProfileKeepsConsistent(t: Tables, caller: Option<nat>, d: VolunteerProfileData, lookup: Resolver)
    requires Consistent(t)
    ensures Consistent(UpdateVolunteerProfile(t, caller, d, lookup).tables)
  {
    var p := PrincipalOf(t, caller);
    if IsVolunteer(p) && VolunteerOf(t, p.id).Some? && VolunteerProfileDataValid(d) {
      var k := VolunteerOf(t, p.id).value;
      ReplaceVolunteerKeepsConsistent(t, k, UpdatedVolunteerProfile(t.volunteers[k], d, lookup));
    }
  }

  lemma UpdateOrgProfileKeepsConsistent(t: Tables, caller: Option<nat>, d: OrganizationProfileData, partial: bool,
                                        lookup: Resolver)
    requires Consistent(t)
    ensures Consistent(UpdateOrgProfile(t, caller, d, partial, lookup).tables)
  {
    var p := PrincipalOf(t, caller);
    if IsOrganization(p) && OrgOf(t, p.id).Some? && OrganizationProfileDataValid(d, partial) {
      var k := OrgOf(t, p.id).value;
      ReplaceOrgKeepsConsistent(t, k, UpdatedOrganizationProfile(t.orgs[k], d, lookup));
    }
  }

  lemma CreateOpportunityKeepsConsistent(t: Tables, caller: Option<nat>, req: OpportunityRequest, lookup: Resolver)
    requires Consistent(t)
    ensures Consistent(CreateOpportunity(t, caller, req, lookup).tables)
  {
    var p := PrincipalOf(t, caller);
    var d := Writable(req);
    if IsAuthenticated(p) && p.role == Org && OpportunityDataValid(d, false) && OrgOf(t, p.id).Some? {
      var k := OrgOf(t, p.id).value;
      AddOpportunityKeepsConsistent(t, CreatedOpportunity(t.nextId, t.orgs[k].id, d, lookup, t.clock));
    }
  }

  lemma UpdateOpportunityKeepsConsistent(t: Tables, caller: Option<nat>, id: nat, req: OpportunityRequest,
                                         partial: bool, lookup: Resolver)
    requires Consistent(t)
    ensures Consistent(UpdateOpportunity(t, caller, id, req, partial, lookup).tables)
  {
    var g := OwnOpportunity(t, caller, id);
    if g.Ok? && OpportunityDataValid(Writable(req), partial) {
      var k := g.value;
      ReplaceOpportunityKeepsConsistent(t, k, UpdatedOpportunity(t.opportunities[k], Writable(req), lookup));
    }
  }

  lemma DeleteOpportunityKeepsConsistent(t: Tables, caller: Option<nat>, id: nat)
    requires Consistent(t)
    ensures Consistent(DeleteOpportunity(t, caller, id).tables)
  {
    if OwnOpportunity(t, caller, id).Ok? {
      CascadeKeepsConsistent(t, id);
    }
  }

  lemma ApplyKeepsConsistent(t: Tables, caller: Option<nat>, oppId: nat)
    requires Consistent(t)
    ensures Consistent(Apply(t, caller, oppId).tables)
  {
    var s := Apply(t, caller, oppId);
    ApplyCreatedWrites(t, caller, oppId);
    ApplyExistingChangesNothing(t, caller, oppId);
    if s.result.Ok? && s.result.value.1 == Created {
      CreatedApplicationKeepsConsistent(t, caller.value, oppId, s.result.value.0, s.tables.notifications[|t.notifications|]);
    }
  }

  /** The rows a created application adds keep the database consistent. */
  lemma CreatedApplicationKeepsConsistent(t: Tables, uid: nat, oppId: nat, a: Application, n: Notification)
    requires Consistent(t) && VolunteerOf(t, uid).Some? && OpportunityAt(t, oppId).Some?
    requires a == Application(t.nextId, oppId, t.volunteers[VolunteerOf(t, uid).value].id, Pending, t.clock)
    requires PairAt(t, oppId, a.volunteer).None?
    requires Some(n.user) == OrgUser(t.orgs, t.opportunities[OpportunityAt(t, oppId).value].organization)
    requires n.id == t.nextId + 1 && n.createdAt == t.clock + 1
    ensures Consistent(WithNotification(WithApplication(t, a), n))
  {
    FoundKeys(t, oppId, 0, uid);
    NoPairDiffers(t, oppId, a.volunteer, a);
    OrgUserIsUser(t, t.opportunities[OpportunityAt(t, oppId).value].organization);
    ApplicationWriteKeepsConsistent(t, a, n);
  }

  /** The rows a created application adds, as the consistency proof needs them. */
  lemma ApplyCreatedWrites(t: Tables, caller: Option<nat>, oppId: nat)
    requires OpportunitiesReference(t.opportunities, t.orgs)
    ensures var s := Apply(t, caller, oppId);
      s.result.Ok? && s.result.value.1 == Created ==>
        var a := s.result.value.0;
        var n := s.tables.notifications[|t.notifications|];
        && caller.Some? && VolunteerOf(t, caller.value).Some? && OpportunityAt(t, oppId).Some?
        && a == Application(t.nextId, oppId, t.volunteers[VolunteerOf(t, caller.value).value].id, Pending, t.clock)
        && PairAt(t, oppId, a.volunteer).None?
        && Some(n.user) == OrgUser(t.orgs, t.opportunities[OpportunityAt(t, oppId).value].organization)
        && n.id == t.nextId + 1 && n.createdAt == t.clock + 1
        && s.tables == WithNotification(WithApplication(t, a), n)
  {
  }

  /** A new application for a pair without one, then a notice, keep the database consistent. */
  lemma ApplicationWriteKeepsConsistent(t: Tables, a: Application, n: Notification)
    requires Consistent(t) && a.id == t.nextId && a.appliedAt == t.clock
    requires a.opportunity in Keys(t.opportunities, OpportunityKey) && a.volunteer in Keys(t.volunteers, VolunteerKey)
    requires forall i :: 0 <= i < |t.applications| ==> DifferentPair(t.applications[i], a)
    requires n.id == t.nextId + 1 && n.createdAt == t.clock + 1 && n.user in Keys(t.users, UserKey)
    ensures Consistent(WithNotification(WithApplication(t, a), n))
  {
    AddApplicationKeepsConsistent(t, a);
    AddNotificationKeepsConsistent(WithApplication(t, a), n);
  }

  lemma UpdateApplicationStatusKeepsConsistent(t: Tables, caller: Option<nat>, appId: nat, status: Option<string>)
    requires Consistent(t)
    ensures Consistent(UpdateApplicationStatus(t, caller, appId, status).tables)
  {
    var s := UpdateApplicationStatus(t, caller, appId, status);
    if s.result.Ok? {
      UpdateApplicationStatusWrites(t, caller, appId, status);
      var k := ApplicationAt(t, appId).value;
      var a := s.result.value;
      var n := s.tables.notifications[|t.notifications|];
      VolunteerUserIsUser(t, t.applications[k].volunteer);
      StatusWriteKeepsConsistent(t, k, a, n);
    }
  }

  /** A status written into one application, then a notice, keep the database consistent. */
  lemma StatusWriteKeepsConsistent(t: Tables, k: nat, a: Application, n: Notification)
    requires Consistent(t) && k < |t.applications| && a == t.applications[k].(status := a.status)
    requires n.id == t.nextId && n.createdAt == t.clock && n.user in Keys(t.users, UserKey)
    ensures Consistent(WithNotification(t.(applications := t.applications[k := a]), n))
  {
    ReplaceApplicationKeepsConsistent(t, k, a);
    AddNotificationKeepsConsistent(t.(applications := t.applications[k := a]), n);
  }

  lemma MarkNotificationReadKeepsConsistent(t: Tables, caller: Option<nat>, id: nat)
    requires Consistent(t)
    ensures Consistent(MarkNotificationRead(t, caller, id).tables)
  {
    var p := PrincipalOf(t, caller);
    if IsAuthenticated(p) && NotificationAt(t, id).Some? {
      var k := NotificationAt(t, id).value;
      ReplaceNotificationKeepsConsistent(t, k, t.notifications[k].(isRead := true));
    }
  }

  lemma LogHoursKeepsConsistent(t: Tables, caller: Option<nat>, d: HourLogData)
    requires Consistent(t)
    ensures Consistent(LogHours(t, caller, d).tables)
  {
    var s := LogHours(t, caller, d);
    if s.result.Ok? {
      LogHoursWrites(t, caller, d);
      FoundKeys(t, 0, d.application, 0);
      AddHourLogKeepsConsistent(t, s.result.value);
    }
  }

  lemma LeaveFeedbackKeepsConsistent(t: Tables, caller: Option<nat>, d: FeedbackData)
    requires Consistent(t)
    ensures Consistent(LeaveFeedback(t, caller, d).tables)
  {
    var s := LeaveFeedback(t, caller, d);
    if s.result.Ok? {
      LeaveFeedbackWrites(t, caller, d);
      var f := s.result.value;
      var n := s.tables.notifications[|t.notifications|];
      var k := ApplicationAt(t, d.application).value;
      FoundKeys(t, 0, d.application, caller.value);
      NoFeedbackFor(t, d.application);
      VolunteerUserIsUser(t, t.applications[k].volunteer);
      FeedbackWriteKeepsConsistent(t, f, n);
    }
  }

  /** A feedback row for an application without one, then a notice, keep the database consistent. */
  lemma FeedbackWriteKeepsConsistent(t: Tables, f: Feedback, n: Notification)
    requires Consistent(t) && f.id == t.nextId && f.createdAt == t.clock
    requires f.application in Keys(t.applications, ApplicationKey) && f.organization in Keys(t.orgs, OrgKey)
    requires ValidRating(f.rating)
    requires forall i :: 0 <= i < |t.feedback| ==> t.feedback[i].application != f.application
    requires n.id == t.nextId + 1 && n.createdAt == t.clock + 1 && n.user in Keys(t.users, UserKey)
    ensures Consistent(WithNotification(WithFeedback(t, f), n))
  {
    AddFeedbackKeepsConsistent(t, f);
    AddNotificationKeepsConsistent(WithFeedback(t, f), n);
  }

  lemma NoFeedbackFor(t: Tables, appId: nat)
    requires FeedbackFor(t, appId).None?
    ensures forall i :: 0 <= i < |t.feedback| ==> t.feedback[i].application != appId
  {
    assert forall i :: 0 <= i < |t.feedback| ==> !((f: Feedback) => f.application == appId)(t.feedback[i]);
  }

  /**
   * A feedback the endpoint accepts comes from the caller's organization, which owns the
   * application's opportunity; it is the only new feedback row, and exactly one unread notice
   * carrying the rating goes to the volunteer's user.
   */
  lemma LeaveFeedbackWrites(t: Tables, caller: Option<nat>, d: FeedbackData)
    requires ApplicationsReference(t.applications, t.opportunities, t.volunteers)
    ensures var s := LeaveFeedback(t, caller, d);
      s.result.Ok? ==>
        var f := s.result.value;
        var n := s.tables.notifications[|t.notifications|];
        && caller.Some? && IsOrganization(PrincipalOf(t, caller))
        && ApplicationAt(t, d.application).Some? && FeedbackFor(t, d.application).None? && ValidRating(d.rating)
        && OrgOf(t, caller.value).Some?
        && var app := t.applications[ApplicationAt(t, d.application).value];
        && var org := t.orgs[OrgOf(t, caller.value).value];
        && OpportunityAt(t, app.opportunity).Some?
        && t.opportunities[OpportunityAt(t, app.opportunity).value].organization == org.id
        && f == Feedback(t.nextId, d.application, org.id, d.rating, d.comment.GetOr(""), t.clock)
        && s.tables.feedback == t.feedback + [f]
        && |s.tables.notifications| == |t.notifications| + 1
        && s.tables.notifications == t.notifications + [n]
        && n.id == t.nextId + 1 && n.createdAt == t.clock + 1
        && Some(n.user) == VolunteerUser(t.volunteers, app.volunteer)
        && n.kind == TypeTag(FeedbackLeft) && !n.isRead && Contains(n.message, NatToString(d.rating as nat))
        && s.tables.(feedback := t.feedback, notifications := t.notifications) == t.(nextId := t.nextId + 2, clock := t.clock + 2)
        && s.tables == WithNotification(WithFeedback(t, f), n)
  {
    var s := LeaveFeedback(t, caller, d);
    if s.result.Ok? {
      var p := PrincipalOf(t, caller);
      var k := ApplicationAt(t, d.application).value;
      var org := t.orgs[OrgOf(t, p.id).value];
      ApplicationRowsExist(t, k);
      var opp := t.opportunities[OpportunityAt(t, t.applications[k].opportunity).value];
      FeedbackMessageNamesRating(org.name, opp.title, d.rating as nat);
    }
  }

  // Apply

  /** Which check refuses an application, in the order the view runs them. */
  lemma ApplyRefusals(t: Tables, caller: Option<nat>, oppId: nat)
    requires OpportunitiesReference(t.opportunities, t.orgs)
    ensures var s := Apply(t, caller, oppId); var p := PrincipalOf(t, caller);
      && (s.result == Err(NotAuthenticated) <==> p.Anonymous?)
      && (s.result == Err(Forbidden) <==> p.Member? && p.role != Volunteer)
      && (s.result == Err(ServerError) <==> IsVolunteer(p) && !p.hasVolunteerProfile)
      && (s.result == Err(NotFound) <==> IsVolunteer(p) && p.hasVolunteerProfile && OpportunityAt(t, oppId).None?)
      && (s.result.Ok? <==> IsVolunteer(p) && p.hasVolunteerProfile && OpportunityAt(t, oppId).Some?)
  {
  }

  /**
   * Get-or-create on (opportunity, volunteer): the answer is the caller's application to that
   * opportunity, and it is an existing one exactly when the pair already had an application.
   */
  lemma ApplyReturnsPair(t: Tables, caller: Option<nat>, oppId: nat)
    requires OpportunitiesReference(t.opportunities, t.orgs)
    ensures var s := Apply(t, caller, oppId);
      s.result.Ok? ==>
        var vol := t.volunteers[VolunteerOf(t, caller.value).value].id;
        && caller.Some? && VolunteerOf(t, caller.value).Some?
        && s.result.value.0.opportunity == oppId && s.result.value.0.volunteer == vol
        && (s.result.value.1 == Existing <==> PairAt(t, oppId, vol).Some?)
  {
  }

  /** An existing application is returned as stored, and nothing changes. */
  lemma ApplyExistingChangesNothing(t: Tables, caller: Option<nat>, oppId: nat)
    requires OpportunitiesReference(t.opportunities, t.orgs)
    ensures var s := Apply(t, caller, oppId);
      s.result.Ok? && s.result.value.1 == Existing ==>
        && s.tables == t
        && PairAt(t, oppId, s.result.value.0.volunteer).Some?
        && s.result.value.0 == t.applications[PairAt(t, oppId, s.result.value.0.volunteer).value]
  {
  }

  /** A created application is pending, new and the only new application row. */
  lemma ApplyCreatedIsPending(t: Tables, caller: Option<nat>, oppId: nat)
    requires OpportunitiesReference(t.opportunities, t.orgs)
    ensures var s := Apply(t, caller, oppId);
      s.result.Ok? && s.result.value.1 == Created ==>
        var a := s.result.value.0;
        && a == Application(t.nextId, oppId, a.volunteer, Pending, t.clock)
        && s.tables.applications == t.applications + [a]
        && s.tables.(applications := t.applications, notifications := t.notifications)
           == t.(nextId := t.nextId + 2, clock := t.clock + 2)
  {
  }

  /**
   * Creating an application appends exactly one notice: unread, to the user of the
   * organization owning the opportunity, naming the applicant and the opportunity.
   */
  lemma ApplyCreatedNotifies(t: Tables, caller: Option<nat>, oppId: nat)
    requires OpportunitiesReference(t.opportunities, t.orgs)
    ensures var s := Apply(t, caller, oppId);
      s.result.Ok? && s.result.value.1 == Created ==>
        var opp := t.opportunities[OpportunityAt(t, oppId).value];
        var n := s.tables.notifications[|t.notifications|];
        && caller.Some? && UserAt(t, caller.value).Some? && OpportunityAt(t, oppId).Some?
        && |s.tables.notifications| == |t.notifications| + 1
        && s.tables.notifications[..|t.notifications|] == t.notifications
        && Some(n.user) == OrgUser(t.orgs, opp.organization)
        && n.kind == TypeTag(ApplicationCreated) && n.title == CreatedTitle && !n.isRead
        && Contains(n.message, t.users[UserAt(t, caller.value).value].username) && Contains(n.message, opp.title)
        && n.id == t.nextId + 1 && n.createdAt == t.clock + 1
        && s.tables == WithNotification(WithApplication(t, s.result.value.0), n)
  {
    var s := Apply(t, caller, oppId);
    if s.result.Ok? && s.result.value.1 == Created {
      var opp := t.opportunities[OpportunityAt(t, oppId).value];
      CreatedMessageNames(t.users[UserAt(t, caller.value).value].username, opp.title);
    }
  }

  /**
   * After a successful apply, the returned application is stored and is the only one for its
   * (opportunity, volunteer) pair, provided the pair was unique before.
   */
  lemma ApplyLeavesOnePair(t: Tables, caller: Option<nat>, oppId: nat)
    requires OpportunitiesReference(t.opportunities, t.orgs) && Pairwise(t.applications, DifferentPair)
    ensures var s := Apply(t, caller, oppId);
      s.result.Ok? ==>
        var a := s.result.value.0;
        var apps := s.tables.applications;
        && (exists i :: 0 <= i < |apps| && apps[i] == a)
        && (forall i :: 0 <= i < |apps| && apps[i].opportunity == a.opportunity && apps[i].volunteer == a.volunteer
              ==> apps[i] == a)
  {
    var s := Apply(t, caller, oppId);
    if s.result.Ok? {
      ApplyReturnsPair(t, caller, oppId);
      ApplyExistingChangesNothing(t, caller, oppId);
      ApplyCreatedIsPending(t, caller, oppId);
      var a := s.result.value.0;
      var apps := s.tables.applications;
      if s.result.value.1 == Existing {
        var m := PairAt(t, oppId, a.volunteer).value;
        assert apps[m] == a;
        UniqueAt(apps, m);
      } else {
        NoPairDiffers(t, oppId, a.volunteer, a);
        assert apps[|t.applications|] == a;
      }
    }
  }

  /** In a table without two rows for one pair, the row at `m` is the only row for its pair. */
  lemma UniqueAt(apps: seq<Application>, m: nat)
    requires Pairwise(apps, DifferentPair) && m < |apps|
    ensures forall i :: (0 <= i < |apps| && apps[i].opportunity == apps[m].opportunity
      && apps[i].volunteer == apps[m].volunteer) ==> i == m
  {
  }

  /** Applying again to the same opportunity returns the same application and changes nothing. */
  lemma ApplyAgainIsExisting(t: Tables, caller: Option<nat>, oppId: nat)
    requires OpportunitiesReference(t.opportunities, t.orgs)
    ensures var s := Apply(t, caller, oppId);
      s.result.Ok? ==>
        && OpportunitiesReference(s.tables.opportunities, s.tables.orgs)
        && Apply(s.tables, caller, oppId) == Step(s.tables, Ok((s.result.value.0, Existing)))
  {
    var s := Apply(t, caller, oppId);
    if s.result.Ok? {
      ApplyReturnsPair(t, caller, oppId);
      ApplyExistingChangesNothing(t, caller, oppId);
      ApplyCreatedIsPending(t, caller, oppId);
      if s.result.value.1 == Created {
        var a := s.result.value.0;
        var t1 := s.tables;
        assert t1.users == t.users && t1.volunteers == t.volunteers && t1.orgs == t.orgs;
        assert t1.opportunities == t.opportunities;
        SamePrincipal(t, t1, caller);
        FindAppend(t.applications, a, (x: Application) => x.opportunity == oppId && x.volunteer == a.volunteer);
        assert PairAt(t1, oppId, a.volunteer) == Some(|t.applications|);
      }
    }
  }

  // LogHours

  /**
   * Which check refuses an hour log: the serializer's checks come before the view's ownership
   * check, and a log for someone else's application fails with a server error.
   */
  lemma LogHoursRefusals(t: Tables, caller: Option<nat>, d: HourLogData)
    ensures var s := LogHours(t, caller, d); var p := PrincipalOf(t, caller); var k := ApplicationAt(t, d.application);
      && (s.result == Err(NotAuthenticated) <==> p.Anonymous?)
      && (s.result == Err(Forbidden) <==> p.Member? && p.role != Volunteer)
      && (s.result == Err(Invalid) <==> IsVolunteer(p) && (k.None? || !HourLogShapeValid(d)))
      && (s.result == Err(ServerError) <==>
            IsVolunteer(p) && k.Some? && HourLogShapeValid(d) && VolunteerUser(t.volunteers, t.applications[k.value].volunteer) != Some(p.id))
      && (s.result.Ok? <==>
            IsVolunteer(p) && k.Some? && HourLogShapeValid(d) && VolunteerUser(t.volunteers, t.applications[k.value].volunteer) == Some(p.id))
  {
  }

  /** An accepted hour log is the one new row, carrying the submitted values and an empty note by default. */
  lemma LogHoursWrites(t: Tables, caller: Option<nat>, d: HourLogData)
    ensures var s := LogHours(t, caller, d);
      s.result.Ok? ==>
        && ApplicationAt(t, d.application).Some? && ValidHours(d.hours)
        && s.result.value == HourLog(t.nextId, d.application, d.workDate, d.hours, d.note.GetOr(""), t.clock)
        && s.tables == WithHourLog(t, s.result.value)
  {
  }

  /** Hours may be logged against an application in any status: changing the status changes no answer. */
  lemma LogHoursIgnoresStatus(t: Tables, caller: Option<nat>, d: HourLogData, k: nat, st: Status)
    requires k < |t.applications|
    ensures var t' := t.(applications := t.applications[k := t.applications[k].(status := st)]);
      LogHours(t', caller, d).result == LogHours(t, caller, d).result
  {
    var t' := t.(applications := t.applications[k := t.applications[k].(status := st)]);
    SamePrincipal(t, t', caller);
    FindReplace(t.applications, k, t.applications[k].(status := st), (a: Application) => a.id == d.application);
    assert ApplicationAt(t', d.application) == ApplicationAt(t, d.application);
  }

  // UpdateApplicationStatus

  /** Which check refuses a status update, in the order the view runs them. */
  lemma UpdateApplicationStatusRefusals(t: Tables, caller: Option<nat>, appId: nat, status: Option<string>)
    requires ApplicationsReference(t.applications, t.opportunities, t.volunteers)
    ensures var s := UpdateApplicationStatus(t, caller, appId, status);
      var p := PrincipalOf(t, caller); var k := ApplicationAt(t, appId);
      var owner := k.Some? && IsOrgOwnerViaApplication(p, t.applications[k.value], t.opportunities, t.orgs);
      var parses := status.None? || ParseStatus(status.value).Some?;
      && (s.result == Err(NotAuthenticated) <==> p.Anonymous?)
      && (s.result == Err(NotFound) <==> IsOrganization(p) && k.None?)
      && (s.result == Err(Forbidden) <==> p.Member? && (p.role != Org || (k.Some? && !owner)))
      && (s.result == Err(Invalid) <==> IsOrganization(p) && owner && !parses)
      && (s.result.Ok? <==> IsOrganization(p) && owner && parses)
  {
  }

  /**
   * An accepted status update rewrites the status of that one application and nothing else
   * in it, and sends one unread notice naming the new status to the volunteer's user, also
   * when the status did not change.
   */
  lemma UpdateApplicationStatusWrites(t: Tables, caller: Option<nat>, appId: nat, status: Option<string>)
    requires ApplicationsReference(t.applications, t.opportunities, t.volunteers)
    ensures var s := UpdateApplicationStatus(t, caller, appId, status);
      s.result.Ok? ==>
        var a := s.result.value;
        var n := s.tables.notifications[|t.notifications|];
        && ApplicationAt(t, appId).Some?
        && var k := ApplicationAt(t, appId).value;
        && a == t.applications[k].(status := a.status)
        && (if status.Some? then ParseStatus(status.value) == Some(a.status) else a.status == t.applications[k].status)
        && s.tables.applications == t.applications[k := a]
        && s.tables.notifications == t.notifications + [n]
        && Some(n.user) == VolunteerUser(t.volunteers, a.volunteer)
        && n.kind == TypeTag(ApplicationStatusChanged) && n.title == StatusChangedTitle && !n.isRead
        && Contains(n.message, StatusValue(a.status))
        && n.id == t.nextId && n.createdAt == t.clock
        && s.tables == WithNotification(t.(applications := t.applications[k := a]), n)
  {
    var s := UpdateApplicationStatus(t, caller, appId, status);
    if s.result.Ok? {
      var k := ApplicationAt(t, appId).value;
      ApplicationRowsExist(t, k);
      var opp := t.opportunities[OpportunityAt(t, t.applications[k].opportunity).value];
      StatusMessageNamesStatus(opp.title, s.result.value.status);
    }
  }

  // MarkNotificationRead

  /** Only the notification's own user may mark it; anyone else gets a refusal, not a not-found. */
  lemma MarkNotificationReadRefusals(t: Tables, caller: Option<nat>, id: nat)
    ensures var s := MarkNotificationRead(t, caller, id); var p := PrincipalOf(t, caller); var k := NotificationAt(t, id);
      && (s.result == Err(NotAuthenticated) <==> p.Anonymous?)
      && (s.result == Err(NotFound) <==> p.Member? && k.None?)
      && (s.result == Err(Forbidden) <==> p.Member? && k.Some? && t.notifications[k.value].user != p.id)
      && (s.result.Ok? <==> p.Member? && k.Some? && t.notifications[k.value].user == p.id)
  {
  }

  /** Marking sets the read flag of that one notification and changes nothing else. */
  lemma MarkNotificationReadWrites(t: Tables, caller: Option<nat>, id: nat)
    ensures var s := MarkNotificationRead(t, caller, id);
      s.result.Ok? ==>
        && NotificationAt(t, id).Some?
        && var k := NotificationAt(t, id).value;
        && s.result.value == t.notifications[k].(isRead := true)
        && s.tables == t.(notifications := t.notifications[k := s.result.value])
  {
  }

  /** Marking a notification twice answers and leaves the database as marking it once. */
  lemma MarkNotificationReadIdempotent(t: Tables, caller: Option<nat>, id: nat)
    ensures var s := MarkNotificationRead(t, caller, id);
      MarkNotificationRead(s.tables, caller, id) == s
  {
    var s := MarkNotificationRead(t, caller, id);
    if s.result.Ok? {
      var k := NotificationAt(t, id).value;
      var n := s.result.value;
      SamePrincipal(t, s.tables, caller);
      FindReplace(t.notifications, k, n, (x: Notification) => x.id == id);
      assert NotificationAt(s.tables, id) == Some(k);
      assert s.tables.notifications[k].(isRead := true) == n;
      assert s.tables.notifications[k := n] == s.tables.notifications;
    }
  }

  /** Marking a notification that is already read changes nothing. */
  lemma MarkReadNotificationChangesNothing(t: Tables, caller: Option<nat>, id: nat)
    requires NotificationAt(t, id).Some? && t.notifications[NotificationAt(t, id).value].isRead
    ensures MarkNotificationRead(t, caller, id).tables == t
  {
    var k := NotificationAt(t, id).value;
    assert t.notifications[k].(isRead := true) == t.notifications[k];
    assert t.notifications[k := t.notifications[k]] == t.notifications;
  }

  // The inherited full update of a notification

  /**
   * The full update refuses only the anonymous caller, an unknown id and an invalid body; it
   * never answers 403 (each an iff).
   */
  lemma ReplaceNotificationRefusals(t: Tables, caller: Option<nat>, id: nat, d: NotificationData)
    ensures var s := ReplaceNotification(t, caller, id, d); var p := PrincipalOf(t, caller);
      var k := NotificationAt(t, id);
      && (s.result == Err(NotAuthenticated) <==> p.Anonymous?)
      && (s.result == Err(NotFound) <==> p.Member? && k.None?)
      && (s.result == Err(Invalid) <==> p.Member? && k.Some? && !NotificationDataValid(d))
      && (s.result.Ok? <==> p.Member? && k.Some? && NotificationDataValid(d))
      && s.result != Err(Forbidden)
  {
  }

  /**
   * Any signed-in user rewrites another user's notification: its type, title and message become
   * the body's, and it still belongs to its owner.
   */
  lemma ReplaceNotificationByStranger(t: Tables, caller: Option<nat>, id: nat, d: NotificationData)
    requires caller.Some? && UserAt(t, caller.value).Some?
    requires NotificationAt(t, id).Some? && t.notifications[NotificationAt(t, id).value].user != caller.value
    requires NotificationDataValid(d)
    ensures var s := ReplaceNotification(t, caller, id, d); var k := NotificationAt(t, id).value;
      && s.result.Ok?
      && s.tables.notifications[k].user == t.notifications[k].user != caller.value
      && s.tables.notifications[k].kind == d.kind.value
      && s.tables.notifications[k].title == d.title.value
      && s.tables.notifications[k].message == d.message.value
  {
  }

  /**
   * With the owner check, a notification changes only at its own user's request: a stranger is
   * refused with 403 and the database is untouched, and the owner gets what the update as
   * written does.
   */
  lemma OwnReplaceNotificationGuards(t: Tables, caller: Option<nat>, id: nat, d: NotificationData)
    ensures var s := OwnReplaceNotification(t, caller, id, d); var p := PrincipalOf(t, caller);
      var k := NotificationAt(t, id);
      && (s.result == Err(Forbidden) <==> p.Member? && k.Some? && t.notifications[k.value].user != p.id)
      && (s.result == Err(Forbidden) ==> s.tables == t)
      && (s.result != Err(Forbidden) ==> s == ReplaceNotification(t, caller, id, d))
      && (s.tables != t ==> p.Member? && t.notifications[k.value].user == p.id)
  {
    ReplaceNotificationRefusals(t, caller, id, d);
  }

  // LeaveFeedback

  /**
   * Which check refuses feedback: the serializer (unknown application, feedback already left,
   * rating outside [1, 5]) before the view's ownership check, whose failure is a server error.
   */
  lemma LeaveFeedbackRefusals(t: Tables, caller: Option<nat>, d: FeedbackData)
    requires ApplicationsReference(t.applications, t.opportunities, t.volunteers)
    ensures var s := LeaveFeedback(t, caller, d);
      var p := PrincipalOf(t, caller); var k := ApplicationAt(t, d.application);
      var accepted := k.Some? && FeedbackFor(t, d.application).None? && ValidRating(d.rating);
      var owns := k.Some? && p.Member? && OrgOf(t, p.id).Some? && OpportunityAt(t, t.applications[k.value].opportunity).Some?
        && t.opportunities[OpportunityAt(t, t.applications[k.value].opportunity).value].organization == t.orgs[OrgOf(t, p.id).value].id;
      && (s.result == Err(NotAuthenticated) <==> p.Anonymous?)
      && (s.result == Err(Forbidden) <==> p.Member? && p.role != Org)
      && (s.result == Err(Invalid) <==> IsOrganization(p) && !accepted)
      && (s.result == Err(ServerError) <==> IsOrganization(p) && accepted && !owns)
      && (s.result.Ok? <==> IsOrganization(p) && accepted && owns)
  {
    var s := LeaveFeedback(t, caller, d);
    var k := ApplicationAt(t, d.application);
    if k.Some? {
      ApplicationRowsExist(t, k.value);
    }
  }

  /** Once an application has feedback, any further feedback for it is refused as invalid. */
  lemma LeaveFeedbackOnce(t: Tables, caller: Option<nat>, d: FeedbackData, caller': Option<nat>, d': FeedbackData)
    requires ApplicationsReference(t.applications, t.opportunities, t.volunteers)
    ensures var s := LeaveFeedback(t, caller, d);
      s.result.Ok? ==>
        && ApplicationsReference(s.tables.applications, s.tables.opportunities, s.tables.volunteers)
        && (d'.application == d.application && IsOrganization(PrincipalOf(s.tables, caller')) ==>
              LeaveFeedback(s.tables, caller', d').result == Err(Invalid))
  {
    var s := LeaveFeedback(t, caller, d);
    if s.result.Ok? {
      LeaveFeedbackWrites(t, caller, d);
      var f := s.result.value;
      var t1 := s.tables;
      assert t1.applications == t.applications && t1.opportunities == t.opportunities && t1.volunteers == t.volunteers;
      FindAppend(t.feedback, f, (x: Feedback) => x.application == d.application);
      assert FeedbackFor(t1, d.application).Some?;
      assert ApplicationAt(t1, d.application) == ApplicationAt(t, d.application);
    }
  }

  // Opportunities

  /** With ids ascending, the user of the organization at index `k` is found by its id. */
  lemma OrgUserOfIndex(orgs: seq<OrganizationProfile>, k: nat)
    requires Increasing(orgs, OrgKey) && k < |orgs|
    ensures OrgUser(orgs, orgs[k].id) == Some(orgs[k].user)
  {
    var r := OrgUser(orgs, orgs[k].id);
    var i :| 0 <= i < |orgs| && orgs[i].id == orgs[k].id && orgs[i].user == r.value;
    var key: OrganizationProfile -> nat := OrgKey;
    assert key(orgs[i]) == key(orgs[k]);
  }

  /**
   * Only the organization role may create; the serializer runs next, and an organization user
   * without a profile fails with a server error.
   */
  lemma CreateOpportunityRefusals(t: Tables, caller: Option<nat>, req: OpportunityRequest, lookup: Resolver)
    ensures var s := CreateOpportunity(t, caller, req, lookup); var p := PrincipalOf(t, caller);
      var valid := OpportunityDataValid(Writable(req), false);
      && (s.result == Err(NotAuthenticated) <==> p.Anonymous?)
      && (s.result == Err(Forbidden) <==> p.Member? && p.role != Org)
      && (s.result == Err(Invalid) <==> IsOrganization(p) && !valid)
      && (s.result == Err(ServerError) <==> IsOrganization(p) && valid && !p.hasOrgProfile)
      && (s.result.Ok? <==> IsOrganization(p) && valid && p.hasOrgProfile)
  {
  }

  /**
   * A created opportunity is the one new row, and it belongs to the caller's own organization
   * profile: the creator passes the owner check of the detail endpoint at once.
   */
  lemma CreateOpportunityOwnedByCaller(t: Tables, caller: Option<nat>, req: OpportunityRequest, lookup: Resolver)
    requires Increasing(t.orgs, OrgKey)
    ensures var s := CreateOpportunity(t, caller, req, lookup);
      s.result.Ok? ==>
        var o := s.result.value;
        && o.id == t.nextId && o.createdAt == t.clock
        && s.tables == WithOpportunity(t, o)
        && IsOrgOwnerOfOpportunity(PrincipalOf(s.tables, caller), o, s.tables.orgs)
  {
    var s := CreateOpportunity(t, caller, req, lookup);
    if s.result.Ok? {
      OrgUserOfIndex(t.orgs, OrgOf(t, caller.value).value);
      SamePrincipal(t, s.tables, caller);
    }
  }

  /** Owner, coordinates and creation time in the body change nothing. */
  lemma CreateOpportunityIgnoresReadOnly(t: Tables, caller: Option<nat>, req: OpportunityRequest, lookup: Resolver,
                                         org: Option<nat>, lat: Option<real>, lng: Option<real>, at: Option<nat>)
    ensures CreateOpportunity(t, caller, req.(organization := org, latitude := lat, longitude := lng, createdAt := at), lookup)
         == CreateOpportunity(t, caller, req, lookup)
  {
    ReadOnlyFieldsIgnored(req, org, lat, lng, at);
  }

  /** Without location text the geocoder is never asked. */
  lemma CreateOpportunityWithoutLocation(t: Tables, caller: Option<nat>, req: OpportunityRequest,
                                         lookup: Resolver, lookup': Resolver)
    requires Writable(req).locationText.GetOr("") == ""
    ensures CreateOpportunity(t, caller, req, lookup) == CreateOpportunity(t, caller, req, lookup')
  {
  }

  /** The detail endpoint's guards, in order: authentication, role, lookup, ownership. */
  lemma OwnOpportunityRefusals(t: Tables, caller: Option<nat>, id: nat)
    ensures var r := OwnOpportunity(t, caller, id); var p := PrincipalOf(t, caller); var k := OpportunityAt(t, id);
      var owner := k.Some? && IsOrgOwnerOfOpportunity(p, t.opportunities[k.value], t.orgs);
      && (r == Err(NotAuthenticated) <==> p.Anonymous?)
      && (r == Err(NotFound) <==> IsOrganization(p) && k.None?)
      && (r == Err(Forbidden) <==> p.Member? && (p.role != Org || (k.Some? && !owner)))
      && (r.Ok? <==> IsOrganization(p) && owner)
      && (r.Ok? ==> k == Some(r.value))
  {
  }

  /**
   * An accepted update rewrites that one opportunity and keeps its id, owner and creation
   * time, so the caller still owns it; read-only fields in the body change nothing.
   */
  lemma UpdateOpportunityWrites(t: Tables, caller: Option<nat>, id: nat, req: OpportunityRequest, partial: bool,
                                lookup: Resolver)
    ensures var s := UpdateOpportunity(t, caller, id, req, partial, lookup);
      && (s.result.Err? ==> s.result.error == Invalid || OwnOpportunity(t, caller, id) == Err(s.result.error))
      && (s.result == Err(Invalid) <==> OwnOpportunity(t, caller, id).Ok? && !OpportunityDataValid(Writable(req), partial))
      && (s.result.Ok? ==>
        && OpportunityAt(t, id).Some?
        && var k := OpportunityAt(t, id).value;
        && var o := s.result.value;
        && o.id == id && o.organization == t.opportunities[k].organization && o.createdAt == t.opportunities[k].createdAt
        && s.tables == t.(opportunities := t.opportunities[k := o])
        && IsOrgOwnerOfOpportunity(PrincipalOf(s.tables, caller), o, s.tables.orgs))
  {
    var s := UpdateOpportunity(t, caller, id, req, partial, lookup);
    OwnOpportunityRefusals(t, caller, id);
    if s.result.Ok? {
      SamePrincipal(t, s.tables, caller);
    }
  }

  lemma UpdateOpportunityIgnoresReadOnly(t: Tables, caller: Option<nat>, id: nat, req: OpportunityRequest, partial: bool,
                                         lookup: Resolver, org: Option<nat>, lat: Option<real>, lng: Option<real>,
                                         at: Option<nat>)
    ensures UpdateOpportunity(t, caller, id, req.(organization := org, latitude := lat, longitude := lng, createdAt := at), partial, lookup)
         == UpdateOpportunity(t, caller, id, req, partial, lookup)
  {
    ReadOnlyFieldsIgnored(req, org, lat, lng, at);
  }

  /**
   * A delete removes the opportunity and every application to it; users, profiles and
   * notifications stay; and deleting it again finds nothing.
   */
  lemma DeleteOpportunityRemoves(t: Tables, caller: Option<nat>, id: nat)
    ensures var s := DeleteOpportunity(t, caller, id);
      && (s.result.Err? ==> OwnOpportunity(t, caller, id) == Err(s.result.error))
      && (s.result.Ok? ==>
        && OwnOpportunity(t, caller, id).Ok?
        && OpportunityAt(s.tables, id).None?
        && (forall i :: 0 <= i < |s.tables.applications| ==> s.tables.applications[i].opportunity != id)
        && s.tables.users == t.users && s.tables.volunteers == t.volunteers && s.tables.orgs == t.orgs
        && s.tables.notifications == t.notifications
        && DeleteOpportunity(s.tables, caller, id).result == Err(NotFound))
  {
    var s := DeleteOpportunity(t, caller, id);
    if s.result.Ok? {
      var gone := ApplicationsTo(t.applications, id);
      var keep := (o: Opportunity) => o.id != id;
      FilterMembership(t.opportunities, keep);
      FilterMembership(t.applications, (a: Application) => a.opportunity != id);
      assert forall i :: 0 <= i < |s.tables.opportunities| ==> !((o: Opportunity) => o.id == id)(s.tables.opportunities[i]);
      assert OpportunityAt(s.tables, id).None?;
      SamePrincipal(t, s.tables, caller);
    }
  }

  // Registration

  lemma RegisterVolunteerRefusals(t: Tables, d: VolunteerRegistration, lookup: Resolver)
    ensures var s := RegisterVolunteer(t, d, lookup);
      && (s.result == Err(Invalid) <==> !VolunteerRegistrationValid(d))
      && (s.result == Err(IntegrityError) <==> VolunteerRegistrationValid(d) && Taken(t.users, d.credentials))
      && (s.result.Ok? <==> VolunteerRegistrationValid(d) && !Taken(t.users, d.credentials))
  {
  }

  lemma RegisterOrgRefusals(t: Tables, d: OrganizationRegistration, lookup: Resolver)
    ensures var s := RegisterOrg(t, d, lookup);
      && (s.result == Err(Invalid) <==> !OrganizationRegistrationValid(d))
      && (s.result == Err(IntegrityError) <==> OrganizationRegistrationValid(d) && Taken(t.users, d.credentials))
      && (s.result.Ok? <==> OrganizationRegistrationValid(d) && !Taken(t.users, d.credentials))
  {
  }

  /** No user carries the id about to be handed out. */
  lemma NextIdHasNoUser(t: Tables)
    requires IdsFresh(t)
    ensures UserAt(t, t.nextId).None?
  {
    var key: User -> nat := UserKey;
    assert forall i :: 0 <= i < |t.users| ==> key(t.users[i]) < t.nextId;
  }

  /** After registering, the credentials are taken: registering them again, in either role, fails. */
  lemma RegisteringTakesCredentials(t: Tables, d: VolunteerRegistration, e: OrganizationRegistration, lookup: Resolver)
    ensures var s := RegisterVolunteer(t, d, lookup);
      s.result.Ok? ==> forall c: Credentials {:trigger Taken(s.tables.users, c)} ::
        c.username == d.credentials.username || c.email == d.credentials.email ==> Taken(s.tables.users, c)
    ensures var s := RegisterOrg(t, e, lookup);
      s.result.Ok? ==> forall c: Credentials {:trigger Taken(s.tables.users, c)} ::
        c.username == e.credentials.username || c.email == e.credentials.email ==> Taken(s.tables.users, c)
  {
    var s := RegisterVolunteer(t, d, lookup);
    if s.result.Ok? {
      assert s.tables.users[|t.users|] == s.result.value;
    }
    var s' := RegisterOrg(t, e, lookup);
    if s'.result.Ok? {
      assert s'.tables.users[|t.users|] == s'.result.value;
    }
  }

  /**
   * A registered volunteer is a new user with the volunteer role and the next id; presenting
   * that id, the user passes the volunteer checks and has a volunteer profile and no other.
   */
  lemma RegisterVolunteerSignsIn(t: Tables, d: VolunteerRegistration, lookup: Resolver)
    requires IdsFresh(t) && ReferencesExist(t)
    ensures var s := RegisterVolunteer(t, d, lookup);
      s.result.Ok? ==>
        var u := s.result.value;
        var p := PrincipalOf(s.tables, Some(u.id));
        && u == User(t.nextId, d.credentials.username, d.credentials.email, Volunteer)
        && s.tables.users == t.users + [u]
        && IsVolunteer(p) && p.hasVolunteerProfile && !p.hasOrgProfile
        && s.tables.volunteers[VolunteerOf(s.tables, u.id).value].id == t.nextId + 1
  {
    var s := RegisterVolunteer(t, d, lookup);
    if s.result.Ok? {
      var u := s.result.value;
      var v := s.tables.volunteers[|t.volunteers|];
      NextIdHasNoUser(t);
      NextIdHasNoProfile(t);
      FindAppend(t.users, u, (x: User) => x.id == u.id);
      FindAppend(t.volunteers, v, (x: VolunteerProfile) => x.user == u.id);
      assert s.tables.volunteers == t.volunteers + [v];
      assert VolunteerOf(s.tables, u.id) == Some(|t.volunteers|);
      assert forall i :: 0 <= i < |t.orgs| ==> !((o: OrganizationProfile) => o.user == u.id)(t.orgs[i]);
    }
  }

  /** The organization counterpart: the organization role and an organization profile. */
  lemma RegisterOrgSignsIn(t: Tables, d: OrganizationRegistration, lookup: Resolver)
    requires IdsFresh(t) && ReferencesExist(t)
    ensures var s := RegisterOrg(t, d, lookup);
      s.result.Ok? ==>
        var u := s.result.value;
        var p := PrincipalOf(s.tables, Some(u.id));
        && u == User(t.nextId, d.credentials.username, d.credentials.email, Org)
        && s.tables.users == t.users + [u]
        && IsOrganization(p) && p.hasOrgProfile && !p.hasVolunteerProfile
        && s.tables.orgs[OrgOf(s.tables, u.id).value].name == d.name
  {
    var s := RegisterOrg(t, d, lookup);
    if s.result.Ok? {
      var u := s.result.value;
      var o := s.tables.orgs[|t.orgs|];
      NextIdHasNoUser(t);
      NextIdHasNoProfile(t);
      FindAppend(t.users, u, (x: User) => x.id == u.id);
      FindAppend(t.orgs, o, (x: OrganizationProfile) => x.user == u.id);
      assert s.tables.orgs == t.orgs + [o];
      assert OrgOf(s.tables, u.id) == Some(|t.orgs|);
      assert forall i :: 0 <= i < |t.volunteers| ==> !((v: VolunteerProfile) => v.user == u.id)(t.volunteers[i]);
    }
  }

  // Profiles

  lemma UpdateVolunteerProfileRefusals(t: Tables, caller: Option<nat>, d: VolunteerProfileData, lookup: Resolver)
    ensures var s := UpdateVolunteerProfile(t, caller, d, lookup); var p := PrincipalOf(t, caller);
      && (s.result == Err(NotAuthenticated) <==> p.Anonymous?)
      && (s.result == Err(Forbidden) <==> p.Member? && p.role != Volunteer)
      && (s.result == Err(ServerError) <==> IsVolunteer(p) && !p.hasVolunteerProfile)
      && (s.result == Err(Invalid) <==> IsVolunteer(p) && p.hasVolunteerProfile && !VolunteerProfileDataValid(d))
      && (s.result.Ok? <==> IsVolunteer(p) && p.hasVolunteerProfile && VolunteerProfileDataValid(d))
  {
  }

  /** A profile update rewrites the caller's own profile row, keeping its id and user, and nothing else. */
  lemma UpdateVolunteerProfileWrites(t: Tables, caller: Option<nat>, d: VolunteerProfileData, lookup: Resolver)
    ensures var s := UpdateVolunteerProfile(t, caller, d, lookup);
      s.result.Ok? ==>
        && caller.Some? && VolunteerOf(t, caller.value).Some?
        && var k := VolunteerOf(t, caller.value).value;
        && var v := s.result.value;
        && v.user == caller.value && v.id == t.volunteers[k].id
        && s.tables == t.(volunteers := t.volunteers[k := v])
  {
  }

  lemma UpdateOrgProfileRefusals(t: Tables, caller: Option<nat>, d: OrganizationProfileData, partial: bool,
                                 lookup: Resolver)
    ensures var s := UpdateOrgProfile(t, caller, d, partial, lookup); var p := PrincipalOf(t, caller);
      && (s.result == Err(NotAuthenticated) <==> p.Anonymous?)
      && (s.result == Err(Forbidden) <==> p.Member? && p.role != Org)
      && (s.result == Err(ServerError) <==> IsOrganization(p) && !p.hasOrgProfile)
      && (s.result == Err(Invalid) <==> IsOrganization(p) && p.hasOrgProfile && !OrganizationProfileDataValid(d, partial))
      && (s.result.Ok? <==> IsOrganization(p) && p.hasOrgProfile && OrganizationProfileDataValid(d, partial))
  {
  }

  lemma UpdateOrgProfileWrites(t: Tables, caller: Option<nat>, d: OrganizationProfileData, partial: bool,
                               lookup: Resolver)
    ensures var s := UpdateOrgProfile(t, caller, d, partial, lookup);
      s.result.Ok? ==>
        && caller.Some? && OrgOf(t, caller.value).Some?
        && var k := OrgOf(t, caller.value).value;
        && var o := s.result.value;
        && o.user == caller.value && o.id == t.orgs[k].id
        && s.tables == t.(orgs := t.orgs[k := o])
  {
  }

  // Reads

  /** Newest first is the stored rows, descending in creation time and in id. */
  lemma NewestFirst(t: Tables)
    requires IdsFresh(t) && TimesOrdered(t)
    ensures Decreasing(Newest(t), OpportunityCreated) && Decreasing(Newest(t), OpportunityKey)
    ensures forall o :: o in Newest(t) <==> o in t.opportunities
  {
    ReverseOfIncreasing(t.opportunities, OpportunityCreated);
    ReverseOfIncreasing(t.opportunities, OpportunityKey);
    ReverseMembership(t.opportunities);
  }

  /**
   * The listing, newest first: everything, or with `mine=1` and an organization profile exactly
   * the caller's organization's opportunities.
   */
  lemma ListOpportunitiesRequestResults(t: Tables, caller: Option<nat>, mine: Option<string>)
    requires IdsFresh(t) && TimesOrdered(t)
    ensures var r := ListOpportunitiesRequest(t, caller, mine); var p := PrincipalOf(t, caller);
      r.Ok? ==>
        && Decreasing(r.value, OpportunityCreated)
        && (mine == Some("1") && p.hasOrgProfile ==>
              forall o :: o in r.value <==> o in t.opportunities && o.organization == t.orgs[OrgOf(t, p.id).value].id)
        && (!(mine == Some("1") && p.hasOrgProfile) ==> r.value == Newest(t))
  {
    var r := ListOpportunitiesRequest(t, caller, mine);
    NewestFirst(t);
    if r.Ok? {
      SubseqKeepsDecreasing(r.value, Newest(t), OpportunityCreated);
    }
  }

  /**
   * A search answers authenticated callers only; its rows are stored opportunities, newest
   * first, and a row is in the answer iff it meets every criterion the query switches on.
   */
  lemma SearchRequestResults(t: Tables, caller: Option<nat>, q: SearchQuery, parse: FloatParser, dist: Distance)
    requires IdsFresh(t) && TimesOrdered(t)
    ensures var r := SearchRequest(t, caller, q, parse, dist);
      r.Ok? ==>
        && IsSubseq(r.value, Newest(t))
        && Decreasing(r.value, OpportunityCreated)
        && forall o :: o in r.value <==> o in t.opportunities && Admits(t.opportunities, q, parse, dist, o)
  {
    var r := SearchRequest(t, caller, q, parse, dist);
    NewestFirst(t);
    if r.Ok? {
      SearchIsSubsequence(Newest(t), q, parse, dist);
      SearchKeepsOrder(Newest(t), q, parse, dist, OpportunityCreated);
      SearchMembership(Newest(t), q, parse, dist);
    }
  }
}
