/**
 * Each kind of write the API makes, stated on the tables, with the proof that it keeps the
 * database consistent. The store's methods perform these writes.
 */
module Transitions {
  import opened Wrappers
  import opened Seqs
  import opened Models

  /** No existing user has the username or the email: the unique columns accept the row. */
  predicate FreshCredentials(users: seq<User>, u: User) {
    forall i :: 0 <= i < |users| ==> users[i].username != u.username && users[i].email != u.email
  }

  function WithUser(t: Tables, u: User): Tables {
    t.(users := t.users + [u], nextId := t.nextId + 1)
  }

  lemma AddUserKeepsConsistent(t: Tables, u: User)
    requires Consistent(t) && u.id == t.nextId && FreshCredentials(t.users, u)
    ensures Consistent(WithUser(t, u))
  {
    var r := WithUser(t, u);
    AppendKeepsIncreasing(t.users, u, UserKey, t.nextId);
    AppendKeepsPairwise(t.users, u, DifferentEmail);
    AppendKeepsPairwise(t.users, u, DifferentUsername);
    KeysAppend(t.users, u, UserKey);
  }

  function WithVolunteer(t: Tables, v: VolunteerProfile): Tables {
    t.(volunteers := t.volunteers + [v], nextId := t.nextId + 1)
  }

  lemma AddVolunteerKeepsConsistent(t: Tables, v: VolunteerProfile)
    requires Consistent(t) && v.id == t.nextId && v.user in Keys(t.users, UserKey)
    requires forall i :: 0 <= i < |t.volunteers| ==> t.volunteers[i].user != v.user
    ensures Consistent(WithVolunteer(t, v))
  {
    AppendKeepsIncreasing(t.volunteers, v, VolunteerKey, t.nextId);
    AppendKeepsPairwise(t.volunteers, v, DifferentVolunteerUser);
    KeysAppend(t.volunteers, v, VolunteerKey);
  }

  function WithOrg(t: Tables, o: OrganizationProfile): Tables {
    t.(orgs := t.orgs + [o], nextId := t.nextId + 1)
  }

  lemma AddOrgKeepsConsistent(t: Tables, o: OrganizationProfile)
    requires Consistent(t) && o.id == t.nextId && o.user in Keys(t.users, UserKey)
    requires forall i :: 0 <= i < |t.orgs| ==> t.orgs[i].user != o.user
    ensures Consistent(WithOrg(t, o))
  {
    AppendKeepsIncreasing(t.orgs, o, OrgKey, t.nextId);
    AppendKeepsPairwise(t.orgs, o, DifferentOrgUser);
    KeysAppend(t.orgs, o, OrgKey);
  }

  function WithOpportunity(t: Tables, o: Opportunity): Tables {
    t.(opportunities := t.opportunities + [o], nextId := t.nextId + 1, clock := t.clock + 1)
  }

  lemma AddOpportunityKeepsConsistent(t: Tables, o: Opportunity)
    requires Consistent(t) && o.id == t.nextId && o.createdAt == t.clock
    requires o.organization in Keys(t.orgs, OrgKey)
    ensures Consistent(WithOpportunity(t, o))
  {
    var r := WithOpportunity(t, o);
    AddOpportunityKeepsIds(t, o);
    AddOpportunityKeepsTimes(t, o);
    AddOpportunityKeepsReferences(t, o);
    SameUnique(t, r);
    SameValues(t, r);
  }

  lemma AddOpportunityKeepsIds(t: Tables, o: Opportunity)
    requires IdsFresh(t) && o.id == t.nextId
    ensures IdsFresh(WithOpportunity(t, o))
  {
    AppendKeepsIncreasing(t.opportunities, o, OpportunityKey, t.nextId);
  }

  lemma AddOpportunityKeepsTimes(t: Tables, o: Opportunity)
    requires TimesOrdered(t) && o.createdAt == t.clock
    ensures TimesOrdered(WithOpportunity(t, o))
  {
    AppendKeepsIncreasing(t.opportunities, o, OpportunityCreated, t.clock);
  }

  lemma AddOpportunityKeepsReferences(t: Tables, o: Opportunity)
    requires ReferencesExist(t) && o.organization in Keys(t.orgs, OrgKey)
    ensures ReferencesExist(WithOpportunity(t, o))
  {
    KeysAppend(t.opportunities, o, OpportunityKey);
  }

  function WithApplication(t: Tables, a: Application): Tables {
    t.(applications := t.applications + [a], nextId := t.nextId + 1, clock := t.clock + 1)
  }

  /** Inserting an application for a pair that has none keeps the pair unique. */
  lemma AddApplicationKeepsConsistent(t: Tables, a: Application)
    requires Consistent(t) && a.id == t.nextId && a.appliedAt == t.clock
    requires a.opportunity in Keys(t.opportunities, OpportunityKey) && a.volunteer in Keys(t.volunteers, VolunteerKey)
    requires forall i :: 0 <= i < |t.applications| ==> DifferentPair(t.applications[i], a)
    ensures Consistent(WithApplication(t, a))
  {
    var r := WithApplication(t, a);
    AddApplicationKeepsIds(t, a);
    AddApplicationKeepsTimes(t, a);
    AddApplicationKeepsUnique(t, a);
    AddApplicationKeepsReferences(t, a);
    SameValues(t, r);
  }

  lemma AddApplicationKeepsIds(t: Tables, a: Application)
    requires IdsFresh(t) && a.id == t.nextId
    ensures IdsFresh(WithApplication(t, a))
  {
    AppendKeepsIncreasing(t.applications, a, ApplicationKey, t.nextId);
  }

  lemma AddApplicationKeepsTimes(t: Tables, a: Application)
    requires TimesOrdered(t) && a.appliedAt == t.clock
    ensures TimesOrdered(WithApplication(t, a))
  {
    AppendKeepsIncreasing(t.applications, a, ApplicationApplied, t.clock);
  }

  lemma AddApplicationKeepsUnique(t: Tables, a: Application)
    requires UniqueKeys(t)
    requires forall i :: 0 <= i < |t.applications| ==> DifferentPair(t.applications[i], a)
    ensures UniqueKeys(WithApplication(t, a))
  {
    AppendKeepsPairwise(t.applications, a, DifferentPair);
  }

  lemma AddApplicationKeepsReferences(t: Tables, a: Application)
    requires ReferencesExist(t)
    requires a.opportunity in Keys(t.opportunities, OpportunityKey) && a.volunteer in Keys(t.volunteers, VolunteerKey)
    ensures ReferencesExist(WithApplication(t, a))
  {
    var r := WithApplication(t, a);
    KeysAppend(t.applications, a, ApplicationKey);
    AppendApplicationReference(t.applications, t.opportunities, t.volunteers, a);
    GrowKeysReference(t.hourLogs, t.feedback, t.orgs, t.applications, r.applications);
  }

  lemma AppendApplicationReference(apps: seq<Application>, opps: seq<Opportunity>, vols: seq<VolunteerProfile>,
                                   a: Application)
    requires ApplicationsReference(apps, opps, vols)
    requires a.opportunity in Keys(opps, OpportunityKey) && a.volunteer in Keys(vols, VolunteerKey)
    ensures ApplicationsReference(apps + [a], opps, vols)
  {
    assert forall i :: 0 <= i < |apps| ==> (apps + [a])[i] == apps[i];
  }

  lemma GrowKeysReference(logs: seq<HourLog>, fbs: seq<Feedback>, orgs: seq<OrganizationProfile>,
                          apps: seq<Application>, apps': seq<Application>)
    requires HourLogsReference(logs, apps) && FeedbackReferences(fbs, apps, orgs)
    requires Keys(apps, ApplicationKey) <= Keys(apps', ApplicationKey)
    ensures HourLogsReference(logs, apps') && FeedbackReferences(fbs, apps', orgs)
  {
  }

  function WithNotification(t: Tables, n: Notification): Tables {
    t.(notifications := t.notifications + [n], nextId := t.nextId + 1, clock := t.clock + 1)
  }

  lemma AddNotificationKeepsConsistent(t: Tables, n: Notification)
    requires Consistent(t) && n.id == t.nextId && n.createdAt == t.clock && n.user in Keys(t.users, UserKey)
    ensures Consistent(WithNotification(t, n))
  {
    var r := WithNotification(t, n);
    AddNotificationKeepsIds(t, n);
    AddNotificationKeepsTimes(t, n);
    AddNotificationKeepsReferences(t, n);
    SameUnique(t, r);
    SameValues(t, r);
  }

  lemma AddNotificationKeepsIds(t: Tables, n: Notification)
    requires IdsFresh(t) && n.id == t.nextId
    ensures IdsFresh(WithNotification(t, n))
  {
    AppendKeepsIncreasing(t.notifications, n, NotificationKey, t.nextId);
  }

  lemma AddNotificationKeepsTimes(t: Tables, n: Notification)
    requires TimesOrdered(t) && n.createdAt == t.clock
    ensures TimesOrdered(WithNotification(t, n))
  {
    AppendKeepsIncreasing(t.notifications, n, NotificationCreated, t.clock);
  }

  lemma AddNotificationKeepsReferences(t: Tables, n: Notification)
    requires ReferencesExist(t) && n.user in Keys(t.users, UserKey)
    ensures ReferencesExist(WithNotification(t, n))
  {
  }

  function WithHourLog(t: Tables, l: HourLog): Tables {
    t.(hourLogs := t.hourLogs + [l], nextId := t.nextId + 1, clock := t.clock + 1)
  }

  lemma AddHourLogKeepsConsistent(t: Tables, l: HourLog)
    requires Consistent(t) && l.id == t.nextId && l.createdAt == t.clock
    requires l.application in Keys(t.applications, ApplicationKey) && ValidHours(l.hours)
    ensures Consistent(WithHourLog(t, l))
  {
    var r := WithHourLog(t, l);
    AddHourLogKeepsIds(t, l);
    AddHourLogKeepsTimes(t, l);
    AddHourLogKeepsReferences(t, l);
    AddHourLogKeepsValues(t, l);
    SameUnique(t, r);
  }

  lemma AddHourLogKeepsValues(t: Tables, l: HourLog)
    requires ValuesValid(t) && ValidHours(l.hours)
    ensures ValuesValid(WithHourLog(t, l))
  {
    assert forall i :: 0 <= i < |t.hourLogs| ==> (t.hourLogs + [l])[i] == t.hourLogs[i];
  }

  lemma AddHourLogKeepsIds(t: Tables, l: HourLog)
    requires IdsFresh(t) && l.id == t.nextId
    ensures IdsFresh(WithHourLog(t, l))
  {
    AppendKeepsIncreasing(t.hourLogs, l, HourLogKey, t.nextId);
  }

  lemma AddHourLogKeepsTimes(t: Tables, l: HourLog)
    requires TimesOrdered(t) && l.createdAt == t.clock
    ensures TimesOrdered(WithHourLog(t, l))
  {
    AppendKeepsIncreasing(t.hourLogs, l, HourLogCreated, t.clock);
  }

  lemma AddHourLogKeepsReferences(t: Tables, l: HourLog)
    requires ReferencesExist(t) && l.application in Keys(t.applications, ApplicationKey)
    ensures ReferencesExist(WithHourLog(t, l))
  {
  }

  function WithFeedback(t: Tables, f: Feedback): Tables {
    t.(feedback := t.feedback + [f], nextId := t.nextId + 1, clock := t.clock + 1)
  }

  /** Inserting feedback for an application that has none keeps one feedback per application. */
  lemma AddFeedbackKeepsConsistent(t: Tables, f: Feedback)
    requires Consistent(t) && f.id == t.nextId && f.createdAt == t.clock
    requires f.application in Keys(t.applications, ApplicationKey) && f.organization in Keys(t.orgs, OrgKey)
    requires ValidRating(f.rating)
    requires forall i :: 0 <= i < |t.feedback| ==> t.feedback[i].application != f.application
    ensures Consistent(WithFeedback(t, f))
  {
    AddFeedbackKeepsIds(t, f);
    AddFeedbackKeepsTimes(t, f);
    AddFeedbackKeepsUnique(t, f);
    AddFeedbackKeepsReferences(t, f);
    AddFeedbackKeepsValues(t, f);
  }

  lemma AddFeedbackKeepsValues(t: Tables, f: Feedback)
    requires ValuesValid(t) && ValidRating(f.rating)
    ensures ValuesValid(WithFeedback(t, f))
  {
    assert forall i :: 0 <= i < |t.feedback| ==> (t.feedback + [f])[i] == t.feedback[i];
  }

  lemma AddFeedbackKeepsIds(t: Tables, f: Feedback)
    requires IdsFresh(t) && f.id == t.nextId
    ensures IdsFresh(WithFeedback(t, f))
  {
    AppendKeepsIncreasing(t.feedback, f, FeedbackKey, t.nextId);
  }

  lemma AddFeedbackKeepsTimes(t: Tables, f: Feedback)
    requires TimesOrdered(t) && f.createdAt == t.clock
    ensures TimesOrdered(WithFeedback(t, f))
  {
    AppendKeepsIncreasing(t.feedback, f, FeedbackCreated, t.clock);
  }

  lemma AddFeedbackKeepsUnique(t: Tables, f: Feedback)
    requires UniqueKeys(t)
    requires forall i :: 0 <= i < |t.feedback| ==> t.feedback[i].application != f.application
    ensures UniqueKeys(WithFeedback(t, f))
  {
    AppendKeepsPairwise(t.feedback, f, DifferentApplication);
  }

  lemma AddFeedbackKeepsReferences(t: Tables, f: Feedback)
    requires ReferencesExist(t)
    requires f.application in Keys(t.applications, ApplicationKey) && f.organization in Keys(t.orgs, OrgKey)
    ensures ReferencesExist(WithFeedback(t, f))
  {
  }

  /** A profile edited in place keeps its id and its user. */
  lemma ReplaceVolunteerKeepsConsistent(t: Tables, k: nat, v: VolunteerProfile)
    requires Consistent(t) && k < |t.volunteers|
    requires v.id == t.volunteers[k].id && v.user == t.volunteers[k].user
    ensures Consistent(t.(volunteers := t.volunteers[k := v]))
  {
    ReplaceVolunteerKeepsIds(t, k, v);
    ReplaceVolunteerKeepsUnique(t, k, v);
    ReplaceVolunteerKeepsReferences(t, k, v);
    var r := t.(volunteers := t.volunteers[k := v]);
    SameTimes(t, r);
    SameValues(t, r);
  }

  lemma ReplaceVolunteerKeepsIds(t: Tables, k: nat, v: VolunteerProfile)
    requires IdsFresh(t) && k < |t.volunteers| && v.id == t.volunteers[k].id
    ensures IdsFresh(t.(volunteers := t.volunteers[k := v]))
  {
    ReplaceKeepsKeyed(t.volunteers, k, v, VolunteerKey, t.nextId);
  }

  lemma ReplaceVolunteerKeepsUnique(t: Tables, k: nat, v: VolunteerProfile)
    requires UniqueKeys(t) && k < |t.volunteers| && v.user == t.volunteers[k].user
    ensures UniqueKeys(t.(volunteers := t.volunteers[k := v]))
  {
    var ok: (VolunteerProfile, VolunteerProfile) -> bool := DifferentVolunteerUser;
    assert forall i :: 0 <= i < k ==> ok(t.volunteers[i], t.volunteers[k]);
    assert forall j :: k < j < |t.volunteers| ==> ok(t.volunteers[k], t.volunteers[j]);
    ReplaceKeepsPairwise(t.volunteers, k, v, DifferentVolunteerUser);
  }

  lemma ReplaceVolunteerKeepsReferences(t: Tables, k: nat, v: VolunteerProfile)
    requires ReferencesExist(t) && IdsFresh(t) && k < |t.volunteers|
    requires v.id == t.volunteers[k].id && v.user == t.volunteers[k].user
    ensures ReferencesExist(t.(volunteers := t.volunteers[k := v]))
  {
    ReplaceKeepsKeyed(t.volunteers, k, v, VolunteerKey, t.nextId);
  }

  lemma ReplaceOrgKeepsConsistent(t: Tables, k: nat, o: OrganizationProfile)
    requires Consistent(t) && k < |t.orgs|
    requires o.id == t.orgs[k].id && o.user == t.orgs[k].user
    ensures Consistent(t.(orgs := t.orgs[k := o]))
  {
    ReplaceOrgKeepsIds(t, k, o);
    ReplaceOrgKeepsUnique(t, k, o);
    ReplaceOrgKeepsReferences(t, k, o);
    var r := t.(orgs := t.orgs[k := o]);
    SameTimes(t, r);
    SameValues(t, r);
  }

  lemma ReplaceOrgKeepsIds(t: Tables, k: nat, o: OrganizationProfile)
    requires IdsFresh(t) && k < |t.orgs| && o.id == t.orgs[k].id
    ensures IdsFresh(t.(orgs := t.orgs[k := o]))
  {
    ReplaceKeepsKeyed(t.orgs, k, o, OrgKey, t.nextId);
  }

  lemma ReplaceOrgKeepsUnique(t: Tables, k: nat, o: OrganizationProfile)
    requires UniqueKeys(t) && k < |t.orgs| && o.user == t.orgs[k].user
    ensures UniqueKeys(t.(orgs := t.orgs[k := o]))
  {
    var ok: (OrganizationProfile, OrganizationProfile) -> bool := DifferentOrgUser;
    assert forall i :: 0 <= i < k ==> ok(t.orgs[i], t.orgs[k]);
    assert forall j :: k < j < |t.orgs| ==> ok(t.orgs[k], t.orgs[j]);
    ReplaceKeepsPairwise(t.orgs, k, o, DifferentOrgUser);
  }

  lemma ReplaceOrgKeepsReferences(t: Tables, k: nat, o: OrganizationProfile)
    requires ReferencesExist(t) && IdsFresh(t) && k < |t.orgs|
    requires o.id == t.orgs[k].id && o.user == t.orgs[k].user
    ensures ReferencesExist(t.(orgs := t.orgs[k := o]))
  {
    ReplaceKeepsKeyed(t.orgs, k, o, OrgKey, t.nextId);
  }

  /** An opportunity edited in place keeps its id, its owner and its creation time. */
  lemma ReplaceOpportunityKeepsConsistent(t: Tables, k: nat, o: Opportunity)
    requires Consistent(t) && k < |t.opportunities|
    requires o.id == t.opportunities[k].id && o.organization == t.opportunities[k].organization
    requires o.createdAt == t.opportunities[k].createdAt
    ensures Consistent(t.(opportunities := t.opportunities[k := o]))
  {
    var r := t.(opportunities := t.opportunities[k := o]);
    ReplaceKeepsKeyed(t.opportunities, k, o, OpportunityKey, t.nextId);
    ReplaceOpportunityKeepsIds(t, k, o);
    ReplaceOpportunityKeepsTimes(t, k, o);
    SameUnique(t, r);
    ReplaceOpportunityKeepsReferences(t, k, o);
    SameValues(t, r);
  }

  lemma ReplaceOpportunityKeepsIds(t: Tables, k: nat, o: Opportunity)
    requires IdsFresh(t) && k < |t.opportunities| && o.id == t.opportunities[k].id
    ensures IdsFresh(t.(opportunities := t.opportunities[k := o]))
  {
    ReplaceKeepsKeyed(t.opportunities, k, o, OpportunityKey, t.nextId);
  }

  lemma ReplaceOpportunityKeepsTimes(t: Tables, k: nat, o: Opportunity)
    requires TimesOrdered(t) && k < |t.opportunities| && o.createdAt == t.opportunities[k].createdAt
    ensures TimesOrdered(t.(opportunities := t.opportunities[k := o]))
  {
    ReplaceKeepsKeyed(t.opportunities, k, o, OpportunityCreated, t.clock);
  }

  lemma ReplaceOpportunityKeepsReferences(t: Tables, k: nat, o: Opportunity)
    requires ReferencesExist(t) && k < |t.opportunities| && o.organization == t.opportunities[k].organization
    requires Keys(t.opportunities[k := o], OpportunityKey) == Keys(t.opportunities, OpportunityKey)
    ensures ReferencesExist(t.(opportunities := t.opportunities[k := o]))
  {
  }

  /** An application whose status changes keeps everything else. */
  lemma ReplaceApplicationKeepsConsistent(t: Tables, k: nat, a: Application)
    requires Consistent(t) && k < |t.applications|
    requires a == t.applications[k].(status := a.status)
    ensures Consistent(t.(applications := t.applications[k := a]))
  {
    var r := t.(applications := t.applications[k := a]);
    ReplaceKeepsKeyed(t.applications, k, a, ApplicationKey, t.nextId);
    ReplaceApplicationKeepsIds(t, k, a);
    ReplaceApplicationKeepsTimes(t, k, a);
    ReplaceApplicationKeepsUnique(t, k, a);
    ReplaceApplicationKeepsReferences(t, k, a);
    SameValues(t, r);
  }

  lemma ReplaceApplicationKeepsIds(t: Tables, k: nat, a: Application)
    requires IdsFresh(t) && k < |t.applications| && a.id == t.applications[k].id
    ensures IdsFresh(t.(applications := t.applications[k := a]))
  {
    ReplaceKeepsKeyed(t.applications, k, a, ApplicationKey, t.nextId);
  }

  lemma ReplaceApplicationKeepsTimes(t: Tables, k: nat, a: Application)
    requires TimesOrdered(t) && k < |t.applications| && a.appliedAt == t.applications[k].appliedAt
    ensures TimesOrdered(t.(applications := t.applications[k := a]))
  {
    ReplaceKeepsKeyed(t.applications, k, a, ApplicationApplied, t.clock);
  }

  lemma ReplaceApplicationKeepsUnique(t: Tables, k: nat, a: Application)
    requires UniqueKeys(t) && k < |t.applications|
    requires a.opportunity == t.applications[k].opportunity && a.volunteer == t.applications[k].volunteer
    ensures UniqueKeys(t.(applications := t.applications[k := a]))
  {
    var ok: (Application, Application) -> bool := DifferentPair;
    assert forall i :: 0 <= i < k ==> ok(t.applications[i], t.applications[k]);
    assert forall j :: k < j < |t.applications| ==> ok(t.applications[k], t.applications[j]);
    ReplaceKeepsPairwise(t.applications, k, a, DifferentPair);
  }

  lemma ReplaceApplicationKeepsReferences(t: Tables, k: nat, a: Application)
    requires ReferencesExist(t) && k < |t.applications|
    requires a.opportunity == t.applications[k].opportunity && a.volunteer == t.applications[k].volunteer
    requires Keys(t.applications[k := a], ApplicationKey) == Keys(t.applications, ApplicationKey)
    ensures ReferencesExist(t.(applications := t.applications[k := a]))
  {
    var apps := t.applications[k := a];
    ReplaceApplicationReference(t.applications, t.opportunities, t.volunteers, k, a);
    SameKeysReference(t.hourLogs, t.feedback, t.orgs, t.applications, apps);
  }

  lemma ReplaceApplicationReference(apps: seq<Application>, opps: seq<Opportunity>, vols: seq<VolunteerProfile>,
                                    k: nat, a: Application)
    requires ApplicationsReference(apps, opps, vols) && k < |apps|
    requires a.opportunity == apps[k].opportunity && a.volunteer == apps[k].volunteer
    ensures ApplicationsReference(apps[k := a], opps, vols)
  {
  }

  lemma SameKeysReference(logs: seq<HourLog>, fbs: seq<Feedback>, orgs: seq<OrganizationProfile>,
                          apps: seq<Application>, apps': seq<Application>)
    requires HourLogsReference(logs, apps) && FeedbackReferences(fbs, apps, orgs)
    requires Keys(apps', ApplicationKey) == Keys(apps, ApplicationKey)
    ensures HourLogsReference(logs, apps') && FeedbackReferences(fbs, apps', orgs)
  {
  }

  /** A notification marked read keeps everything else. */
  lemma ReplaceNotificationKeepsConsistent(t: Tables, k: nat, n: Notification)
    requires Consistent(t) && k < |t.notifications|
    requires n == t.notifications[k].(isRead := n.isRead)
    ensures Consistent(t.(notifications := t.notifications[k := n]))
  {
    var r := t.(notifications := t.notifications[k := n]);
    ReplaceNotificationKeepsIds(t, k, n);
    ReplaceNotificationKeepsTimes(t, k, n);
    SameUnique(t, r);
    ReplaceNotificationKeepsReferences(t, k, n);
    SameValues(t, r);
  }

  lemma ReplaceNotificationKeepsIds(t: Tables, k: nat, n: Notification)
    requires IdsFresh(t) && k < |t.notifications| && n.id == t.notifications[k].id
    ensures IdsFresh(t.(notifications := t.notifications[k := n]))
  {
    ReplaceKeepsKeyed(t.notifications, k, n, NotificationKey, t.nextId);
  }

  lemma ReplaceNotificationKeepsTimes(t: Tables, k: nat, n: Notification)
    requires TimesOrdered(t) && k < |t.notifications| && n.createdAt == t.notifications[k].createdAt
    ensures TimesOrdered(t.(notifications := t.notifications[k := n]))
  {
    ReplaceKeepsKeyed(t.notifications, k, n, NotificationCreated, t.clock);
  }

  lemma ReplaceNotificationKeepsReferences(t: Tables, k: nat, n: Notification)
    requires ReferencesExist(t) && k < |t.notifications| && n.user == t.notifications[k].user
    ensures ReferencesExist(t.(notifications := t.notifications[k := n]))
  {
  }

  lemma SameUnique(t: Tables, r: Tables)
    requires UniqueKeys(t)
    requires r.users == t.users && r.volunteers == t.volunteers && r.orgs == t.orgs
    requires r.applications == t.applications && r.feedback == t.feedback
    ensures UniqueKeys(r)
  {
  }

  lemma SameTimes(t: Tables, r: Tables)
    requires TimesOrdered(t) && r.clock == t.clock
    requires r.opportunities == t.opportunities && r.applications == t.applications
    requires r.hourLogs == t.hourLogs && r.feedback == t.feedback && r.notifications == t.notifications
    ensures TimesOrdered(r)
  {
  }

  lemma SameValues(t: Tables, r: Tables)
    requires ValuesValid(t) && r.hourLogs == t.hourLogs && r.feedback == t.feedback
    ensures ValuesValid(r)
  {
  }
}
