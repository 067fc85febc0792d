/**
 * The record types of the volunteer-matching API, their enumerations, defaults and validators,
 * and the integrity rules the database schema enforces across the tables.
 */
module Models {
  import opened Wrappers
  import opened Seqs

  datatype Role = Volunteer | Org | Admin

  /** A new user is a volunteer unless registration says otherwise. */
  const DefaultRole: Role := Volunteer

  function RoleValue(r: Role): string {
    match r
    case Volunteer => "VOLUNTEER"
    case Org => "ORG"
    case Admin => "ADMIN"
  }

  datatype Status = Pending | Accepted | Rejected

  /** A new application is pending. */
  const DefaultStatus: Status := Pending

  /** The value stored in the status column. */
  function StatusValue(s: Status): string {
    match s
    case Pending => "PENDING"
    case Accepted => "ACCEPTED"
    case Rejected => "REJECTED"
  }

  /** The status choice a request value names, if any (any other value fails validation). */
  function ParseStatus(v: string): (r: Option<Status>)
    ensures r.Some? ==> StatusValue(r.value) == v
    ensures r.None? ==> forall s: Status :: StatusValue(s) != v
  {
    if v == "PENDING" then Some(Pending)
    else if v == "ACCEPTED" then Some(Accepted)
    else if v == "REJECTED" then Some(Rejected)
    else None
  }

  /** The three type tags the views write into a notification. */
  datatype NotificationType = ApplicationCreated | ApplicationStatusChanged | FeedbackLeft

  function TypeTag(t: NotificationType): string {
    match t
    case ApplicationCreated => "APPLICATION_CREATED"
    case ApplicationStatusChanged => "APPLICATION_STATUS_CHANGED"
    case FeedbackLeft => "FEEDBACK_LEFT"
  }

  datatype User = User(id: nat, username: string, email: string, role: Role)

  datatype VolunteerProfile = VolunteerProfile(
    id: nat, user: nat, locationText: string,
    latitude: Option<real>, longitude: Option<real>,
    skills: seq<string>, availability: map<string, string>)

  datatype OrganizationProfile = OrganizationProfile(
    id: nat, user: nat, name: string, mission: string, contactPhone: string,
    locationText: string, latitude: Option<real>, longitude: Option<real>)

  /** Dates are day numbers; `organization` is the id of an organization profile. */
  datatype Opportunity = Opportunity(
    id: nat, organization: nat, title: string, description: string,
    requiredSkills: seq<string>, locationText: string,
    latitude: Option<real>, longitude: Option<real>,
    startDate: int, endDate: int, createdAt: nat)

  /** `volunteer` is the id of a volunteer profile. */
  datatype Application = Application(
    id: nat, opportunity: nat, volunteer: nat, status: Status, appliedAt: nat)

  /** `hours` is in hundredths of an hour. */
  datatype HourLog = HourLog(
    id: nat, application: nat, workDate: int, hours: int, note: string, createdAt: nat)

  datatype Feedback = Feedback(
    id: nat, application: nat, organization: nat, rating: int, comment: string, createdAt: nat)

  /** `kind` is the `type` column, free text; the views only ever write a `TypeTag`. */
  datatype Notification = Notification(
    id: nat, user: nat, kind: string, title: string, message: string,
    isRead: bool, createdAt: nat)

  // Column widths the serializers validate against.
  const MaxTitleLength := 200
  const MaxTypeLength := 50
  const MaxNameLength := 200
  const MaxLocationLength := 255
  const MaxNoteLength := 255
  const MaxPhoneLength := 50

  /** A decimal with at most six digits, two of them after the point, i.e. 0.00 to 9999.99. */
  const MaxHours := 999999

  predicate ValidHours(hundredths: int) {
    0 <= hundredths <= MaxHours
  }

  const MinRating := 1
  const MaxRating := 5

  predicate ValidRating(rating: int) {
    MinRating <= rating <= MaxRating
  }

  // Keys of each table, used for the id and creation-time orderings.
  function UserKey(u: User): nat { u.id }
  function VolunteerKey(v: VolunteerProfile): nat { v.id }
  function OrgKey(o: OrganizationProfile): nat { o.id }
  function OpportunityKey(o: Opportunity): nat { o.id }
  function ApplicationKey(a: Application): nat { a.id }
  function HourLogKey(l: HourLog): nat { l.id }
  function FeedbackKey(f: Feedback): nat { f.id }
  function NotificationKey(n: Notification): nat { n.id }

  function OpportunityCreated(o: Opportunity): nat { o.createdAt }
  function ApplicationApplied(a: Application): nat { a.appliedAt }
  function HourLogCreated(l: HourLog): nat { l.createdAt }
  function FeedbackCreated(f: Feedback): nat { f.createdAt }
  function NotificationCreated(n: Notification): nat { n.createdAt }

  // The pairwise conditions behind the schema's uniqueness constraints.
  predicate DifferentEmail(a: User, b: User) { a.email != b.email }
  predicate DifferentUsername(a: User, b: User) { a.username != b.username }
  predicate DifferentVolunteerUser(a: VolunteerProfile, b: VolunteerProfile) { a.user != b.user }
  predicate DifferentOrgUser(a: OrganizationProfile, b: OrganizationProfile) { a.user != b.user }
  predicate DifferentPair(a: Application, b: Application) {
    a.opportunity != b.opportunity || a.volunteer != b.volunteer
  }
  predicate DifferentApplication(a: Feedback, b: Feedback) { a.application != b.application }

  /** The whole database: one sequence per table in insertion order, the id source and the clock. */
  datatype Tables = Tables(
    users: seq<User>,
    volunteers: seq<VolunteerProfile>,
    orgs: seq<OrganizationProfile>,
    opportunities: seq<Opportunity>,
    applications: seq<Application>,
    hourLogs: seq<HourLog>,
    feedback: seq<Feedback>,
    notifications: seq<Notification>,
    nextId: nat,
    clock: nat)

  const EmptyTables := Tables([], [], [], [], [], [], [], [], 0, 0)

  /** Ids ascend in insertion order and lie below the next id, so no id is used twice in a table. */
  predicate IdsFresh(t: Tables) {
    && Increasing(t.users, UserKey) && Below(t.users, UserKey, t.nextId)
    && Increasing(t.volunteers, VolunteerKey) && Below(t.volunteers, VolunteerKey, t.nextId)
    && Increasing(t.orgs, OrgKey) && Below(t.orgs, OrgKey, t.nextId)
    && Increasing(t.opportunities, OpportunityKey) && Below(t.opportunities, OpportunityKey, t.nextId)
    && Increasing(t.applications, ApplicationKey) && Below(t.applications, ApplicationKey, t.nextId)
    && Increasing(t.hourLogs, HourLogKey) && Below(t.hourLogs, HourLogKey, t.nextId)
    && Increasing(t.feedback, FeedbackKey) && Below(t.feedback, FeedbackKey, t.nextId)
    && Increasing(t.notifications, NotificationKey) && Below(t.notifications, NotificationKey, t.nextId)
  }

  /** Creation times ascend in insertion order and lie in the past of the clock. */
  predicate TimesOrdered(t: Tables) {
    && Increasing(t.opportunities, OpportunityCreated) && Below(t.opportunities, OpportunityCreated, t.clock)
    && Increasing(t.applications, ApplicationApplied) && Below(t.applications, ApplicationApplied, t.clock)
    && Increasing(t.hourLogs, HourLogCreated) && Below(t.hourLogs, HourLogCreated, t.clock)
    && Increasing(t.feedback, FeedbackCreated) && Below(t.feedback, FeedbackCreated, t.clock)
    && Increasing(t.notifications, NotificationCreated) && Below(t.notifications, NotificationCreated, t.clock)
  }

  /**
   * Unique emails and usernames, one profile of each kind per user, one application per
   * (opportunity, volunteer) pair, one feedback per application.
   */
  predicate UniqueKeys(t: Tables) {
    && Pairwise(t.users, DifferentEmail)
    && Pairwise(t.users, DifferentUsername)
    && Pairwise(t.volunteers, DifferentVolunteerUser)
    && Pairwise(t.orgs, DifferentOrgUser)
    && Pairwise(t.applications, DifferentPair)
    && Pairwise(t.feedback, DifferentApplication)
  }

  predicate OpportunitiesReference(opps: seq<Opportunity>, orgs: seq<OrganizationProfile>) {
    forall i :: 0 <= i < |opps| ==> opps[i].organization in Keys(orgs, OrgKey)
  }

  predicate ApplicationsReference(apps: seq<Application>, opps: seq<Opportunity>, vols: seq<VolunteerProfile>) {
    forall i :: 0 <= i < |apps| ==>
      apps[i].opportunity in Keys(opps, OpportunityKey) && apps[i].volunteer in Keys(vols, VolunteerKey)
  }

  predicate HourLogsReference(logs: seq<HourLog>, apps: seq<Application>) {
    forall i :: 0 <= i < |logs| ==> logs[i].application in Keys(apps, ApplicationKey)
  }

  predicate FeedbackReferences(fbs: seq<Feedback>, apps: seq<Application>, orgs: seq<OrganizationProfile>) {
    forall i :: 0 <= i < |fbs| ==>
      fbs[i].application in Keys(apps, ApplicationKey) && fbs[i].organization in Keys(orgs, OrgKey)
  }

  /** Every foreign key names an existing row. */
  predicate ReferencesExist(t: Tables) {
    && (forall i :: 0 <= i < |t.volunteers| ==> t.volunteers[i].user in Keys(t.users, UserKey))
    && (forall i :: 0 <= i < |t.orgs| ==> t.orgs[i].user in Keys(t.users, UserKey))
    && OpportunitiesReference(t.opportunities, t.orgs)
    && ApplicationsReference(t.applications, t.opportunities, t.volunteers)
    && HourLogsReference(t.hourLogs, t.applications)
    && FeedbackReferences(t.feedback, t.applications, t.orgs)
    && (forall i :: 0 <= i < |t.notifications| ==> t.notifications[i].user in Keys(t.users, UserKey))
  }

  /** The column validators: hours in range, ratings in [1, 5]. */
  predicate ValuesValid(t: Tables) {
    && (forall i :: 0 <= i < |t.hourLogs| ==> ValidHours(t.hourLogs[i].hours))
    && (forall i :: 0 <= i < |t.feedback| ==> ValidRating(t.feedback[i].rating))
  }

  predicate Consistent(t: Tables) {
    IdsFresh(t) && TimesOrdered(t) && UniqueKeys(t) && ReferencesExist(t) && ValuesValid(t)
  }

  lemma EmptyConsistent()
    ensures Consistent(EmptyTables)
  {
  }

  /** Ids of the applications made to opportunity `oppId`. */
  function ApplicationsTo(apps: seq<Application>, oppId: nat): set<nat> {
    set i | 0 <= i < |apps| && apps[i].opportunity == oppId :: apps[i].id
  }

  /**
   * Deleting an opportunity: its applications go with it (`on_delete=CASCADE`), and with each
   * application its hour logs and its feedback. Notifications keep no foreign key to these rows
   * and stay.
   */
  function DeleteOpportunityCascade(t: Tables, oppId: nat): Tables {
    var gone := ApplicationsTo(t.applications, oppId);
    t.(opportunities := Filter(t.opportunities, (o: Opportunity) => o.id != oppId),
       applications := Filter(t.applications, (a: Application) => a.opportunity != oppId),
       hourLogs := Filter(t.hourLogs, (l: HourLog) => l.application !in gone),
       feedback := Filter(t.feedback, (f: Feedback) => f.application !in gone))
  }

  lemma FilterKeepsKeyed<T>(s: seq<T>, p: T -> bool, key: T -> nat, bound: nat)
    requires Increasing(s, key) && Below(s, key, bound)
    ensures Increasing(Filter(s, p), key) && Below(Filter(s, p), key, bound)
  {
    FilterKeepsIncreasing(s, p, key);
    FilterKeepsBelow(s, p, key, bound);
  }

  /** After the cascade nothing refers to the deleted opportunity or to its applications. */
  lemma CascadeRemovesDependents(t: Tables, oppId: nat)
    requires Consistent(t)
    ensures var r := DeleteOpportunityCascade(t, oppId);
      && (forall i :: 0 <= i < |r.opportunities| ==> r.opportunities[i].id != oppId)
      && (forall i :: 0 <= i < |r.applications| ==> r.applications[i].opportunity != oppId)
      && (forall i :: 0 <= i < |r.hourLogs| ==> r.hourLogs[i].application !in ApplicationsTo(t.applications, oppId))
      && (forall i :: 0 <= i < |r.feedback| ==> r.feedback[i].application !in ApplicationsTo(t.applications, oppId))
  {
  }

  /** The cascade removes only dependents: every other row is still there. */
  lemma CascadeKeepsOthers(t: Tables, oppId: nat)
    ensures var r := DeleteOpportunityCascade(t, oppId);
      var gone := ApplicationsTo(t.applications, oppId);
      && r.users == t.users && r.volunteers == t.volunteers && r.orgs == t.orgs
      && r.notifications == t.notifications && r.nextId == t.nextId && r.clock == t.clock
      && (forall i :: 0 <= i < |t.opportunities| && t.opportunities[i].id != oppId ==> t.opportunities[i] in r.opportunities)
      && (forall i :: 0 <= i < |t.applications| && t.applications[i].opportunity != oppId ==> t.applications[i] in r.applications)
      && (forall i :: 0 <= i < |t.hourLogs| && t.hourLogs[i].application !in gone ==> t.hourLogs[i] in r.hourLogs)
      && (forall i :: 0 <= i < |t.feedback| && t.feedback[i].application !in gone ==> t.feedback[i] in r.feedback)
  {
  }

  lemma CascadeKeepsIds(t: Tables, oppId: nat)
    requires IdsFresh(t)
    ensures IdsFresh(DeleteOpportunityCascade(t, oppId))
  {
    var gone := ApplicationsTo(t.applications, oppId);
    FilterKeepsKeyed(t.opportunities, (o: Opportunity) => o.id != oppId, OpportunityKey, t.nextId);
    FilterKeepsKeyed(t.applications, (a: Application) => a.opportunity != oppId, ApplicationKey, t.nextId);
    FilterKeepsKeyed(t.hourLogs, (l: HourLog) => l.application !in gone, HourLogKey, t.nextId);
    FilterKeepsKeyed(t.feedback, (f: Feedback) => f.application !in gone, FeedbackKey, t.nextId);
  }

  lemma CascadeKeepsTimes(t: Tables, oppId: nat)
    requires TimesOrdered(t)
    ensures TimesOrdered(DeleteOpportunityCascade(t, oppId))
  {
    var gone := ApplicationsTo(t.applications, oppId);
    FilterKeepsKeyed(t.opportunities, (o: Opportunity) => o.id != oppId, OpportunityCreated, t.clock);
    FilterKeepsKeyed(t.applications, (a: Application) => a.opportunity != oppId, ApplicationApplied, t.clock);
    FilterKeepsKeyed(t.hourLogs, (l: HourLog) => l.application !in gone, HourLogCreated, t.clock);
    FilterKeepsKeyed(t.feedback, (f: Feedback) => f.application !in gone, FeedbackCreated, t.clock);
  }

  lemma CascadeKeepsUnique(t: Tables, oppId: nat)
    requires UniqueKeys(t)
    ensures UniqueKeys(DeleteOpportunityCascade(t, oppId))
  {
    var gone := ApplicationsTo(t.applications, oppId);
    FilterKeepsPairwise(t.applications, (a: Application) => a.opportunity != oppId, DifferentPair);
    FilterKeepsPairwise(t.feedback, (f: Feedback) => f.application !in gone, DifferentApplication);
  }

  lemma CascadeOpportunityReferences(opps: seq<Opportunity>, orgs: seq<OrganizationProfile>, oppId: nat)
    requires OpportunitiesReference(opps, orgs)
    ensures OpportunitiesReference(Filter(opps, (o: Opportunity) => o.id != oppId), orgs)
  {
    var r := Filter(opps, (o: Opportunity) => o.id != oppId);
    forall i | 0 <= i < |r| ensures r[i].organization in Keys(orgs, OrgKey) {
      var j :| 0 <= j < |opps| && opps[j] == r[i];
    }
  }

  lemma CascadeApplicationReferences(apps: seq<Application>, opps: seq<Opportunity>, vols: seq<VolunteerProfile>, oppId: nat)
    requires ApplicationsReference(apps, opps, vols)
    ensures ApplicationsReference(Filter(apps, (a: Application) => a.opportunity != oppId),
                                  Filter(opps, (o: Opportunity) => o.id != oppId), vols)
  {
    var r := Filter(apps, (a: Application) => a.opportunity != oppId);
    var ro := Filter(opps, (o: Opportunity) => o.id != oppId);
    forall i | 0 <= i < |r|
      ensures r[i].opportunity in Keys(ro, OpportunityKey) && r[i].volunteer in Keys(vols, VolunteerKey)
    {
      var a := r[i];
      var m :| 0 <= m < |apps| && apps[m] == a;
      var j :| 0 <= j < |opps| && opps[j].id == a.opportunity;
      var k :| 0 <= k < |ro| && ro[k] == opps[j];
      assert OpportunityKey(ro[k]) == a.opportunity;
    }
  }

  lemma CascadeHourLogReferences(logs: seq<HourLog>, apps: seq<Application>, oppId: nat)
    requires HourLogsReference(logs, apps)
    ensures var gone := ApplicationsTo(apps, oppId);
      HourLogsReference(Filter(logs, (l: HourLog) => l.application !in gone),
                        Filter(apps, (a: Application) => a.opportunity != oppId))
  {
    var gone := ApplicationsTo(apps, oppId);
    var r := Filter(logs, (l: HourLog) => l.application !in gone);
    var ra := Filter(apps, (a: Application) => a.opportunity != oppId);
    forall i | 0 <= i < |r| ensures r[i].application in Keys(ra, ApplicationKey) {
      var m :| 0 <= m < |logs| && logs[m] == r[i];
      var j :| 0 <= j < |apps| && apps[j].id == r[i].application;
      assert apps[j].opportunity != oppId;
      var k :| 0 <= k < |ra| && ra[k] == apps[j];
      assert ApplicationKey(ra[k]) == r[i].application;
    }
  }

  lemma CascadeFeedbackReferences(fbs: seq<Feedback>, apps: seq<Application>, orgs: seq<OrganizationProfile>, oppId: nat)
    requires FeedbackReferences(fbs, apps, orgs)
    ensures var gone := ApplicationsTo(apps, oppId);
      FeedbackReferences(Filter(fbs, (f: Feedback) => f.application !in gone),
                         Filter(apps, (a: Application) => a.opportunity != oppId), orgs)
  {
    var gone := ApplicationsTo(apps, oppId);
    var r := Filter(fbs, (f: Feedback) => f.application !in gone);
    var ra := Filter(apps, (a: Application) => a.opportunity != oppId);
    forall i | 0 <= i < |r|
      ensures r[i].application in Keys(ra, ApplicationKey) && r[i].organization in Keys(orgs, OrgKey)
    {
      var m :| 0 <= m < |fbs| && fbs[m] == r[i];
      var j :| 0 <= j < |apps| && apps[j].id == r[i].application;
      assert apps[j].opportunity != oppId;
      var k :| 0 <= k < |ra| && ra[k] == apps[j];
      assert ApplicationKey(ra[k]) == r[i].application;
    }
  }

  /** Rows that survive the cascade still refer only to surviving rows. */
  lemma CascadeKeepsReferences(t: Tables, oppId: nat)
    requires ReferencesExist(t)
    ensures ReferencesExist(DeleteOpportunityCascade(t, oppId))
  {
    CascadeOpportunityReferences(t.opportunities, t.orgs, oppId);
    CascadeApplicationReferences(t.applications, t.opportunities, t.volunteers, oppId);
    CascadeHourLogReferences(t.hourLogs, t.applications, oppId);
    CascadeFeedbackReferences(t.feedback, t.applications, t.orgs, oppId);
  }

  lemma CascadeKeepsValues(t: Tables, oppId: nat)
    requires ValuesValid(t)
    ensures ValuesValid(DeleteOpportunityCascade(t, oppId))
  {
  }

  /** Deleting with cascade leaves a consistent database. */
  lemma CascadeKeepsConsistent(t: Tables, oppId: nat)
    requires Consistent(t)
    ensures Consistent(DeleteOpportunityCascade(t, oppId))
  {
    CascadeKeepsIds(t, oppId);
    CascadeKeepsTimes(t, oppId);
    CascadeKeepsUnique(t, oppId);
    CascadeKeepsReferences(t, oppId);
    CascadeKeepsValues(t, oppId);
  }
}
