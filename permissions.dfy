/**
 * The access rules of the API, as pure predicates over the requesting principal and the rows it
 * acts on. Each takes the tables it needs to follow foreign keys to the owning user.
 */
module Permissions {
  import opened Wrappers
  import opened Seqs
  import opened Models

  /**
   * The requesting user as the rules see it: anonymous, or an authenticated user with a role and
   * with or without each kind of profile (`hasattr(user, "volunteer_profile")` and so on).
   */
  datatype Principal =
    | Anonymous
    | Member(id: nat, role: Role, hasVolunteerProfile: bool, hasOrgProfile: bool)

  predicate IsAuthenticated(p: Principal) {
    p.Member?
  }

  predicate IsVolunteer(p: Principal) {
    p.Member? && p.role == Volunteer
  }

  predicate IsOrganization(p: Principal) {
    p.Member? && p.role == Org
  }

  /** The user owning the organization profile `orgId`, following the foreign key. */
  function OrgUser(orgs: seq<OrganizationProfile>, orgId: nat): (r: Option<nat>)
    ensures r.Some? <==> exists i :: 0 <= i < |orgs| && orgs[i].id == orgId
    ensures r.Some? ==> exists i :: 0 <= i < |orgs| && orgs[i].id == orgId && orgs[i].user == r.value
  {
    match Find(orgs, (o: OrganizationProfile) => o.id == orgId)
    case Some(i) => Some(orgs[i].user)
    case None => None
  }

  /** The user owning the volunteer profile `volId`. */
  function VolunteerUser(vols: seq<VolunteerProfile>, volId: nat): (r: Option<nat>)
    ensures r.Some? <==> exists i :: 0 <= i < |vols| && vols[i].id == volId
    ensures r.Some? ==> exists i :: 0 <= i < |vols| && vols[i].id == volId && vols[i].user == r.value
  {
    match Find(vols, (v: VolunteerProfile) => v.id == volId)
    case Some(i) => Some(vols[i].user)
    case None => None
  }

  /** `IsOrgOwnerOfOpportunity`: an organization user whose profile owns the opportunity. */
  predicate IsOrgOwnerOfOpportunity(p: Principal, opp: Opportunity, orgs: seq<OrganizationProfile>) {
    p.Member? && p.hasOrgProfile && OrgUser(orgs, opp.organization) == Some(p.id)
  }

  /** `IsVolunteerOwnerOfApplication`: the volunteer who made the application. */
  predicate IsVolunteerOwnerOfApplication(p: Principal, app: Application, vols: seq<VolunteerProfile>) {
    p.Member? && p.hasVolunteerProfile && VolunteerUser(vols, app.volunteer) == Some(p.id)
  }

  /** `IsOrgOwnerViaApplication`: the organization owning the opportunity applied to. */
  predicate IsOrgOwnerViaApplication(
    p: Principal, app: Application, opps: seq<Opportunity>, orgs: seq<OrganizationProfile>)
  {
    p.Member? && p.hasOrgProfile &&
    match Find(opps, (o: Opportunity) => o.id == app.opportunity)
    case Some(i) => OrgUser(orgs, opps[i].organization) == Some(p.id)
    case None => false
  }

  /** Volunteer and organization are different roles, so no principal passes both checks. */
  lemma RolesExclusive(p: Principal)
    ensures !(IsVolunteer(p) && IsOrganization(p))
  {
  }

  /** No ownership rule ever admits an anonymous request. */
  lemma OwnersAreAuthenticated(p: Principal, app: Application, opp: Opportunity,
                               opps: seq<Opportunity>, orgs: seq<OrganizationProfile>,
                               vols: seq<VolunteerProfile>)
    requires IsOrgOwnerOfOpportunity(p, opp, orgs) || IsVolunteerOwnerOfApplication(p, app, vols)
             || IsOrgOwnerViaApplication(p, app, opps, orgs)
    ensures IsAuthenticated(p)
  {
  }

  /**
   * Owning an application through its opportunity is owning that opportunity, when opportunity
   * ids are unique.
   */
  lemma {:induction false} ViaApplicationIsOwnerOfOpportunity(
    p: Principal, app: Application, k: nat, opps: seq<Opportunity>, orgs: seq<OrganizationProfile>)
    requires Increasing(opps, OpportunityKey)
    requires k < |opps| && opps[k].id == app.opportunity
    ensures IsOrgOwnerViaApplication(p, app, opps, orgs) == IsOrgOwnerOfOpportunity(p, opps[k], orgs)
  {
    var f := Find(opps, (o: Opportunity) => o.id == app.opportunity);
    assert f.Some? && f.value <= k;
    var key: Opportunity -> nat := OpportunityKey;
    assert key(opps[k]) == app.opportunity == key(opps[f.value]);
  }

  /** The user an organization-owner check admits is the user of the owning profile. */
  lemma OwnerIsProfileUser(p: Principal, opp: Opportunity, orgs: seq<OrganizationProfile>)
    requires IsOrgOwnerOfOpportunity(p, opp, orgs)
    ensures exists i :: 0 <= i < |orgs| && orgs[i].id == opp.organization && orgs[i].user == p.id
  {
  }
}
