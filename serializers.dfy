/**
 * What the serializers accept from a request body: the writable fields of each resource, the
 * read-only fields a client may send but that are dropped, and the field validators.
 */
module Serializers {
  import opened Wrappers
  import opened Geo
  import opened Models

  /** Writable fields of an opportunity; `None` is a key absent from the request body. */
  datatype OpportunityData = OpportunityData(
    title: Option<string>, description: Option<string>, requiredSkills: Option<seq<string>>,
    locationText: Option<string>, startDate: Option<int>, endDate: Option<int>)

  /**
   * A full opportunity body. `organization`, `latitude`, `longitude` and `createdAt` are
   * read-only fields: the serializer drops them, so nothing downstream sees them.
   */
  datatype OpportunityRequest = OpportunityRequest(
    data: OpportunityData,
    organization: Option<nat>, latitude: Option<real>, longitude: Option<real>, createdAt: Option<nat>)

  /** The validated data of a request: read-only fields removed. */
  function Writable(req: OpportunityRequest): OpportunityData {
    req.data
  }

  /** Whatever a client sends for the read-only fields, the validated data is the same. */
  lemma ReadOnlyFieldsIgnored(req: OpportunityRequest, o: Option<nat>, la: Option<real>,
                              lo: Option<real>, c: Option<nat>)
    ensures Writable(req.(organization := o, latitude := la, longitude := lo, createdAt := c)) == Writable(req)
  {
  }

  /** A required character field: present unless `partial`, never blank, within its width. */
  predicate RequiredText(v: Option<string>, partial: bool, maxLength: int) {
    if v.None? then partial else v.value != "" && |v.value| <= maxLength
  }

  /** A required text field without a width: present unless `partial`, never blank. */
  predicate RequiredLongText(v: Option<string>, partial: bool) {
    if v.None? then partial else v.value != ""
  }

  /** An optional character field that may be blank. */
  predicate OptionalText(v: Option<string>, maxLength: int) {
    v.Some? ==> |v.value| <= maxLength
  }

  /**
   * `OpportunitySerializer.is_valid`: title, description, start and end date are required on
   * create and replace (not `partial`); title and description may not be blank.
   */
  predicate OpportunityDataValid(d: OpportunityData, partial: bool) {
    && RequiredText(d.title, partial, MaxTitleLength)
    && RequiredLongText(d.description, partial)
    && OptionalText(d.locationText, MaxLocationLength)
    && (partial || (d.startDate.Some? && d.endDate.Some?))
  }

  /**
   * A volunteer profile body. The profile serializer lists `latitude` and `longitude` as ordinary
   * fields, so a client may send them, but its `update` never reads them.
   */
  datatype VolunteerProfileData = VolunteerProfileData(
    locationText: Option<string>, skills: Option<seq<string>>, availability: Option<map<string, string>>,
    latitude: Option<real>, longitude: Option<real>)

  /** Every field has a default, so the body is valid on PUT and PATCH alike. */
  predicate VolunteerProfileDataValid(d: VolunteerProfileData) {
    OptionalText(d.locationText, MaxLocationLength)
  }

  datatype OrganizationProfileData = OrganizationProfileData(
    name: Option<string>, mission: Option<string>, contactPhone: Option<string>, locationText: Option<string>,
    latitude: Option<real>, longitude: Option<real>)

  /** `name` has no default: required on PUT, optional on PATCH, never blank. */
  predicate OrganizationProfileDataValid(d: OrganizationProfileData, partial: bool) {
    && RequiredText(d.name, partial, MaxNameLength)
    && OptionalText(d.contactPhone, MaxPhoneLength)
    && OptionalText(d.locationText, MaxLocationLength)
  }

  /** The credentials part of both registration bodies. */
  /**
   * A `NotificationSerializer` body. `is_read` and `created_at` have model defaults, so they may
   * be left out even on a full update; `user` is not among the fields at all.
   */
  datatype NotificationData = NotificationData(
    kind: Option<string>, title: Option<string>, message: Option<string>,
    isRead: Option<bool>, createdAt: Option<nat>)

  /** `type`, `title` and `message` are required and never blank; `type` and `title` have widths. */
  predicate NotificationDataValid(d: NotificationData) {
    && RequiredText(d.kind, false, MaxTypeLength)
    && RequiredText(d.title, false, MaxTitleLength)
    && RequiredLongText(d.message, false)
  }

  datatype Credentials = Credentials(username: string, email: string, password: string)

  predicate CredentialsValid(c: Credentials) {
    c.username != "" && c.email != "" && c.password != ""
  }

  datatype VolunteerRegistration = VolunteerRegistration(
    credentials: Credentials, locationText: Option<string>,
    skills: Option<seq<string>>, availability: Option<map<string, string>>)

  /** Each listed skill is a non-blank character field. */
  predicate VolunteerRegistrationValid(d: VolunteerRegistration) {
    && CredentialsValid(d.credentials)
    && (d.skills.Some? ==> forall i :: 0 <= i < |d.skills.value| ==> d.skills.value[i] != "")
  }

  datatype OrganizationRegistration = OrganizationRegistration(
    credentials: Credentials, name: string, mission: Option<string>,
    contactPhone: Option<string>, locationText: Option<string>)

  predicate OrganizationRegistrationValid(d: OrganizationRegistration) {
    CredentialsValid(d.credentials) && d.name != ""
  }

  /** An hour-log body; `hours` in hundredths, `application` an application id. */
  datatype HourLogData = HourLogData(application: nat, workDate: int, hours: int, note: Option<string>)

  predicate HourLogShapeValid(d: HourLogData) {
    ValidHours(d.hours) && OptionalText(d.note, MaxNoteLength)
  }

  /** A feedback body. */
  datatype FeedbackData = FeedbackData(application: nat, rating: int, comment: Option<string>)

  /** Coordinates for stored location text: none for blank text, else whatever the geocoder says. */
  function Located(lookup: Resolver, loc: string): (c: Option<Coord>)
    ensures loc == "" ==> c == None
  {
    if loc != "" then Geocode(lookup, loc) else None
  }

  /** `RegisterVolunteerSerializer.create`: the profile row made next to the new user. */
  function RegisteredVolunteerProfile(id: nat, user: nat, d: VolunteerRegistration, lookup: Resolver): (v: VolunteerProfile)
    ensures v.id == id && v.user == user
    ensures v.locationText == d.locationText.GetOr("")
    ensures d.skills.None? ==> v.skills == []
    ensures d.availability.None? ==> v.availability == map[]
    ensures d.locationText.GetOr("") == "" ==> v.latitude.None? && v.longitude.None?
  {
    var loc := d.locationText.GetOr("");
    var at := Located(lookup, loc);
    VolunteerProfile(id, user, loc, Latitude(at), Longitude(at),
                     d.skills.GetOr([]), d.availability.GetOr(map[]))
  }

  /** `RegisterOrgSerializer.create`: mission and phone default to blank. */
  function RegisteredOrganizationProfile(id: nat, user: nat, d: OrganizationRegistration, lookup: Resolver): (o: OrganizationProfile)
    ensures o.id == id && o.user == user && o.name == d.name
    ensures d.mission.None? ==> o.mission == ""
    ensures d.contactPhone.None? ==> o.contactPhone == ""
    ensures d.locationText.GetOr("") == "" ==> o.latitude.None? && o.longitude.None?
  {
    var loc := d.locationText.GetOr("");
    var at := Located(lookup, loc);
    OrganizationProfile(id, user, d.name, d.mission.GetOr(""), d.contactPhone.GetOr(""),
                        loc, Latitude(at), Longitude(at))
  }

  /**
   * `VolunteerProfileSerializer.update`: each absent field keeps its value, and the coordinates
   * are recomputed exactly when the body carries `location_text`.
   */
  function UpdatedVolunteerProfile(v: VolunteerProfile, d: VolunteerProfileData, lookup: Resolver): (r: VolunteerProfile)
    ensures r.id == v.id && r.user == v.user
    ensures r.locationText == d.locationText.GetOr(v.locationText)
    ensures r.skills == d.skills.GetOr(v.skills)
    ensures r.availability == d.availability.GetOr(v.availability)
    ensures d.locationText.None? ==> r.latitude == v.latitude && r.longitude == v.longitude
    ensures d.locationText.Some? ==>
      r.latitude == Latitude(Geocode(lookup, d.locationText.value)) &&
      r.longitude == Longitude(Geocode(lookup, d.locationText.value))
  {
    var r := v.(locationText := d.locationText.GetOr(v.locationText),
                skills := d.skills.GetOr(v.skills),
                availability := d.availability.GetOr(v.availability));
    if d.locationText.Some? then
      var at := Geocode(lookup, r.locationText);
      r.(latitude := Latitude(at), longitude := Longitude(at))
    else r
  }

  /** `OrganizationProfileSerializer.update`: only the fields present in the body change. */
  function UpdatedOrganizationProfile(o: OrganizationProfile, d: OrganizationProfileData, lookup: Resolver): (r: OrganizationProfile)
    ensures r.id == o.id && r.user == o.user
    ensures r.name == d.name.GetOr(o.name)
    ensures r.mission == d.mission.GetOr(o.mission)
    ensures r.contactPhone == d.contactPhone.GetOr(o.contactPhone)
    ensures r.locationText == d.locationText.GetOr(o.locationText)
    ensures d.locationText.None? ==> r.latitude == o.latitude && r.longitude == o.longitude
    ensures d.locationText.Some? ==>
      r.latitude == Latitude(Geocode(lookup, d.locationText.value)) &&
      r.longitude == Longitude(Geocode(lookup, d.locationText.value))
  {
    var r := o.(name := d.name.GetOr(o.name), mission := d.mission.GetOr(o.mission),
                contactPhone := d.contactPhone.GetOr(o.contactPhone));
    if d.locationText.Some? then
      var at := Geocode(lookup, d.locationText.value);
      r.(locationText := d.locationText.value, latitude := Latitude(at), longitude := Longitude(at))
    else r
  }

  /** Coordinates a client sends with a profile body change nothing. */
  lemma ProfileCoordinatesIgnored(v: VolunteerProfile, d: VolunteerProfileData, o: OrganizationProfile,
                                  e: OrganizationProfileData, lookup: Resolver, lat: Option<real>, lng: Option<real>)
    ensures UpdatedVolunteerProfile(v, d.(latitude := lat, longitude := lng), lookup) == UpdatedVolunteerProfile(v, d, lookup)
    ensures UpdatedOrganizationProfile(o, e.(latitude := lat, longitude := lng), lookup) == UpdatedOrganizationProfile(o, e, lookup)
  {
  }

  /**
   * `OpportunitySerializer.create`: owned by `org`, created at `now`; skills default to the
   * empty list, and coordinates come from the geocoder only for non-blank location text.
   */
  function CreatedOpportunity(id: nat, org: nat, d: OpportunityData, lookup: Resolver, now: nat): (o: Opportunity)
    requires OpportunityDataValid(d, false)
    ensures o.id == id && o.organization == org && o.createdAt == now
    ensures o.title == d.title.value && o.description == d.description.value
    ensures o.startDate == d.startDate.value && o.endDate == d.endDate.value
    ensures o.requiredSkills == d.requiredSkills.GetOr([]) && o.locationText == d.locationText.GetOr("")
    ensures o.locationText == "" ==> o.latitude.None? && o.longitude.None?
    ensures o.locationText != "" ==>
      o.latitude == Latitude(lookup(o.locationText)) && o.longitude == Longitude(lookup(o.locationText))
  {
    var loc := d.locationText.GetOr("");
    var at := Located(lookup, loc);
    Opportunity(id, org, d.title.value, d.description.value, d.requiredSkills.GetOr([]), loc,
                Latitude(at), Longitude(at), d.startDate.value, d.endDate.value, now)
  }

  /**
   * `OpportunitySerializer.update`: fields present in the body replace the stored ones; a body
   * with `location_text` replaces both coordinates (clearing them for blank text), a body
   * without it leaves them alone. Id, owner and creation time never change.
   */
  function UpdatedOpportunity(o: Opportunity, d: OpportunityData, lookup: Resolver): (r: Opportunity)
    ensures r.id == o.id && r.organization == o.organization && r.createdAt == o.createdAt
    ensures r.title == d.title.GetOr(o.title) && r.description == d.description.GetOr(o.description)
    ensures r.requiredSkills == d.requiredSkills.GetOr(o.requiredSkills)
    ensures r.startDate == d.startDate.GetOr(o.startDate) && r.endDate == d.endDate.GetOr(o.endDate)
    ensures r.locationText == d.locationText.GetOr(o.locationText)
    ensures d.locationText.None? ==> r.latitude == o.latitude && r.longitude == o.longitude
    ensures d.locationText == Some("") ==> r.latitude.None? && r.longitude.None?
    ensures d.locationText.Some? && d.locationText.value != "" ==>
      r.latitude == Latitude(lookup(r.locationText)) && r.longitude == Longitude(lookup(r.locationText))
  {
    var r := if d.locationText.Some? then
        var at := Located(lookup, d.locationText.value);
        o.(latitude := Latitude(at), longitude := Longitude(at))
      else o;
    r.(title := d.title.GetOr(r.title), description := d.description.GetOr(r.description),
       requiredSkills := d.requiredSkills.GetOr(r.requiredSkills),
       locationText := d.locationText.GetOr(r.locationText),
       startDate := d.startDate.GetOr(r.startDate), endDate := d.endDate.GetOr(r.endDate))
  }

  /**
   * `serializer.save()` of a valid full notification body: the three required fields are
   * replaced, the defaulted ones only when sent, and the id and owner stay.
   */
  function SavedNotification(n: Notification, d: NotificationData): (r: Notification)
    requires NotificationDataValid(d)
    ensures r.id == n.id && r.user == n.user
    ensures r.kind == d.kind.value && r.title == d.title.value && r.message == d.message.value
    ensures d.isRead.None? ==> r.isRead == n.isRead
    ensures d.createdAt.None? ==> r.createdAt == n.createdAt
  {
    n.(kind := d.kind.value, title := d.title.value, message := d.message.value,
       isRead := d.isRead.GetOr(n.isRead), createdAt := d.createdAt.GetOr(n.createdAt))
  }
}
