/**
 * What the views compute without touching the store: the error kinds a request can end in, the
 * notification texts, the opportunity listing and the search filters.
 */
module Views {
  import opened Wrappers
  import opened Text
  import opened Seqs
  import opened Geo
  import opened Models

  /**
   * How a request fails: 401 (no authenticated user), 403, 404, 400 (serializer validation),
   * a database integrity error, or an exception the framework does not translate (a 500).
   */
  datatype Error = NotAuthenticated | Forbidden | NotFound | Invalid | IntegrityError | ServerError

  datatype Result<T> = Ok(value: T) | Err(error: Error)

  const CreatedTitle := "New volunteer application"
  const StatusChangedTitle := "Application status updated"
  const FeedbackTitle := "Feedback received"

  function CreatedMessage(username: string, title: string): string {
    username + " applied to '" + title + "'."
  }

  function StatusChangedMessage(title: string, status: Status): string {
    "Your application for '" + title + "' is now " + StatusValue(status) + "."
  }

  function FeedbackMessage(orgName: string, title: string, rating: nat): string {
    orgName + " left feedback for '" + title + "'. Rating: " + NatToString(rating) + "/5"
  }

  /** The application notice names the applicant and the opportunity. */
  lemma CreatedMessageNames(username: string, title: string)
    ensures Contains(CreatedMessage(username, title), username)
    ensures Contains(CreatedMessage(username, title), title)
  {
    ContainsMiddle("", username, " applied to '" + title + "'.");
    assert CreatedMessage(username, title) == "" + username + (" applied to '" + title + "'.");
    ContainsMiddle(username + " applied to '", title, "'.");
  }

  /** The status notice carries the stored value of the new status. */
  lemma StatusMessageNamesStatus(title: string, status: Status)
    ensures Contains(StatusChangedMessage(title, status), StatusValue(status))
  {
    ContainsMiddle("Your application for '" + title + "' is now ", StatusValue(status), ".");
  }

  /** The feedback notice carries the rating in decimal. */
  lemma FeedbackMessageNamesRating(orgName: string, title: string, rating: nat)
    ensures Contains(FeedbackMessage(orgName, title, rating), NatToString(rating))
  {
    ContainsMiddle(orgName + " left feedback for '" + title + "'. Rating: ", NatToString(rating), "/5");
  }

  /**
   * `OpportunityCreateListView.get_queryset` applied to `newest`: every opportunity, or with
   * `mine=1` and an organization profile, only that organization's.
   */
  function ListOpportunities(newest: seq<Opportunity>, mine: Option<string>, callerOrg: Option<nat>): (r: seq<Opportunity>)
    ensures IsSubseq(r, newest)
    ensures mine == Some("1") && callerOrg.Some? ==>
      forall o :: o in r <==> o in newest && o.organization == callerOrg.value
    ensures !(mine == Some("1") && callerOrg.Some?) ==> r == newest
  {
    if mine == Some("1") && callerOrg.Some? then
      var own := (o: Opportunity) => o.organization == callerOrg.value;
      FilterIsSubseq(newest, own);
      FilterMembership(newest, own);
      Filter(newest, own)
    else
      SubseqRefl(newest);
      newest
  }

  /** The query parameters of the search endpoint; dates already parsed to day numbers. */
  datatype SearchQuery = SearchQuery(
    skill: Option<string>, start: Option<int>, end: Option<int>,
    lat: Option<string>, lng: Option<string>, radiusKm: Option<string>,
    search: Option<string>)

  /** Python's `float(...)` on a query parameter; `None` is a `ValueError`. */
  type FloatParser = string -> Option<real>

  /** A query parameter that is present and non-empty (truthy in Python). */
  predicate Given(v: Option<string>) {
    v.Some? && v.value != ""
  }

  /** `start_date <= end AND end_date >= start`. */
  predicate Overlaps(o: Opportunity, start: int, end: int) {
    o.startDate <= end && o.endDate >= start
  }

  function Quoted(s: string): string {
    "\"" + s + "\""
  }

  function JoinQuoted(items: seq<string>): string {
    if items == [] then ""
    else if |items| == 1 then Quoted(items[0])
    else Quoted(items[0]) + ", " + JoinQuoted(items[1..])
  }

  /** The stored JSON text of a skills list, which `required_skills__icontains` searches. */
  function SkillsJson(items: seq<string>): string {
    "[" + JoinQuoted(items) + "]"
  }

  predicate SkillMatches(o: Opportunity, skill: string) {
    IContains(SkillsJson(o.requiredSkills), skill)
  }

  /** `title__icontains | description__icontains | location_text__icontains`. */
  predicate TextMatches(o: Opportunity, q: string) {
    IContains(o.title, q) || IContains(o.description, q) || IContains(o.locationText, q)
  }

  predicate HasCoordinates(o: Opportunity) {
    o.latitude.Some? && o.longitude.Some?
  }

  /** Centre and radius of a radius search, once all three parameters parsed. */
  datatype RadiusArgs = RadiusArgs(lat: real, lng: real, km: real)

  /** `haversine_km` raises for this row: it has coordinates and the distance fails. */
  predicate DistanceFails(o: Opportunity, a: RadiusArgs, dist: Distance) {
    HasCoordinates(o) && dist(a.lat, a.lng, o.latitude.value, o.longitude.value).None?
  }

  /** The row has coordinates and its distance is computed and at most the radius. */
  predicate WithinRadius(o: Opportunity, a: RadiusArgs, dist: Distance) {
    && HasCoordinates(o)
    && var d := dist(a.lat, a.lng, o.latitude.value, o.longitude.value);
       d.Some? && d.value <= a.km
  }

  /** Some row of the queryset makes the distance computation raise. */
  predicate RadiusRaises(qs: seq<Opportunity>, a: RadiusArgs, dist: Distance) {
    exists o :: o in qs && DistanceFails(o, a, dist)
  }

  /** The radius filter runs only when lat, lng and radius_km are all given and all parse. */
  function RadiusArgsOf(q: SearchQuery, parse: FloatParser): Option<RadiusArgs> {
    if Given(q.lat) && Given(q.lng) && Given(q.radiusKm) then
      match (parse(q.lat.value), parse(q.lng.value), parse(q.radiusKm.value))
      case (Some(la), Some(ln), Some(r)) => Some(RadiusArgs(la, ln, r))
      case _ => None
    else None
  }

  /**
   * The ids the radius loop collects (`filtered_ids`), in queryset order, or `None` when the
   * loop raises `ValueError` on some row with coordinates.
   */
  function NearbyIds(qs: seq<Opportunity>, a: RadiusArgs, dist: Distance): (r: Option<seq<nat>>)
    ensures r.None? <==> RadiusRaises(qs, a, dist)
    ensures r.Some? ==> forall x :: x in r.value <==>
      exists i :: 0 <= i < |qs| && qs[i].id == x && WithinRadius(qs[i], a, dist)
    decreases |qs|
  {
    if qs == [] then Some([])
    else
      var init := qs[..|qs| - 1];
      var last := qs[|qs| - 1];
      assert qs == init + [last];
      assert forall i :: 0 <= i < |init| ==> init[i] == qs[i];
      match NearbyIds(init, a, dist)
      case None => None
      case Some(ids) =>
        if DistanceFails(last, a, dist) then None
        else if WithinRadius(last, a, dist) then Some(ids + [last.id])
        else Some(ids)
  }

  /** One more row: the ids so far, extended by the row's own verdict. */
  lemma NearbyIdsAppend(qs: seq<Opportunity>, o: Opportunity, a: RadiusArgs, dist: Distance)
    ensures NearbyIds(qs + [o], a, dist) ==
      match NearbyIds(qs, a, dist)
      case None => None
      case Some(ids) =>
        if DistanceFails(o, a, dist) then None
        else if WithinRadius(o, a, dist) then Some(ids + [o.id])
        else Some(ids)
  {
    assert (qs + [o])[..|qs|] == qs;
  }

  /**
   * The loop of the radius step: skips rows without coordinates, collects those in range, and
   * stops with `None` at the first row whose distance raises.
   */
  method CollectNearbyIds(qs: seq<Opportunity>, a: RadiusArgs, dist: Distance) returns (r: Option<seq<nat>>)
    ensures r == NearbyIds(qs, a, dist)
  {
    var ids := [];
    var i := 0;
    while i < |qs|
      invariant 0 <= i <= |qs|
      invariant NearbyIds(qs[..i], a, dist) == Some(ids)
    {
      var o := qs[i];
      assert qs[..i + 1] == qs[..i] + [o];
      NearbyIdsAppend(qs[..i], o, a, dist);
      if o.latitude.None? || o.longitude.None? {
        // no coordinates: never in range
      } else {
        var d := dist(a.lat, a.lng, o.latitude.value, o.longitude.value);
        if d.None? {
          assert DistanceFails(o, a, dist);
          return None;
        }
        assert !DistanceFails(o, a, dist) && (WithinRadius(o, a, dist) <==> d.value <= a.km);
        if d.value <= a.km {
          ids := ids + [o.id];
        }
      }
      i := i + 1;
    }
    assert qs[..|qs|] == qs;
    return Some(ids);
  }

  /**
   * `qs.filter(id__in=filtered_ids)`; the queryset unchanged when the step is skipped, and
   * also when the loop raised, since `except ValueError: pass` drops the collected ids.
   */
  function RadiusStep(qs: seq<Opportunity>, args: Option<RadiusArgs>, dist: Distance): seq<Opportunity> {
    if args.None? then qs
    else match NearbyIds(qs, args.value, dist)
      case None => qs
      case Some(ids) => Filter(qs, (o: Opportunity) => o.id in ids)
  }

  /** The date-overlap and skill steps, which run before the radius step. */
  function Prefiltered(all: seq<Opportunity>, q: SearchQuery): seq<Opportunity> {
    var byDate := if q.start.Some? && q.end.Some?
      then Filter(all, (o: Opportunity) => Overlaps(o, q.start.value, q.end.value)) else all;
    if Given(q.skill) then Filter(byDate, (o: Opportunity) => SkillMatches(o, q.skill.value)) else byDate
  }

  /** The `search` step over title, description and location text, which runs last. */
  function TextStep(qs: seq<Opportunity>, q: SearchQuery): seq<Opportunity> {
    if Given(q.search) then Filter(qs, (o: Opportunity) => TextMatches(o, q.search.value)) else qs
  }

  /** `OpportunitySearchView.get_queryset` applied to `all`, the opportunities newest first. */
  function Search(all: seq<Opportunity>, q: SearchQuery, parse: FloatParser, dist: Distance): seq<Opportunity> {
    TextStep(RadiusStep(Prefiltered(all, q), RadiusArgsOf(q, parse), dist), q)
  }

  /** The date and skill criteria the query switches on. */
  predicate DateAndSkill(q: SearchQuery, o: Opportunity) {
    && (q.start.Some? && q.end.Some? ==> Overlaps(o, q.start.value, q.end.value))
    && (Given(q.skill) ==> SkillMatches(o, q.skill.value))
  }

  /**
   * The radius criterion takes effect: the three parameters parse, and no row of `all` that
   * passes the date and skill criteria makes the distance raise.
   */
  predicate RadiusApplies(all: seq<Opportunity>, q: SearchQuery, parse: FloatParser, dist: Distance) {
    && RadiusArgsOf(q, parse).Some?
    && forall o :: o in all && DateAndSkill(q, o) ==> !DistanceFails(o, RadiusArgsOf(q, parse).value, dist)
  }

  /** The conjunction of the criteria that a search of `all` applies. */
  predicate Admits(all: seq<Opportunity>, q: SearchQuery, parse: FloatParser, dist: Distance, o: Opportunity) {
    && DateAndSkill(q, o)
    && (RadiusApplies(all, q, parse, dist) ==> WithinRadius(o, RadiusArgsOf(q, parse).value, dist))
    && (Given(q.search) ==> TextMatches(o, q.search.value))
  }

  /** The date and skill steps keep exactly the rows meeting those criteria, in order. */
  lemma PrefilteredSubset(all: seq<Opportunity>, q: SearchQuery)
    ensures IsSubseq(Prefiltered(all, q), all)
    ensures forall o :: o in Prefiltered(all, q) <==> o in all && DateAndSkill(q, o)
  {
    var byDate := if q.start.Some? && q.end.Some?
      then Filter(all, (o: Opportunity) => Overlaps(o, q.start.value, q.end.value)) else all;
    SubseqRefl(all);
    if q.start.Some? && q.end.Some? {
      FilterMembership(all, (o: Opportunity) => Overlaps(o, q.start.value, q.end.value));
      FilterIsSubseq(all, (o: Opportunity) => Overlaps(o, q.start.value, q.end.value));
    }
    SubseqRefl(byDate);
    if Given(q.skill) {
      FilterMembership(byDate, (o: Opportunity) => SkillMatches(o, q.skill.value));
      FilterIsSubseq(byDate, (o: Opportunity) => SkillMatches(o, q.skill.value));
    }
    SubseqTrans(Prefiltered(all, q), byDate, all);
  }

  /** The text step keeps exactly the rows matching the `search` text, in order. */
  lemma TextStepSubset(qs: seq<Opportunity>, q: SearchQuery)
    ensures IsSubseq(TextStep(qs, q), qs)
    ensures forall o :: o in TextStep(qs, q) <==> o in qs && (Given(q.search) ==> TextMatches(o, q.search.value))
  {
    SubseqRefl(qs);
    if Given(q.search) {
      FilterMembership(qs, (o: Opportunity) => TextMatches(o, q.search.value));
      FilterIsSubseq(qs, (o: Opportunity) => TextMatches(o, q.search.value));
    }
  }

  /** Every step only deletes rows, so the result is a subsequence of the input. */
  lemma SearchIsSubsequence(all: seq<Opportunity>, q: SearchQuery, parse: FloatParser, dist: Distance)
    ensures IsSubseq(Search(all, q, parse, dist), all)
  {
    var pre := Prefiltered(all, q);
    var args := RadiusArgsOf(q, parse);
    var byRadius := RadiusStep(pre, args, dist);
    PrefilteredSubset(all, q);
    SubseqRefl(pre);
    if args.Some? && NearbyIds(pre, args.value, dist).Some? {
      var ids := NearbyIds(pre, args.value, dist).value;
      FilterIsSubseq(pre, (o: Opportunity) => o.id in ids);
    }
    SubseqTrans(byRadius, pre, all);
    TextStepSubset(byRadius, q);
    SubseqTrans(Search(all, q, parse, dist), byRadius, all);
  }

  /** Search keeps the order of its input, so newest-first stays newest-first. */
  lemma SearchKeepsOrder(all: seq<Opportunity>, q: SearchQuery, parse: FloatParser, dist: Distance,
                         key: Opportunity -> nat)
    requires Decreasing(all, key)
    ensures Decreasing(Search(all, q, parse, dist), key)
  {
    SearchIsSubsequence(all, q, parse, dist);
    SubseqKeepsDecreasing(Search(all, q, parse, dist), all, key);
  }

  /** With distinct ids, a row's id was collected iff that row is inside the circle. */
  lemma CollectedIdsExact(qs: seq<Opportunity>, a: RadiusArgs, dist: Distance)
    requires Decreasing(qs, OpportunityKey) && NearbyIds(qs, a, dist).Some?
    ensures forall o :: o in qs ==> (o.id in NearbyIds(qs, a, dist).value <==> WithinRadius(o, a, dist))
  {
    var ids := NearbyIds(qs, a, dist).value;
    var key: Opportunity -> nat := OpportunityKey;
    forall o | o in qs && o.id in ids ensures WithinRadius(o, a, dist) {
      var i :| 0 <= i < |qs| && qs[i] == o;
      var j :| 0 <= j < |qs| && qs[j].id == o.id && WithinRadius(qs[j], a, dist);
      assert key(qs[i]) == key(qs[j]);
      assert i == j;
    }
  }

  /**
   * With distinct ids, the step keeps exactly the rows inside the circle when its arguments
   * parsed and no row raised; otherwise it keeps every row.
   */
  lemma RadiusStepMembership(qs: seq<Opportunity>, args: Option<RadiusArgs>, dist: Distance)
    requires Decreasing(qs, OpportunityKey)
    ensures forall o :: o in RadiusStep(qs, args, dist) <==>
      o in qs && (args.Some? && !RadiusRaises(qs, args.value, dist) ==> WithinRadius(o, args.value, dist))
  {
    if args.Some? && NearbyIds(qs, args.value, dist).Some? {
      var ids := NearbyIds(qs, args.value, dist).value;
      FilterMembership(qs, (o: Opportunity) => o.id in ids);
      CollectedIdsExact(qs, args.value, dist);
    }
  }

  /**
   * A row (with ids distinct, as in the store) is in the result iff it is in the input and meets
   * every criterion the search applies: date overlap only when both dates are given, skill and
   * text matches only when those parameters are non-empty, the radius only when all three
   * parameters are given and parse and no candidate row makes the distance raise.
   */
  lemma SearchMembership(all: seq<Opportunity>, q: SearchQuery, parse: FloatParser, dist: Distance)
    requires Decreasing(all, OpportunityKey)
    ensures forall o :: o in Search(all, q, parse, dist) <==> o in all && Admits(all, q, parse, dist, o)
  {
    var pre := Prefiltered(all, q);
    var args := RadiusArgsOf(q, parse);
    PrefilteredSubset(all, q);
    SubseqKeepsDecreasing(pre, all, OpportunityKey);
    RadiusStepMembership(pre, args, dist);
    TextStepSubset(RadiusStep(pre, args, dist), q);
    if args.Some? {
      assert RadiusRaises(pre, args.value, dist) <==> !RadiusApplies(all, q, parse, dist);
    }
  }

  /**
   * A radius query whose distances all compute never returns an opportunity lacking a latitude
   * or a longitude.
   */
  lemma RadiusExcludesUnlocated(all: seq<Opportunity>, q: SearchQuery, parse: FloatParser, dist: Distance)
    requires Decreasing(all, OpportunityKey)
    requires RadiusApplies(all, q, parse, dist)
    ensures forall o :: o in Search(all, q, parse, dist) ==> HasCoordinates(o)
  {
    SearchMembership(all, q, parse, dist);
  }

  /** Radius parameters that are missing or do not parse change nothing. */
  lemma UnparsedRadiusIgnored(all: seq<Opportunity>, q: SearchQuery, parse: FloatParser, dist: Distance)
    requires RadiusArgsOf(q, parse).None?
    ensures Search(all, q, parse, dist) == Search(all, q.(lat := None, lng := None, radiusKm := None), parse, dist)
  {
  }

  /**
   * A distance that raises on one candidate row cancels the whole radius filter: the answer is
   * that of the same query without radius parameters.
   */
  lemma RadiusFailureSkipsRadius(all: seq<Opportunity>, q: SearchQuery, parse: FloatParser, dist: Distance)
    requires RadiusArgsOf(q, parse).Some? && !RadiusApplies(all, q, parse, dist)
    ensures Search(all, q, parse, dist) == Search(all, q.(lat := None, lng := None, radiusKm := None), parse, dist)
  {
    var q' := q.(lat := None, lng := None, radiusKm := None);
    assert Prefiltered(all, q') == Prefiltered(all, q);
    PrefilteredSubset(all, q);
    assert RadiusRaises(Prefiltered(all, q), RadiusArgsOf(q, parse).value, dist);
  }

  /**
   * The as-written radius step returns a row without coordinates: "inf" is a float to Python,
   * so the radius parses, and `haversine_km` then raises a math domain error on the located row
   * (`dist` answers `None`), which drops the filter. The same query over the unlocated row alone
   * answers nothing.
   */
  lemma RadiusFailureKeepsUnlocated()
    ensures
      var located := Opportunity(2, 0, "t", "d", [], "", Some(0.0), Some(0.0), 0, 0, 0);
      var unlocated := Opportunity(1, 0, "t", "d", [], "", None, None, 0, 0, 0);
      var q := SearchQuery(None, None, None, Some("inf"), Some("0"), Some("5"), None);
      var parse: FloatParser := (s: string) => Some(0.0);
      var dist: Distance := (a: real, b: real, c: real, d: real) => None;
      && RadiusArgsOf(q, parse).Some?
      && unlocated in Search([located, unlocated], q, parse, dist) && !HasCoordinates(unlocated)
      && Search([unlocated], q, parse, dist) == []
  {
    var located := Opportunity(2, 0, "t", "d", [], "", Some(0.0), Some(0.0), 0, 0, 0);
    var unlocated := Opportunity(1, 0, "t", "d", [], "", None, None, 0, 0, 0);
    var q := SearchQuery(None, None, None, Some("inf"), Some("0"), Some("5"), None);
    var parse: FloatParser := (s: string) => Some(0.0);
    var dist: Distance := (a: real, b: real, c: real, d: real) => None;
    var args := RadiusArgsOf(q, parse).value;
    assert Prefiltered([located, unlocated], q) == [located, unlocated];
    assert DistanceFails(located, args, dist);
    assert NearbyIds([located, unlocated], args, dist).None?;
    assert Prefiltered([unlocated], q) == [unlocated];
    assert NearbyIds([unlocated], args, dist) == Some([]);
  }

  /**
   * The radius step as evidently intended: a row whose distance cannot be computed is not within
   * the radius, and the other rows are judged as before.
   */
  function GuardedRadiusStep(qs: seq<Opportunity>, args: Option<RadiusArgs>, dist: Distance): seq<Opportunity> {
    if args.None? then qs else Filter(qs, (o: Opportunity) => WithinRadius(o, args.value, dist))
  }

  /** The search with the guarded radius step. */
  function GuardedSearch(all: seq<Opportunity>, q: SearchQuery, parse: FloatParser, dist: Distance): seq<Opportunity> {
    TextStep(GuardedRadiusStep(Prefiltered(all, q), RadiusArgsOf(q, parse), dist), q)
  }

  /** The guarded search keeps a row iff it meets every criterion, the radius whenever it parsed. */
  lemma GuardedSearchMembership(all: seq<Opportunity>, q: SearchQuery, parse: FloatParser, dist: Distance)
    ensures forall o :: o in GuardedSearch(all, q, parse, dist) <==>
      && o in all && DateAndSkill(q, o)
      && (RadiusArgsOf(q, parse).Some? ==> WithinRadius(o, RadiusArgsOf(q, parse).value, dist))
      && (Given(q.search) ==> TextMatches(o, q.search.value))
  {
    var pre := Prefiltered(all, q);
    var args := RadiusArgsOf(q, parse);
    PrefilteredSubset(all, q);
    if args.Some? {
      FilterMembership(pre, (o: Opportunity) => WithinRadius(o, args.value, dist));
    }
    TextStepSubset(GuardedRadiusStep(pre, args, dist), q);
  }

  /** Under the guarded step a radius query never returns a row without coordinates. */
  lemma GuardedSearchExcludesUnlocated(all: seq<Opportunity>, q: SearchQuery, parse: FloatParser, dist: Distance)
    requires RadiusArgsOf(q, parse).Some?
    ensures forall o :: o in GuardedSearch(all, q, parse, dist) ==> HasCoordinates(o)
  {
    GuardedSearchMembership(all, q, parse, dist);
  }

  /** Where no distance raises, the guarded search answers exactly what the search as written does. */
  lemma GuardedSearchAgrees(all: seq<Opportunity>, q: SearchQuery, parse: FloatParser, dist: Distance)
    requires Decreasing(all, OpportunityKey)
    requires RadiusArgsOf(q, parse).None? || RadiusApplies(all, q, parse, dist)
    ensures GuardedSearch(all, q, parse, dist) == Search(all, q, parse, dist)
  {
    var pre := Prefiltered(all, q);
    var args := RadiusArgsOf(q, parse);
    if args.Some? {
      PrefilteredSubset(all, q);
      SubseqKeepsDecreasing(pre, all, OpportunityKey);
      assert !RadiusRaises(pre, args.value, dist);
      var ids := NearbyIds(pre, args.value, dist).value;
      CollectedIdsExact(pre, args.value, dist);
      FilterAgrees(pre, (o: Opportunity) => WithinRadius(o, args.value, dist), (o: Opportunity) => o.id in ids);
    }
  }

  /** The JSON text of a list has each item in it, between quotes. */
  lemma {:induction false} JoinQuotedSplit(items: seq<string>, k: nat) returns (before: string, after: string)
    requires k < |items|
    ensures JoinQuoted(items) == before + items[k] + after
    decreases |items|
  {
    if |items| == 1 {
      before, after := "\"", "\"";
    } else if k == 0 {
      before, after := "\"", "\"" + ", " + JoinQuoted(items[1..]);
    } else {
      var b, a := JoinQuotedSplit(items[1..], k - 1);
      before, after := Quoted(items[0]) + ", " + b, a;
    }
  }

  /** Any stored skill that contains the query case-insensitively makes the opportunity match. */
  lemma SkillInListMatches(o: Opportunity, skill: string, k: nat)
    requires k < |o.requiredSkills| && IContains(o.requiredSkills[k], skill)
    ensures SkillMatches(o, skill)
  {
    var b, a := JoinQuotedSplit(o.requiredSkills, k);
    var m := o.requiredSkills[k];
    var pre, post := "[" + b, a + "]";
    assert SkillsJson(o.requiredSkills) == pre + m + post;
    LowerAppend(pre + m, post);
    LowerAppend(pre, m);
    ContainsAppendLeft(Lower(pre), Lower(m), Lower(skill));
    ContainsAppendRight(Lower(pre) + Lower(m), Lower(post), Lower(skill));
  }

  /**
   * The converse fails: the match runs over the JSON text, so a query spanning the separator of
   * two items matches although no single skill contains it.
   */
  lemma SkillMatchSpansItems()
    ensures var o := Opportunity(0, 0, "t", "d", ["ab", "cd"], "", None, None, 0, 0, 0);
      SkillMatches(o, "b\", \"c") && !IContains("ab", "b\", \"c") && !IContains("cd", "b\", \"c")
  {
    var o := Opportunity(0, 0, "t", "d", ["ab", "cd"], "", None, None, 0, 0, 0);
    assert SkillsJson(o.requiredSkills) == "[\"a" + "b\", \"c" + "d\"]";
    IContainsMiddle("[\"a", "b\", \"c", "d\"]");
  }
}
