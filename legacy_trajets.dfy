// controllers/trajets.js: the older trip listing on the trip schema of
// models/Trajet.js. Each non-empty query value narrows the filter, `date`
// becoming a lower bound on the departure; the same filter is counted and
// paged by departure date with `page` and `limit` taken through unary plus.
// The handler has no try/catch, so a query the server or the date cast
// rejects leaves its promise rejected and the request unanswered.

module LegacyTrajets {
  import opened Common
  import opened Calendar
  import opened Collection
  import opened Pagination
  import LT = LegacyTrajetModel
  import opened Store

  /** The query string values the handler reads; a missing one is None. */
  datatype TripQuery = TripQuery(villeDepart: Option<string>, villeArrivee: Option<string>,
                                 date: Option<string>, compagnie: Option<string>,
                                 limit: Option<string>, page: Option<string>)

  /** The MongoDB filter: a condition per field that was given. */
  datatype Criteria = Criteria(villeDepart: Option<string>, villeArrivee: Option<string>,
                               dateFrom: Option<Instant>, compagnie: Option<string>)

  /** The filter the handler builds; `parseDate` is `new Date(text)`, None
      for an Invalid Date, which the cast to the schema's Date rejects (None
      here too). An empty string is falsy and adds nothing. */
  function CriteriaOf(q: TripQuery, parseDate: string -> Option<Instant>): (c: Option<Criteria>)
    ensures c.None? <==> Filled(q.date) && parseDate(q.date.value).None?
    ensures c.Some? ==> (c.value.villeDepart.Some? <==> Filled(q.villeDepart))
                        && (c.value.villeDepart.Some? ==> c.value.villeDepart == q.villeDepart)
                        && (c.value.villeArrivee.Some? <==> Filled(q.villeArrivee))
                        && (c.value.villeArrivee.Some? ==> c.value.villeArrivee == q.villeArrivee)
                        && (c.value.compagnie.Some? <==> Filled(q.compagnie))
                        && (c.value.compagnie.Some? ==> c.value.compagnie == q.compagnie)
                        && (c.value.dateFrom.Some? <==> Filled(q.date))
                        && (c.value.dateFrom.Some? ==> c.value.dateFrom == parseDate(q.date.value))
  {
    if Filled(q.date) && parseDate(q.date.value).None? then None
    else
      Some(Criteria(if Filled(q.villeDepart) then q.villeDepart else None,
                    if Filled(q.villeArrivee) then q.villeArrivee else None,
                    if Filled(q.date) then parseDate(q.date.value) else None,
                    if Filled(q.compagnie) then q.compagnie else None))
  }

  /** A trip meets every condition of the filter. */
  predicate Meets(c: Criteria, t: LT.Trajet) {
    (c.villeDepart.Some? ==> t.villeDepart == c.villeDepart.value)
    && (c.villeArrivee.Some? ==> t.villeArrivee == c.villeArrivee.value)
    && (c.dateFrom.Some? ==> TimeValue(t.dateDepart) >= TimeValue(c.dateFrom.value))
    && (c.compagnie.Some? ==> t.compagnie == c.compagnie.value)
  }

  function Matches(c: Criteria): LT.Trajet -> bool {
    (t: LT.Trajet) => Meets(c, t)
  }

  function DepartKey(t: LT.Trajet): int {
    TimeValue(t.dateDepart)
  }

  /** The matching trips by departure date: what find(query).sort() walks. */
  function Listing(trajets: seq<LT.Trajet>, c: Criteria): (r: seq<LT.Trajet>)
    ensures multiset(r) == multiset(Filter(trajets, Matches(c)))
  {
    SortBy(Filter(trajets, Matches(c)), DepartKey)
  }

  /** How the handler ends: with the JSON page, or without a reply. */
  datatype ListOutcome = Listed(reply: PageReply<LT.Trajet>) | Unanswered

  /** getTrajets: the page of the matching trips, `total` being the count of
      the same filter; an Invalid Date, a NaN page or limit, or a negative
      skip leaves the request unanswered. */
  function GetTrajets(trajets: seq<LT.Trajet>, q: TripQuery, parseDate: string -> Option<Instant>): (r: ListOutcome)
    ensures var page := NumberParam(q.page, DefaultPage);
            var limit := NumberParam(q.limit, DefaultLimit);
            (r.Unanswered? <==> CriteriaOf(q, parseDate).None? || page.NaN? || limit.NaN? || SkipOf(page, limit).value < 0)
            && (r.Listed? ==> r.reply.total == |Filter(trajets, Matches(CriteriaOf(q, parseDate).value))|
                              && r.reply.page == page.value
                              && r.reply.pages == PageCount(r.reply.total, limit.value)
                              && r.reply.docs == Window(Listing(trajets, CriteriaOf(q, parseDate).value),
                                                        SkipOf(page, limit), limit).value)
  {
    match CriteriaOf(q, parseDate)
    case None => Unanswered
    case Some(c) =>
      match Paginate(Listing(trajets, c), NumberParam(q.page, DefaultPage), NumberParam(q.limit, DefaultLimit))
      case None => Unanswered
      case Some(reply) => Listed(reply)
  }

  /** Every listed trip is a stored trip that meets each given condition,
      and the page is in departure order. */
  lemma ListedTripsMatch(trajets: seq<LT.Trajet>, q: TripQuery, parseDate: string -> Option<Instant>)
    ensures var r := GetTrajets(trajets, q, parseDate);
            r.Listed? ==> SortedBy(r.reply.docs, DepartKey)
                          && forall i :: 0 <= i < |r.reply.docs| ==>
                               r.reply.docs[i] in trajets && Meets(CriteriaOf(q, parseDate).value, r.reply.docs[i])
  {
    var r := GetTrajets(trajets, q, parseDate);
    if r.Listed? {
      var c := CriteriaOf(q, parseDate).value;
      var all := Listing(trajets, c);
      var f := Filter(trajets, Matches(c));
      SortBySorted(f, DepartKey);
      var skip := SkipOf(NumberParam(q.page, DefaultPage), NumberParam(q.limit, DefaultLimit));
      var limit := NumberParam(q.limit, DefaultLimit);
      var docs := r.reply.docs;
      assert docs == Window(all, skip, limit).value;
      WindowOfSorted(all, skip, limit, DepartKey);
      forall i | 0 <= i < |docs| ensures docs[i] in trajets && Meets(c, docs[i]) {
        assert docs[i] in all;
        assert docs[i] in multiset(f);
        assert docs[i] in f;
      }
    }
  }

  /** With no condition given, every stored trip matches and is counted. */
  lemma NoConditionCountsAll(trajets: seq<LT.Trajet>, q: TripQuery, parseDate: string -> Option<Instant>)
    requires !Filled(q.villeDepart) && !Filled(q.villeArrivee) && !Filled(q.date) && !Filled(q.compagnie)
    ensures var r := GetTrajets(trajets, q, parseDate);
            r.Listed? ==> r.reply.total == |trajets|
  {
    var c := CriteriaOf(q, parseDate).value;
    FilterAll(trajets, Matches(c));
  }

  /** With a positive limit, pages 1 to `pages` together list each
      matching trip exactly once, in departure order. */
  lemma ListingCoversMatches(trajets: seq<LT.Trajet>, c: Criteria, limit: int)
    requires limit > 0
    ensures var all := Listing(trajets, c);
            PagesUpTo(all, limit, PageCount(|Filter(trajets, Matches(c))|, limit).value) == all
            && multiset(all) == multiset(Filter(trajets, Matches(c)))
            && SortedBy(all, DepartKey)
  {
    PagesCoverAll(Listing(trajets, c), limit);
    SortBySorted(Filter(trajets, Matches(c)), DepartKey);
  }

  const NotFoundMessage: string := "Trajet non trouvé"

  datatype TripReply = TripReply(status: int, trajet: Option<LT.Trajet>, message: Option<string>)

  /** getTrajetById: the stored trip, or 404 with the fixed message. */
  function GetTrajetById(trajets: seq<LT.Trajet>, id: Id): (r: TripReply)
    ensures r.status in {200, 404}
    ensures r.status == 404 <==> Fresh(trajets, LegacyTrajetKey, id)
    ensures r.status == 404 ==> r.trajet.None? && r.message == Some(NotFoundMessage)
    ensures r.status == 200 ==> r.trajet.Some? && r.trajet.value in trajets && r.trajet.value.id == id
  {
    match Lookup(trajets, LegacyTrajetKey, Some(id))
    case None => TripReply(404, None, Some(NotFoundMessage))
    case Some(t) => TripReply(200, Some(t), None)
  }
}
