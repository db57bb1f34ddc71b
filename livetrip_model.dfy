// The live-trip schema of models/LiveTrip.model.js: one record per trip
// (unique `trajetId`), copies of the trip's bus, cities and date, a status
// that defaults to 'À venir', and an optional current bus position.

module LiveTripModel {
  import opened Common
  import opened Calendar

  datatype Status = AVenir | EnCours | Termine | Annule

  function StatusName(s: Status): string {
    match s
    case AVenir => "À venir"
    case EnCours => "En cours"
    case Termine => "Terminé"
    case Annule => "Annulé"
  }

  function ParseStatus(s: string): (r: Option<Status>)
    ensures r.Some? ==> StatusName(r.value) == s
  {
    if s == "À venir" then Some(AVenir)
    else if s == "En cours" then Some(EnCours)
    else if s == "Terminé" then Some(Termine)
    else if s == "Annulé" then Some(Annule)
    else None
  }

  lemma StatusRoundTrip(st: Status)
    ensures ParseStatus(StatusName(st)) == Some(st)
  {
  }

  const DefaultStatus: Status := AVenir

  datatype LiveTrip = LiveTrip(
    id: Id,
    trajetId: Id,
    busId: Id,
    originCityName: string,
    destinationCityName: string,
    departureDateTime: Instant,
    status: Status,
    currentPosition: Option<PointInput>,
    lastUpdated: Option<Instant>)

  /** A stored live trip as the schema's validators accept it; a position,
      when there is one, carries both coordinates. */
  predicate Valid(l: LiveTrip) {
    l.originCityName != "" && l.destinationCityName != ""
    && ValidInstant(l.departureDateTime)
    && (l.currentPosition.Some? ==> IsComplete(l.currentPosition.value))
  }

  /** What every stored live trip satisfies. The position update bypasses the
      validators, so a stored position may lack a coordinate. */
  predicate Stored(l: LiveTrip) {
    l.originCityName != "" && l.destinationCityName != "" && ValidInstant(l.departureDateTime)
  }

  /** `new LiveTrip({...}).save()` with the status defaulting to 'À venir';
      None when validation rejects it. */
  function New(id: Id, trajetId: Id, busId: Id, origin: string, destination: string,
               departure: Instant, status: Option<Status>): (r: Option<LiveTrip>)
    ensures r.Some? <==> origin != "" && destination != "" && ValidInstant(departure)
    ensures r.Some? ==> Valid(r.value) && r.value.id == id && r.value.trajetId == trajetId
                        && r.value.busId == busId && r.value.originCityName == origin
                        && r.value.destinationCityName == destination
                        && r.value.departureDateTime == departure
                        && r.value.currentPosition.None? && r.value.lastUpdated.None?
    ensures r.Some? && status.None? ==> r.value.status == DefaultStatus
    ensures r.Some? && status.Some? ==> r.value.status == status.value
  {
    if origin != "" && destination != "" && ValidInstant(departure) then
      Some(LiveTrip(id, trajetId, busId, origin, destination, departure, Or(status, DefaultStatus), None, None))
    else None
  }

  /** At most one live trip per trip: the unique index on `trajetId`. */
  predicate OnePerTrajet(s: seq<LiveTrip>) {
    forall i, j :: 0 <= i < j < |s| ==> s[i].trajetId != s[j].trajetId
  }
}
