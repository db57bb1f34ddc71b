// seed.js: refills the `trajets` collection with every route between seven
// cities, for the first four companies, the next five days and the first
// two departure hours. Math.random, which draws each bus number, is given
// as one draw per document; "today" is a parameter. The generation is
// stated over any lists of the same shape as the script's (SeedLists), and
// the script's own lists are shown to have that shape.

module Seed {
  import opened Common
  import opened Calendar
  import opened Collection

  const Companies: seq<string> := ["Diarra Transport", "Bani Transport", "Sonef Mali",
                                   "Oumar Touré Voyages", "Bakary Trans", "Star Voyage",
                                   "African Bus Mali"]
  const Villes: seq<string> := ["Bamako", "Sikasso", "Kayes", "Mopti", "Ségou", "Gao", "Tombouctou"]
  const PrixKm: int := 75
  const Heures: seq<string> := ["07:00", "11:30", "14:45", "18:00"]
  const SeedPlaces: int := 40
  const SeedCapacite: int := 50

  /** How many documents the nested loops push: every ordered pair of
      distinct cities, four companies, five days, two hours. */
  const SeedCount: nat := 7 * 6 * 4 * 5 * 2

  /** The cities, companies and hours the loops walk. */
  datatype SeedLists = SeedLists(villes: seq<string>, companies: seq<string>, heures: seq<string>)

  const Script: SeedLists := SeedLists(Villes, Companies, Heures)

  /** Seven distinct cities, at least four companies and two hours. */
  predicate Shaped(l: SeedLists) {
    |l.villes| == 7 && |l.companies| >= 4 && |l.heures| >= 2
    && forall i, j :: 0 <= i < j < |l.villes| ==> l.villes[i] != l.villes[j]
  }

  lemma ScriptShaped()
    ensures Shaped(Script)
  {
  }

  datatype SeedBus = SeedBus(numero: string, capacite: int)

  /** A document as pushed into `docs`; MongoDB adds the `_id` on insertion. */
  datatype SeedDoc = SeedDoc(villeDepart: string, villeArrivee: string, compagnie: string,
                             dateDepart: Instant, heureDepart: string, prix: int,
                             placesDisponibles: int, bus: SeedBus)

  /** `villes.indexOf(v)`: the first position of v, -1 when absent. */
  function CityIndex(villes: seq<string>, v: string): (i: int)
    ensures -1 <= i < |villes|
    ensures i >= 0 ==> villes[i] == v && forall k :: 0 <= k < i ==> villes[k] != v
    ensures i == -1 <==> v !in villes
  {
    match FirstIndex(villes, (w: string) => w == v)
    case None => -1
    case Some(k) => k
  }

  lemma CityIndexOfVille(l: SeedLists, i: nat)
    requires Shaped(l) && i < |l.villes|
    ensures CityIndex(l.villes, l.villes[i]) == i
  {
  }

  function Abs(x: int): nat {
    if x < 0 then -x else x
  }

  /** dist: a hundred per step between the cities' positions in the list,
      one step added, plus fifty. */
  function Dist(villes: seq<string>, from: string, to: string): (d: int)
    ensures d >= 150
  {
    (Abs(CityIndex(villes, from) - CityIndex(villes, to)) + 1) * 100 + 50
  }

  /** The distance does not depend on the direction of travel. */
  lemma DistSymmetric(villes: seq<string>, from: string, to: string)
    ensures Dist(villes, from, to) == Dist(villes, to, from)
  {
  }

  /** Between two of the seven cities the distance grows with their
      separation in the list, from 250 for neighbours to 750. */
  lemma DistOfVilles(l: SeedLists, i: nat, j: nat)
    requires Shaped(l) && i < |l.villes| && j < |l.villes| && i != j
    ensures Dist(l.villes, l.villes[i], l.villes[j]) == (Abs(i - j) + 1) * 100 + 50
    ensures 250 <= Dist(l.villes, l.villes[i], l.villes[j]) <= 750
  {
    CityIndexOfVille(l, i);
    CityIndexOfVille(l, j);
  }

  /** `dates`: midnight of today and the six days after it. */
  function Dates(today: Civil): (r: seq<Instant>)
    requires ValidCivil(today)
    ensures |r| == 7
    ensures forall k :: 0 <= k < 7 ==> r[k] == Midnight(AddDays(today, k))
  {
    seq(7, k requires 0 <= k < 7 => Midnight(AddDays(today, k)))
  }

  /** `Math.floor(Math.random() * 900) + 100`. */
  function BusNumber(r: real): (n: nat)
    requires IsDraw(r)
    ensures 100 <= n <= 999
  {
    Pick(900, r) + 100
  }

  function NotCity(dep: string): string -> bool {
    (v: string) => v != dep
  }

  /** A filter that drops exactly the element at d. */
  lemma FilterSkipsOne<T>(s: seq<T>, p: T -> bool, d: nat)
    requires d < |s| && !p(s[d])
    requires forall i :: 0 <= i < |s| && i != d ==> p(s[i])
    ensures Filter(s, p) == s[..d] + s[d + 1..]
  {
    FilterSplitAt(s, p, d);
    FilterDropHead(s[d], s[d + 1..], p);
    FilterAllPrefix(s, p, d);
    FilterAllSuffix(s, p, d);
  }

  /** Filtering a list is filtering the part before d, then the rest. */
  lemma FilterSplitAt<T>(s: seq<T>, p: T -> bool, d: nat)
    requires d < |s|
    ensures Filter(s, p) == Filter(s[..d], p) + Filter([s[d]] + s[d + 1..], p)
  {
    SplitAt(s, d);
    FilterOfSplit(s, s[..d], [s[d]] + s[d + 1..], p);
  }

  lemma SplitAt<T>(s: seq<T>, d: nat)
    requires d < |s|
    ensures s == s[..d] + ([s[d]] + s[d + 1..])
  {
  }

  lemma FilterOfSplit<T>(s: seq<T>, a: seq<T>, b: seq<T>, p: T -> bool)
    requires s == a + b
    ensures Filter(s, p) == Filter(a, p) + Filter(b, p)
  {
    FilterConcat(a, b, p);
  }

  /** A first element that fails the filter is dropped. */
  lemma FilterDropHead<T>(x: T, back: seq<T>, p: T -> bool)
    requires !p(x)
    ensures Filter([x] + back, p) == Filter(back, p)
  {
    assert ([x] + back)[1..] == back;
  }

  lemma FilterAllPrefix<T>(s: seq<T>, p: T -> bool, d: nat)
    requires d <= |s| && forall i :: 0 <= i < d ==> p(s[i])
    ensures Filter(s[..d], p) == s[..d]
  {
    var t := s[..d];
    forall i | 0 <= i < |t| ensures p(t[i]) {
      assert t[i] == s[i];
    }
    FilterAll(t, p);
  }

  lemma FilterAllSuffix<T>(s: seq<T>, p: T -> bool, d: nat)
    requires d < |s| && forall i :: d < i < |s| ==> p(s[i])
    ensures Filter(s[d + 1..], p) == s[d + 1..]
  {
    var t := s[d + 1..];
    forall i | 0 <= i < |t| ensures p(t[i]) {
      assert t[i] == s[d + 1 + i];
    }
    FilterAll(t, p);
  }

  /** The a-th arrival city of departure d, as a position in the list. */
  function ArrivalOf(d: nat, a: nat): nat {
    if a < d then a else a + 1
  }

  /** `villes.filter(v => v !== dep)`: the other six cities, in list order. */
  lemma OthersOf(l: SeedLists, d: nat)
    requires Shaped(l) && d < |l.villes|
    ensures var others := Filter(l.villes, NotCity(l.villes[d]));
            |others| == 6 && forall a :: 0 <= a < 6 ==> others[a] == l.villes[ArrivalOf(d, a)]
  {
    OnlyItsOwnCity(l, d);
    FilterSkipsOne(l.villes, NotCity(l.villes[d]), d);
    SkipIndex(l.villes, d);
  }

  /** The cities being distinct, only the d-th one is the d-th city. */
  lemma OnlyItsOwnCity(l: SeedLists, d: nat)
    requires Shaped(l) && d < |l.villes|
    ensures !NotCity(l.villes[d])(l.villes[d])
    ensures forall i :: 0 <= i < |l.villes| && i != d ==> NotCity(l.villes[d])(l.villes[i])
  {
    forall i | 0 <= i < |l.villes| && i != d ensures l.villes[i] != l.villes[d] {
      if i < d { assert l.villes[i] != l.villes[d]; } else { assert l.villes[d] != l.villes[i]; }
    }
  }

  /** Dropping the element at d shifts the later ones down by one. */
  lemma SkipIndex<T>(s: seq<T>, d: nat)
    requires d < |s|
    ensures var t := s[..d] + s[d + 1..];
            |t| == |s| - 1 && forall a :: 0 <= a < |t| ==> t[a] == s[ArrivalOf(d, a)]
  {
  }

  /** One document: the distance priced at 75 a unit, 40 seats, a bus of
      capacity 50 numbered from the draw. */
  function MakeDoc(villes: seq<string>, dep: string, arr: string, comp: string, date: Instant, h: string, r: real): (doc: SeedDoc)
    requires IsDraw(r)
    ensures doc.prix == Dist(villes, dep, arr) * PrixKm
  {
    SeedDoc(dep, arr, comp, date, h, Dist(villes, dep, arr) * PrixKm, SeedPlaces,
            SeedBus("B-" + Digits(BusNumber(r)), SeedCapacite))
  }

  /** The position in `docs` of the document of departure d, arrival a,
      company c, day t and hour h, the innermost loop changing fastest. */
  function Position(d: nat, a: nat, c: nat, t: nat, h: nat): nat {
    d * 240 + a * 40 + c * 10 + t * 2 + h
  }

  predicate InRange(d: nat, a: nat, c: nat, t: nat, h: nat) {
    d < 7 && a < 6 && c < 4 && t < 5 && h < 2
  }

  lemma PositionBound(d: nat, a: nat, c: nat, t: nat, h: nat)
    requires InRange(d, a, c, t, h)
    ensures Position(d, a, c, t, h) < SeedCount
  {
  }

  /** Reading the loop counters back from a position. */
  lemma Unpack(d: nat, a: nat, c: nat, t: nat, h: nat)
    requires InRange(d, a, c, t, h)
    ensures var j := Position(d, a, c, t, h);
            j / 240 == d && j % 240 / 40 == a && j % 40 / 10 == c && j % 10 / 2 == t && j % 2 == h
  {
    var j := Position(d, a, c, t, h);
    By240(j, d, a * 40 + c * 10 + t * 2 + h);
    By40(j % 240, a, c * 10 + t * 2 + h);
    By40(j, d * 6 + a, c * 10 + t * 2 + h);
    By10(j % 40, c, t * 2 + h);
    By10(j, d * 24 + a * 4 + c, t * 2 + h);
    By2(j % 10, t, h);
    By2(j, d * 120 + a * 20 + c * 5 + t, h);
  }

  // Quotient and remainder by each radix of the loop nest.
  lemma By240(x: int, q: int, r: int)
    requires 0 <= r < 240 && x == q * 240 + r
    ensures x / 240 == q && x % 240 == r
  {
  }

  lemma By40(x: int, q: int, r: int)
    requires 0 <= r < 40 && x == q * 40 + r
    ensures x / 40 == q && x % 40 == r
  {
  }

  lemma By10(x: int, q: int, r: int)
    requires 0 <= r < 10 && x == q * 10 + r
    ensures x / 10 == q && x % 10 == r
  {
  }

  lemma By2(x: int, q: int, r: int)
    requires 0 <= r < 2 && x == q * 2 + r
    ensures x / 2 == q && x % 2 == r
  {
  }

  predicate Draws(draws: seq<real>) {
    |draws| == SeedCount && forall j :: 0 <= j < |draws| ==> IsDraw(draws[j])
  }

  /** The document the loops push at position j. */
  function DocAt(l: SeedLists, today: Civil, draws: seq<real>, j: nat): SeedDoc
    requires Shaped(l) && ValidCivil(today) && Draws(draws) && j < SeedCount
  {
    var d, a, c, t, h := j / 240, j % 240 / 40, j % 40 / 10, j % 10 / 2, j % 2;
    MakeDoc(l.villes, l.villes[d], l.villes[ArrivalOf(d, a)], l.companies[c],
            Midnight(AddDays(today, t)), l.heures[h], draws[j])
  }

  /** All documents of the seeding, in push order. */
  function SeedDocs(l: SeedLists, today: Civil, draws: seq<real>): (r: seq<SeedDoc>)
    requires Shaped(l) && ValidCivil(today) && Draws(draws)
    ensures |r| == SeedCount
  {
    seq(SeedCount, j requires 0 <= j < SeedCount => DocAt(l, today, draws, j))
  }

  /** The nested forEach loops of seed.js over the lists `l`. */
  method Generate(l: SeedLists, today: Civil, draws: seq<real>) returns (docs: seq<SeedDoc>)
    requires Shaped(l) && ValidCivil(today) && Draws(draws)
    ensures docs == SeedDocs(l, today, draws)
  {
    ghost var all := SeedDocs(l, today, draws);
    var dates := Dates(today);
    docs := [];
    var d := 0;
    while d < |l.villes|
      invariant 0 <= d <= 7 && |docs| == d * 240
      invariant docs == all[..|docs|]
    {
      var dep := l.villes[d];
      var others := Filter(l.villes, NotCity(dep));
      OthersOf(l, d);
      var a := 0;
      while a < |others|
        invariant 0 <= a <= 6 && |docs| == d * 240 + a * 40
        invariant docs == all[..|docs|]
      {
        var arr := others[a];
        var companies := l.companies[..4];
        var c := 0;
        while c < |companies|
          invariant 0 <= c <= 4 && |docs| == d * 240 + a * 40 + c * 10
          invariant docs == all[..|docs|]
        {
          var days := dates[..5];
          var t := 0;
          while t < |days|
            invariant 0 <= t <= 5 && |docs| == d * 240 + a * 40 + c * 10 + t * 2
            invariant docs == all[..|docs|]
          {
            var hours := l.heures[..2];
            var h := 0;
            while h < |hours|
              invariant 0 <= h <= 2 && |docs| == Position(d, a, c, t, h)
              invariant docs == all[..|docs|]
            {
              PushedDoc(l, today, draws, d, a, c, t, h);
              var doc := MakeDoc(l.villes, dep, arr, companies[c], days[t], hours[h], draws[|docs|]);
              PrefixStep(all, |docs|);
              docs := docs + [doc];
              h := h + 1;
            }
            t := t + 1;
          }
          c := c + 1;
        }
        a := a + 1;
      }
      d := d + 1;
    }
    assert all[..|docs|] == all;
  }

  /** The document the innermost loop builds at counters d, a, c, t, h is
      the one SeedDocs places at their position. */
  lemma PushedDoc(l: SeedLists, today: Civil, draws: seq<real>, d: nat, a: nat, c: nat, t: nat, h: nat)
    requires Shaped(l) && ValidCivil(today) && Draws(draws) && InRange(d, a, c, t, h)
    ensures var others := Filter(l.villes, NotCity(l.villes[d]));
            var j := Position(d, a, c, t, h);
            |others| == 6 && j < SeedCount
            && SeedDocs(l, today, draws)[j]
               == MakeDoc(l.villes, l.villes[d], others[a], l.companies[..4][c],
                          Dates(today)[..5][t], l.heures[..2][h], draws[j])
  {
    Unpack(d, a, c, t, h);
    PositionBound(d, a, c, t, h);
    OthersOf(l, d);
  }

  lemma PrefixStep<T>(s: seq<T>, n: nat)
    requires n < |s|
    ensures s[..n + 1] == s[..n] + [s[n]]
  {
  }

  /** Every seeded document links two different cities, costs 75 per unit
      of distance, offers 40 seats on a bus of capacity 50 numbered B-100 to
      B-999, and leaves at midnight within the next five days, at one of
      the first two hours and with one of the first four companies. */
  lemma SeededDocument(l: SeedLists, today: Civil, draws: seq<real>, j: nat)
    requires Shaped(l) && ValidCivil(today) && Draws(draws) && j < SeedCount
    ensures var doc := SeedDocs(l, today, draws)[j];
            doc.villeDepart in l.villes && doc.villeArrivee in l.villes
            && doc.villeDepart != doc.villeArrivee
            && doc.prix == Dist(l.villes, doc.villeDepart, doc.villeArrivee) * PrixKm
            && doc.placesDisponibles == SeedPlaces && doc.bus.capacite == SeedCapacite
            && (exists n :: 100 <= n <= 999 && doc.bus.numero == "B-" + Digits(n))
            && (exists k :: 0 <= k < 5 && doc.dateDepart == Midnight(AddDays(today, k)))
            && doc.heureDepart in l.heures[..2] && doc.compagnie in l.companies[..4]
  {
    var doc := SeedDocs(l, today, draws)[j];
    var d, a, t := j / 240, j % 240 / 40, j % 10 / 2;
    assert doc == DocAt(l, today, draws, j);
    assert doc.villeDepart == l.villes[d] && doc.villeArrivee == l.villes[ArrivalOf(d, a)];
    assert doc.bus.numero == "B-" + Digits(BusNumber(draws[j]));
    assert doc.dateDepart == Midnight(AddDays(today, t));
    assert doc.heureDepart == l.heures[..2][j % 2];
    assert doc.compagnie == l.companies[..4][j % 40 / 10];
  }

  /** Every route between two different cities is seeded for each of the
      four companies, five days and two hours. */
  lemma EveryRouteSeeded(l: SeedLists, today: Civil, draws: seq<real>, dep: nat, arr: nat, c: nat, t: nat, h: nat)
    requires Shaped(l) && ValidCivil(today) && Draws(draws)
    requires dep < 7 && arr < 7 && dep != arr && c < 4 && t < 5 && h < 2
    ensures exists j :: 0 <= j < SeedCount
              && var doc := SeedDocs(l, today, draws)[j];
                 doc.villeDepart == l.villes[dep] && doc.villeArrivee == l.villes[arr]
                 && doc.compagnie == l.companies[c] && doc.dateDepart == Midnight(AddDays(today, t))
                 && doc.heureDepart == l.heures[h]
  {
    var a := if arr < dep then arr else arr - 1;
    assert ArrivalOf(dep, a) == arr;
    PositionBound(dep, a, c, t, h);
    Unpack(dep, a, c, t, h);
    var j := Position(dep, a, c, t, h);
    assert SeedDocs(l, today, draws)[j] == DocAt(l, today, draws, j);
  }

  /** The `trajets` collection seed.js writes to. */
  class TrajetsCollection {
    var docs: seq<SeedDoc>

    constructor(initial: seq<SeedDoc>)
      ensures docs == initial
    {
      docs := initial;
    }

    /** deleteMany({}) then insertMany(docs): the old content is gone and
        the collection holds exactly the generated documents, 1680 of them. */
    method Reseed(today: Civil, draws: seq<real>) returns (insertedCount: nat)
      requires ValidCivil(today) && Draws(draws)
      modifies this
      ensures insertedCount == SeedCount == 1680
      ensures docs == SeedDocs(Script, today, draws)
    {
      ScriptShaped();
      var generated := Generate(Script, today, draws);
      docs := [];
      docs := docs + generated;
      insertedCount := |generated|;
    }
  }
}
