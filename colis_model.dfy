// The parcel schema of models/colis.model.js with its helpers: the tracking
// code generator over an alphabet without look-alike symbols, the price
// formula, and the pre-save hook that draws a code nobody holds yet for a new
// parcel and recomputes the price when the weight changed.

module ColisModel {
  import opened Common
  import opened Calendar

  // ---------------------------------------------------------------------
  // Tracking codes
  // ---------------------------------------------------------------------

  /** The 32 symbols a tracking code is drawn from, "23456789ABCDEFGHJKLMNPQRSTUVWXYZ",
      written here in four groups of eight. */
  const Alphabet: string := "23456789" + "ABCDEFGH" + "JKLMNPQR" + "STUVWXYZ"
  const DefaultCodeLength: nat := 8

  /** A symbol that cannot be confused with another: not 0, 1, O or I. */
  predicate Unambiguous(c: char) {
    c != '0' && c != '1' && c != 'O' && c != 'I'
  }

  lemma GroupUnambiguous(g: string)
    requires g == "23456789" || g == "ABCDEFGH" || g == "JKLMNPQR" || g == "STUVWXYZ"
    ensures forall i :: 0 <= i < |g| ==> Unambiguous(g[i])
  {
  }

  /** The alphabet has 32 symbols, none of them 0, 1, O or I. */
  lemma AlphabetFacts()
    ensures |Alphabet| == 32
    ensures forall i :: 0 <= i < |Alphabet| ==> Unambiguous(Alphabet[i])
  {
    GroupUnambiguous("23456789");
    GroupUnambiguous("ABCDEFGH");
    GroupUnambiguous("JKLMNPQR");
    GroupUnambiguous("STUVWXYZ");
  }

  /** Every symbol of a generated code is unambiguous. */
  lemma CodeUnambiguous(code: string)
    requires forall i :: 0 <= i < |code| ==> code[i] in Alphabet
    ensures forall i :: 0 <= i < |code| ==> Unambiguous(code[i])
  {
    AlphabetFacts();
  }

  predicate AllDraws(draws: seq<real>) {
    forall i :: 0 <= i < |draws| ==> IsDraw(draws[i])
  }

  /** The code spelled by a sequence of Math.random() draws, one symbol each. */
  function CodeFrom(draws: seq<real>): (code: string)
    requires AllDraws(draws)
    ensures |code| == |draws|
    ensures forall i :: 0 <= i < |draws| ==> code[i] == Alphabet[Pick(|Alphabet|, draws[i])]
  {
    if draws == [] then ""
    else CodeFrom(draws[..|draws| - 1]) + [Alphabet[Pick(|Alphabet|, draws[|draws| - 1])]]
  }

  /** generateCode(length): appends one symbol per draw, `length` times. */
  method GenerateCode(length: nat, draws: seq<real>) returns (code: string)
    requires |draws| >= length && AllDraws(draws)
    ensures code == CodeFrom(draws[..length])
    ensures |code| == length
  {
    code := "";
    var i := 0;
    while i < length
      invariant 0 <= i <= length
      invariant code == CodeFrom(draws[..i])
    {
      assert draws[..i + 1][..i] == draws[..i];
      code := code + [Alphabet[Pick(|Alphabet|, draws[i])]];
      i := i + 1;
    }
  }

  /** Each candidate of a redraw loop is the draws of one generateCode() call. */
  predicate Candidates(candidates: seq<seq<real>>) {
    forall k :: 0 <= k < |candidates| ==> |candidates[k]| >= DefaultCodeLength && AllDraws(candidates[k])
  }

  /** Every candidate's code is spelled with the unambiguous alphabet. */
  lemma CandidateCodeSymbols(candidates: seq<seq<real>>, k: nat)
    requires Candidates(candidates) && k < |candidates|
    ensures forall i :: 0 <= i < |CandidateCode(candidates, k)| ==> CandidateCode(candidates, k)[i] in Alphabet
    ensures forall i :: 0 <= i < |CandidateCode(candidates, k)| ==> Unambiguous(CandidateCode(candidates, k)[i])
  {
    var code := CandidateCode(candidates, k);
    AlphabetFacts();
    forall i | 0 <= i < |code| ensures code[i] in Alphabet {
      var d := candidates[k][..DefaultCodeLength];
      assert code[i] == Alphabet[Pick(|Alphabet|, d[i])];
    }
    CodeUnambiguous(code);
  }

  /** The code produced by the k-th candidate's draws. */
  function CandidateCode(candidates: seq<seq<real>>, k: nat): (code: string)
    requires Candidates(candidates) && k < |candidates|
    ensures |code| == DefaultCodeLength
  {
    CodeFrom(candidates[k][..DefaultCodeLength])
  }

  // ---------------------------------------------------------------------
  // Price
  // ---------------------------------------------------------------------

  const BaseFee: int := 500
  const PricePerKg: int := 300

  /** calculPrix(poids): a fixed fee plus a price per kilogram. */
  function CalculPrix(poids: int): int {
    BaseFee + poids * PricePerKg
  }

  /** A heavier parcel never costs less, and a strictly heavier one costs more. */
  lemma CalculPrixMonotone(a: int, b: int)
    ensures a <= b ==> CalculPrix(a) <= CalculPrix(b)
    ensures a < b ==> CalculPrix(a) < CalculPrix(b)
  {
  }

  /** The weight can be read back from the price. */
  lemma CalculPrixInverse(poids: int)
    ensures (CalculPrix(poids) - BaseFee) / PricePerKg == poids
  {
  }

  // ---------------------------------------------------------------------
  // The document
  // ---------------------------------------------------------------------

  datatype StatutColis = Enregistre | Encours | Arrive | AnnuleColis

  function StatutName(s: StatutColis): string {
    match s
    case Enregistre => "enregistré"
    case Encours => "encours"
    case Arrive => "arrivé"
    case AnnuleColis => "annulé"
  }

  function ParseStatut(s: string): (r: Option<StatutColis>)
    ensures r.Some? ==> StatutName(r.value) == s
  {
    if s == "enregistré" then Some(Enregistre)
    else if s == "encours" then Some(Encours)
    else if s == "arrivé" then Some(Arrive)
    else if s == "annulé" then Some(AnnuleColis)
    else None
  }

  lemma StatutRoundTrip(s: StatutColis)
    ensures ParseStatut(StatutName(s)) == Some(s)
  {
  }

  const DefaultStatut: StatutColis := Enregistre

  datatype Colis = Colis(
    id: Id,
    trajet: Option<Id>,
    description: string,
    poids: int,
    prix: int,
    statut: StatutColis,
    code_suivi: Option<string>,
    expediteur_nom: string,
    expediteur_telephone: string,
    expediteur_email: Option<string>,
    destinataire_nom: string,
    destinataire_telephone: string,
    date_enregistrement: Instant)

  /** What the schema's validators accept; the `trajet` reference is required. */
  predicate Valid(c: Colis) {
    c.trajet.Some? && c.description != ""
    && c.expediteur_nom != "" && c.expediteur_telephone != ""
    && c.destinataire_nom != "" && c.destinataire_telephone != ""
    && ValidInstant(c.date_enregistrement)
  }

  /** Whether some stored parcel holds the code (`Colis.exists({ code_suivi })`). */
  predicate Taken(stored: seq<Colis>, code: string) {
    exists i :: 0 <= i < |stored| && stored[i].code_suivi == Some(code)
  }

  /** The unique index on `code_suivi`. */
  predicate CodesUnique(s: seq<Colis>) {
    forall i, j :: 0 <= i < j < |s| && s[i].code_suivi.Some? ==> s[i].code_suivi != s[j].code_suivi
  }

  /** The redraw loop of the pre-save hook: generate codes until one is not
      taken. The source draws without bound; here the draws are a finite list
      of candidates and None means that every candidate was taken. */
  method DrawUniqueCode(stored: seq<Colis>, candidates: seq<seq<real>>) returns (code: Option<string>, used: nat)
    requires Candidates(candidates)
    ensures used <= |candidates|
    ensures code.Some? ==> used < |candidates| && code.value == CandidateCode(candidates, used)
    ensures code.Some? ==> !Taken(stored, code.value) && |code.value| == DefaultCodeLength
    ensures forall k :: 0 <= k < used ==> Taken(stored, CandidateCode(candidates, k))
    ensures code.None? ==> used == |candidates|
  {
    used := 0;
    while used < |candidates|
      invariant used <= |candidates|
      invariant forall k :: 0 <= k < used ==> Taken(stored, CandidateCode(candidates, k))
    {
      var c := GenerateCode(DefaultCodeLength, candidates[used]);
      if !Taken(stored, c) {
        return Some(c), used;
      }
      used := used + 1;
    }
    return None, used;
  }

  /** A document in memory with Mongoose's `isNew` flag and the modified flag of `poids`. */
  class ColisDocument {
    var doc: Colis
    var isNew: bool
    var poidsModified: bool

    /** `new Colis({...})`: a new document whose weight counts as modified. */
    constructor (c: Colis)
      ensures doc == c && isNew && poidsModified
    {
      doc := c;
      isNew := true;
      poidsModified := true;
    }

    /** A document read from the collection. */
    constructor Loaded(c: Colis)
      ensures doc == c && !isNew && !poidsModified
    {
      doc := c;
      isNew := false;
      poidsModified := false;
    }

    /** Object.assign(colis, updates): assigning a weight equal to the current
        one does not mark the path as modified. */
    method Assign(updated: Colis)
      modifies this
      ensures doc == updated && isNew == old(isNew)
      ensures poidsModified == (old(poidsModified) || updated.poids != old(doc).poids)
    {
      poidsModified := poidsModified || updated.poids != doc.poids;
      doc := updated;
    }

    /** The pre-save hook. A new document gets the first candidate code no
        stored parcel holds; the price is recomputed iff the document is new
        or its weight was modified. `ok` is false only when every candidate
        was taken, and the document is then left as it was. */
    method PreSave(stored: seq<Colis>, candidates: seq<seq<real>>) returns (ok: bool)
      requires Candidates(candidates)
      modifies this
      ensures !ok ==> old(isNew) && doc == old(doc) && isNew == old(isNew) && poidsModified == old(poidsModified)
      ensures !ok ==> forall k :: 0 <= k < |candidates| ==> Taken(stored, CandidateCode(candidates, k))
      ensures ok && old(isNew) ==> doc.code_suivi.Some? && !Taken(stored, doc.code_suivi.value)
                                   && |doc.code_suivi.value| == DefaultCodeLength
      ensures ok && !old(isNew) ==> doc.code_suivi == old(doc).code_suivi
      ensures ok && (old(isNew) || old(poidsModified)) ==> doc.prix == CalculPrix(doc.poids)
      ensures ok && !old(isNew) && !old(poidsModified) ==> doc.prix == old(doc).prix
      ensures ok ==> doc == old(doc).(code_suivi := doc.code_suivi, prix := doc.prix)
      ensures ok ==> !isNew && !poidsModified
    {
      if isNew {
        var code, used := DrawUniqueCode(stored, candidates);
        if code.None? {
          return false;
        }
        doc := doc.(code_suivi := code);
      }
      if poidsModified || isNew {
        doc := doc.(prix := CalculPrix(doc.poids));
      }
      isNew := false;
      poidsModified := false;
      ok := true;
    }
  }
}
