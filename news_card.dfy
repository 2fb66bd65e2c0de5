/**
 * The colour of the outlet badge on a news card: a switch on the
 * lower-cased source name with five outlet cases and a grey default.
 */
module NewsCard {
  import opened Types
  import opened Text

  const ClarinBadge := "bg-red-100 text-red-800 border-red-200"
  const LaNacionBadge := "bg-blue-100 text-blue-800 border-blue-200"
  const InfobaeBadge := "bg-orange-100 text-orange-800 border-orange-200"
  const Pagina12Badge := "bg-gray-800 text-white border-gray-900"
  const AmbitoBadge := "bg-emerald-100 text-emerald-800 border-emerald-200"
  const DefaultBadge := "bg-gray-100 text-gray-800 border-gray-200"

  /** The keys of the switch's five cases, already lower-case. */
  const OutletKeys: seq<string> := ["clarín", "la nación", "infobae", "página/12", "ámbito financiero"]

  /** The badge classes of those five cases, in the same order. */
  const OutletBadges: seq<string> := [ClarinBadge, LaNacionBadge, InfobaeBadge, Pagina12Badge, AmbitoBadge]

  function SourceBadgeColor(source: string): (r: string)
    ensures r != []
    ensures r == DefaultBadge || r in OutletBadges
  {
    var key := Lower(source);
    if key == "clarín" then ClarinBadge
    else if key == "la nación" then LaNacionBadge
    else if key == "infobae" then InfobaeBadge
    else if key == "página/12" then Pagina12Badge
    else if key == "ámbito financiero" then AmbitoBadge
    else DefaultBadge
  }

  /** The six class strings are pairwise distinct. */
  lemma BadgesDistinct()
    ensures forall i, j :: 0 <= i < j < |OutletBadges| ==> OutletBadges[i] != OutletBadges[j]
    ensures DefaultBadge !in OutletBadges
  {
  }

  /** A source whose lower-cased form is the k-th key gets the k-th outlet colour. */
  lemma OutletKeyColour(source: string, k: nat)
    requires k < |OutletKeys| && Lower(source) == OutletKeys[k]
    ensures SourceBadgeColor(source) == OutletBadges[k]
  {
  }

  /** The default colour is given exactly to sources outside the five keys. */
  lemma DefaultIffUnknown(source: string)
    ensures SourceBadgeColor(source) == DefaultBadge <==> Lower(source) !in OutletKeys
  {
  }

  /** Only the lower-cased form of the source decides the colour. */
  lemma CaseInsensitive(a: string, b: string)
    requires Lower(a) == Lower(b)
    ensures SourceBadgeColor(a) == SourceBadgeColor(b)
  {
  }

  /** Lower-casing the source first does not change its colour. */
  lemma LowerCasedSourceSameColour(source: string)
    ensures SourceBadgeColor(Lower(source)) == SourceBadgeColor(source)
  {
    LowerIdempotent(source);
    CaseInsensitive(Lower(source), source);
  }

  /** Each enum outlet, spelt as the enum spells it, gets its own outlet colour. */
  lemma EnumOutletColours()
    ensures SourceBadgeColor(Clarin.Name()) == ClarinBadge
    ensures SourceBadgeColor(LaNacion.Name()) == LaNacionBadge
    ensures SourceBadgeColor(Infobae.Name()) == InfobaeBadge
    ensures SourceBadgeColor(Pagina12.Name()) == Pagina12Badge
    ensures SourceBadgeColor(Ambito.Name()) == AmbitoBadge
  {
    OutletNamesLower();
    OutletKeyColour(Clarin.Name(), 0);
    OutletKeyColour(LaNacion.Name(), 1);
    OutletKeyColour(Infobae.Name(), 2);
    OutletKeyColour(Pagina12.Name(), 3);
    OutletKeyColour(Ambito.Name(), 4);
  }

  /** Every enum outlet hits a case of its own, never the default. */
  lemma EnumOutletsDistinct(n: Newspaper, m: Newspaper)
    ensures SourceBadgeColor(n.Name()) != DefaultBadge
    ensures n != m ==> SourceBadgeColor(n.Name()) != SourceBadgeColor(m.Name())
  {
    EnumOutletColours();
    BadgesDistinct();
  }

  /** The enum's outlet names lower-case to the switch's keys, in order. */
  lemma OutletNamesLower()
    ensures Lower(Clarin.Name()) == OutletKeys[0]
    ensures Lower(LaNacion.Name()) == OutletKeys[1]
    ensures Lower(Infobae.Name()) == OutletKeys[2]
    ensures Lower(Pagina12.Name()) == OutletKeys[3]
    ensures Lower(Ambito.Name()) == OutletKeys[4]
  {
  }
}
