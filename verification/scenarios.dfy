/** The closed list of betting lines (which seats went all-in, in seat order)
    and the parser that turns a line's name into it. */
module Scenarios {
  import opened Failures

  datatype Scenario =
    | EmptyBigblind
    | OneraiseCutoff
    | OneraiseDealer
    | OneraiseSmallblind
    | TworaisesCutoffDealer
    | TworaisesCutoffSmallblind
    | TworaisesCutoffBigblind
    | TworaisesDealerSmallblind
    | TworaisesDealerBigblind
    | TworaisesSmallblindBigblind
    | ThreeraisesCutoffDealerSmallblind
    | ThreeraisesCutoffDealerBigblind
    | ThreeraisesCutoffSmallblindBigblind
    | ThreeraisesDealerSmallblindBigblind
    | FourraisesCutoffDealerSmallblindBigblind

  /** The fifteen scenarios in declaration order. */
  const AllScenarios: seq<Scenario> := [
    EmptyBigblind, OneraiseCutoff, OneraiseDealer, OneraiseSmallblind,
    TworaisesCutoffDealer, TworaisesCutoffSmallblind, TworaisesCutoffBigblind, TworaisesDealerSmallblind,
    TworaisesDealerBigblind, TworaisesSmallblindBigblind, ThreeraisesCutoffDealerSmallblind,
    ThreeraisesCutoffDealerBigblind, ThreeraisesCutoffSmallblindBigblind, ThreeraisesDealerSmallblindBigblind,
    FourraisesCutoffDealerSmallblindBigblind]

  /** The enum value: the position of the scenario in the declaration. */
  function Ordinal(sc: Scenario): (n: nat)
    ensures n < |AllScenarios| && AllScenarios[n] == sc
  {
    match sc
    case EmptyBigblind => 0
    case OneraiseCutoff => 1
    case OneraiseDealer => 2
    case OneraiseSmallblind => 3
    case TworaisesCutoffDealer => 4
    case TworaisesCutoffSmallblind => 5
    case TworaisesCutoffBigblind => 6
    case TworaisesDealerSmallblind => 7
    case TworaisesDealerBigblind => 8
    case TworaisesSmallblindBigblind => 9
    case ThreeraisesCutoffDealerSmallblind => 10
    case ThreeraisesCutoffDealerBigblind => 11
    case ThreeraisesCutoffSmallblindBigblind => 12
    case ThreeraisesDealerSmallblindBigblind => 13
    case FourraisesCutoffDealerSmallblindBigblind => 14
  }

  /** The identifier the data file uses for each scenario. */
  function Name(sc: Scenario): string
  {
    match sc
    case EmptyBigblind => "empty_bigblind"
    case OneraiseCutoff => "oneraise_cutoff"
    case OneraiseDealer => "oneraise_dealer"
    case OneraiseSmallblind => "oneraise_smallblind"
    case TworaisesCutoffDealer => "tworaises_cutoff_dealer"
    case TworaisesCutoffSmallblind => "tworaises_cutoff_smallblind"
    case TworaisesCutoffBigblind => "tworaises_cutoff_bigblind"
    case TworaisesDealerSmallblind => "tworaises_dealer_smallblind"
    case TworaisesDealerBigblind => "tworaises_dealer_bigblind"
    case TworaisesSmallblindBigblind => "tworaises_smallblind_bigblind"
    case ThreeraisesCutoffDealerSmallblind => "threeraises_cutoff_dealer_smallblind"
    case ThreeraisesCutoffDealerBigblind => "threeraises_cutoff_dealer_bigblind"
    case ThreeraisesCutoffSmallblindBigblind => "threeraises_cutoff_smallblind_bigblind"
    case ThreeraisesDealerSmallblindBigblind => "threeraises_dealer_smallblind_bigblind"
    case FourraisesCutoffDealerSmallblindBigblind => "fourraises_cutoff_dealer_smallblind_bigblind"
  }

  /** Parses a scenario name; any string that is not one of the fifteen names
      is an error. */
  function StringToScenario(s: string): (r: Result<Scenario>)
    ensures r.Ok? ==> Name(r.value) == s
    ensures r.Err? ==> r.error == InvalidScenario && forall sc :: Name(sc) != s
  {
    if s == Name(EmptyBigblind) then Ok(EmptyBigblind)
    else if s == Name(OneraiseCutoff) then Ok(OneraiseCutoff)
    else if s == Name(OneraiseDealer) then Ok(OneraiseDealer)
    else if s == Name(OneraiseSmallblind) then Ok(OneraiseSmallblind)
    else if s == Name(TworaisesCutoffDealer) then Ok(TworaisesCutoffDealer)
    else if s == Name(TworaisesCutoffSmallblind) then Ok(TworaisesCutoffSmallblind)
    else if s == Name(TworaisesCutoffBigblind) then Ok(TworaisesCutoffBigblind)
    else if s == Name(TworaisesDealerSmallblind) then Ok(TworaisesDealerSmallblind)
    else if s == Name(TworaisesDealerBigblind) then Ok(TworaisesDealerBigblind)
    else if s == Name(TworaisesSmallblindBigblind) then Ok(TworaisesSmallblindBigblind)
    else if s == Name(ThreeraisesCutoffDealerSmallblind) then Ok(ThreeraisesCutoffDealerSmallblind)
    else if s == Name(ThreeraisesCutoffDealerBigblind) then Ok(ThreeraisesCutoffDealerBigblind)
    else if s == Name(ThreeraisesCutoffSmallblindBigblind) then Ok(ThreeraisesCutoffSmallblindBigblind)
    else if s == Name(ThreeraisesDealerSmallblindBigblind) then Ok(ThreeraisesDealerSmallblindBigblind)
    else if s == Name(FourraisesCutoffDealerSmallblindBigblind) then Ok(FourraisesCutoffDealerSmallblindBigblind)
    else NoOtherName(s); Err(InvalidScenario)
  }

  /** A string that differs from each of the fifteen names is no scenario's name. */
  lemma NoOtherName(s: string)
    requires s != Name(EmptyBigblind)
    requires s != Name(OneraiseCutoff)
    requires s != Name(OneraiseDealer)
    requires s != Name(OneraiseSmallblind)
    requires s != Name(TworaisesCutoffDealer)
    requires s != Name(TworaisesCutoffSmallblind)
    requires s != Name(TworaisesCutoffBigblind)
    requires s != Name(TworaisesDealerSmallblind)
    requires s != Name(TworaisesDealerBigblind)
    requires s != Name(TworaisesSmallblindBigblind)
    requires s != Name(ThreeraisesCutoffDealerSmallblind)
    requires s != Name(ThreeraisesCutoffDealerBigblind)
    requires s != Name(ThreeraisesCutoffSmallblindBigblind)
    requires s != Name(ThreeraisesDealerSmallblindBigblind)
    requires s != Name(FourraisesCutoffDealerSmallblindBigblind)
    ensures forall sc :: Name(sc) != s
  {
    forall sc: Scenario ensures Name(sc) != s {
      match sc
      case EmptyBigblind =>
      case OneraiseCutoff =>
      case OneraiseDealer =>
      case OneraiseSmallblind =>
      case TworaisesCutoffDealer =>
      case TworaisesCutoffSmallblind =>
      case TworaisesCutoffBigblind =>
      case TworaisesDealerSmallblind =>
      case TworaisesDealerBigblind =>
      case TworaisesSmallblindBigblind =>
      case ThreeraisesCutoffDealerSmallblind =>
      case ThreeraisesCutoffDealerBigblind =>
      case ThreeraisesCutoffSmallblindBigblind =>
      case ThreeraisesDealerSmallblindBigblind =>
      case FourraisesCutoffDealerSmallblindBigblind =>
    }
  }

  /** Distinct scenarios have distinct names: the names are told apart by
      their length and their characters at positions 9, 10 and 12. */
  lemma NamesInjective(a: Scenario, b: Scenario)
    ensures Name(a) == Name(b) ==> a == b
  {
    if Name(a) == Name(b) {
      assert |Name(a)| == |Name(b)| && Name(a)[9] == Name(b)[9];
      assert Name(a)[10] == Name(b)[10] && Name(a)[12] == Name(b)[12];
    }
  }

  /** Parsing the name of a scenario gives that scenario back. */
  lemma NameRoundTrip(sc: Scenario)
    ensures StringToScenario(Name(sc)) == Ok(sc)
  {
    NamesInjective(StringToScenario(Name(sc)).value, sc);
  }

  /** The parser accepts exactly the fifteen names. */
  lemma ParsedExactlyTheNames(s: string)
    ensures StringToScenario(s).Ok? <==> exists sc :: Name(sc) == s
  {
    if exists sc :: Name(sc) == s {
      var sc :| Name(sc) == s;
      NameRoundTrip(sc);
    }
  }
}
