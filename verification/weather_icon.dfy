/**
 The `WeatherIcon` component: picks one of five icons for a condition name
 and hands every other property to the icon unchanged.
 */
module WeatherIcon {
  import Types

  datatype Icon = Sun | Cloudy | CloudRain | Wind | CloudSun

  /** A rendered icon: which icon, and the properties it was given. */
  datatype IconElement<P> = IconElement(icon: Icon, props: P)

  /**
   The switch on the condition string. The type annotation closes the set of
   labels, but at run time any other string reaches the default branch,
   which draws the sun.
   */
  function IconForLabel(name: string): (i: Icon)
    ensures Types.ParseCondition(name).Some? ==> ConditionOf(i) == Types.ParseCondition(name).value
    ensures Types.ParseCondition(name).None? ==> i == Sun
  {
    if name == "Sunny" then Sun
    else if name == "Cloudy" then Cloudy
    else if name == "Rainy" then CloudRain
    else if name == "Windy" then Wind
    else if name == "Partly Cloudy" then CloudSun
    else Sun
  }

  /** The icon drawn for a condition of the closed enumeration. */
  function IconFor(c: Types.WeatherCondition): Icon {
    IconForLabel(Types.Label(c))
  }

  /** The condition each icon stands for: the inverse of `IconFor`. */
  function ConditionOf(i: Icon): Types.WeatherCondition {
    match i
    case Sun => Types.Sunny
    case Cloudy => Types.Cloudy
    case CloudRain => Types.Rainy
    case Wind => Types.Windy
    case CloudSun => Types.PartlyCloudy
  }

  /** The icon element drawn for a condition string, carrying the remaining props. */
  function Render<P>(name: string, props: P): (e: IconElement<P>)
    ensures e.props == props
    ensures match Types.ParseCondition(name)
            case Some(c) => ConditionOf(e.icon) == c
            case None => e.icon == Sun
  {
    IconElement(IconForLabel(name), props)
  }

  /** The mapping table: each condition with its icon. */
  lemma IconTable()
    ensures IconFor(Types.Sunny) == Sun
    ensures IconFor(Types.Cloudy) == Cloudy
    ensures IconFor(Types.Rainy) == CloudRain
    ensures IconFor(Types.Windy) == Wind
    ensures IconFor(Types.PartlyCloudy) == CloudSun
  {
  }

  /** `IconFor` and `ConditionOf` are inverse bijections between conditions and icons. */
  lemma IconRoundTrip(c: Types.WeatherCondition, i: Icon)
    ensures ConditionOf(IconFor(c)) == c
    ensures IconFor(ConditionOf(i)) == i
  {
  }

  /** Distinct conditions are drawn with distinct icons. */
  lemma IconInjective(c: Types.WeatherCondition, d: Types.WeatherCondition)
    ensures IconFor(c) == IconFor(d) <==> c == d
  {
    IconRoundTrip(c, IconFor(d));
    IconRoundTrip(d, IconFor(c));
  }

  /** Any string that is not one of the five labels falls back to the sun. */
  lemma UnknownLabelIsSun(name: string)
    requires forall c: Types.WeatherCondition :: Types.Label(c) != name
    ensures IconForLabel(name) == Sun
  {
  }
}
