/**
 * The derived figures of the panel-comparison card: efficiencies and
 * degradations computed from the panel-info body, the colour bands of the
 * comparison bars and of the health-score bar, the "Degraded" flag, and the
 * chip colour and icon chosen from the condition label.
 */
module PanelComparison {
  import opened PyBuiltins
  import App

  /** MUI palette names used by the card (`default` only for chips). */
  datatype Color = Success | Info | Warning | Error | Default

  /** The icon shown on the condition chip, with its colour. */
  datatype Icon = CheckCircleIcon(color: Color) | WarningIcon(color: Color) | ErrorIcon(color: Color)

  /** `currentEfficiency`: the reported current as a percentage of its installation rating. */
  function CurrentEfficiency(info: App.PanelInfo): (e: real)
    requires info.installationCurrentRating != 0.0
    ensures e == 100.0 <==> info.currentRating == info.installationCurrentRating
  {
    App.Efficiency(info.currentRating, info.installationCurrentRating)
  }

  /** `voltageEfficiency`: the reported voltage as a percentage of its installation rating. */
  function VoltageEfficiency(info: App.PanelInfo): (e: real)
    requires info.installationVoltageRating != 0.0
    ensures e == 100.0 <==> info.voltageRating == info.installationVoltageRating
  {
    App.Efficiency(info.voltageRating, info.installationVoltageRating)
  }

  /**
   * Installation rating minus reported rating: zero exactly when they are
   * equal, negative exactly when the panel reports more than its rating.
   */
  function Degradation(installation: real, reported: real): (d: real)
    ensures d == 0.0 <==> reported == installation
    ensures d < 0.0 <==> reported > installation
    ensures d > 0.0 <==> reported < installation
  {
    installation - reported
  }

  /**
   * `currentDegradation`: positive exactly when the reported current is
   * below its rating, which for a positive rating is exactly when the
   * current efficiency is below 100.
   */
  function CurrentDegradation(info: App.PanelInfo): (d: real)
    ensures d == 0.0 <==> info.currentRating == info.installationCurrentRating
    ensures d > 0.0 <==> info.currentRating < info.installationCurrentRating
    ensures info.installationCurrentRating > 0.0 ==> (d > 0.0 <==> CurrentEfficiency(info) < 100.0)
  {
    Degradation(info.installationCurrentRating, info.currentRating)
  }

  /**
   * `voltageDegradation`: positive exactly when the reported voltage is
   * below its rating, which for a positive rating is exactly when the
   * voltage efficiency is below 100.
   */
  function VoltageDegradation(info: App.PanelInfo): (d: real)
    ensures d == 0.0 <==> info.voltageRating == info.installationVoltageRating
    ensures d > 0.0 <==> info.voltageRating < info.installationVoltageRating
    ensures info.installationVoltageRating > 0.0 ==> (d > 0.0 <==> VoltageEfficiency(info) < 100.0)
  {
    Degradation(info.installationVoltageRating, info.voltageRating)
  }

  /**
   * The colour band of a percentage, with strict thresholds: above 85
   * success, above 70 warning, otherwise error (so 85 is warning and 70 is
   * error).
   */
  function Band(percent: real): (c: Color)
    ensures c == Success <==> percent > 85.0
    ensures c == Warning <==> 70.0 < percent <= 85.0
    ensures c == Error <==> percent <= 70.0
  {
    if percent > 85.0 then Success else if percent > 70.0 then Warning else Error
  }

  /** The colour of the health-score bar: the same bands over the rounded score. */
  function HealthBarColor(info: App.PanelInfo): (c: Color)
    ensures c != Info && c != Default
  {
    Band(info.healthScore)
  }

  /**
   * Whether a comparison row shows the "Degraded" marker: strictly below
   * 90, so every bar that is not green carries the marker, while a green
   * bar carries it only between 85 and 90.
   */
  function IsDegraded(efficiency: real): (degraded: bool)
    ensures Band(efficiency) != Success ==> degraded
    ensures degraded && Band(efficiency) == Success <==> 85.0 < efficiency < 90.0
    ensures !degraded <==> efficiency >= 90.0
  {
    efficiency < 90.0
  }

  /** The chip colour of a condition label; any other text gets `default`. */
  function ConditionColor(condition: string): (c: Color)
    ensures c == Success <==> condition == "Excellent"
    ensures c == Info <==> condition == "Good"
    ensures c == Warning <==> condition == "Fair"
    ensures c == Error <==> condition == "Poor"
    ensures c == Default <==> condition !in {"Excellent", "Good", "Fair", "Poor"}
  {
    match condition
    case "Excellent" => Success
    case "Good" => Info
    case "Fair" => Warning
    case "Poor" => Error
    case _ => Default
  }

  /**
   * The chip icon of a condition label: a check for Excellent and Good, a
   * warning sign for Fair and for any unknown text, an error sign for Poor.
   */
  function ConditionIcon(condition: string): (icon: Icon)
    ensures icon.CheckCircleIcon? <==> condition == "Excellent" || condition == "Good"
    ensures icon.ErrorIcon? <==> condition == "Poor"
    ensures icon.WarningIcon? ==> icon.color == Warning
    ensures condition in {"Excellent", "Good", "Fair", "Poor"} ==> icon.color == ConditionColor(condition)
  {
    match condition
    case "Excellent" => CheckCircleIcon(Success)
    case "Good" => CheckCircleIcon(Info)
    case "Fair" => WarningIcon(Warning)
    case "Poor" => ErrorIcon(Error)
    case _ => WarningIcon(Warning)
  }

  /**
   * For a positive rating, the "Degraded" marker shows exactly when the
   * reported value is under 90% of the rating, and the bar is green exactly
   * when it is over 85% of it and red exactly when it is at most 70%.
   */
  lemma MarkersOfReportedValue(reported: real, installation: real)
    requires installation > 0.0
    ensures IsDegraded(App.Efficiency(reported, installation)) <==> reported < 0.9 * installation
    ensures Band(App.Efficiency(reported, installation)) == Success <==> reported > 0.85 * installation
    ensures Band(App.Efficiency(reported, installation)) == Error <==> reported <= 0.7 * installation
  {
    var e := App.Efficiency(reported, installation);
    assert e == reported * 100.0 / installation;
    ScaleThreshold(reported, installation, 90.0);
    ScaleThreshold(reported, installation, 85.0);
    ScaleThreshold(reported, installation, 70.0);
  }

  /**
   * `reported / installation * 100` is below (above) `p` exactly when
   * `reported` is below (above) `p%` of the installation rating.
   */
  lemma ScaleThreshold(reported: real, installation: real, p: real)
    requires installation > 0.0
    ensures (reported / installation) * 100.0 < p <==> reported < p / 100.0 * installation
    ensures (reported / installation) * 100.0 > p <==> reported > p / 100.0 * installation
  {
  }

  /**
   * Every label the backend emits gets its own chip colour (never
   * `default`): success exactly for scores above 90, error exactly for
   * scores of 60 or less.
   */
  lemma ChipOfBackendCondition(healthScore: real)
    ensures ConditionColor(App.Classify(healthScore).Label()) != Default
    ensures ConditionColor(App.Classify(healthScore).Label()) == Success <==> healthScore > 90.0
    ensures ConditionColor(App.Classify(healthScore).Label()) == Error <==> healthScore <= 60.0
  {
  }

  /**
   * The health bar (coloured from the rounded score) agrees with the chip
   * (from the unrounded score) at the ends: an Excellent panel has a green
   * bar and a Poor panel a red one.
   */
  lemma HealthBarMatchesCondition(c: seq<App.Sample>, v: seq<App.Sample>,
                                  h: seq<App.DefectRecord>, lastInspection: Option<App.Timestamp>)
    ensures var info := App.PanelInfoOf(c, v, h, lastInspection);
      && (info.condition == App.Excellent ==> HealthBarColor(info) == Success)
      && (info.condition == App.Poor ==> HealthBarColor(info) == Error)
  {
    var healthScore := App.InfoHealthScore(App.AverageOrRating(c, App.InstallationCurrentRating),
                                           App.AverageOrRating(v, App.InstallationVoltageRating));
    var info := App.PanelInfoOf(c, v, h, lastInspection);
    assert info.healthScore == RoundTo(healthScore, 1) && info.condition == App.Classify(healthScore);
    BandOfRoundedScore(healthScore);
  }

  /** Rounding to one decimal keeps an Excellent score green and a Poor score red. */
  lemma BandOfRoundedScore(healthScore: real)
    ensures App.Classify(healthScore) == App.Excellent ==> Band(RoundTo(healthScore, 1)) == Success
    ensures App.Classify(healthScore) == App.Poor ==> Band(RoundTo(healthScore, 1)) == Error
  {
    assert Pow10(1) == 10;
  }

  /**
   * A panel with no readings yet shows full marks everywhere: both
   * efficiencies 100, no degradation, no "Degraded" marker, green bars and a
   * green check on the chip.
   */
  lemma DisplayWithoutReadings(h: seq<App.DefectRecord>, lastInspection: Option<App.Timestamp>)
    ensures var info := App.PanelInfoOf([], [], h, lastInspection);
      && CurrentEfficiency(info) == VoltageEfficiency(info) == 100.0
      && CurrentDegradation(info) == VoltageDegradation(info) == 0.0
      && !IsDegraded(CurrentEfficiency(info)) && !IsDegraded(VoltageEfficiency(info))
      && Band(CurrentEfficiency(info)) == Band(VoltageEfficiency(info)) == HealthBarColor(info) == Success
      && ConditionColor(info.condition.Label()) == Success
      && ConditionIcon(info.condition.Label()) == CheckCircleIcon(Success)
  {
  }
}
