/**
 * The "Guardian AI" status bubble (`js/ai_core.js`): every refresh greets by the time of day,
 * reads the liquidity ratio, the risk summary and the security score off the page, settles
 * on a mood, and records an alert for every mood other than STABLE in a short memory that
 * the strategic insight reads back.
 *
 * The page texts, the hour and the clock are parameters; `parseFloat` of the security score
 * is given as its result, `None` standing for NaN.
 */
module GuardianAi {
  import opened JsText

  const MemoryLimit: nat := 10

  const BasePersona: string := "I am the Khmer Bank Guardian AI."

  /** The time-of-day greeting for an hour of the day. */
  function Greeting(hour: int): (g: string)
    ensures hour < 12 ==> g == "Good morning"
    ensures 12 <= hour < 18 ==> g == "Good afternoon"
    ensures hour >= 18 ==> g == "Good evening"
  {
    if hour < 12 then "Good morning" else if hour < 18 then "Good afternoon" else "Good evening"
  }

  datatype Mood = Stable | LiquidityAlert | RiskCritical | SecurityStressed

  datatype Status = Status(mood: Mood, advisory: string)

  const StableAdvisory: string := "All systems operating within optimal thresholds."
  const LiquidityAdvisory: string := "Liquidity buffers are thinning. Consider tightening capital controls."
  const RiskAdvisory: string := "Risk exposure elevated. Immediate mitigation required."
  const SecurityAdvisory: string := "Cyber resilience degraded. SOC response intensity recommended."

  /** `el?.textContent || fallback`: a missing element or an empty text gives the fallback. */
  function TextOr(text: Option<string>, fallback: string): string {
    if text.None? || text.value == "" then fallback else text.value
  }

  /**
   * `assessSystemStatus()`: three checks run in turn, each later one overriding the mood and
   * advisory set before it. A NaN ratio or score fails its comparison.
   */
  function AssessSystemStatus(lcrText: Option<string>, riskText: Option<string>, securityScore: Option<real>): Status
  {
    var lcr := ParseInt(TextOr(lcrText, "100"));
    var risk := TextOr(riskText, "");
    var s1 := Status(Stable, StableAdvisory);
    var s2 := if lcr.Some? && lcr.value < 100 then Status(LiquidityAlert, LiquidityAdvisory) else s1;
    var s3 := if Contains(risk, "CRITICAL") then Status(RiskCritical, RiskAdvisory) else s2;
    if securityScore.Some? && securityScore.value < 70.0 then Status(SecurityStressed, SecurityAdvisory) else s3
  }

  /** The mood each override order gives: security first, then risk, then liquidity. */
  lemma MoodPrecedence(lcrText: Option<string>, riskText: Option<string>, securityScore: Option<real>)
    ensures var st := AssessSystemStatus(lcrText, riskText, securityScore);
            var lcr := ParseInt(TextOr(lcrText, "100"));
            var critical := Contains(TextOr(riskText, ""), "CRITICAL");
            var stressed := securityScore.Some? && securityScore.value < 70.0;
            && (stressed ==> st.mood == SecurityStressed)
            && (!stressed && critical ==> st.mood == RiskCritical)
            && (!stressed && !critical && lcr.Some? && lcr.value < 100 ==> st.mood == LiquidityAlert)
            && (st.mood == Stable <==> !stressed && !critical && !(lcr.Some? && lcr.value < 100))
  {
  }

  /** With no ratio on the page the ratio reads as 100, which raises no liquidity alert. */
  lemma MissingRatioIsHealthy(riskText: Option<string>, securityScore: Option<real>)
    ensures AssessSystemStatus(None, riskText, securityScore).mood != LiquidityAlert
  {
    ParseHundred();
  }

  lemma ParseHundred()
    ensures ParseInt("100") == Some(100)
  {
    ParseIntRoundTrip(100);
    DecimalHundred();
  }

  lemma DecimalHundred()
    ensures NatToDecimal(100) == "100"
  {
    assert DigitChar(1) == '1' && DigitChar(0) == '0';
    assert NatToDecimal(10) == NatToDecimal(1) + ['0'];
    assert NatToDecimal(100) == NatToDecimal(10) + ['0'];
  }

  /** The alert `generatePersonalityLine` records for a mood; STABLE records none. */
  function AlertFor(mood: Mood): (r: Option<string>)
    ensures r.None? <==> mood == Stable
  {
    match mood
    case Stable => None
    case LiquidityAlert => Some("Liquidity stress detected.")
    case RiskCritical => Some("Risk exposure critical.")
    case SecurityStressed => Some("Security posture weakened.")
  }

  /** The line `generatePersonalityLine` returns. */
  function PersonalityLine(timeGreeting: string, st: Status): string {
    var head := timeGreeting + ". " + BasePersona;
    match st.mood
    case LiquidityAlert => head + " Liquidity pressure detected. " + st.advisory
    case RiskCritical => head + " Risk matrix indicates critical exposure. " + st.advisory
    case SecurityStressed => head + " Defensive perimeter weakened. " + st.advisory
    case Stable => head + " Systems are balanced and secure."
  }

  /** Every line opens with the greeting and the persona. */
  lemma LinePrefix(timeGreeting: string, st: Status)
    ensures StartsWith(PersonalityLine(timeGreeting, st), timeGreeting + ". " + BasePersona)
  {
    var head := timeGreeting + ". " + BasePersona;
    var tail := PersonalityLine(timeGreeting, st)[|head|..];
    assert PersonalityLine(timeGreeting, st) == head + tail;
  }

  // ---------------------------------------------------------------------------------------
  // Alert memory

  /**
   * An entry of `alertMemory`: the script pushes `{message, timestamp}` records; a bare
   * string is what `includes(message)` looks for.
   */
  datatype MemoryItem = AlertRecord(message: string, timestamp: int) | Text(text: string)

  /** `rememberAlert(message)` at time `now`. */
  function Remember(memory: seq<MemoryItem>, message: string, now: int): seq<MemoryItem> {
    if Text(message) in memory then memory
    else
      var m := memory + [AlertRecord(message, now)];
      if |m| > MemoryLimit then m[1..] else m
  }

  /** A memory made only of the records the script pushes. */
  ghost predicate OnlyRecords(memory: seq<MemoryItem>) {
    forall i :: 0 <= i < |memory| ==> memory[i].AlertRecord?
  }

  /**
   * The duplicate check compares a string with records and never matches, so every alert is
   * recorded, at the end; the oldest is dropped once there are more than ten, and the rest
   * keep their order.
   */
  lemma RememberAppends(memory: seq<MemoryItem>, message: string, now: int)
    requires OnlyRecords(memory) && |memory| <= MemoryLimit
    ensures var r := Remember(memory, message, now);
            && OnlyRecords(r)
            && |r| == (if |memory| < MemoryLimit then |memory| + 1 else MemoryLimit)
            && r[|r| - 1] == AlertRecord(message, now)
            && r[..|r| - 1] == (if |memory| < MemoryLimit then memory else memory[1..])
  {
    assert Text(message) !in memory;
    var m := memory + [AlertRecord(message, now)];
    if |m| > MemoryLimit {
      assert m[1..][..|m| - 2] == memory[1..];
    } else {
      assert m[..|m| - 1] == memory;
    }
  }

  /** `getStrategicInsight()` */
  function StrategicInsight(memory: seq<MemoryItem>): string {
    if |memory| == 0 then "No strategic threats recorded. Capital posture is stable."
    else
      var latest := memory[|memory| - 1];
      "Strategic Insight: " + (if latest.AlertRecord? then latest.message else "undefined") + " Monitoring continues."
  }

  // ---------------------------------------------------------------------------------------
  // One refresh of the bubble

  datatype Core = Core(mood: Mood, alertMemory: seq<MemoryItem>)

  /** `getSentientGreeting()`: the new core state and the line shown. */
  function Refresh(c: Core, hour: int, lcrText: Option<string>, riskText: Option<string>,
                   securityScore: Option<real>, now: int): (Core, string)
  {
    var st := AssessSystemStatus(lcrText, riskText, securityScore);
    var memory := match AlertFor(st.mood)
      case None => c.alertMemory
      case Some(msg) => Remember(c.alertMemory, msg, now);
    (Core(st.mood, memory), PersonalityLine(Greeting(hour), st))
  }

  ghost predicate Bounded(c: Core) {
    OnlyRecords(c.alertMemory) && |c.alertMemory| <= MemoryLimit
  }

  /**
   * A refresh keeps the memory to ten records; a STABLE mood leaves it alone, any other mood
   * records exactly its alert, which the strategic insight then reports.
   */
  lemma RefreshRecordsAlerts(c: Core, hour: int, lcrText: Option<string>, riskText: Option<string>,
                             securityScore: Option<real>, now: int)
    requires Bounded(c)
    ensures var (c', line) := Refresh(c, hour, lcrText, riskText, securityScore, now);
            && Bounded(c')
            && c'.mood == AssessSystemStatus(lcrText, riskText, securityScore).mood
            && (c'.mood == Stable ==> c'.alertMemory == c.alertMemory)
            && (c'.mood != Stable ==>
                  c'.alertMemory[|c'.alertMemory| - 1] == AlertRecord(AlertFor(c'.mood).value, now) &&
                  StrategicInsight(c'.alertMemory) ==
                    "Strategic Insight: " + AlertFor(c'.mood).value + " Monitoring continues.")
            && StartsWith(line, Greeting(hour) + ". " + BasePersona)
  {
    LinePrefix(Greeting(hour), AssessSystemStatus(lcrText, riskText, securityScore));
    var st := AssessSystemStatus(lcrText, riskText, securityScore);
    if st.mood != Stable {
      RememberAppends(c.alertMemory, AlertFor(st.mood).value, now);
    }
  }

  /** From an empty memory, `n` stressed refreshes leave `n` records, and never more than ten. */
  lemma {:induction false} StressedRefreshes(c: Core, n: nat, now: int)
    requires c.alertMemory == []
    ensures var m := RefreshStressed(c, n, now).alertMemory;
            |m| == (if n < MemoryLimit then n else MemoryLimit)
  {
    if n > 0 {
      StressedRefreshes(c, n - 1, now);
      var prev := RefreshStressed(c, n - 1, now);
      RecordsAfterStress(c, n - 1, now);
      RememberAppends(prev.alertMemory, "Security posture weakened.", now);
    }
  }

  /** `n` refreshes at `now` with the security score at 0. */
  function RefreshStressed(c: Core, n: nat, now: int): Core {
    if n == 0 then c else Refresh(RefreshStressed(c, n - 1, now), 9, None, None, Some(0.0), now).0
  }

  lemma {:induction false} RecordsAfterStress(c: Core, n: nat, now: int)
    requires c.alertMemory == []
    ensures Bounded(RefreshStressed(c, n, now))
  {
    if n > 0 {
      RecordsAfterStress(c, n - 1, now);
      RefreshRecordsAlerts(RefreshStressed(c, n - 1, now), 9, None, None, Some(0.0), now);
    }
  }

  // ---------------------------------------------------------------------------------------
  // The `aiCore` object

  class AiCore {
    var mood: Mood
    var alertMemory: seq<MemoryItem>

    function Snapshot(): Core
      reads this
    {
      Core(mood, alertMemory)
    }

    ghost predicate Valid()
      reads this
    {
      Bounded(Snapshot())
    }

    constructor ()
      ensures Valid() && mood == Stable && alertMemory == []
    {
      mood := Stable;
      alertMemory := [];
    }

    /** `rememberAlert(message)` at time `now`. */
    method RememberAlert(message: string, now: int)
      requires Valid()
      modifies this
      ensures Valid() && alertMemory == Remember(old(alertMemory), message, now) && mood == old(mood)
    {
      RememberAppends(alertMemory, message, now);
      if Text(message) !in alertMemory {
        alertMemory := alertMemory + [AlertRecord(message, now)];
        if |alertMemory| > MemoryLimit {
          alertMemory := alertMemory[1..];
        }
      }
    }

    /** `getSentientGreeting()` at the hour `hour` and time `now`, with the page's readings. */
    method GetSentientGreeting(hour: int, lcrText: Option<string>, riskText: Option<string>,
                               securityScore: Option<real>, now: int) returns (line: string)
      requires Valid()
      modifies this
      ensures Valid() && (Snapshot(), line) == Refresh(old(Snapshot()), hour, lcrText, riskText, securityScore, now)
    {
      RefreshRecordsAlerts(Snapshot(), hour, lcrText, riskText, securityScore, now);
      var timeGreeting := Greeting(hour);
      var status := AssessSystemStatus(lcrText, riskText, securityScore);
      mood := status.mood;
      var alert := AlertFor(status.mood);
      if alert.Some? {
        RememberAlert(alert.value, now);
      }
      line := PersonalityLine(timeGreeting, status);
    }

    /** `getStrategicInsight()` */
    method GetStrategicInsight() returns (insight: string)
      ensures insight == StrategicInsight(alertMemory)
    {
      if |alertMemory| == 0 {
        return "No strategic threats recorded. Capital posture is stable.";
      }
      var latest := alertMemory[|alertMemory| - 1];
      var message := if latest.AlertRecord? then latest.message else "undefined";
      insight := "Strategic Insight: " + message + " Monitoring continues.";
    }
  }
}
