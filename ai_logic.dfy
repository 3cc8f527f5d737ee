/**
 * The rule-based stand-in for an AI model (backend/middleware/aiLogic.js):
 * a risk score with its flags, a one-paragraph report and the date of the
 * next appointment. The random jitter the score receives is a parameter.
 */
module AiLogic {
  import opened Common
  import Text

  /** The result of `mockRiskPrediction`. */
  datatype Prediction = Prediction(riskScore: real, riskFlags: seq<string>)

  /** `Math.min(Math.max(x, 0), 1)`. */
  function Clamp01(x: real): (r: real)
    ensures 0.0 <= r <= 1.0
    ensures 0.0 <= x <= 1.0 ==> r == x
    ensures x < 0.0 ==> r == 0.0
    ensures x > 1.0 ==> r == 1.0
  {
    if x < 0.0 then 0.0 else if x > 1.0 then 1.0 else x
  }

  /** A patient's status reads "critical" in any letter case. */
  predicate Critical(status: string) {
    Text.Lower(status) == "critical"
  }

  /** The flags, "elderly" before "critical_condition", each at most once. */
  function RiskFlags(age: int, status: string): (flags: seq<string>)
    ensures "elderly" in flags <==> age >= 60
    ensures "critical_condition" in flags <==> Critical(status)
    ensures forall f :: f in flags ==> f in {"elderly", "critical_condition"}
    ensures |flags| == 2 ==> flags == ["elderly", "critical_condition"]
    ensures |flags| <= 2
  {
    (if age >= 60 then ["elderly"] else []) + (if Critical(status) then ["critical_condition"] else [])
  }

  /** The score before jitter and clamping: a baseline of 0.1 plus 0.3 and 0.5 per flag. */
  function BaseRisk(age: int, status: string): real {
    0.1 + (if age >= 60 then 0.3 else 0.0) + (if Critical(status) then 0.5 else 0.0)
  }

  /**
   * `mockRiskPrediction`, where `jitter` stands for `(Math.random() - 0.5) * 0.2`.
   * Whatever the jitter, the score lies in [0, 1] and the flags are those
   * of the age and status alone.
   */
  function MockRiskPrediction(age: int, status: string, jitter: real): (p: Prediction)
    ensures 0.0 <= p.riskScore <= 1.0
    ensures p.riskFlags == RiskFlags(age, status)
    ensures 0.0 <= BaseRisk(age, status) + jitter <= 1.0 ==> p.riskScore == BaseRisk(age, status) + jitter
  {
    Prediction(Clamp01(BaseRisk(age, status) + jitter), RiskFlags(age, status))
  }

  /**
   * What the flags say about the score for a jitter in the range
   * `Math.random` gives: both flags are always high risk (above 0.7), a
   * critical status alone always moderate, no flag always low (at most
   * 0.4); old age alone lands on either side of 0.4.
   */
  lemma {:induction false} RiskLevelOfFlags(age: int, status: string, jitter: real)
    requires -0.1 <= jitter < 0.1
    ensures age >= 60 && Critical(status) ==> MockRiskPrediction(age, status, jitter).riskScore > 0.7
    ensures age < 60 && Critical(status) ==> 0.4 < MockRiskPrediction(age, status, jitter).riskScore <= 0.7
    ensures age < 60 && !Critical(status) ==> MockRiskPrediction(age, status, jitter).riskScore <= 0.4
    ensures age >= 60 && !Critical(status) ==> 0.3 <= MockRiskPrediction(age, status, jitter).riskScore < 0.5
  {
  }

  /** A larger jitter, or a further flag, never lowers the score. */
  lemma RiskMonotone(age: int, status: string, jitter: real, older: int, status2: string, jitter2: real)
    requires jitter <= jitter2
    requires age >= 60 ==> older >= 60
    requires Critical(status) ==> Critical(status2)
    ensures MockRiskPrediction(age, status, jitter).riskScore <= MockRiskPrediction(older, status2, jitter2).riskScore
  {
  }

  /**
   * The patient schema's statuses are "Admitted" and "Discharged", so a
   * patient that satisfies it is never flagged "critical_condition".
   */
  lemma SchemaStatusNeverCritical(status: string)
    requires status in {"Admitted", "Discharged"}
    ensures !Critical(status)
  {
    if status == "Admitted" {
      assert Text.Lower(status)[0] == 'a';
    } else {
      assert |Text.Lower(status)| == 10;
    }
  }

  // ---------------------------------------------------------------- report

  const HighRisk: string := "Patient is at high risk due to "
  const ModerateRisk: string := "Patient has moderate risk factors including "
  const LowRisk: string := "Patient is currently low risk with "
  const NoFlags: string := "no significant risk flags."

  function Intro(patientName: string, age: int, gender: string): string {
    "Patient " + patientName + " is a " + Text.IntToString(age) + "-year-old " + gender + ". "
  }

  function RiskWording(riskScore: real): string {
    if riskScore > 0.7 then HighRisk else if riskScore > 0.4 then ModerateRisk else LowRisk
  }

  function FlagsWording(riskFlags: seq<string>): string {
    if |riskFlags| > 0 then Text.Join(riskFlags, ", ") + "." else NoFlags
  }

  /** Of the three wordings, a text that begins with one begins with no other. */
  lemma WordingsExclusive(w: string, rest: string)
    requires w in {HighRisk, ModerateRisk, LowRisk}
    ensures Text.StartsWith(w + rest, HighRisk) <==> w == HighRisk
    ensures Text.StartsWith(w + rest, ModerateRisk) <==> w == ModerateRisk
    ensures Text.StartsWith(w + rest, LowRisk) <==> w == LowRisk
  {
    var s := w + rest;
    assert s[..|w|] == w;
    assert HighRisk[8] == 'i' && HighRisk[11] == 'a';
    assert ModerateRisk[8] == 'h';
    assert LowRisk[8] == 'i' && LowRisk[11] == 'c';
    assert s[8] == w[8] && s[11] == w[11];
    if Text.StartsWith(s, HighRisk) {
      assert s[8] == HighRisk[8] && s[11] == HighRisk[11];
    }
    if Text.StartsWith(s, ModerateRisk) {
      assert s[8] == ModerateRisk[8];
    }
    if Text.StartsWith(s, LowRisk) {
      assert s[8] == LowRisk[8] && s[11] == LowRisk[11];
    }
  }

  /**
   * `mockAIReportSummary`: after the introduction comes the high-risk
   * wording exactly when the score exceeds 0.7, the moderate wording
   * exactly when it lies in (0.4, 0.7], and the low-risk wording
   * otherwise; the text ends with the flags joined by ", " and a full
   * stop, or with "no significant risk flags." when there is none.
   */
  function MockAIReportSummary(patientName: string, age: int, gender: string, riskScore: real,
                               riskFlags: seq<string>): (r: string)
    ensures Text.StartsWith(r, Intro(patientName, age, gender))
    ensures Text.StartsWith(r[|Intro(patientName, age, gender)|..], HighRisk) <==> riskScore > 0.7
    ensures Text.StartsWith(r[|Intro(patientName, age, gender)|..], ModerateRisk) <==> 0.4 < riskScore <= 0.7
    ensures Text.StartsWith(r[|Intro(patientName, age, gender)|..], LowRisk) <==> riskScore <= 0.4
    ensures riskFlags == [] ==> Text.EndsWith(r, NoFlags)
    ensures riskFlags != [] ==> Text.EndsWith(r, Text.Join(riskFlags, ", ") + ".")
  {
    var intro := Intro(patientName, age, gender);
    var wording := RiskWording(riskScore);
    var ending := FlagsWording(riskFlags);
    WordingsExclusive(wording, ending);
    Pieces(intro, wording, ending);
    intro + wording + ending
  }

  /** The three pieces of `a + b + c` are where they were put. */
  lemma Pieces(a: string, b: string, c: string)
    ensures Text.StartsWith(a + b + c, a)
    ensures (a + b + c)[|a|..] == b + c
    ensures Text.EndsWith(a + b + c, c)
  {
    var r := a + b + c;
    assert r[..|a|] == a;
    assert r[|a|..] == b + c;
    assert r[|r| - |c|..] == c;
  }

  /**
   * For the flags the prediction produces, the report ends with "no
   * significant risk flags." exactly when there is no flag.
   */
  lemma {:induction false} ReportMentionsFlags(patientName: string, age: int, gender: string, riskScore: real,
                                               status: string)
    ensures Text.EndsWith(MockAIReportSummary(patientName, age, gender, riskScore, RiskFlags(age, status)), NoFlags)
        <==> RiskFlags(age, status) == []
  {
    var flags := RiskFlags(age, status);
    var r := MockAIReportSummary(patientName, age, gender, riskScore, flags);
    if flags != [] {
      var last := flags[|flags| - 1];
      assert last in flags;
      var joined := Text.Join(flags, ", ");
      Text.JoinEndsWithLast(flags, ", ");
      assert joined[|joined| - 1] == last[|last| - 1];
      assert last[|last| - 1] != 's';
      var ending := joined + ".";
      assert ending[|ending| - 2] == joined[|joined| - 1];
      assert NoFlags[|NoFlags| - 2] == 's';
      EndingsDiffer(r, ending, NoFlags);
    }
  }

  /** Texts that end differently one character before the end cannot both end a string. */
  lemma EndingsDiffer(r: string, e: string, f: string)
    requires Text.EndsWith(r, e) && |e| >= 2 && |f| >= 2 && e[|e| - 2] != f[|f| - 2]
    ensures !Text.EndsWith(r, f)
  {
  }

  // ---------------------------------------------------------------- scheduling

  /** 7 days for a high risk, 14 for a moderate one, 30 otherwise. */
  function DaysUntilNext(riskScore: real): (d: int)
    ensures d == 7 <==> riskScore > 0.7
    ensures d == 14 <==> 0.4 < riskScore <= 0.7
    ensures d == 30 <==> riskScore <= 0.4
  {
    if riskScore > 0.7 then 7 else if riskScore > 0.4 then 14 else 30
  }

  /** A higher risk never gets a later appointment. */
  lemma SoonerForHigherRisk(low: real, high: real)
    requires low <= high
    ensures DaysUntilNext(high) <= DaysUntilNext(low)
  {
  }

  /**
   * `mockSmartScheduling`: the admission date moved forward by the number
   * of days the risk calls for. A missing admission date makes an invalid
   * Date, which stays invalid (None).
   */
  function MockSmartScheduling(admissionDate: Option<Time>, riskScore: real): (r: Option<Time>)
    ensures r.Some? <==> admissionDate.Some?
    ensures r.Some? ==> r.value - admissionDate.value == DaysUntilNext(riskScore) * MsPerDay
    ensures r.Some? ==> r.value > admissionDate.value
  {
    match admissionDate
    case None => None
    case Some(d) => Some(d + DaysUntilNext(riskScore) * MsPerDay)
  }
}
