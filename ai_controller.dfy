/**
 * The deterministic parts of the AI routes (backend/controllers/aiController.js):
 * the controller's own copies of the risk score and the appointment
 * suggestion, and the aggregation behind the admin dashboard's metrics.
 * Every `Math.random()` draw is a parameter.
 */
module AiController {
  import opened Common
  import opened Models
  import opened Store
  import Query
  import Text
  import Sorting
  import AiLogic

  // ---------------------------------------------------------------- helpers

  /**
   * `computeRiskScore`, a copy of `mockRiskPrediction` in which the status
   * may be missing (`status?.toLowerCase()`); it agrees with the
   * middleware's version on every patient, a missing status counting as "".
   */
  function ComputeRiskScore(age: int, status: Option<string>, jitter: real): (p: AiLogic.Prediction)
    ensures p == AiLogic.MockRiskPrediction(age, status.GetOr(""), jitter)
  {
    var critical := status.Some? && Text.Lower(status.value) == "critical";
    var score := 0.1 + (if age >= 60 then 0.3 else 0.0) + (if critical then 0.5 else 0.0) + jitter;
    var flags := (if age >= 60 then ["elderly"] else []) + (if critical then ["critical_condition"] else []);
    AiLogic.Prediction(AiLogic.Clamp01(score), flags)
  }

  /**
   * `suggestNextAppointment`: the admission date, or the current time when
   * there is none, moved forward by the days the risk calls for; with an
   * admission date it is the middleware's `mockSmartScheduling`.
   */
  function SuggestNextAppointment(admissionDate: Option<Time>, now: Time, riskScore: real): (t: Time)
    ensures t > admissionDate.GetOr(now)
    ensures admissionDate.Some? ==> AiLogic.MockSmartScheduling(admissionDate, riskScore) == Some(t)
    ensures admissionDate.None? ==> AiLogic.MockSmartScheduling(Some(now), riskScore) == Some(t)
  {
    var days := if riskScore > 0.7 then 7 else if riskScore > 0.4 then 14 else 30;
    admissionDate.GetOr(now) + days * MsPerDay
  }

  // ---------------------------------------------------------------- per-patient rows

  /** One entry of `riskByPatient`. */
  datatype RiskRow = RiskRow(
    id: Id,
    name: string,
    age: int,
    gender: string,
    wardName: string,
    status: string,
    conditions: seq<string>,
    risk: real,
    riskFlags: seq<string>)

  /** `s || fallback` on a string. */
  function Or(s: string, fallback: string): string {
    if s != "" then s else fallback
  }

  /** The populated ward's name, or "N/A". */
  function WardNameOf(wards: map<Id, Ward>, ward: Option<Id>): string {
    if ward.Some? && ward.value in wards then Or(wards[ward.value].wardName, "N/A") else "N/A"
  }

  /**
   * The row of one patient, with `jitter` standing for the lighter
   * `(Math.random() - 0.5) * 0.06` the dashboard draws.
   */
  function RowOf(wards: map<Id, Ward>, k: Id, p: Patient, jitter: real): (row: RiskRow)
    ensures row.id == k && row.name == p.patientName && row.age == p.age && row.conditions == p.conditions
    ensures row.gender == (if p.gender != "" then p.gender else "N/A")
    ensures row.status == (if p.status != "" then p.status else "N/A")
    ensures p.ward.Some? && p.ward.value in wards && wards[p.ward.value].wardName != "" ==>
      row.wardName == wards[p.ward.value].wardName
    ensures !(p.ward.Some? && p.ward.value in wards && wards[p.ward.value].wardName != "") ==> row.wardName == "N/A"
    ensures row.risk == AiLogic.MockRiskPrediction(p.age, p.status, jitter).riskScore
    ensures 0.0 <= row.risk <= 1.0
    ensures row.riskFlags == AiLogic.RiskFlags(p.age, p.status)
  {
    var prediction := AiLogic.MockRiskPrediction(p.age, p.status, jitter);
    RiskRow(k, p.patientName, p.age, Or(p.gender, "N/A"), WardNameOf(wards, p.ward), Or(p.status, "N/A"),
            p.conditions, prediction.riskScore, prediction.riskFlags)
  }

  // ---------------------------------------------------------------- bucket counts

  /** How often `b` occurs in `xs`. */
  function Occurrences(xs: seq<nat>, b: nat): (r: nat)
    ensures r <= |xs|
  {
    if xs == [] then 0 else Occurrences(xs[..|xs| - 1], b) + (if xs[|xs| - 1] == b then 1 else 0)
  }

  /** The sum of a list of counts. */
  function Total(counts: seq<nat>): nat {
    if counts == [] then 0 else Total(counts[..|counts| - 1]) + counts[|counts| - 1]
  }

  lemma {:induction false} TotalZeros(n: nat)
    ensures Total(seq(n, _ => 0)) == 0
  {
    if n > 0 {
      TotalZeros(n - 1);
      assert seq(n, _ => 0)[..n - 1] == seq(n - 1, _ => 0);
    }
  }

  /** Raising one count by one raises the total by one. */
  lemma {:induction false} TotalIncrement(counts: seq<nat>, b: nat)
    requires b < |counts|
    ensures Total(counts[b := counts[b] + 1]) == Total(counts) + 1
  {
    var n := |counts|;
    var c := counts[b := counts[b] + 1];
    if b == n - 1 {
      assert c[..n - 1] == counts[..n - 1];
    } else {
      TotalIncrement(counts[..n - 1], b);
      assert c[..n - 1] == counts[..n - 1][b := counts[b] + 1];
    }
  }

  /**
   * The `forEach` that counts each element into its bucket: `counts[b]` is
   * the number of elements in bucket `b`, so the buckets partition the
   * elements and the counts add up to their number.
   */
  method Histogram(buckets: seq<nat>, n: nat) returns (counts: seq<nat>)
    requires forall i :: 0 <= i < |buckets| ==> buckets[i] < n
    ensures |counts| == n
    ensures forall b :: 0 <= b < n ==> counts[b] == Occurrences(buckets, b)
    ensures Total(counts) == |buckets|
  {
    counts := seq(n, _ => 0);
    TotalZeros(n);
    for i := 0 to |buckets|
      invariant |counts| == n
      invariant forall b :: 0 <= b < n ==> counts[b] == Occurrences(buckets[..i], b)
      invariant Total(counts) == i
    {
      assert buckets[..i + 1][..i] == buckets[..i];
      TotalIncrement(counts, buckets[i]);
      counts := counts[buckets[i] := counts[buckets[i]] + 1];
    }
    assert buckets[..|buckets|] == buckets;
  }

  /** The risk bucket: 0–20%, 20–40%, 40–60%, 60–80% or 80–100%. */
  function RiskBucket(risk: real): (b: nat)
    ensures b < 5
    ensures b == 0 <==> risk * 100.0 < 20.0
    ensures b == 4 <==> risk * 100.0 >= 80.0
    ensures 0 < b < 4 ==> 20.0 * b as real <= risk * 100.0 < 20.0 * (b + 1) as real
  {
    var pct := risk * 100.0;
    if pct < 20.0 then 0 else if pct < 40.0 then 1 else if pct < 60.0 then 2 else if pct < 80.0 then 3 else 4
  }

  /** The risk bucket of each row. */
  function RiskBuckets(rows: seq<RiskRow>): (r: seq<nat>)
    ensures |r| == |rows|
    ensures forall i :: 0 <= i < |r| ==> r[i] == RiskBucket(rows[i].risk) && r[i] < 5
  {
    seq(|rows|, i requires 0 <= i < |rows| => RiskBucket(rows[i].risk))
  }

  /** The age bucket: 0–17, 18–39, 40–59 or 60+. */
  function AgeBucket(age: int): (b: nat)
    ensures b < 4
    ensures b == 0 <==> age < 18
    ensures b == 1 <==> 18 <= age < 40
    ensures b == 2 <==> 40 <= age < 60
    ensures b == 3 <==> age >= 60
  {
    if age < 18 then 0 else if age < 40 then 1 else if age < 60 then 2 else 3
  }

  /** The age bucket of each patient. */
  function AgeBuckets(ps: seq<(Id, Patient)>): (r: seq<nat>)
    ensures |r| == |ps|
    ensures forall i :: 0 <= i < |r| ==> r[i] == AgeBucket(ps[i].1.age) && r[i] < 4
  {
    seq(|ps|, i requires 0 <= i < |ps| => AgeBucket(ps[i].1.age))
  }

  // ---------------------------------------------------------------- tallies

  /** How often `k` occurs in `xs`. */
  function Count(xs: seq<string>, k: string): (r: nat)
    ensures r > 0 <==> k in xs
  {
    if xs == [] then 0
    else
      assert xs == xs[..|xs| - 1] + [xs[|xs| - 1]];
      Count(xs[..|xs| - 1], k) + (if xs[|xs| - 1] == k then 1 else 0)
  }

  /** The distinct elements of `xs`, in the order of their first occurrence. */
  function FirstSeen(xs: seq<string>): (r: seq<string>)
    ensures forall k :: k in r <==> k in xs
    ensures NoDuplicates(r)
  {
    if xs == [] then []
    else
      var rest := FirstSeen(xs[..|xs| - 1]);
      assert xs == xs[..|xs| - 1] + [xs[|xs| - 1]];
      if xs[|xs| - 1] in rest then rest else rest + [xs[|xs| - 1]]
  }

  /**
   * `FirstSeen` lists keys by first occurrence: where the i-th key first
   * occurs in `xs`, any later key has not occurred yet.
   */
  lemma {:induction false} FirstSeenOrder(xs: seq<string>, i: nat, j: nat)
    requires i < j < |FirstSeen(xs)|
    ensures exists a :: 0 <= a < |xs| && xs[a] == FirstSeen(xs)[i] && FirstSeen(xs)[j] !in xs[..a + 1]
  {
    var n := |xs| - 1;
    var pre := xs[..n];
    var r := FirstSeen(xs);
    assert xs == pre + [xs[n]];
    if j < |FirstSeen(pre)| {
      FirstSeenOrder(pre, i, j);
      var a :| 0 <= a < |pre| && pre[a] == FirstSeen(pre)[i] && FirstSeen(pre)[j] !in pre[..a + 1];
      assert xs[..a + 1] == pre[..a + 1];
    } else {
      assert r == FirstSeen(pre) + [xs[n]] && r[j] == xs[n] && xs[n] !in pre;
      assert r[i] in pre;
      var a :| 0 <= a < |pre| && pre[a] == r[i];
      assert xs[..a + 1] == pre[..a + 1];
      assert forall y :: y in pre[..a + 1] ==> y in pre;
    }
  }

  /**
   * Filling a `Map` (or a plain object) with `set(key, (get(key) || 0) + 1)`:
   * every key seen is counted exactly as often as it occurs, and `order`
   * lists the keys as the map's entries do, once each by first occurrence.
   */
  method Tally(keys: seq<string>) returns (order: seq<string>, counts: map<string, nat>)
    ensures forall k :: k in counts <==> k in keys
    ensures forall k :: k in counts ==> counts[k] == Count(keys, k)
    ensures order == FirstSeen(keys)
  {
    order, counts := [], map[];
    for i := 0 to |keys|
      invariant forall k :: k in counts <==> k in keys[..i]
      invariant forall k :: k in counts ==> counts[k] == Count(keys[..i], k)
      invariant order == FirstSeen(keys[..i])
    {
      var key := keys[i];
      assert keys[..i + 1] == keys[..i] + [key];
      assert keys[..i + 1][..i] == keys[..i];
      if key in counts {
        counts := counts[key := counts[key] + 1];
      } else {
        counts := counts[key := 1];
        order := order + [key];
      }
    }
    assert keys[..|keys|] == keys;
  }

  /** The trimmed, non-blank conditions of one patient, in order. */
  function ConditionKeys(cs: seq<string>): (r: seq<string>)
    ensures |r| <= |cs|
    ensures forall k :: k in r ==> k != "" && exists c :: c in cs && k == Text.Trim(c)
  {
    if cs == [] then []
    else
      var rest := ConditionKeys(cs[..|cs| - 1]);
      var key := Text.Trim(cs[|cs| - 1]);
      assert forall c :: c in cs[..|cs| - 1] ==> c in cs;
      if key == "" then rest else rest + [key]
  }

  /** The i-th key is the trimmed condition at position `f[i]`. */
  ghost predicate KeysAt(r: seq<string>, cs: seq<string>, f: seq<nat>) {
    |f| == |r| && forall i :: 0 <= i < |f| ==> f[i] < |cs| && r[i] == Text.Trim(cs[f[i]])
  }

  ghost predicate Increasing(f: seq<nat>) {
    forall i, j :: 0 <= i < j < |f| ==> f[i] < f[j]
  }

  /** Every condition that does not trim to blank has its position in `f`. */
  ghost predicate CoversNonBlank(cs: seq<string>, f: seq<nat>) {
    forall a :: 0 <= a < |cs| && Text.Trim(cs[a]) != "" ==> a in f
  }

  /**
   * `f` places the keys `r` in `cs`: the i-th key is the trimmed condition
   * at position `f[i]`, the positions increase, and every condition that
   * does not trim to blank has its position in `f`.
   */
  ghost predicate Placed(r: seq<string>, cs: seq<string>, f: seq<nat>) {
    KeysAt(r, cs, f) && Increasing(f) && CoversNonBlank(cs, f)
  }

  /** A condition that trims to blank adds no key and no position. */
  lemma PlacedBlank(r: seq<string>, cs: seq<string>, f: seq<nat>, c: string)
    requires Placed(r, cs, f) && Text.Trim(c) == ""
    ensures Placed(r, cs + [c], f)
  {
    var cs' := cs + [c];
    forall i | 0 <= i < |f| ensures f[i] < |cs'| && r[i] == Text.Trim(cs'[f[i]]) {
      assert cs'[f[i]] == cs[f[i]];
    }
    forall a | 0 <= a < |cs'| && Text.Trim(cs'[a]) != "" ensures a in f {
      assert a < |cs| && cs'[a] == cs[a];
    }
  }

  lemma KeysAtSnoc(r: seq<string>, cs: seq<string>, f: seq<nat>, c: string)
    requires KeysAt(r, cs, f)
    ensures KeysAt(r + [Text.Trim(c)], cs + [c], f + [|cs|])
  {
    var cs' := cs + [c];
    var f' := f + [|cs|];
    var r' := r + [Text.Trim(c)];
    forall i | 0 <= i < |f'| ensures f'[i] < |cs'| && r'[i] == Text.Trim(cs'[f'[i]]) {
      if i < |f| {
        assert f'[i] == f[i] && r'[i] == r[i] && cs'[f[i]] == cs[f[i]];
      } else {
        assert f'[i] == |cs| && r'[i] == Text.Trim(c) && cs'[|cs|] == c;
      }
    }
  }

  lemma IncreasingSnoc(f: seq<nat>, n: nat)
    requires Increasing(f) && forall i :: 0 <= i < |f| ==> f[i] < n
    ensures Increasing(f + [n])
  {
  }

  lemma CoversSnoc(cs: seq<string>, f: seq<nat>, c: string)
    requires CoversNonBlank(cs, f)
    ensures CoversNonBlank(cs + [c], f + [|cs|])
  {
    var cs' := cs + [c];
    var f' := f + [|cs|];
    forall a | 0 <= a < |cs'| && Text.Trim(cs'[a]) != "" ensures a in f' {
      if a < |cs| {
        assert cs'[a] == cs[a] && a in f;
      } else {
        assert f'[|f|] == a;
      }
    }
  }

  /** A condition that does not trim to blank adds its key at its position. */
  lemma PlacedKey(r: seq<string>, cs: seq<string>, f: seq<nat>, c: string)
    requires Placed(r, cs, f) && Text.Trim(c) != ""
    ensures Placed(r + [Text.Trim(c)], cs + [c], f + [|cs|])
  {
    KeysAtSnoc(r, cs, f, c);
    IncreasingSnoc(f, |cs|);
    CoversSnoc(cs, f, c);
  }

  /** The positions of the condition keys, built condition by condition. */
  lemma {:induction false} ConditionKeyPositions(cs: seq<string>) returns (f: seq<nat>)
    ensures Placed(ConditionKeys(cs), cs, f)
  {
    if cs == [] {
      f := [];
      assert ConditionKeys(cs) == [];
    } else {
      var n := |cs| - 1;
      var pre := cs[..n];
      assert cs == pre + [cs[n]];
      var g := ConditionKeyPositions(pre);
      var key := Text.Trim(cs[n]);
      if key == "" {
        assert ConditionKeys(cs) == ConditionKeys(pre);
        PlacedBlank(ConditionKeys(pre), pre, g, cs[n]);
        f := g;
      } else {
        assert ConditionKeys(cs) == ConditionKeys(pre) + [key];
        PlacedKey(ConditionKeys(pre), pre, g, cs[n]);
        f := g + [n];
      }
    }
  }

  /**
   * The condition keys are exactly the non-blank trimmed conditions, in
   * their order, each as often as it occurs.
   */
  lemma ConditionKeysPlaced(cs: seq<string>)
    ensures exists f :: Placed(ConditionKeys(cs), cs, f)
  {
    var f := ConditionKeyPositions(cs);
  }

  /** The condition keys of all patients, patient after patient. */
  function AllConditionKeys(ps: seq<(Id, Patient)>): (r: seq<string>)
    ensures forall k :: k in r ==> k != ""
  {
    if ps == [] then [] else AllConditionKeys(ps[..|ps| - 1]) + ConditionKeys(ps[|ps| - 1].1.conditions)
  }

  /** The entries of a tally, in the map's order. */
  function Entries(order: seq<string>, counts: map<string, nat>): (r: seq<(string, nat)>)
    requires forall k :: k in order ==> k in counts
    ensures |r| == |order|
    ensures forall i :: 0 <= i < |r| ==> r[i] == (order[i], counts[order[i]])
  {
    seq(|order|, i requires 0 <= i < |order| => (order[i], counts[order[i]]))
  }

  function EntryCount(e: (string, nat)): real {
    e.1 as real
  }

  function RowRisk(x: RiskRow): real {
    x.risk
  }

  // ---------------------------------------------------------------- KPIs

  /** `filter((x) => x.risk >= 0.7)`: the high-risk rows, each as often as it occurs, in order. */
  function HighRisk(rows: seq<RiskRow>): (r: seq<RiskRow>)
    ensures forall x :: x in r <==> x in rows && x.risk >= 0.7
    ensures forall x :: multiset(r)[x] == if x.risk >= 0.7 then multiset(rows)[x] else 0
  {
    if rows == [] then []
    else
      var rest := HighRisk(rows[..|rows| - 1]);
      var x := rows[|rows| - 1];
      assert rows == rows[..|rows| - 1] + [x];
      if x.risk >= 0.7 then rest + [x] else rest
  }

  /** The sum of the rows' risks; each risk lies in [0, 1], so the sum lies in [0, |rows|]. */
  function SumRisk(rows: seq<RiskRow>): (r: real)
    requires forall i :: 0 <= i < |rows| ==> 0.0 <= rows[i].risk <= 1.0
    ensures 0.0 <= r <= |rows| as real
  {
    if rows == [] then 0.0 else SumRisk(rows[..|rows| - 1]) + rows[|rows| - 1].risk
  }

  /** A sum of values in [0, 1] divided by their number lies in [0, 1]. */
  lemma MeanWithinUnit(sum: real, n: real)
    requires n > 0.0 && 0.0 <= sum <= n
    ensures 0.0 <= sum / n <= 1.0
  {
    var q := sum / n;
    assert q * n == sum;
    assert (1.0 - q) * n == n - sum;
  }

  /** The mean risk, 0 for no patient; it lies in [0, 1]. */
  function AverageRisk(rows: seq<RiskRow>): (r: real)
    requires forall i :: 0 <= i < |rows| ==> 0.0 <= rows[i].risk <= 1.0
    ensures 0.0 <= r <= 1.0
  {
    if |rows| > 0 then
      MeanWithinUnit(SumRisk(rows), |rows| as real);
      SumRisk(rows) / |rows| as real
    else 0.0
  }

  function SumTotals(bills: seq<(Id, Bill)>): int {
    if bills == [] then 0 else SumTotals(bills[..|bills| - 1]) + bills[|bills| - 1].1.totalAmount
  }

  function SumPaid(bills: seq<(Id, Bill)>): int {
    if bills == [] then 0 else SumPaid(bills[..|bills| - 1]) + bills[|bills| - 1].1.paidAmount
  }

  /**
   * `outstandingBalance`, the sum of the bills' balances: for bills that
   * keep their ledger it is everything billed less everything paid.
   */
  function OutstandingBalance(bills: seq<(Id, Bill)>): (r: int)
    ensures (forall i :: 0 <= i < |bills| ==> LedgerConsistent(bills[i].1)) ==> r == SumTotals(bills) - SumPaid(bills)
  {
    if bills == [] then 0 else OutstandingBalance(bills[..|bills| - 1]) + bills[|bills| - 1].1.balance
  }

  /** One entry of `wardOccupancy`. */
  datatype WardLoad = WardLoad(id: Id, name: string, occupied: int, capacity: int, percent: int)

  /**
   * `capacity > 0 ? Math.round((occupied / capacity) * 100) : 0`: the
   * occupancy in percent, rounded to the nearest integer (halves up).
   */
  function OccupancyPercent(occupied: int, capacity: int): (p: int)
    ensures capacity <= 0 ==> p == 0
    ensures capacity > 0 ==>
      p as real - 0.5 <= (occupied * 100) as real / capacity as real < p as real + 0.5
  {
    if capacity > 0 then ((occupied * 100) as real / capacity as real + 0.5).Floor else 0
  }

  /** A ward no fuller than its capacity is between 0 and 100 percent occupied. */
  lemma OccupancyWithinRange(occupied: int, capacity: int)
    requires 0 <= occupied <= capacity
    ensures 0 <= OccupancyPercent(occupied, capacity) <= 100
  {
    if capacity > 0 {
      var x := (occupied * 100) as real / capacity as real;
      assert x * capacity as real == (occupied * 100) as real;
      assert x <= 100.0 by {
        if x > 100.0 {
          assert x * capacity as real > 100.0 * capacity as real;
        }
      }
    }
  }

  function LoadOf(k: Id, w: Ward): WardLoad {
    WardLoad(k, w.wardName, w.occupiedBeds, w.capacity, OccupancyPercent(w.occupiedBeds, w.capacity))
  }

  /** `(p.gender || "Unknown")`, the key of the gender breakdown. */
  function GenderKey(p: Patient): string {
    Or(p.gender, "Unknown")
  }

  /** The gender key of each patient. */
  function GenderKeys(ps: seq<(Id, Patient)>): (r: seq<string>)
    ensures |r| == |ps|
    ensures forall i :: 0 <= i < |r| ==> r[i] == GenderKey(ps[i].1)
  {
    seq(|ps|, i requires 0 <= i < |ps| => GenderKey(ps[i].1))
  }

  // ---------------------------------------------------------------- the dashboard

  /** The body of `/admin/metrics`. */
  datatype Metrics = Metrics(
    totalPatients: nat,
    avgRisk: real,
    highRiskCount: nat,
    outstandingBalance: int,
    riskByPatient: seq<RiskRow>,
    riskDistribution: seq<nat>,
    wardOccupancy: seq<WardLoad>,
    genderBreakdown: seq<(string, nat)>,
    ageBuckets: seq<nat>,
    topConditions: seq<(string, nat)>,
    highRiskPatients: seq<RiskRow>)

  /** The rows of the listed patients, the i-th drawing `jitter(i)`. */
  function Rows(wards: map<Id, Ward>, patients: seq<(Id, Patient)>, jitter: nat -> real): (r: seq<RiskRow>)
    ensures |r| == |patients|
    ensures forall i :: 0 <= i < |r| ==> r[i] == RowOf(wards, patients[i].0, patients[i].1, jitter(i))
    ensures forall i :: 0 <= i < |r| ==> r[i].id == patients[i].0 && 0.0 <= r[i].risk <= 1.0
  {
    seq(|patients|, i requires 0 <= i < |patients| => RowOf(wards, patients[i].0, patients[i].1, jitter(i)))
  }

  /** `rows` carries each id of `ids` exactly once and no other id. */
  ghost predicate OneRowEach(rows: seq<RiskRow>, ids: set<Id>) {
    && (forall i :: 0 <= i < |rows| ==> rows[i].id in ids)
    && (forall k :: k in ids ==> exists i :: 0 <= i < |rows| && rows[i].id == k)
    && (forall i, j :: 0 <= i < j < |rows| ==> rows[i].id != rows[j].id)
  }

  /** The rows of a listing that holds every patient of `ps` once are one row per patient. */
  lemma RowsCoverListing(wards: map<Id, Ward>, patients: seq<(Id, Patient)>, jitter: nat -> real, ps: map<Id, Patient>)
    requires forall p :: p in patients <==> p.0 in ps && p.1 == ps[p.0]
    requires Query.DistinctIds(patients)
    ensures OneRowEach(Rows(wards, patients, jitter), ps.Keys)
  {
    var rows := Rows(wards, patients, jitter);
    forall k | k in ps ensures exists i :: 0 <= i < |rows| && rows[i].id == k {
      assert (k, ps[k]) in patients;
      var i :| 0 <= i < |patients| && patients[i] == (k, ps[k]);
      assert rows[i].id == k;
    }
    forall i | 0 <= i < |rows| ensures rows[i].id in ps {
      assert patients[i] in patients;
    }
  }

  /**
   * `riskByPatient`: one row per stored patient, listed in the order
   * `find({})` returns them, the i-th drawing `jitter(i)`.
   */
  method PatientRows(db: Db, jitter: nat -> real) returns (patients: seq<(Id, Patient)>, rows: seq<RiskRow>)
    ensures multiset(patients) == multiset(Query.Selected(db.patients, Query.All()))
    ensures |patients| == |db.patients|
    ensures rows == Rows(db.wards, patients, jitter)
    ensures OneRowEach(rows, db.patients.Keys)
  {
    patients := Query.Collect(db.patients, Query.All());
    Query.ListingCount(patients, db.patients);
    RowsCoverListing(db.wards, patients, jitter, db.patients);
    rows := Rows(db.wards, patients, jitter);
  }

  /** The occupancy of each listed ward, in the listing's order. */
  function Loads(wards: seq<(Id, Ward)>): (r: seq<WardLoad>)
    ensures |r| == |wards|
    ensures forall i :: 0 <= i < |r| ==> r[i] == LoadOf(wards[i].0, wards[i].1)
  {
    seq(|wards|, i requires 0 <= i < |wards| => LoadOf(wards[i].0, wards[i].1))
  }

  /** `loads` holds exactly one occupancy entry per ward of `wards`, and nothing else. */
  ghost predicate OneLoadEach(loads: seq<WardLoad>, wards: map<Id, Ward>) {
    && |loads| == |wards|
    && (forall w :: w in loads ==> w.id in wards && w == LoadOf(w.id, wards[w.id]))
    && (forall k :: k in wards ==> LoadOf(k, wards[k]) in loads)
    && (forall i, j :: 0 <= i < j < |loads| ==> loads[i].id != loads[j].id)
  }

  /** `wardOccupancy`: exactly one entry per stored ward. */
  method WardOccupancy(db: Db) returns (loads: seq<WardLoad>)
    ensures OneLoadEach(loads, db.wards)
  {
    var wards := Query.Collect(db.wards, Query.All());
    loads := Loads(wards);
    forall w | w in loads ensures w.id in db.wards && w == LoadOf(w.id, db.wards[w.id]) {
      var i :| 0 <= i < |loads| && loads[i] == w;
      assert wards[i] in wards;
    }
    forall k | k in db.wards ensures LoadOf(k, db.wards[k]) in loads {
      assert (k, db.wards[k]) in wards;
      var i :| 0 <= i < |wards| && wards[i] == (k, db.wards[k]);
      assert loads[i] == LoadOf(k, db.wards[k]);
    }
    Query.ListingCount(wards, db.wards);
  }

  /**
   * `es` is the tally of `keys` as a list of entries: each distinct key
   * once, in the order of first occurrence, with the number of times it
   * occurs.
   */
  ghost predicate Breakdown(es: seq<(string, nat)>, keys: seq<string>) {
    && |es| == |FirstSeen(keys)|
    && forall i :: 0 <= i < |es| ==> es[i] == (FirstSeen(keys)[i], Count(keys, FirstSeen(keys)[i]))
  }

  /** The entries of a tally are its breakdown. */
  lemma TallyEntries(keys: seq<string>, order: seq<string>, counts: map<string, nat>)
    requires forall k :: k in counts <==> k in keys
    requires forall k :: k in counts ==> counts[k] == Count(keys, k)
    requires order == FirstSeen(keys)
    ensures Breakdown(Entries(order, counts), keys)
  {
  }

  /**
   * `top` is the table of the `n` most frequent keys of `keys`: `n` entries
   * (all distinct keys when there are fewer), most frequent first, each a
   * distinct key with its exact count, and no key left out occurs more
   * often than one kept.
   */
  ghost predicate MostFrequent(top: seq<(string, nat)>, keys: seq<string>, n: nat) {
    && |top| == (if |FirstSeen(keys)| < n then |FirstSeen(keys)| else n)
    && Sorting.SortedBy(top, EntryCount, true)
    && (forall i :: 0 <= i < |top| ==> top[i].0 in keys && top[i].1 == Count(keys, top[i].0))
    && (forall i, j :: 0 <= i < j < |top| ==> top[i].0 != top[j].0)
    && (forall k :: k in keys && (forall i :: 0 <= i < |top| ==> top[i].0 != k) ==>
          forall i :: 0 <= i < |top| ==> Count(keys, k) <= top[i].1)
  }

  /** Every entry drawn from a breakdown is a key with its exact count. */
  lemma DrawnEntriesCounted(top: seq<(string, nat)>, es: seq<(string, nat)>, keys: seq<string>)
    requires Breakdown(es, keys) && multiset(top) <= multiset(es)
    ensures forall i :: 0 <= i < |top| ==> top[i].0 in keys && top[i].1 == Count(keys, top[i].0)
  {
    var fs := FirstSeen(keys);
    forall i | 0 <= i < |top| ensures top[i].0 in keys && top[i].1 == Count(keys, top[i].0) {
      assert top[i] in multiset(es);
      var a :| 0 <= a < |es| && es[a] == top[i];
      assert fs[a] in fs;
    }
  }

  /** Entries drawn from a breakdown, each at most once, carry distinct keys. */
  lemma DrawnEntriesDistinct(top: seq<(string, nat)>, es: seq<(string, nat)>, keys: seq<string>)
    requires Breakdown(es, keys) && multiset(top) <= multiset(es)
    requires forall i :: 0 <= i < |top| ==> top[i].1 == Count(keys, top[i].0)
    ensures forall i, j :: 0 <= i < j < |top| ==> top[i].0 != top[j].0
  {
    var fs := FirstSeen(keys);
    assert NoDuplicates(es) by {
      forall a, b | 0 <= a < b < |es| ensures es[a] != es[b] {
        assert es[a].0 == fs[a] && es[b].0 == fs[b];
      }
    }
    NoDuplicatesOnce(es);
    forall i, j | 0 <= i < j < |top| ensures top[i].0 != top[j].0 {
      RepeatCountsTwice(top, i, j);
      assert multiset(top)[top[i]] <= multiset(es)[top[i]];
    }
  }

  /** The top `n` of a breakdown by count are its `n` most frequent keys. */
  lemma {:induction false} TopOfBreakdown(es: seq<(string, nat)>, keys: seq<string>, n: nat)
    requires Breakdown(es, keys)
    ensures MostFrequent(Sorting.Top(es, EntryCount, n), keys, n)
  {
    var top := Sorting.Top(es, EntryCount, n);
    var fs := FirstSeen(keys);
    DrawnEntriesCounted(top, es, keys);
    DrawnEntriesDistinct(top, es, keys);
    forall k | k in keys && (forall i :: 0 <= i < |top| ==> top[i].0 != k)
      ensures forall i :: 0 <= i < |top| ==> Count(keys, k) <= top[i].1
    {
      assert k in fs;
      var a :| 0 <= a < |fs| && fs[a] == k;
      var e := es[a];
      assert e !in multiset(top);
      assert multiset(top)[e] < multiset(es)[e];
      assert forall i :: 0 <= i < |top| ==> EntryCount(e) <= EntryCount(top[i]);
    }
  }

  /**
   * `topConditions`: the tally of the trimmed, non-blank conditions,
   * sorted by count, most frequent first, cut to 12 entries.
   */
  method TopConditions(patients: seq<(Id, Patient)>) returns (top: seq<(string, nat)>)
    ensures MostFrequent(top, AllConditionKeys(patients), 12)
  {
    var conditionKeys := AllConditionKeys(patients);
    var conditionOrder, conditionMap := Tally(conditionKeys);
    var entries := Entries(conditionOrder, conditionMap);
    TallyEntries(conditionKeys, conditionOrder, conditionMap);
    TopOfBreakdown(entries, conditionKeys, 12);
    top := Sorting.Top(entries, EntryCount, 12);
  }

  /**
   * `table` holds the `n` riskiest of `rows` (all of them when there are
   * fewer), riskiest first: no row left out has a higher risk than one
   * kept.
   */
  ghost predicate Riskiest(table: seq<RiskRow>, rows: seq<RiskRow>, n: nat) {
    && |table| == (if |rows| < n then |rows| else n)
    && Sorting.SortedBy(table, RowRisk, true)
    && multiset(table) <= multiset(rows)
    && forall x :: multiset(table)[x] < multiset(rows)[x] ==> forall i :: 0 <= i < |table| ==> x.risk <= table[i].risk
  }

  /**
   * The figures drawn from the rows: the high-risk count, the average
   * risk, the risk distribution and the top-10 high-risk table.
   */
  method RiskFigures(rows: seq<RiskRow>) returns (highRisk: nat, avgRisk: real, buckets: seq<nat>, table: seq<RiskRow>)
    requires forall i :: 0 <= i < |rows| ==> 0.0 <= rows[i].risk <= 1.0
    ensures highRisk == |HighRisk(rows)|
    ensures avgRisk == AverageRisk(rows) && 0.0 <= avgRisk <= 1.0
    ensures |buckets| == 5 && Total(buckets) == |rows|
    ensures forall b :: 0 <= b < 5 ==> buckets[b] == Occurrences(RiskBuckets(rows), b)
    ensures Riskiest(table, rows, 10)
  {
    highRisk := |HighRisk(rows)|;
    avgRisk := AverageRisk(rows);
    buckets := Histogram(RiskBuckets(rows), 5);
    table := Sorting.Top(rows, RowRisk, 10);
  }

  /**
   * `genderBreakdown`: one entry per distinct gender key, in the order of
   * first occurrence, with the number of patients carrying it.
   */
  method GenderBreakdown(patients: seq<(Id, Patient)>) returns (breakdown: seq<(string, nat)>)
    ensures Breakdown(breakdown, GenderKeys(patients))
  {
    var order, tally := Tally(GenderKeys(patients));
    TallyEntries(GenderKeys(patients), order, tally);
    breakdown := Entries(order, tally);
  }

  /**
   * `/admin/metrics`, where `jitter(i)` is the draw for the i-th patient of
   * the listing `patients`, which holds every stored patient once. Every
   * figure is stated in terms of that listing: the rows, the average and
   * high-risk count over them, the risk and age buckets, the gender
   * breakdown, the twelve most frequent conditions, the ten riskiest rows
   * and one occupancy per ward.
   */
  method AdminMetrics(db: Db, jitter: nat -> real) returns (m: Metrics, patients: seq<(Id, Patient)>)
    ensures multiset(patients) == multiset(Query.Selected(db.patients, Query.All()))
    ensures m.totalPatients == |patients| == |db.patients|
    ensures m.riskByPatient == Rows(db.wards, patients, jitter)
    ensures OneRowEach(m.riskByPatient, db.patients.Keys)
    ensures m.avgRisk == AverageRisk(m.riskByPatient)
    ensures m.highRiskCount == |HighRisk(m.riskByPatient)|
    ensures |m.riskDistribution| == 5 && Total(m.riskDistribution) == m.totalPatients
    ensures forall b :: 0 <= b < 5 ==> m.riskDistribution[b] == Occurrences(RiskBuckets(m.riskByPatient), b)
    ensures |m.ageBuckets| == 4 && Total(m.ageBuckets) == m.totalPatients
    ensures forall b :: 0 <= b < 4 ==> m.ageBuckets[b] == Occurrences(AgeBuckets(patients), b)
    ensures Breakdown(m.genderBreakdown, GenderKeys(patients))
    ensures MostFrequent(m.topConditions, AllConditionKeys(patients), 12)
    ensures Riskiest(m.highRiskPatients, m.riskByPatient, 10)
    ensures OneLoadEach(m.wardOccupancy, db.wards)
  {
    var rows;
    patients, rows := PatientRows(db, jitter);
    var loads := WardOccupancy(db);
    var bills := Query.Collect(db.bills, Query.All());
    var outstanding := OutstandingBalance(bills);
    var highRisk, avgRisk, riskBuckets, highRiskPatients := RiskFigures(rows);
    var genderBreakdown := GenderBreakdown(patients);
    var ageBuckets := Histogram(AgeBuckets(patients), 4);
    var topConditions := TopConditions(patients);
    m := Metrics(|patients|, avgRisk, highRisk, outstanding, rows, riskBuckets, loads,
                 genderBreakdown, ageBuckets, topConditions, highRiskPatients);
  }
}
