/**
 * The anomaly view (app/components/AnomalyMonitor.tsx): the four-way filter
 * over the anomaly buffer, the list of distinct anomaly types offered by
 * the type filter, the severity badge label and colour, and the summary
 * cards. The filter strings are the component's UI state, passed in here.
 */
module AnomalyMonitor {
  import opened VehicleTypes
  import opened Text
  import VehicleData

  /** The component's four filter inputs; "all" disables a select filter. */
  datatype Filters = Filters(searchTerm: string, severity: string, vehicle: string, kind: string)

  /** The four filter inputs in their initial state. */
  const NoFilters: Filters := Filters("", "all", "all", "all")

  predicate MatchesSearch(a: Anomaly, term: string)
  {
    Includes(ToLower(a.description), ToLower(term)) || Includes(ToLower(a.kind), ToLower(term))
  }

  /** The `filteredAnomalies` predicate: all four conditions hold. */
  predicate Matches(a: Anomaly, f: Filters)
    ensures f == NoFilters ==> Matches(a, f)
  {
    IncludesEmpty(ToLower(a.description));
    assert ToLower("") == "";
    && MatchesSearch(a, f.searchTerm)
    && (f.severity == "all" || IntToDecimal(a.severity) == f.severity)
    && (f.vehicle == "all" || IntToDecimal(a.vehicleId) == f.vehicle)
    && (f.kind == "all" || a.kind == f.kind)
  }

  /** `anomalies.filter(...)`. */
  function FilterAnomalies(s: seq<Anomaly>, f: Filters): (r: seq<Anomaly>)
    ensures |r| <= |s|
    ensures forall k :: 0 <= k < |r| ==> Matches(r[k], f)
  {
    if s == [] then []
    else (if Matches(s[0], f) then [s[0]] else []) + FilterAnomalies(s[1..], f)
  }

  /** `r` can be obtained from `s` by deleting elements. */
  predicate IsSubsequence<T(==)>(r: seq<T>, s: seq<T>)
  {
    r == [] || (s != [] && ((r[0] == s[0] && IsSubsequence(r[1..], s[1..])) || IsSubsequence(r, s[1..])))
  }

  /** The filtered list keeps the buffer's order. */
  lemma {:induction false} FilterIsSubsequence(s: seq<Anomaly>, f: Filters)
    ensures IsSubsequence(FilterAnomalies(s, f), s)
  {
    if s != [] {
      FilterIsSubsequence(s[1..], f);
      if Matches(s[0], f) {
        assert FilterAnomalies(s, f)[1..] == FilterAnomalies(s[1..], f);
      } else {
        assert FilterAnomalies(s, f) == FilterAnomalies(s[1..], f);
      }
    }
  }

  /** An anomaly is shown exactly when it is in the buffer and passes all
      four conditions. */
  lemma {:induction false} FilterMembership(s: seq<Anomaly>, f: Filters, a: Anomaly)
    ensures a in FilterAnomalies(s, f) <==> a in s && Matches(a, f)
  {
    if s != [] {
      FilterMembership(s[1..], f, a);
      assert s == [s[0]] + s[1..];
    }
  }

  /** With an empty search box and every select on "all" nothing is hidden,
      because every string includes the empty string. */
  lemma {:induction false} NoFiltersShowEverything(s: seq<Anomaly>)
    ensures FilterAnomalies(s, NoFilters) == s
  {
    if s != [] {
      IncludesEmpty(ToLower(s[0].description));
      assert ToLower("") == "";
      NoFiltersShowEverything(s[1..]);
      assert s == [s[0]] + s[1..];
    }
  }

  /** Choosing a severity shows only anomalies of that severity, because
      distinct integers render to distinct texts. */
  lemma SeverityFilterIsExact(s: seq<Anomaly>, f: Filters, sev: int)
    requires f.severity == IntToDecimal(sev)
    ensures forall k :: 0 <= k < |FilterAnomalies(s, f)| ==> FilterAnomalies(s, f)[k].severity == sev
  {
    var r := FilterAnomalies(s, f);
    assert f.severity != "all" by {
      assert IntToDecimal(sev) != "all" by {
        var t := IntToDecimal(sev);
        if sev >= 0 {
          assert IsDigit(t[0]);
        } else {
          assert t[0] == '-';
        }
      }
    }
    forall k | 0 <= k < |r| ensures r[k].severity == sev {
      assert Matches(r[k], f);
      IntToDecimalInjective(r[k].severity, sev);
    }
  }

  /** Some anomaly of `s` has type `t`. */
  predicate HasKind(s: seq<Anomaly>, t: string)
  {
    exists k :: 0 <= k < |s| && s[k].kind == t
  }

  lemma HasKindSnoc(s: seq<Anomaly>, t: string)
    requires s != []
    ensures HasKind(s, t) <==> HasKind(s[..|s| - 1], t) || t == s[|s| - 1].kind
  {
    if HasKind(s, t) {
      var k :| 0 <= k < |s| && s[k].kind == t;
      if k < |s| - 1 {
        assert s[..|s| - 1][k].kind == t;
      }
    }
    if HasKind(s[..|s| - 1], t) {
      var k :| 0 <= k < |s| - 1 && s[..|s| - 1][k].kind == t;
      assert s[k].kind == t;
    }
    if t == s[|s| - 1].kind {
      assert s[|s| - 1].kind == t;
    }
  }

  /** `[...new Set(anomalies.map((a) => a.type))]`: each type present once,
      nothing else, in order of first appearance. */
  function AnomalyTypesOf(s: seq<Anomaly>): (r: seq<string>)
    ensures forall t :: t in r <==> HasKind(s, t)
    ensures forall i, j :: 0 <= i < j < |r| ==> r[i] != r[j]
  {
    if s == [] then []
    else
      var prev := AnomalyTypesOf(s[..|s| - 1]);
      var last := s[|s| - 1].kind;
      assert forall t :: HasKind(s, t) <==> HasKind(s[..|s| - 1], t) || t == last by {
        forall t ensures HasKind(s, t) <==> HasKind(s[..|s| - 1], t) || t == last {
          HasKindSnoc(s, t);
        }
      }
      if last in prev then prev else prev + [last]
  }

  /** The type list is in order of first appearance: an earlier entry
      occurs in the anomalies before any occurrence of a later one. */
  lemma {:induction false} AnomalyTypesInFirstAppearanceOrder(s: seq<Anomaly>, i: nat, j: nat, k: nat)
    requires i < j < |AnomalyTypesOf(s)| && k < |s| && s[k].kind == AnomalyTypesOf(s)[j]
    ensures HasKind(s[..k], AnomalyTypesOf(s)[i])
  {
    var r := AnomalyTypesOf(s);
    var init := s[..|s| - 1];
    var prev := AnomalyTypesOf(init);
    var last := s[|s| - 1].kind;
    assert init[..|init|] == init;
    if j < |prev| {
      assert r[i] == prev[i] && r[j] == prev[j];
      if k < |init| {
        assert init[k] == s[k];
        AnomalyTypesInFirstAppearanceOrder(init, i, j, k);
        assert init[..k] == s[..k];
      } else {
        assert HasKind(init, prev[j]);
        var k0 :| 0 <= k0 < |init| && init[k0].kind == prev[j];
        AnomalyTypesInFirstAppearanceOrder(init, i, j, k0);
        var m :| 0 <= m < k0 && init[..k0][m].kind == prev[i];
        assert s[..k][m].kind == prev[i];
      }
    } else {
      assert r == prev + [last] && r[j] == last && r[i] == prev[i];
      assert HasKind(init, prev[i]);
      assert !HasKind(init, last);
      assert forall m :: 0 <= m < |init| ==> s[m].kind != last by {
        forall m | 0 <= m < |init| ensures s[m].kind != last {
          assert init[m] == s[m];
        }
      }
      assert s[..k] == init;
    }
  }

  /** The badge text for a severity. */
  function SeverityLabel(severity: int): (r: string)
    ensures r in ["CRITICAL", "HIGH", "MEDIUM", "LOW"]
  {
    if severity >= 4 then "CRITICAL"
    else if severity >= 3 then "HIGH"
    else if severity >= 2 then "MEDIUM"
    else "LOW"
  }

  /** The badge colour class for a severity. */
  function SeverityColor(severity: int): (r: string)
    ensures r in ["bg-red-500", "bg-yellow-500", "bg-blue-500", "bg-green-500"]
  {
    if severity >= 4 then "bg-red-500"
    else if severity >= 3 then "bg-yellow-500"
    else if severity >= 2 then "bg-blue-500"
    else "bg-green-500"
  }

  /** The hook's priority union spelled as the component spells it. */
  function PriorityText(p: Priority): string
  {
    match p
    case Low => "LOW"
    case Medium => "MEDIUM"
    case High => "HIGH"
    case Critical => "CRITICAL"
    case Emergency => "EMERGENCY"
  }

  /** The component's label and the hook's priority agree for every integer
      severity, so a badge always names the anomaly's stored priority. */
  lemma LabelAgreesWithPriority(severity: int)
    ensures SeverityLabel(severity) == PriorityText(VehicleData.PriorityOf(severity))
  {
  }

  /** Two severities get the same colour exactly when they get the same
      label: colour and label partition the severities the same way. */
  lemma ColorFollowsLabel(a: int, b: int)
    ensures SeverityColor(a) == SeverityColor(b) <==> SeverityLabel(a) == SeverityLabel(b)
  {
  }

  /** The four summary cards. */
  datatype Cards = Cards(critical: nat, high: nat, medium: nat, total: nat)

  function SeverityCards(s: seq<Anomaly>): (c: Cards)
    ensures c.total == |s|
    ensures c.critical == VehicleData.CountAtLeast(s, 4)
    ensures c.high == VehicleData.CountExactly(s, 3)
    ensures c.medium == VehicleData.CountExactly(s, 2)
  {
    Cards(VehicleData.CountAtLeast(s, 4), VehicleData.CountExactly(s, 3), VehicleData.CountExactly(s, 2), |s|)
  }

  /** The three severity cards never add up to more than the total card;
      for generated anomalies the shortfall is exactly the severity-1 count. */
  lemma {:induction false} CardsWithinTotal(s: seq<Anomaly>)
    ensures var c := SeverityCards(s); c.critical + c.high + c.medium <= c.total
    ensures (forall k :: 0 <= k < |s| ==> 1 <= s[k].severity <= 5) ==>
      var c := SeverityCards(s); c.critical + c.high + c.medium + VehicleData.CountExactly(s, 1) == c.total
  {
    if s != [] {
      CardsWithinTotal(s[1..]);
    }
    if forall k :: 0 <= k < |s| ==> 1 <= s[k].severity <= 5 {
      VehicleData.BucketsPartition(s);
    }
  }

  /** The monitor's cards for one vehicle's anomalies are the hook's
      per-vehicle analytics summary. */
  lemma CardsMatchVehicleSummary(vehicles: seq<Vehicle>, anomalies: seq<Anomaly>, id: int, d: VehicleData.AnalyticsDraws)
    requires VehicleData.FindVehicle(vehicles, id).Some?
    ensures var c := SeverityCards(VehicleData.OfVehicle(anomalies, id));
            var a := VehicleData.VehicleAnalyticsOf(vehicles, anomalies, id, d).anomalySummary;
            c.critical == a.critical && c.high == a.high && c.medium == a.medium
  {
  }
}
