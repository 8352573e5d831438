/** Folding KPI events into a run's KPI values. */
module CampaignKpis {

  datatype KpiEvent = SetTo(kpi: string, value: real) | Add(kpi: string, value: real) | Invalid

  function ValueOf(kpis: map<string, real>, kpi: string): real {
    if kpi in kpis then kpis[kpi] else 0.0
  }

  function Apply(kpis: map<string, real>, e: KpiEvent): map<string, real> {
    match e
    case SetTo(kpi, value) => kpis[kpi := value]
    case Add(kpi, value) => kpis[kpi := ValueOf(kpis, kpi) + value]
    case Invalid => kpis
  }

  function Fold(kpis: map<string, real>, events: seq<KpiEvent>, n: nat): map<string, real>
    requires n <= |events|
  {
    if n == 0 then kpis else Apply(Fold(kpis, events, n - 1), events[n - 1])
  }

  /** What the events from m up to n add to a KPI. */
  function Added(events: seq<KpiEvent>, kpi: string, m: nat, n: nat): real
    requires m <= n <= |events|
  {
    if m == n then 0.0 else
      Added(events, kpi, m, n - 1) + if events[n - 1].Add? && events[n - 1].kpi == kpi then events[n - 1].value else 0.0
  }

  /** A KPI is what it was last set to, or was before, plus what was added since. */
  lemma {:induction false} KpiIsLastSetPlusAdded(
    kpis: map<string, real>, events: seq<KpiEvent>, kpi: string, m: nat, n: nat)
    requires m <= n <= |events|
    requires forall i | m <= i < n :: !(events[i].SetTo? && events[i].kpi == kpi)
    ensures ValueOf(Fold(kpis, events, n), kpi) ==
            (if m > 0 && events[m - 1].SetTo? && events[m - 1].kpi == kpi then events[m - 1].value
             else ValueOf(Fold(kpis, events, m), kpi)) + Added(events, kpi, m, n)
    decreases n - m
  {
    if m < n {
      KpiIsLastSetPlusAdded(kpis, events, kpi, m, n - 1);
    }
  }

  /** KPIs no event is about stay as they are. */
  lemma {:induction false} OtherKpisStay(kpis: map<string, real>, events: seq<KpiEvent>, kpi: string, n: nat)
    requires n <= |events| && forall i | 0 <= i < n && !events[i].Invalid? :: events[i].kpi != kpi
    ensures kpi in Fold(kpis, events, n) <==> kpi in kpis
    ensures ValueOf(Fold(kpis, events, n), kpi) == ValueOf(kpis, kpi)
  {
    if n > 0 {
      OtherKpisStay(kpis, events, kpi, n - 1);
    }
  }
}
