/** The appointment-funnel calculator: spend and lead price give leads, three
    percentage rates carry them through appointments and calls to sales, and
    the team sizes follow from fixed capacities (200 leads per SDR, 50 calls
    per closer).  A realtime update flashes the first field that changed. */
module MetricasAgendamento {
  import opened Common

  datatype Form = Form(investimento: real, precoLead: real, taxaAgendamento: real,
                       taxaComparecimento: real, taxaConversao: real, ticketMedio: real)

  datatype Field = Investimento | PrecoLead | TaxaAgendamento | TaxaComparecimento | TaxaConversao | TicketMedio

  datatype Results = Results(leads: real, agendamentos: real, calls: real, vendas: real,
                             faturamento: real, custoPorCall: real, cac: real, roas: real,
                             numSdrs: int, numClosers: int)

  const LeadsPerSdr := 200
  const CallsPerCloser := 50

  function Get(f: Form, field: Field): real
  {
    match field
    case Investimento => f.investimento
    case PrecoLead => f.precoLead
    case TaxaAgendamento => f.taxaAgendamento
    case TaxaComparecimento => f.taxaComparecimento
    case TaxaConversao => f.taxaConversao
    case TicketMedio => f.ticketMedio
  }

  /** `handleChange`. */
  function HandleChange(f: Form, field: Field, v: real): (r: Form)
    ensures Get(r, field) == v
    ensures forall g :: g != field ==> Get(r, g) == Get(f, g)
  {
    match field
    case Investimento => f.(investimento := v)
    case PrecoLead => f.(precoLead := v)
    case TaxaAgendamento => f.(taxaAgendamento := v)
    case TaxaComparecimento => f.(taxaComparecimento := v)
    case TaxaConversao => f.(taxaConversao := v)
    case TicketMedio => f.(ticketMedio := v)
  }

  /** `x > 0 ? Math.ceil(x / per) : 0`: the least number of people of
      capacity `per` that covers `x`. */
  function Staff(x: real, per: int): (n: int)
    requires per > 0
    ensures x <= 0.0 ==> n == 0
    ensures x > 0.0 ==> n >= 1 && n as real * per as real >= x && (n - 1) as real * per as real < x
  {
    if x > 0.0 then
      var q := x / per as real;
      var n := Ceil(q);
      assert q * per as real == x;
      var m := (n - 1) as real;
      assert m < q;
      ScaleLess(q, n as real, per as real);
      ScaleLess(m, q, per as real);
      assert m * per as real < x;
      n
    else 0
  }

  /** `x * (rate / 100)`: a share of `rate` percent of `x`. */
  function Share(x: real, rate: real): (y: real)
    ensures y * 100.0 == x * rate
  {
    x * (rate / 100.0)
  }

  /** The memoised `resultados`. */
  function Compute(f: Form): (r: Results)
    ensures f.precoLead > 0.0 ==> r.leads * f.precoLead == f.investimento
    ensures f.precoLead <= 0.0 ==> r.leads == 0.0
    ensures r.agendamentos * 100.0 == r.leads * f.taxaAgendamento
    ensures r.calls * 100.0 == r.agendamentos * f.taxaComparecimento
    ensures r.vendas * 100.0 == r.calls * f.taxaConversao
    ensures r.faturamento == r.vendas * f.ticketMedio
    ensures r.calls > 0.0 ==> r.custoPorCall * r.calls == f.investimento
    ensures r.calls <= 0.0 ==> r.custoPorCall == 0.0
    ensures r.vendas > 0.0 ==> r.cac * r.vendas == f.investimento
    ensures r.vendas <= 0.0 ==> r.cac == 0.0
    ensures f.investimento > 0.0 ==> r.roas * f.investimento == r.faturamento
    ensures f.investimento <= 0.0 ==> r.roas == 0.0
    ensures r.numSdrs == Staff(r.leads, LeadsPerSdr) && r.numClosers == Staff(r.calls, CallsPerCloser)
  {
    var leads := Guarded(f.investimento, f.precoLead);
    var agendamentos := Share(leads, f.taxaAgendamento);
    var calls := Share(agendamentos, f.taxaComparecimento);
    var vendas := Share(calls, f.taxaConversao);
    var faturamento := vendas * f.ticketMedio;
    Results(leads, agendamentos, calls, vendas, faturamento,
            Guarded(f.investimento, calls), Guarded(f.investimento, vendas),
            Guarded(faturamento, f.investimento),
            Staff(leads, LeadsPerSdr), Staff(calls, CallsPerCloser))
  }

  /** One funnel stage: a share `rate` percent of `x`, for a rate in
      [0, 100], lies between 0 and `x`. */
  lemma StageShrinks(x: real, rate: real, y: real)
    requires x >= 0.0 && 0.0 <= rate <= 100.0
    requires y * 100.0 == x * rate
    ensures 0.0 <= y <= x
  {
    if x > 0.0 {
      ScaleLess(0.0, rate, x);
      ScaleLess(rate, 100.0, x);
    }
  }

  /** With non-negative inputs and rates in [0, 100], each stage of the
      funnel is no larger than the one before. */
  lemma FunnelOrdered(f: Form)
    requires f.investimento >= 0.0 && f.precoLead >= 0.0
    requires 0.0 <= f.taxaAgendamento <= 100.0
    requires 0.0 <= f.taxaComparecimento <= 100.0
    requires 0.0 <= f.taxaConversao <= 100.0
    ensures var r := Compute(f); 0.0 <= r.vendas <= r.calls <= r.agendamentos <= r.leads
  {
    var l := Guarded(f.investimento, f.precoLead);
    var a := Share(l, f.taxaAgendamento);
    var c := Share(a, f.taxaComparecimento);
    var v := Share(c, f.taxaConversao);
    StageShrinks(l, f.taxaAgendamento, a);
    StageShrinks(a, f.taxaComparecimento, c);
    StageShrinks(c, f.taxaConversao, v);
    var r := Compute(f);
    assert r.leads == l && r.agendamentos == a && r.calls == c && r.vendas == v;
  }

  /** The page's defaults (1000, 5, 10 %, 50 %, 10 %, 1000). */
  lemma DefaultsExample()
    ensures var r := Compute(Form(1000.0, 5.0, 10.0, 50.0, 10.0, 1000.0));
            r.leads == 200.0 && r.calls == 10.0 && r.vendas == 1.0 && r.faturamento == 1000.0
            && r.numSdrs == 1 && r.numClosers == 1
  {
    var r := Compute(Form(1000.0, 5.0, 10.0, 50.0, 10.0, 1000.0));
    assert r.leads == 200.0;
    assert r.agendamentos == 20.0;
    assert r.calls == 10.0;
    assert r.vendas == 1.0;
  }

  /** A field of the new payload differs from the old payload: absent there,
      or holding another value (`!==`). */
  predicate Differs<V(==)>(entry: (string, V), oldData: map<string, V>)
  {
    entry.0 !in oldData || oldData[entry.0] != entry.1
  }

  /** `handleRealtimeUpdate`: walks the new payload's keys in order and
      stops at the first one whose value differs; that key is flashed. */
  method FirstChangedKey<V(==)>(newData: seq<(string, V)>, oldData: map<string, V>)
    returns (flashed: Option<string>)
    ensures flashed.None? <==> forall i :: 0 <= i < |newData| ==> !Differs(newData[i], oldData)
    ensures flashed.Some? ==>
              exists i :: 0 <= i < |newData| && newData[i].0 == flashed.value
                && Differs(newData[i], oldData)
                && forall j :: 0 <= j < i ==> !Differs(newData[j], oldData)
  {
    flashed := None;
    var i := 0;
    while i < |newData|
      invariant 0 <= i <= |newData|
      invariant forall j :: 0 <= j < i ==> !Differs(newData[j], oldData)
    {
      if Differs(newData[i], oldData) {
        flashed := Some(newData[i].0);
        return;
      }
      i := i + 1;
    }
  }
}
