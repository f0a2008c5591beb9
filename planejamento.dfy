/** The strategic-planning calculator: from a monthly revenue goal, the
    price of what is sold, how many funnel events make one sale and the cost
    of one event, it derives the sales and events needed, the traffic
    investment, the gross profit, the ROAS and the final conversion rate. */
module Planejamento {
  import opened Common

  datatype Form = Form(metaFaturamento: real, tipoReceita: string, valorReceita: real,
                       metricaConversao: string, eventosPorVenda: real, custoPorEvento: real)

  /** The calls `handleChange(field, value)` is made with. */
  datatype Change =
    | SetMetaFaturamento(meta: real)
    | SetTipoReceita(tipo: string)
    | SetValorReceita(valor: real)
    | SetMetricaConversao(metrica: string)
    | SetEventosPorVenda(eventos: real)
    | SetCustoPorEvento(custo: real)

  /** One `{ value, label }` entry of a selector. */
  datatype Choice = Choice(value: string, caption: string)

  datatype Results = Results(vendasNecessarias: real, eventosTotais: real, investimentoTotal: real,
                             lucroBruto: real, roas: real, taxaConversaoFinal: real, nomeEvento: string)

  /** `handleChange`: `{ ...prevData, [field]: value }`. */
  function HandleChange(f: Form, c: Change): (r: Form)
    ensures r.metaFaturamento == (if c.SetMetaFaturamento? then c.meta else f.metaFaturamento)
    ensures r.tipoReceita == (if c.SetTipoReceita? then c.tipo else f.tipoReceita)
    ensures r.valorReceita == (if c.SetValorReceita? then c.valor else f.valorReceita)
    ensures r.metricaConversao == (if c.SetMetricaConversao? then c.metrica else f.metricaConversao)
    ensures r.eventosPorVenda == (if c.SetEventosPorVenda? then c.eventos else f.eventosPorVenda)
    ensures r.custoPorEvento == (if c.SetCustoPorEvento? then c.custo else f.custoPorEvento)
  {
    match c
    case SetMetaFaturamento(v) => f.(metaFaturamento := v)
    case SetTipoReceita(v) => f.(tipoReceita := v)
    case SetValorReceita(v) => f.(valorReceita := v)
    case SetMetricaConversao(v) => f.(metricaConversao := v)
    case SetEventosPorVenda(v) => f.(eventosPorVenda := v)
    case SetCustoPorEvento(v) => f.(custoPorEvento := v)
  }

  /** `opcoesReceita`. */
  const OpcoesReceita: seq<Choice> :=
    [Choice("produto", "Produto"), Choice("servico", "Serviço"), Choice("comissao", "Comissão")]

  /** `opcoesMetrica`. */
  const OpcoesMetrica: seq<Choice> :=
    [Choice("leads", "Leads"), Choice("cliques", "Cliques"), Choice("checkouts", "Checkouts"),
     Choice("conversas", "Conversas")]

  /** `options.find(o => o.value === v)`: the first entry carrying `v`. */
  function Find(options: seq<Choice>, v: string): (r: Option<Choice>)
    ensures r.Some? ==> r.value in options && r.value.value == v
    ensures r.Some? ==> exists i :: 0 <= i < |options| && options[i] == r.value
                                    && forall j :: 0 <= j < i ==> options[j].value != v
    ensures r.None? <==> forall i :: 0 <= i < |options| ==> options[i].value != v
  {
    if options == [] then None
    else if options[0].value == v then Some(options[0])
    else Find(options[1..], v)
  }

  /** `find(...)?.label || fallback`: the label when an entry is found and
      its label is not empty, else `fallback`. */
  function LabelOr(options: seq<Choice>, v: string, fallback: string): string
  {
    var found := Find(options, v);
    if found.Some? && found.value.caption != "" then found.value.caption else fallback
  }

  /** `custoLabel`: the `labels` object indexed by the metric; an unknown
      metric yields `undefined`. */
  function CustoLabel(metrica: string): (r: Option<string>)
    ensures r.Some? <==> Find(OpcoesMetrica, metrica).Some?
  {
    if metrica == "leads" then Some("Preço médio por Lead (CPL)")
    else if metrica == "cliques" then Some("Custo médio por Clique (CPC)")
    else if metrica == "checkouts" then Some("Custo por Iniciar Checkout")
    else if metrica == "conversas" then Some("Custo por Conversa Iniciada")
    else None
  }

  /** The memoised `resultados`. */
  function Compute(f: Form): (r: Results)
    ensures f.valorReceita > 0.0 ==> r.vendasNecessarias * f.valorReceita == f.metaFaturamento
    ensures f.valorReceita <= 0.0 ==> r.vendasNecessarias == 0.0
    ensures r.eventosTotais == r.vendasNecessarias * f.eventosPorVenda
    ensures r.investimentoTotal == r.eventosTotais * f.custoPorEvento
    ensures r.lucroBruto + r.investimentoTotal == f.metaFaturamento
    ensures r.investimentoTotal > 0.0 ==> r.roas * r.investimentoTotal == f.metaFaturamento
    ensures r.investimentoTotal <= 0.0 ==> r.roas == 0.0
    ensures f.eventosPorVenda > 0.0 ==> r.taxaConversaoFinal * f.eventosPorVenda == 100.0
    ensures f.eventosPorVenda <= 0.0 ==> r.taxaConversaoFinal == 0.0
    ensures r.nomeEvento == LabelOr(OpcoesMetrica, f.metricaConversao, f.metricaConversao)
  {
    var vendas := Guarded(f.metaFaturamento, f.valorReceita);
    var eventos := vendas * f.eventosPorVenda;
    var investimento := eventos * f.custoPorEvento;
    var taxa := if f.eventosPorVenda > 0.0 then (1.0 / f.eventosPorVenda) * 100.0 else 0.0;
    assert f.eventosPorVenda > 0.0 ==> taxa * f.eventosPorVenda == 100.0 by {
      if f.eventosPorVenda > 0.0 {
        assert taxa * f.eventosPorVenda == ((1.0 / f.eventosPorVenda) * f.eventosPorVenda) * 100.0;
      }
    }
    Results(vendas, eventos, investimento, f.metaFaturamento - investimento,
            Guarded(f.metaFaturamento, investimento), taxa,
            LabelOr(OpcoesMetrica, f.metricaConversao, f.metricaConversao))
  }

  /** The event name is the option's label for the four known metrics and
      the raw metric value for any other. */
  lemma NomeEventoLookup(metrica: string)
    ensures metrica == "leads" ==> LabelOr(OpcoesMetrica, metrica, metrica) == "Leads"
    ensures metrica == "cliques" ==> LabelOr(OpcoesMetrica, metrica, metrica) == "Cliques"
    ensures metrica == "checkouts" ==> LabelOr(OpcoesMetrica, metrica, metrica) == "Checkouts"
    ensures metrica == "conversas" ==> LabelOr(OpcoesMetrica, metrica, metrica) == "Conversas"
    ensures CustoLabel(metrica).None? ==> LabelOr(OpcoesMetrica, metrica, metrica) == metrica
  {
  }

  /** With a positive price, events per sale and cost per event, and a
      positive goal, the ROAS is price / (events per sale * cost per event):
      it does not depend on the goal. */
  lemma RoasIndependentOfGoal(f: Form)
    requires f.metaFaturamento > 0.0 && f.valorReceita > 0.0
    requires f.eventosPorVenda > 0.0 && f.custoPorEvento > 0.0
    ensures Compute(f).roas * (f.eventosPorVenda * f.custoPorEvento) == f.valorReceita
  {
    var r := Compute(f);
    var k := f.eventosPorVenda * f.custoPorEvento;
    assert k > 0.0;
    assert r.vendasNecessarias > 0.0 by {
      ScaleLess(r.vendasNecessarias, 0.0, f.valorReceita);
    }
    assert r.investimentoTotal == r.vendasNecessarias * k;
    ScaleLess(0.0, r.vendasNecessarias, k);
    assert r.investimentoTotal > 0.0;
    calc {
      r.roas * k * r.vendasNecessarias;
      r.roas * r.investimentoTotal;
      f.metaFaturamento;
      r.vendasNecessarias * f.valorReceita;
    }
    assert (r.roas * k - f.valorReceita) * r.vendasNecessarias == 0.0;
  }

  /** The page's defaults. */
  function Defaults(): Form
  {
    Form(50000.0, "produto", 197.0, "leads", 20.0, 8.0)
  }

  /** The defaults need 254 sales (rounded up), and the gross profit is
      1850000 / 197, which shows as 9390.86 once rounded to cents. */
  lemma DefaultsExample()
    ensures Ceil(Compute(Defaults()).vendasNecessarias) == 254
    ensures Compute(Defaults()).lucroBruto * 197.0 == 1850000.0
    ensures 9390.855 <= Compute(Defaults()).lucroBruto < 9390.865
    ensures Compute(Defaults()).nomeEvento == "Leads"
  {
    var r := Compute(Defaults());
    assert r.vendasNecessarias * 197.0 == 50000.0;
    assert r.investimentoTotal == r.vendasNecessarias * 160.0;
    assert r.lucroBruto * 197.0 == 1850000.0;
  }
}
