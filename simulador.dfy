/** The campaign simulator: from price, spend and sales it derives CPA, ROAS,
    revenue and profit, classifies the campaign into one of four status
    bands, builds four recommendations (CTR, CPC, frequency, ROAS) and the
    three CPA tiers.  Form values arrive already parsed as reals. */
module Simulador {

  datatype Form = Form(valorProduto: real, orcamento: real, gasto: real, vendas: real,
                       ctr: real, cpc: real, cpm: real, frequencia: real)

  datatype Field = ValorProduto | Orcamento | Gasto | Vendas | Ctr | Cpc | Cpm | Frequencia

  datatype Color = Green | Yellow | Blue | Red

  datatype Topic = CtrTopic | CpcTopic | FrequencyTopic | RoasTopic

  datatype Recommendation = Recommendation(topic: Topic, color: Color)

  datatype Result = Result(cpa: real, roas: real, lucro: real, valorTotal: real, status: Color,
                           recs: seq<Recommendation>, cpaMax: real, cpaIdeal: real, cpaMeta: real)

  function Get(f: Form, field: Field): real
  {
    match field
    case ValorProduto => f.valorProduto
    case Orcamento => f.orcamento
    case Gasto => f.gasto
    case Vendas => f.vendas
    case Ctr => f.ctr
    case Cpc => f.cpc
    case Cpm => f.cpm
    case Frequencia => f.frequencia
  }

  /** `handleChange`: `{ ...form, [name]: value }`. */
  function HandleChange(f: Form, field: Field, v: real): (r: Form)
    ensures Get(r, field) == v
    ensures forall g :: g != field ==> Get(r, g) == Get(f, g)
  {
    match field
    case ValorProduto => f.(valorProduto := v)
    case Orcamento => f.(orcamento := v)
    case Gasto => f.(gasto := v)
    case Vendas => f.(vendas := v)
    case Ctr => f.(ctr := v)
    case Cpc => f.(cpc := v)
    case Cpm => f.(cpm := v)
    case Frequencia => f.(frequencia := v)
  }

  /** The status if-chain, tested in order green, yellow, blue, red. */
  function StatusBand(roas: real, cpa: real, cpaMeta: real): (c: Color)
    ensures c == Green <==> roas >= 2.0 && cpa <= cpaMeta
    ensures c == Yellow <==> 1.5 <= roas < 2.0
    ensures c == Blue <==> 1.0 <= roas < 1.5
    ensures c == Red <==> roas < 1.0 || (roas >= 2.0 && cpa > cpaMeta)
  {
    if roas >= 2.0 && cpa <= cpaMeta then Green
    else if roas >= 1.5 && roas < 2.0 then Yellow
    else if roas >= 1.0 && roas < 1.5 then Blue
    else Red
  }

  function CtrBand(ctr: real): Color
  {
    if ctr < 1.0 then Red else if ctr >= 1.0 && ctr < 2.0 then Yellow else Green
  }

  function CpcBand(cpc: real): Color
  {
    if cpc > 2.5 then Red else if cpc > 1.5 && cpc <= 2.5 then Yellow else Green
  }

  function FrequencyBand(freq: real): Color
  {
    if freq > 2.5 then Red else if freq > 2.0 && freq <= 2.5 then Yellow else Green
  }

  function RoasBand(roas: real): Color
  {
    if roas >= 2.0 then Green else if roas >= 1.0 && roas < 2.0 then Yellow else Red
  }

  /** Rank of a three-band colour, worst first. */
  function Rank(c: Color): int
  {
    match c
    case Red => 0
    case Yellow => 1
    case Blue => 1
    case Green => 2
  }

  /** The four recommendation bands follow their thresholds: CTR and ROAS
      only improve as they grow, CPC and frequency only improve as they fall. */
  lemma BandsMonotone(x: real, y: real)
    requires x <= y
    ensures Rank(CtrBand(x)) <= Rank(CtrBand(y))
    ensures Rank(RoasBand(x)) <= Rank(RoasBand(y))
    ensures Rank(CpcBand(y)) <= Rank(CpcBand(x))
    ensures Rank(FrequencyBand(y)) <= Rank(FrequencyBand(x))
  {
  }

  /** Each colour of each recommendation band is an interval of its metric;
      the three intervals of a band cover all values, and none is blue. */
  lemma BandThresholds(x: real)
    ensures CtrBand(x) == Red <==> x < 1.0
    ensures CtrBand(x) == Yellow <==> 1.0 <= x < 2.0
    ensures CtrBand(x) == Green <==> x >= 2.0
    ensures CpcBand(x) == Red <==> x > 2.5
    ensures CpcBand(x) == Yellow <==> 1.5 < x <= 2.5
    ensures CpcBand(x) == Green <==> x <= 1.5
    ensures FrequencyBand(x) == Red <==> x > 2.5
    ensures FrequencyBand(x) == Yellow <==> 2.0 < x <= 2.5
    ensures FrequencyBand(x) == Green <==> x <= 2.0
    ensures RoasBand(x) == Green <==> x >= 2.0
    ensures RoasBand(x) == Yellow <==> 1.0 <= x < 2.0
    ensures RoasBand(x) == Red <==> x < 1.0
    ensures CtrBand(x) != Blue && CpcBand(x) != Blue && FrequencyBand(x) != Blue && RoasBand(x) != Blue
  {
  }

  /** The four sequential `recs.push` calls. */
  method Recommendations(ctr: real, cpc: real, freq: real, roas: real) returns (recs: seq<Recommendation>)
    ensures |recs| == 4
    ensures recs[0].topic == CtrTopic && recs[1].topic == CpcTopic
    ensures recs[2].topic == FrequencyTopic && recs[3].topic == RoasTopic
    ensures recs[0].color == CtrBand(ctr) && recs[1].color == CpcBand(cpc)
    ensures recs[2].color == FrequencyBand(freq) && recs[3].color == RoasBand(roas)
  {
    recs := [];
    if ctr < 1.0 {
      recs := recs + [Recommendation(CtrTopic, Red)];
    } else if ctr >= 1.0 && ctr < 2.0 {
      recs := recs + [Recommendation(CtrTopic, Yellow)];
    } else {
      recs := recs + [Recommendation(CtrTopic, Green)];
    }
    if cpc > 2.5 {
      recs := recs + [Recommendation(CpcTopic, Red)];
    } else if cpc > 1.5 && cpc <= 2.5 {
      recs := recs + [Recommendation(CpcTopic, Yellow)];
    } else {
      recs := recs + [Recommendation(CpcTopic, Green)];
    }
    if freq > 2.5 {
      recs := recs + [Recommendation(FrequencyTopic, Red)];
    } else if freq > 2.0 && freq <= 2.5 {
      recs := recs + [Recommendation(FrequencyTopic, Yellow)];
    } else {
      recs := recs + [Recommendation(FrequencyTopic, Green)];
    }
    if roas >= 2.0 {
      recs := recs + [Recommendation(RoasTopic, Green)];
    } else if roas >= 1.0 && roas < 2.0 {
      recs := recs + [Recommendation(RoasTopic, Yellow)];
    } else {
      recs := recs + [Recommendation(RoasTopic, Red)];
    }
  }

  /** `calcularMetrica`, with the CPA tiers kept exact (the page rounds
      `cpaIdeal` and `cpaMeta` to cents with `toFixed(2)`). */
  method CalcularMetrica(f: Form) returns (r: Result)
    ensures r.valorTotal == f.valorProduto * f.vendas
    ensures r.lucro + f.gasto == r.valorTotal
    ensures f.vendas > 0.0 ==> r.cpa * f.vendas == f.gasto
    ensures f.vendas <= 0.0 ==> r.cpa == 0.0
    ensures f.gasto > 0.0 ==> r.roas * f.gasto == r.valorTotal
    ensures f.gasto <= 0.0 ==> r.roas == 0.0
    ensures r.cpaMax == f.valorProduto && r.cpaIdeal * 1.5 == f.valorProduto && r.cpaMeta * 2.0 == f.valorProduto
    ensures f.valorProduto >= 0.0 ==> r.cpaMeta <= r.cpaIdeal <= r.cpaMax
    ensures r.status == StatusBand(r.roas, r.cpa, r.cpaMeta)
    ensures |r.recs| == 4 && r.recs[0].color == CtrBand(f.ctr) && r.recs[1].color == CpcBand(f.cpc)
    ensures r.recs[2].color == FrequencyBand(f.frequencia) && r.recs[3].color == RoasBand(r.roas)
  {
    var valorTotal := f.valorProduto * f.vendas;
    var lucro := valorTotal - f.gasto;
    var cpa := if f.vendas > 0.0 then f.gasto / f.vendas else 0.0;
    var roas := if f.gasto > 0.0 then valorTotal / f.gasto else 0.0;
    var cpaMax := f.valorProduto;
    var cpaIdeal := f.valorProduto / 1.5;
    var cpaMeta := f.valorProduto / 2.0;
    var status := Red;
    if roas >= 2.0 && cpa <= cpaMeta {
      status := Green;
    } else if roas >= 1.5 && roas < 2.0 {
      status := Yellow;
    } else if roas >= 1.0 && roas < 1.5 {
      status := Blue;
    }
    var recs := Recommendations(f.ctr, f.cpc, f.frequencia, roas);
    r := Result(cpa, roas, lucro, valorTotal, status, recs, cpaMax, cpaIdeal, cpaMeta);
  }

  /** Over exact reals, with positive spend and sales, a ROAS of at least 2
      already forces the CPA under the exact `price / 2` target, so a
      "roas >= 2 but red" outcome cannot come from the formulas themselves. */
  lemma RoasTwoMeetsCpaMeta(price: real, gasto: real, vendas: real)
    requires gasto > 0.0 && vendas > 0.0
    requires (price * vendas) / gasto >= 2.0
    ensures gasto / vendas <= price / 2.0
  {
    var roas := (price * vendas) / gasto;
    assert roas * gasto == price * vendas;
    assert 2.0 * gasto <= roas * gasto by {
      assert (roas - 2.0) * gasto >= 0.0;
    }
    var cpa := gasto / vendas;
    assert cpa * vendas == gasto;
    assert 2.0 * cpa * vendas <= price * vendas;
    assert (price - 2.0 * cpa) * vendas >= 0.0;
  }

  /** Hence, with exact tiers, the status is green exactly when ROAS >= 2. */
  lemma GreenIffRoasAtLeastTwo(price: real, gasto: real, vendas: real)
    requires gasto > 0.0 && vendas > 0.0
    ensures StatusBand((price * vendas) / gasto, gasto / vendas, price / 2.0) == Green
            <==> (price * vendas) / gasto >= 2.0
  {
    if (price * vendas) / gasto >= 2.0 {
      RoasTwoMeetsCpaMeta(price, gasto, vendas);
    }
  }

  /** The worked example: price 197, spend 250, 5 sales, CTR 3, CPC 1,
      frequency 1.5. */
  method ExampleRun() returns (r: Result)
    ensures r.cpa == 50.0 && r.roas == 3.94 && r.valorTotal == 985.0 && r.lucro == 735.0
    ensures r.status == Green
    ensures forall i :: 0 <= i < |r.recs| ==> r.recs[i].color == Green
  {
    r := CalcularMetrica(Form(197.0, 100.0, 250.0, 5.0, 3.0, 1.0, 15.0, 1.5));
    assert r.cpa * 5.0 == 250.0;
    assert r.roas * 250.0 == 985.0;
  }
}
