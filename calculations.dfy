/**
 * The analysis calculator (utils/calculations.ts): a total function from a
 * sparse record to the same record with every derived field added.
 *
 * Money, percentages and counts are exact reals; the floating-point
 * artifacts of the JavaScript implementation are not modelled.
 */
module Calculations {
  import opened Wrappers
  import opened Types

  /** `Number(x || 0)`: an absent input counts as 0. */
  function Num(x: Option<real>): (v: real)
    ensures x.None? ==> v == 0.0
    ensures x.Some? ==> v == x.value
  {
    x.GetOr(0.0)
  }

  function Min(a: real, b: real): real { if a <= b then a else b }
  function Max(a: real, b: real): real { if a >= b then a else b }

  /** `Math.round`: the nearest integer, halves rounded up. */
  function Round(x: real): (n: int)
    ensures n as real - 0.5 <= x < n as real + 0.5
  {
    (x + 0.5).Floor
  }

  /** Tax plus marketplace commission, as a fraction of the sale price. */
  function FracaoTaxas(e: Entradas): real {
    Num(e.imposto_percentual) / 100.0 + Num(e.taxa_marketplace_percentual) / 100.0
  }

  /** Product, packaging and freight cost: what every unit costs whatever its price. */
  function CustoFixo(e: Entradas): real {
    Num(e.custo_produto) + Num(e.embalagem) + Num(e.frete)
  }

  /** `qty_geral + qty_full * 1.5`: listings using premium logistics weigh one and a half. */
  function IndiceConcorrencia(e: Entradas): real {
    Num(e.quantidade_anuncios_geral) + Num(e.quantidade_anuncios_full) * 1.5
  }

  /** The competition class: exclusive thresholds tried from the top. */
  function ClassificarConcorrencia(indice: real): (c: ClassificacaoConcorrencia)
    ensures c == Saturada <==> indice > 300.0
    ensures c == Alta <==> 150.0 < indice <= 300.0
    ensures c == Media <==> 50.0 < indice <= 150.0
    ensures c == Baixa <==> indice <= 50.0
  {
    if indice > 300.0 then Saturada
    else if indice > 150.0 then Alta
    else if indice > 50.0 then Media
    else Baixa
  }

  /** The viability class, taken from the unrounded score. */
  function ClassificarViabilidade(score: real): (c: ClassificacaoViabilidade)
    ensures c == Excelente <==> score > 80.0
    ensures c == Viavel <==> 60.0 < score <= 80.0
    ensures c == Arriscado <==> 40.0 < score <= 60.0
    ensures c == NaoRecomendado <==> score <= 40.0
  {
    if score > 80.0 then Excelente
    else if score > 60.0 then Viavel
    else if score > 40.0 then Arriscado
    else NaoRecomendado
  }

  /** Rank of a competition class, from low (0) to saturated (3). */
  function NivelConcorrencia(c: ClassificacaoConcorrencia): nat {
    match c
    case Baixa => 0
    case Media => 1
    case Alta => 2
    case Saturada => 3
  }

  /** Rank of a viability class, from not recommended (0) to excellent (3). */
  function NivelViabilidade(c: ClassificacaoViabilidade): nat {
    match c
    case NaoRecomendado => 0
    case Arriscado => 1
    case Viavel => 2
    case Excelente => 3
  }

  /** Margin component, at most 40 points: `min(max(percentual_lucro * 1.33, 0), 40)`. */
  function PontosMargem(percentual_lucro: real): (p: real)
    ensures 0.0 <= p <= 40.0
    ensures percentual_lucro <= 0.0 ==> p == 0.0
    ensures percentual_lucro * 1.33 >= 40.0 ==> p == 40.0
    ensures 0.0 <= percentual_lucro * 1.33 <= 40.0 ==> p == percentual_lucro * 1.33
  {
    Min(Max(percentual_lucro * 1.33, 0.0), 40.0)
  }

  /** Competition component, at most 20 points: one point fewer per 20 index units, never negative. */
  function PontosConcorrencia(indice: real): (p: real)
    ensures p >= 0.0
    ensures indice >= 0.0 ==> p <= 20.0
    ensures p == 0.0 <==> indice >= 400.0
  {
    Max(20.0 - indice / 20.0, 0.0)
  }

  /** Rating component: the rating on a 0–5 scale stretched to 0–20, not clamped. */
  function PontosAvaliacao(avaliacao: real): (p: real)
    ensures 0.0 <= avaliacao <= 5.0 ==> 0.0 <= p <= 20.0
    ensures avaliacao < 0.0 ==> p < 0.0
    ensures avaliacao > 5.0 ==> p > 20.0
  {
    (avaliacao / 5.0) * 20.0
  }

  /** Price component, at most 20 points, and only when both prices are positive. */
  function PontosPreco(preco_venda: real, menor_preco_full: real): (p: real)
    ensures !(preco_venda > 0.0 && menor_preco_full > 0.0) ==> p == 0.0
    ensures preco_venda > 0.0 && menor_preco_full > 0.0 ==> 0.0 < p <= 20.0
    ensures preco_venda > 0.0 && menor_preco_full > 0.0 ==> (p == 20.0 <==> menor_preco_full >= preco_venda)
  {
    if preco_venda > 0.0 && menor_preco_full > 0.0 then
      var ratio := menor_preco_full / preco_venda;
      assert ratio >= 1.0 <==> menor_preco_full >= preco_venda;
      Min(ratio * 20.0, 20.0)
    else
      0.0
  }

  /** Fee value charged on one sale: `preco_venda * total_taxas_percentual`. */
  function ValorTaxas(e: Entradas): (v: real)
    ensures v == Num(e.preco_venda) * (Num(e.imposto_percentual) + Num(e.taxa_marketplace_percentual)) / 100.0
  {
    Num(e.preco_venda) * FracaoTaxas(e)
  }

  /** Everything one unit costs: fixed costs plus the fees on its price. */
  function CustoTotal(e: Entradas): real {
    CustoFixo(e) + ValorTaxas(e)
  }

  /** What one sale earns after every cost. */
  function LucroUnitario(e: Entradas): real {
    Num(e.preco_venda) - CustoTotal(e)
  }

  /** Unit profit as a percentage of the sale price, 0 when the price is not positive. */
  function PercentualLucro(e: Entradas): (pct: real)
    ensures Num(e.preco_venda) <= 0.0 ==> pct == 0.0
  {
    var preco_venda := Num(e.preco_venda);
    if preco_venda > 0.0 then (LucroUnitario(e) / preco_venda) * 100.0 else 0.0
  }

  /** Break-even price: fixed costs over the share of the price the fees leave; 0 when the fees take it all. */
  function PrecoMinimoViavel(e: Entradas): (p: real)
    ensures FracaoTaxas(e) >= 1.0 ==> p == 0.0
    ensures FracaoTaxas(e) < 1.0 ==> p * (1.0 - FracaoTaxas(e)) == CustoFixo(e)
  {
    var total_taxas := FracaoTaxas(e);
    if total_taxas < 1.0 then
      DivTimes(CustoFixo(e), 1.0 - total_taxas);
      CustoFixo(e) / (1.0 - total_taxas)
    else 0.0
  }

  /** Price reaching the target margin after fees; 0 when fees and margin leave nothing. */
  function PrecoIdeal(e: Entradas): (p: real)
    ensures 1.0 - FracaoTaxas(e) - Num(e.margem_desejada) / 100.0 <= 0.0 ==> p == 0.0
    ensures 1.0 - FracaoTaxas(e) - Num(e.margem_desejada) / 100.0 > 0.0 ==>
      p * (1.0 - FracaoTaxas(e) - Num(e.margem_desejada) / 100.0) == CustoFixo(e)
  {
    var denominador_ideal := 1.0 - FracaoTaxas(e) - Num(e.margem_desejada) / 100.0;
    if denominador_ideal > 0.0 then
      DivTimes(CustoFixo(e), denominador_ideal);
      CustoFixo(e) / denominador_ideal
    else 0.0
  }

  /** The unrounded viability score: the sum of the four components. */
  function Score(e: Entradas): (s: real)
    ensures s >= PontosAvaliacao(Num(e.avaliacao_media))
    ensures IndiceConcorrencia(e) >= 0.0 ==> s <= 80.0 + PontosAvaliacao(Num(e.avaliacao_media))
  {
    PontosMargem(PercentualLucro(e))
    + PontosConcorrencia(IndiceConcorrencia(e))
    + PontosAvaliacao(Num(e.avaliacao_media))
    + PontosPreco(Num(e.preco_venda), Num(e.menor_preco_full))
  }

  /** Every derived field, computed from the numeric inputs alone. */
  function Calcular(e: Entradas): (c: Calculados)
    ensures c.custo_total == CustoFixo(e) + c.valor_taxas
    ensures c.lucro_unitario == Num(e.preco_venda) - c.custo_total
    ensures c.classificacao_concorrencia == ClassificarConcorrencia(c.indice_concorrencia)
    ensures c.score_viabilidade == Round(Score(e)) && c.classificacao_viabilidade == ClassificarViabilidade(Score(e))
  {
    var score := Score(e);
    Calculados(
      total_taxas_percentual := FracaoTaxas(e) * 100.0,
      valor_taxas := ValorTaxas(e),
      custo_total := CustoTotal(e),
      lucro_unitario := LucroUnitario(e),
      percentual_lucro := PercentualLucro(e),
      lucro_mensal := LucroUnitario(e) * Num(e.media_vendas_mes),
      preco_ideal := PrecoIdeal(e),
      score_viabilidade := Round(score),
      classificacao_viabilidade := ClassificarViabilidade(score),
      indice_concorrencia := IndiceConcorrencia(e),
      classificacao_concorrencia := ClassificarConcorrencia(IndiceConcorrencia(e)),
      preco_minimo_viavel := PrecoMinimoViavel(e),
      diferenca_para_menor_full := Num(e.preco_venda) - Num(e.menor_preco_full),
      diferenca_para_preco_medio := Num(e.preco_venda) - Num(e.preco_medio_primeira_pagina))
  }

  /** The reported fee percentage and the total cost, in terms of the inputs as the user enters them. */
  lemma FeeAndCostIdentities(e: Entradas)
    ensures Calcular(e).total_taxas_percentual == Num(e.imposto_percentual) + Num(e.taxa_marketplace_percentual)
    ensures Calcular(e).custo_total == Num(e.custo_produto) + Num(e.embalagem) + Num(e.frete)
                                       + Num(e.preco_venda) * (Num(e.imposto_percentual) + Num(e.taxa_marketplace_percentual)) / 100.0
  {
  }

  /** Unit profit is price less total cost; monthly profit is unit profit times monthly sales. */
  lemma ProfitIdentities(e: Entradas)
    ensures Calcular(e).lucro_unitario == Num(e.preco_venda) - Calcular(e).custo_total
    ensures Calcular(e).lucro_mensal == Calcular(e).lucro_unitario * Num(e.media_vendas_mes)
  {
  }

  /** `(a / b) * b == a` for a non-zero `b`. */
  lemma DivTimes(a: real, b: real)
    requires b != 0.0
    ensures (a / b) * b == a
  {
  }

  /** The margin is the unit profit as a share of the price, and 0 for a price that is not positive. */
  lemma {:induction false} MarginIsProfitShareOfPrice(e: Entradas)
    ensures Num(e.preco_venda) <= 0.0 ==> Calcular(e).percentual_lucro == 0.0
    ensures Num(e.preco_venda) > 0.0 ==> PercentualLucro(e) * Num(e.preco_venda) == LucroUnitario(e) * 100.0
  {
    var pv, lu := Num(e.preco_venda), LucroUnitario(e);
    if pv > 0.0 {
      DivTimes(lu, pv);
      assert PercentualLucro(e) == (lu / pv) * 100.0;
      assert (lu / pv) * 100.0 * pv == (lu / pv) * pv * 100.0;
    }
  }

  /** `calculateAnalysis`: the record with its derived fields added or overwritten and every other field as it was. */
  function CalculateAnalysis(data: Analise): (r: Analise)
    ensures r.(calculados := data.calculados) == data
    ensures r.calculados == Some(Calcular(data.entradas))
  {
    data.(calculados := Some(Calcular(data.entradas)))
  }

  /** The inputs with every absent value replaced by an explicit 0. */
  function ComZeros(e: Entradas): Entradas {
    Entradas(
      Some(Num(e.custo_produto)), Some(Num(e.preco_venda)), Some(Num(e.embalagem)), Some(Num(e.frete)),
      Some(Num(e.imposto_percentual)), Some(Num(e.taxa_marketplace_percentual)), Some(Num(e.media_vendas_mes)),
      Some(Num(e.margem_desejada)), Some(Num(e.menor_preco_full)), Some(Num(e.preco_medio_primeira_pagina)),
      Some(Num(e.quantidade_anuncios_geral)), Some(Num(e.quantidade_anuncios_full)), Some(Num(e.avaliacao_media)))
  }

  /** Explicit zeros leave the price, the fee fraction, the fixed costs and the competition index as they were. */
  lemma ComZerosKeepsInputs(e: Entradas)
    ensures Num(ComZeros(e).preco_venda) == Num(e.preco_venda)
    ensures Num(ComZeros(e).margem_desejada) == Num(e.margem_desejada)
    ensures FracaoTaxas(ComZeros(e)) == FracaoTaxas(e) && CustoFixo(ComZeros(e)) == CustoFixo(e)
    ensures IndiceConcorrencia(ComZeros(e)) == IndiceConcorrencia(e)
  {
  }

  /** Explicit zeros leave the unit economics as they were. */
  lemma ComZerosKeepsProfit(e: Entradas)
    ensures ValorTaxas(ComZeros(e)) == ValorTaxas(e)
    ensures LucroUnitario(ComZeros(e)) == LucroUnitario(e) && PercentualLucro(ComZeros(e)) == PercentualLucro(e)
  {
    ComZerosKeepsInputs(e);
    SameFeeValue(ComZeros(e), e);
  }

  /** Explicit zeros leave the break-even and the ideal price as they were. */
  lemma ComZerosKeepsPrices(e: Entradas)
    ensures PrecoMinimoViavel(ComZeros(e)) == PrecoMinimoViavel(e) && PrecoIdeal(ComZeros(e)) == PrecoIdeal(e)
  {
    ComZerosKeepsInputs(e);
  }

  /** Explicit zeros leave the score as it was. */
  lemma ComZerosKeepsScore(e: Entradas)
    ensures Score(ComZeros(e)) == Score(e)
  {
    ComZerosKeepsProfit(e);
    ComZerosKeepsInputs(e);
  }

  /** The fee value depends on the price and the fee fraction only. */
  lemma SameFeeValue(a: Entradas, b: Entradas)
    requires Num(a.preco_venda) == Num(b.preco_venda) && FracaoTaxas(a) == FracaoTaxas(b)
    ensures ValorTaxas(a) == ValorTaxas(b)
  {
  }

  /** An absent input and an explicit 0 give the same derived fields. */
  lemma AbsentInputsCountAsZero(e: Entradas)
    ensures Calcular(ComZeros(e)) == Calcular(e)
  {
    ComZerosKeepsInputs(e);
    ComZerosKeepsProfit(e);
    ComZerosKeepsPrices(e);
    ComZerosKeepsScore(e);
  }

  /** The derived fields depend on the numeric inputs only, so recomputing from a result changes nothing. */
  lemma CalculateAnalysisIdempotent(data: Analise, other: Analise)
    ensures CalculateAnalysis(CalculateAnalysis(data)) == CalculateAnalysis(data)
    ensures other.entradas == data.entradas ==> CalculateAnalysis(other).calculados == CalculateAnalysis(data).calculados
  {
  }

  /** The inputs with the sale price replaced by `price`. */
  function AoPreco(e: Entradas, price: real): Entradas {
    e.(preco_venda := Some(price))
  }

  /** Unit profit at any price: what is left of the price after the fees, less the fixed costs. */
  lemma {:induction false} ProfitAtPrice(e: Entradas, price: real)
    ensures LucroUnitario(AoPreco(e, price)) == price * (1.0 - FracaoTaxas(e)) - CustoFixo(e)
  {
    var e' := AoPreco(e, price);
    assert FracaoTaxas(e') == FracaoTaxas(e) && CustoFixo(e') == CustoFixo(e);
    assert ValorTaxas(e') == price * FracaoTaxas(e);
  }

  /** Selling at the break-even price gives a unit profit of exactly 0. */
  lemma {:induction false} BreakEvenPriceHasZeroProfit(e: Entradas)
    requires FracaoTaxas(e) < 1.0
    ensures LucroUnitario(AoPreco(e, PrecoMinimoViavel(e))) == 0.0
  {
    var p := PrecoMinimoViavel(e);
    DivTimes(CustoFixo(e), 1.0 - FracaoTaxas(e));
    ProfitAtPrice(e, p);
  }

  /** Below the break-even price a unit loses money, above it the unit makes money. */
  lemma {:induction false} BreakEvenPriceSeparatesLossFromProfit(e: Entradas, price: real)
    requires FracaoTaxas(e) < 1.0
    ensures price < PrecoMinimoViavel(e) ==> LucroUnitario(AoPreco(e, price)) < 0.0
    ensures price > PrecoMinimoViavel(e) ==> LucroUnitario(AoPreco(e, price)) > 0.0
  {
    var f, p := FracaoTaxas(e), PrecoMinimoViavel(e);
    DivTimes(CustoFixo(e), 1.0 - f);
    ProfitAtPrice(e, price);
    var d, k := price - p, 1.0 - f;
    assert LucroUnitario(AoPreco(e, price)) == d * k;
    SignOfProduct(d, k);
  }

  /** A product with a positive factor has the sign of the other factor. */
  lemma SignOfProduct(a: real, k: real)
    requires k > 0.0
    ensures a < 0.0 ==> a * k < 0.0
    ensures a > 0.0 ==> a * k > 0.0
  {
  }

  /** At the ideal price the unit profit is the target margin's share of that price. */
  lemma {:induction false} IdealPriceHitsTargetMargin(e: Entradas)
    requires 1.0 - FracaoTaxas(e) - Num(e.margem_desejada) / 100.0 > 0.0
    ensures LucroUnitario(AoPreco(e, PrecoIdeal(e))) == PrecoIdeal(e) * Num(e.margem_desejada) / 100.0
    ensures CustoFixo(e) > 0.0 ==> PercentualLucro(AoPreco(e, PrecoIdeal(e))) == Num(e.margem_desejada)
  {
    var f, m := FracaoTaxas(e), Num(e.margem_desejada) / 100.0;
    var p := PrecoIdeal(e);
    DivTimes(CustoFixo(e), 1.0 - f - m);
    ProfitAtPrice(e, p);
    var e' := AoPreco(e, p);
    assert LucroUnitario(e') == p * m;
    if CustoFixo(e) > 0.0 {
      assert p > 0.0;
      MarginIsProfitShareOfPrice(e');
      assert PercentualLucro(e') * p == (p * m) * 100.0;
      assert PercentualLucro(e') * p == (m * 100.0) * p;
    }
  }

  /** Fees of 100% or more leave no break-even price; fees plus margin of 100% or more leave no ideal price. */
  lemma NoPriceWhenFeesTakeEverything(e: Entradas)
    ensures FracaoTaxas(e) >= 1.0 ==> Calcular(e).preco_minimo_viavel == 0.0
    ensures 1.0 - FracaoTaxas(e) - Num(e.margem_desejada) / 100.0 <= 0.0 ==> Calcular(e).preco_ideal == 0.0
  {
  }

  /** More listings never give a lower competition class. */
  lemma CompetitionClassMonotone(a: real, b: real)
    requires a <= b
    ensures NivelConcorrencia(ClassificarConcorrencia(a)) <= NivelConcorrencia(ClassificarConcorrencia(b))
  {
  }

  /** A higher score never gives a lower viability class. */
  lemma ViabilityClassMonotone(a: real, b: real)
    requires a <= b
    ensures NivelViabilidade(ClassificarViabilidade(a)) <= NivelViabilidade(ClassificarViabilidade(b))
  {
  }

  /** The thresholds are exclusive lower bounds. */
  lemma ThresholdsAreExclusive()
    ensures ClassificarConcorrencia(300.0) == Alta
    ensures ClassificarConcorrencia(150.0) == Media
    ensures ClassificarConcorrencia(50.0) == Baixa
    ensures ClassificarViabilidade(80.0) == Viavel
    ensures ClassificarViabilidade(60.0) == Arriscado
    ensures ClassificarViabilidade(40.0) == NaoRecomendado
  {
  }

  /** The class is taken before rounding: a score of 80.4 is shown as 80 yet classed excellent. */
  lemma ClassUsesUnroundedScore()
    ensures Round(80.4) == 80 && ClassificarViabilidade(80.4) == Excelente
    ensures Round(40.3) == 40 && ClassificarViabilidade(40.3) == Arriscado
  {
  }

  /** For ratings on the 0–5 scale and non-negative listing counts the rounded score lies in [0, 100]. */
  lemma {:induction false} ScoreWithinBounds(e: Entradas)
    requires 0.0 <= Num(e.avaliacao_media) <= 5.0
    requires Num(e.quantidade_anuncios_geral) >= 0.0 && Num(e.quantidade_anuncios_full) >= 0.0
    ensures 0 <= Calcular(e).score_viabilidade <= 100
  {
    var s := Score(e);
    assert IndiceConcorrencia(e) >= 0.0;
    assert 0.0 <= s <= 100.0;
  }

  /** The deltas are `preco_venda - reference`: positive above the reference, negative below it. */
  lemma DeltasAreSigned(e: Entradas)
    ensures Calcular(e).diferenca_para_menor_full == Num(e.preco_venda) - Num(e.menor_preco_full)
    ensures Calcular(e).diferenca_para_preco_medio == Num(e.preco_venda) - Num(e.preco_medio_primeira_pagina)
    ensures Calcular(e).diferenca_para_menor_full > 0.0 <==> Num(e.preco_venda) > Num(e.menor_preco_full)
    ensures Calcular(e).diferenca_para_menor_full < 0.0 <==> Num(e.preco_venda) < Num(e.menor_preco_full)
    ensures Calcular(e).diferenca_para_preco_medio > 0.0 <==> Num(e.preco_venda) > Num(e.preco_medio_primeira_pagina)
    ensures Calcular(e).diferenca_para_preco_medio < 0.0 <==> Num(e.preco_venda) < Num(e.preco_medio_primeira_pagina)
  {
  }

  /** The worked example: cost 50, price 120, packaging 5, freight 25, 6% tax, 16% commission, 100 sales a month. */
  lemma WorkedExample()
    ensures var c := Calcular(Entradas(Some(50.0), Some(120.0), Some(5.0), Some(25.0), Some(6.0), Some(16.0),
                                       Some(100.0), None, None, None, None, None, None));
      && c.total_taxas_percentual == 22.0
      && c.valor_taxas == 26.4
      && c.custo_total == 106.4
      && c.lucro_unitario == 13.6
      && c.lucro_mensal == 1360.0
      && c.percentual_lucro == 34.0 / 3.0
      && c.classificacao_concorrencia == Baixa
  {
  }

  /** The sandbox's starting scenario, every derived field worked out. */
  lemma SandboxScenario()
    ensures var c := Calcular(Entradas(Some(50.0), Some(120.0), Some(5.0), Some(25.0), Some(6.0), Some(16.0),
                                       Some(100.0), Some(15.0), Some(110.0), None, Some(100.0), Some(20.0), Some(4.5)));
      && c.custo_total == 106.4
      && c.preco_minimo_viavel == 4000.0 / 39.0
      && c.indice_concorrencia == 130.0
      && c.classificacao_concorrencia == Media
      && c.score_viabilidade == 65
      && c.classificacao_viabilidade == Viavel
      && c.preco_ideal == 8000.0 / 63.0
      && c.diferenca_para_menor_full == 10.0
      && c.diferenca_para_preco_medio == 120.0
  {
    var e := Entradas(Some(50.0), Some(120.0), Some(5.0), Some(25.0), Some(6.0), Some(16.0),
                      Some(100.0), Some(15.0), Some(110.0), None, Some(100.0), Some(20.0), Some(4.5));
    assert PercentualLucro(e) == 34.0 / 3.0;
    assert Score(e) == 34.0 / 3.0 * 1.33 + 13.5 + 18.0 + 110.0 / 6.0;
  }
}
