/**
 * The analysis form (components/AnalysisForm.tsx): its starting values, how an
 * edit is stored, the step guard, and how a save is validated and the record
 * assembled.
 */
module Form {
  import opened Wrappers
  import opened Types
  import opened Calculations

  /** The form's starting values, before `initialData` is spread over them. */
  function Defaults(): (d: Analise)
    ensures d.id.None? && d.data_criacao.None? && d.calculados.None?
    ensures d.produto == Some("") && !Truthy(d.produto)
    ensures d.tipo_logistica == Some(Full) && d.status_decisao == Some(EmAnalise)
    ensures d.entradas.margem_desejada == Some(20.0)
    ensures forall c :: LerNumero(d.entradas, c) == Some(0.0)
  {
    Analise(
      id := None,
      produto := Some(""),
      produtoBaseId := None,
      fornecedorId := None,
      link_concorrente := Some(""),
      tipo_logistica := Some(Full),
      status_decisao := Some(EmAnalise),
      observacao_estrategica := Some(""),
      principais_reclamacoes := Some(""),
      data_criacao := None,
      entradas := Entradas(
        custo_produto := Some(0.0),
        preco_venda := Some(0.0),
        embalagem := Some(0.0),
        frete := Some(0.0),
        imposto_percentual := Some(0.0),
        taxa_marketplace_percentual := Some(0.0),
        media_vendas_mes := Some(0.0),
        margem_desejada := Some(20.0),
        menor_preco_full := Some(0.0),
        preco_medio_primeira_pagina := Some(0.0),
        quantidade_anuncios_geral := Some(0.0),
        quantidade_anuncios_full := Some(0.0),
        avaliacao_media := Some(0.0)),
      calculados := None)
  }

  /** `{ ...defaults, ...initialData }`; an absent `initialData` spreads nothing. */
  function Initial(initialData: Option<Analise>): (r: Analise)
    ensures initialData.None? ==> r == Defaults()
    ensures initialData.Some? ==> Extends(r, initialData.value)
    ensures initialData.Some? ==> KeepsBase(r, Defaults(), initialData.value)
  {
    match initialData
    case None => Defaults()
    case Some(d) => SpreadKeepsTop(Defaults(), d); Spread(Defaults(), d)
  }

  /** A new analysis starts with a 20% target margin, premium logistics, under review, no id and no creation time. */
  lemma NewFormDefaults()
    ensures Initial(None).entradas.margem_desejada == Some(20.0)
    ensures Initial(None).tipo_logistica == Some(Full) && Initial(None).status_decisao == Some(EmAnalise)
    ensures Initial(None).id.None? && Initial(None).data_criacao.None?
    ensures Num(Initial(None).entradas.preco_venda) == 0.0
  {
  }

  /** A record to edit that lacks a target margin still gets the default 20%. */
  lemma EditedRecordFallsBackToDefaults(d: Analise)
    requires d.entradas.margem_desejada.None?
    ensures Initial(Some(d)).entradas.margem_desejada == Some(20.0)
  {
  }

  /** The number inputs of the form, named by the field they write. */
  datatype CampoNumerico =
    | CustoProduto | PrecoVenda | Embalagem | Frete | ImpostoPercentual | TaxaMarketplacePercentual
    | MediaVendasMes | MenorPrecoFull | PrecoMedioPrimeiraPagina | QuantidadeAnunciosGeral
    | QuantidadeAnunciosFull | AvaliacaoMedia

  /** The free-text inputs (text, url, textarea, and the supplier select). */
  datatype CampoTexto = Produto | LinkConcorrente | FornecedorId | ObservacaoEstrategica

  /**
   * One change event. A number input carries what `parseFloat` read (`None`
   * for NaN); the two tag selects carry one of their options.
   */
  datatype Edicao =
    | EdicaoNumero(campo: CampoNumerico, lido: Option<real>)
    | EdicaoTexto(campoTexto: CampoTexto, valor: string)
    | EdicaoLogistica(tipo: TipoLogistica)
    | EdicaoStatus(status: StatusDecisao)

  /** The numeric input `c` reads. */
  function LerNumero(e: Entradas, c: CampoNumerico): Option<real> {
    match c
    case CustoProduto => e.custo_produto
    case PrecoVenda => e.preco_venda
    case Embalagem => e.embalagem
    case Frete => e.frete
    case ImpostoPercentual => e.imposto_percentual
    case TaxaMarketplacePercentual => e.taxa_marketplace_percentual
    case MediaVendasMes => e.media_vendas_mes
    case MenorPrecoFull => e.menor_preco_full
    case PrecoMedioPrimeiraPagina => e.preco_medio_primeira_pagina
    case QuantidadeAnunciosGeral => e.quantidade_anuncios_geral
    case QuantidadeAnunciosFull => e.quantidade_anuncios_full
    case AvaliacaoMedia => e.avaliacao_media
  }

  /** `{ ...e, [c]: v }` on the numeric inputs. */
  function GravarNumero(e: Entradas, c: CampoNumerico, v: Option<real>): (r: Entradas)
    ensures LerNumero(r, c) == v
    ensures forall c' :: c' != c ==> LerNumero(r, c') == LerNumero(e, c')
    ensures r.margem_desejada == e.margem_desejada
  {
    match c
    case CustoProduto => e.(custo_produto := v)
    case PrecoVenda => e.(preco_venda := v)
    case Embalagem => e.(embalagem := v)
    case Frete => e.(frete := v)
    case ImpostoPercentual => e.(imposto_percentual := v)
    case TaxaMarketplacePercentual => e.(taxa_marketplace_percentual := v)
    case MediaVendasMes => e.(media_vendas_mes := v)
    case MenorPrecoFull => e.(menor_preco_full := v)
    case PrecoMedioPrimeiraPagina => e.(preco_medio_primeira_pagina := v)
    case QuantidadeAnunciosGeral => e.(quantidade_anuncios_geral := v)
    case QuantidadeAnunciosFull => e.(quantidade_anuncios_full := v)
    case AvaliacaoMedia => e.(avaliacao_media := v)
  }

  /** The text field `c` reads. */
  function LerTexto(f: Analise, c: CampoTexto): Option<string> {
    match c
    case Produto => f.produto
    case LinkConcorrente => f.link_concorrente
    case FornecedorId => f.fornecedorId
    case ObservacaoEstrategica => f.observacao_estrategica
  }

  /** `{ ...f, [c]: v }` on the text fields. */
  function GravarTexto(f: Analise, c: CampoTexto, v: string): (r: Analise)
    ensures LerTexto(r, c) == Some(v)
    ensures forall c' :: c' != c ==> LerTexto(r, c') == LerTexto(f, c')
    ensures r.(produto := f.produto, link_concorrente := f.link_concorrente,
               fornecedorId := f.fornecedorId, observacao_estrategica := f.observacao_estrategica) == f
  {
    match c
    case Produto => f.(produto := Some(v))
    case LinkConcorrente => f.(link_concorrente := Some(v))
    case FornecedorId => f.(fornecedorId := Some(v))
    case ObservacaoEstrategica => f.(observacao_estrategica := Some(v))
  }

  /** `parseFloat(value) || 0`: the number read, or 0 when nothing could be read. */
  function ParsedOrZero(lido: Option<real>): real {
    lido.GetOr(0.0)
  }

  /** The form after one change event: the edited field gets its new value and nothing else moves. */
  function ApplyEdit(f: Analise, e: Edicao): (r: Analise)
    ensures e.EdicaoNumero? ==>
      && LerNumero(r.entradas, e.campo) == Some(if e.lido.Some? then e.lido.value else 0.0)
      && (forall c :: c != e.campo ==> LerNumero(r.entradas, c) == LerNumero(f.entradas, c))
      && r.(entradas := f.entradas) == f
    ensures e.EdicaoTexto? ==>
      && LerTexto(r, e.campoTexto) == Some(e.valor)
      && (forall c :: c != e.campoTexto ==> LerTexto(r, c) == LerTexto(f, c))
      && r.(produto := f.produto, link_concorrente := f.link_concorrente,
            fornecedorId := f.fornecedorId, observacao_estrategica := f.observacao_estrategica) == f
    ensures e.EdicaoLogistica? ==> r == f.(tipo_logistica := Some(e.tipo))
    ensures e.EdicaoStatus? ==> r == f.(status_decisao := Some(e.status))
  {
    match e
    case EdicaoNumero(c, lido) => f.(entradas := GravarNumero(f.entradas, c, Some(ParsedOrZero(lido))))
    case EdicaoTexto(c, v) => GravarTexto(f, c, v)
    case EdicaoLogistica(t) => f.(tipo_logistica := Some(t))
    case EdicaoStatus(s) => f.(status_decisao := Some(s))
  }

  /** Why a save was refused. */
  datatype Recusa = ProdutoObrigatorio | PrecoVendaObrigatorio

  /** What a save does: refuse with a reason, or hand a finished record to `onSave`. */
  datatype Salvamento = Recusado(motivo: Recusa) | Salvo(registro: Analise)

  /** `!formData.preco_venda || formData.preco_venda <= 0` fails: the price is present and positive. */
  predicate PrecoDefinido(f: Analise) {
    f.entradas.preco_venda.Some? && f.entradas.preco_venda.value > 0.0
  }

  /** `handleSave`: validate the name, then the price, then assemble `{ ...formData, ...calculated, id, data_criacao }`. */
  function Finalize(formData: Analise, freshId: string, now: string): (r: Salvamento)
    ensures !Truthy(formData.produto) ==> r == Recusado(ProdutoObrigatorio)
    ensures Truthy(formData.produto) && !PrecoDefinido(formData) ==> r == Recusado(PrecoVendaObrigatorio)
    ensures r.Salvo? <==> Truthy(formData.produto) && PrecoDefinido(formData)
    ensures r.Salvo? ==> r.registro.id == Some(if Truthy(formData.id) then formData.id.value else freshId)
    ensures r.Salvo? ==> r.registro.data_criacao == Some(if Truthy(formData.data_criacao) then formData.data_criacao.value else now)
    ensures r.Salvo? ==> r.registro.calculados == Some(Calcular(formData.entradas))
    ensures r.Salvo? ==>
      r.registro.(id := formData.id, data_criacao := formData.data_criacao, calculados := formData.calculados) == formData
  {
    if !Truthy(formData.produto) then Recusado(ProdutoObrigatorio)
    else if !PrecoDefinido(formData) then Recusado(PrecoVendaObrigatorio)
    else
      var calculated := CalculateAnalysis(formData);
      var merged := Spread(formData, calculated);
      assert merged == calculated;
      Salvo(merged.(
        id := Some(if Truthy(formData.id) then formData.id.value else freshId),
        data_criacao := Some(if Truthy(formData.data_criacao) then formData.data_criacao.value else now)))
  }

  /** Saving an edited record keeps its id and creation time; a new one gets the fresh ones. */
  lemma SaveKeepsIdentity(formData: Analise, freshId: string, now: string)
    requires Finalize(formData, freshId, now).Salvo?
    ensures Truthy(formData.id) ==> Finalize(formData, freshId, now).registro.id == formData.id
    ensures formData.id.None? ==> Finalize(formData, freshId, now).registro.id == Some(freshId)
    ensures Truthy(formData.data_criacao) ==> Finalize(formData, freshId, now).registro.data_criacao == formData.data_criacao
    ensures formData.data_criacao.None? ==> Finalize(formData, freshId, now).registro.data_criacao == Some(now)
  {
  }

  /** The calculated fields replace whatever stale derived fields the form carried. */
  lemma SaveRecomputesDerivedFields(formData: Analise, stale: Calculados, freshId: string, now: string)
    requires Finalize(formData, freshId, now).Salvo?
    ensures Finalize(formData.(calculados := Some(stale)), freshId, now) == Finalize(formData, freshId, now)
  {
  }

  /** The form's state: the current step and the values entered so far. */
  class AnalysisForm {
    var step: int
    var formData: Analise

    /** `calculated`, which the form's effect keeps equal to the calculation of `formData`. */
    function Calculated(): (c: Analise)
      reads this
      ensures c.calculados == Some(Calcular(formData.entradas))
    {
      CalculateAnalysis(formData)
    }

    constructor (initialData: Option<Analise>)
      ensures step == 1 && formData == Initial(initialData)
    {
      step := 1;
      formData := Initial(initialData);
    }

    /** `handleChange`. */
    method HandleChange(e: Edicao)
      modifies this
      ensures formData == ApplyEdit(old(formData), e) && step == old(step)
    {
      formData := ApplyEdit(formData, e);
    }

    /** The "continue to pricing" button: step 2 only once a product name is entered. */
    method Proceed()
      modifies this
      ensures formData == old(formData)
      ensures step == if Truthy(old(formData).produto) then 2 else old(step)
    {
      if !Truthy(formData.produto) {
        return;
      }
      step := 2;
    }

    /** The "back to research" button. */
    method Back()
      modifies this
      ensures formData == old(formData) && step == 1
    {
      step := 1;
    }

    /** `handleSave`: `saved` is the record passed to `onSave`, if any; a missing price sends the form to step 2. */
    method HandleSave(freshId: string, now: string) returns (saved: Option<Analise>)
      modifies this
      ensures formData == old(formData)
      ensures Finalize(old(formData), freshId, now).Salvo? ==> saved == Some(Finalize(old(formData), freshId, now).registro)
      ensures Finalize(old(formData), freshId, now).Recusado? ==> saved.None?
      ensures step == if Finalize(old(formData), freshId, now) == Recusado(PrecoVendaObrigatorio) then 2 else old(step)
    {
      var outcome := Finalize(formData, freshId, now);
      match outcome
      case Recusado(motivo) =>
        if motivo == PrecoVendaObrigatorio {
          step := 2;
        }
        saved := None;
      case Salvo(registro) =>
        saved := Some(registro);
    }
  }
}
