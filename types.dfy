/**
 * The analysis record and its closed tag sets (types.ts).
 *
 * A record is sparse: every field may be absent. The numeric inputs of the
 * calculator are grouped in `Entradas`, the fields the calculator derives in
 * `Calculados`; every record the application builds carries either all of the
 * derived fields or none of them.
 */
module Types {
  import opened Wrappers

  /** 'full' | 'flex' | 'envio_proprio' */
  datatype TipoLogistica = Full | Flex | EnvioProprio

  /** 'em_analise' | 'aprovado_para_teste' | 'descartado' | 'em_operacao' */
  datatype StatusDecisao = EmAnalise | AprovadoParaTeste | Descartado | EmOperacao

  /** 'Excelente' | 'Viável' | 'Arriscado' | 'Não recomendado' */
  datatype ClassificacaoViabilidade = Excelente | Viavel | Arriscado | NaoRecomendado

  /** 'Baixa' | 'Média' | 'Alta' | 'Saturada' */
  datatype ClassificacaoConcorrencia = Baixa | Media | Alta | Saturada

  /** The numeric inputs of the calculator; percentages are whole numbers (16 means 16%). */
  datatype Entradas = Entradas(
    custo_produto: Option<real>,
    preco_venda: Option<real>,
    embalagem: Option<real>,
    frete: Option<real>,
    imposto_percentual: Option<real>,
    taxa_marketplace_percentual: Option<real>,
    media_vendas_mes: Option<real>,
    margem_desejada: Option<real>,
    menor_preco_full: Option<real>,
    preco_medio_primeira_pagina: Option<real>,
    quantidade_anuncios_geral: Option<real>,
    quantidade_anuncios_full: Option<real>,
    avaliacao_media: Option<real>)

  /** The fields the calculator adds to a record. */
  datatype Calculados = Calculados(
    total_taxas_percentual: real,
    valor_taxas: real,
    custo_total: real,
    lucro_unitario: real,
    percentual_lucro: real,
    lucro_mensal: real,
    preco_ideal: real,
    score_viabilidade: int,
    classificacao_viabilidade: ClassificacaoViabilidade,
    indice_concorrencia: real,
    classificacao_concorrencia: ClassificacaoConcorrencia,
    preco_minimo_viavel: real,
    diferenca_para_menor_full: real,
    diferenca_para_preco_medio: real)

  /** A product analysis (`Partial<ProdutoAnalise>`). */
  datatype Analise = Analise(
    id: Option<string>,
    produto: Option<string>,
    produtoBaseId: Option<string>,
    fornecedorId: Option<string>,
    link_concorrente: Option<string>,
    tipo_logistica: Option<TipoLogistica>,
    status_decisao: Option<StatusDecisao>,
    observacao_estrategica: Option<string>,
    principais_reclamacoes: Option<string>,
    data_criacao: Option<string>,
    entradas: Entradas,
    calculados: Option<Calculados>)

  /** JavaScript truthiness of an optional string: present and not "". */
  predicate Truthy(s: Option<string>) {
    s.Some? && s.value != ""
  }

  /** One field of an object spread: a field present on the right wins. */
  function Pick<T>(base: Option<T>, top: Option<T>): Option<T> {
    if top.Some? then top else base
  }

  /** `{ ...base, ...top }` restricted to the numeric inputs. */
  function SpreadEntradas(base: Entradas, top: Entradas): Entradas {
    Entradas(
      Pick(base.custo_produto, top.custo_produto),
      Pick(base.preco_venda, top.preco_venda),
      Pick(base.embalagem, top.embalagem),
      Pick(base.frete, top.frete),
      Pick(base.imposto_percentual, top.imposto_percentual),
      Pick(base.taxa_marketplace_percentual, top.taxa_marketplace_percentual),
      Pick(base.media_vendas_mes, top.media_vendas_mes),
      Pick(base.margem_desejada, top.margem_desejada),
      Pick(base.menor_preco_full, top.menor_preco_full),
      Pick(base.preco_medio_primeira_pagina, top.preco_medio_primeira_pagina),
      Pick(base.quantidade_anuncios_geral, top.quantidade_anuncios_geral),
      Pick(base.quantidade_anuncios_full, top.quantidade_anuncios_full),
      Pick(base.avaliacao_media, top.avaliacao_media))
  }

  /** The object spread `{ ...base, ...top }`: every field present in `top` overrides `base`. */
  function Spread(base: Analise, top: Analise): Analise {
    Analise(
      Pick(base.id, top.id),
      Pick(base.produto, top.produto),
      Pick(base.produtoBaseId, top.produtoBaseId),
      Pick(base.fornecedorId, top.fornecedorId),
      Pick(base.link_concorrente, top.link_concorrente),
      Pick(base.tipo_logistica, top.tipo_logistica),
      Pick(base.status_decisao, top.status_decisao),
      Pick(base.observacao_estrategica, top.observacao_estrategica),
      Pick(base.principais_reclamacoes, top.principais_reclamacoes),
      Pick(base.data_criacao, top.data_criacao),
      SpreadEntradas(base.entradas, top.entradas),
      Pick(base.calculados, top.calculados))
  }

  /** Field `f` of `r` agrees with `top` wherever `top` has a value. */
  predicate Agrees<T(==)>(r: Option<T>, top: Option<T>) {
    top.Some? ==> r == top
  }

  /** Every numeric input present in `top` has the same value in `r`. */
  predicate EntradasExtend(r: Entradas, top: Entradas) {
    && Agrees(r.custo_produto, top.custo_produto)
    && Agrees(r.preco_venda, top.preco_venda)
    && Agrees(r.embalagem, top.embalagem)
    && Agrees(r.frete, top.frete)
    && Agrees(r.imposto_percentual, top.imposto_percentual)
    && Agrees(r.taxa_marketplace_percentual, top.taxa_marketplace_percentual)
    && Agrees(r.media_vendas_mes, top.media_vendas_mes)
    && Agrees(r.margem_desejada, top.margem_desejada)
    && Agrees(r.menor_preco_full, top.menor_preco_full)
    && Agrees(r.preco_medio_primeira_pagina, top.preco_medio_primeira_pagina)
    && Agrees(r.quantidade_anuncios_geral, top.quantidade_anuncios_geral)
    && Agrees(r.quantidade_anuncios_full, top.quantidade_anuncios_full)
    && Agrees(r.avaliacao_media, top.avaliacao_media)
  }

  /** Every field present in `top` has the same value in `r`. */
  predicate Extends(r: Analise, top: Analise) {
    && Agrees(r.id, top.id)
    && Agrees(r.produto, top.produto)
    && Agrees(r.produtoBaseId, top.produtoBaseId)
    && Agrees(r.fornecedorId, top.fornecedorId)
    && Agrees(r.link_concorrente, top.link_concorrente)
    && Agrees(r.tipo_logistica, top.tipo_logistica)
    && Agrees(r.status_decisao, top.status_decisao)
    && Agrees(r.observacao_estrategica, top.observacao_estrategica)
    && Agrees(r.principais_reclamacoes, top.principais_reclamacoes)
    && Agrees(r.data_criacao, top.data_criacao)
    && EntradasExtend(r.entradas, top.entradas)
    && Agrees(r.calculados, top.calculados)
  }

  /** Where `top` has no value, `r` has the value of `base`. */
  predicate Falls<T(==)>(r: Option<T>, base: Option<T>, top: Option<T>) {
    top.None? ==> r == base
  }

  /** Every numeric input absent from `top` has its value from `base` in `r`. */
  predicate EntradasKeepBase(r: Entradas, base: Entradas, top: Entradas) {
    && Falls(r.custo_produto, base.custo_produto, top.custo_produto)
    && Falls(r.preco_venda, base.preco_venda, top.preco_venda)
    && Falls(r.embalagem, base.embalagem, top.embalagem)
    && Falls(r.frete, base.frete, top.frete)
    && Falls(r.imposto_percentual, base.imposto_percentual, top.imposto_percentual)
    && Falls(r.taxa_marketplace_percentual, base.taxa_marketplace_percentual, top.taxa_marketplace_percentual)
    && Falls(r.media_vendas_mes, base.media_vendas_mes, top.media_vendas_mes)
    && Falls(r.margem_desejada, base.margem_desejada, top.margem_desejada)
    && Falls(r.menor_preco_full, base.menor_preco_full, top.menor_preco_full)
    && Falls(r.preco_medio_primeira_pagina, base.preco_medio_primeira_pagina, top.preco_medio_primeira_pagina)
    && Falls(r.quantidade_anuncios_geral, base.quantidade_anuncios_geral, top.quantidade_anuncios_geral)
    && Falls(r.quantidade_anuncios_full, base.quantidade_anuncios_full, top.quantidade_anuncios_full)
    && Falls(r.avaliacao_media, base.avaliacao_media, top.avaliacao_media)
  }

  /** Every field absent from `top` has its value from `base` in `r`. */
  predicate KeepsBase(r: Analise, base: Analise, top: Analise) {
    && Falls(r.id, base.id, top.id)
    && Falls(r.produto, base.produto, top.produto)
    && Falls(r.produtoBaseId, base.produtoBaseId, top.produtoBaseId)
    && Falls(r.fornecedorId, base.fornecedorId, top.fornecedorId)
    && Falls(r.link_concorrente, base.link_concorrente, top.link_concorrente)
    && Falls(r.tipo_logistica, base.tipo_logistica, top.tipo_logistica)
    && Falls(r.status_decisao, base.status_decisao, top.status_decisao)
    && Falls(r.observacao_estrategica, base.observacao_estrategica, top.observacao_estrategica)
    && Falls(r.principais_reclamacoes, base.principais_reclamacoes, top.principais_reclamacoes)
    && Falls(r.data_criacao, base.data_criacao, top.data_criacao)
    && EntradasKeepBase(r.entradas, base.entradas, top.entradas)
    && Falls(r.calculados, base.calculados, top.calculados)
  }

  /** A spread keeps every numeric input present in its right operand and takes the others from its left one. */
  lemma SpreadEntradasKeepsTop(base: Entradas, top: Entradas)
    ensures EntradasExtend(SpreadEntradas(base, top), top)
    ensures EntradasKeepBase(SpreadEntradas(base, top), base, top)
  {
  }

  /** A spread keeps every field present in its right operand and takes the others from its left one. */
  lemma SpreadKeepsTop(base: Analise, top: Analise)
    ensures Extends(Spread(base, top), top)
    ensures KeepsBase(Spread(base, top), base, top)
  {
    SpreadEntradasKeepsTop(base.entradas, top.entradas);
  }

  /** The numeric inputs of a spread are fixed by the two halves of its contract. */
  lemma SpreadEntradasUnique(r: Entradas, base: Entradas, top: Entradas)
    requires EntradasExtend(r, top) && EntradasKeepBase(r, base, top)
    ensures r == SpreadEntradas(base, top)
  {
  }

  /** Those two halves fix the spread: no other record keeps the right operand's fields and the left operand's rest. */
  lemma SpreadUnique(r: Analise, base: Analise, top: Analise)
    requires Extends(r, top) && KeepsBase(r, base, top)
    ensures r == Spread(base, top)
  {
    SpreadEntradasUnique(r.entradas, base.entradas, top.entradas);
  }
}
