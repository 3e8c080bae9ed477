/**
 * The head-to-head comparison (components/ComparisonPanel.tsx): a selection
 * of at most three analyses and, per metric, the selected analysis that wins.
 */
module Comparison {
  import opened Wrappers
  import opened Types

  /** No id occurs twice. */
  predicate Distinct(s: seq<string>) {
    forall i, j :: 0 <= i < j < |s| ==> s[i] != s[j]
  }

  /** A list headed by `x` is distinct exactly when its tail is and does not hold `x`. */
  lemma DistinctCons(x: string, t: seq<string>)
    ensures Distinct([x] + t) <==> x !in t && Distinct(t)
  {
    var s := [x] + t;
    if x !in t && Distinct(t) {
      forall i, j | 0 <= i < j < |s| ensures s[i] != s[j] {
        if i > 0 { assert s[i] == t[i - 1] && s[j] == t[j - 1]; } else { assert s[j] == t[j - 1]; }
      }
    }
    if Distinct(s) {
      forall i, j | 0 <= i < j < |t| ensures t[i] != t[j] {
        assert t[i] == s[i + 1] && t[j] == s[j + 1];
      }
      forall k | 0 <= k < |t| ensures t[k] != x {
        assert s[k + 1] == t[k] && s[0] == x;
      }
    }
  }

  /** `s.filter(i => i !== x)`. */
  function Without(s: seq<string>, x: string): (r: seq<string>)
    ensures forall y :: y in r <==> y in s && y != x
    ensures |r| <= |s|
    ensures Distinct(s) ==> Distinct(r)
  {
    if s == [] then []
    else if s[0] == x then Without(s[1..], x)
    else
      var r := [s[0]] + Without(s[1..], x);
      assert s == [s[0]] + s[1..];
      DistinctCons(s[0], s[1..]);
      DistinctCons(s[0], Without(s[1..], x));
      r
  }

  /** The selection after clicking `id`: deselect it, or select it while fewer than three are selected. */
  function Toggle(selected: seq<string>, id: string): (r: seq<string>)
    ensures forall y :: y != id ==> (y in r <==> y in selected)
    ensures id in r <==> id !in selected && |selected| < 3
    ensures Distinct(selected) ==> Distinct(r)
  {
    if id in selected then Without(selected, id)
    else if |selected| < 3 then selected + [id]
    else selected
  }

  /** Filtering out an absent id changes nothing. */
  lemma {:induction false} WithoutAbsent(s: seq<string>, x: string)
    requires x !in s
    ensures Without(s, x) == s
  {
    if s != [] {
      WithoutAbsent(s[1..], x);
    }
  }

  /** Filtering distributes over concatenation. */
  lemma {:induction false} WithoutConcat(a: seq<string>, b: seq<string>, x: string)
    ensures Without(a + b, x) == Without(a, x) + Without(b, x)
  {
    if a == [] {
      assert a + b == b;
    } else {
      assert (a + b)[1..] == a[1..] + b;
      WithoutConcat(a[1..], b, x);
    }
  }

  /** Deselecting removes exactly the one occurrence and keeps every other id in its place. */
  lemma {:induction false} ToggleSelectedRemovesInPlace(s: seq<string>, i: nat)
    requires Distinct(s) && i < |s|
    ensures Toggle(s, s[i]) == s[..i] + s[i + 1..]
  {
    var x := s[i];
    assert s == s[..i] + [x] + s[i + 1..];
    WithoutConcat(s[..i] + [x], s[i + 1..], x);
    WithoutConcat(s[..i], [x], x);
    WithoutAbsent(s[..i], x);
    WithoutAbsent(s[i + 1..], x);
    assert Without([x], x) == [];
  }

  /** Clicking an unselected id when there is room, then clicking it again, restores the selection. */
  lemma {:induction false} ToggleTwiceRestores(s: seq<string>, id: string)
    requires id !in s && |s| < 3
    ensures Toggle(Toggle(s, id), id) == s
  {
    assert Toggle(s, id) == s + [id];
    WithoutConcat(s, [id], id);
    WithoutAbsent(s, id);
    assert Without([id], id) == [];
  }

  /** A selection of at most three distinct ids stays one. */
  lemma ToggleKeepsSelectionValid(s: seq<string>, id: string)
    requires |s| <= 3 && Distinct(s)
    ensures |Toggle(s, id)| <= 3 && Distinct(Toggle(s, id))
  {
  }

  /** The selection state, a list of record ids in the order they were picked. */
  class ComparisonPanel {
    var selectedIds: seq<string>

    ghost predicate Valid()
      reads this
    {
      |selectedIds| <= 3 && Distinct(selectedIds)
    }

    constructor ()
      ensures Valid() && selectedIds == []
    {
      selectedIds := [];
    }

    /** `toggleSelect`. */
    method ToggleSelect(id: string)
      requires Valid()
      modifies this
      ensures Valid()
      ensures id in old(selectedIds) ==> selectedIds == Without(old(selectedIds), id)
      ensures id !in old(selectedIds) && |old(selectedIds)| < 3 ==> selectedIds == old(selectedIds) + [id]
      ensures id !in old(selectedIds) && |old(selectedIds)| >= 3 ==> selectedIds == old(selectedIds)
    {
      if id in selectedIds {
        selectedIds := Without(selectedIds, id);
      } else if |selectedIds| < 3 {
        selectedIds := selectedIds + [id];
      }
    }
  }

  /** `selectedIds.includes(a.id)`: a record without an id is never selected. */
  predicate IsSelected(a: Analise, selectedIds: seq<string>) {
    a.id.Some? && a.id.value in selectedIds
  }

  /** `selectedAnalyses`: the selected records, in the order of `analyses`. */
  function SelectedAnalyses(analyses: seq<Analise>, selectedIds: seq<string>): (r: seq<Analise>)
    ensures forall a :: a in r <==> a in analyses && IsSelected(a, selectedIds)
    ensures |r| <= |analyses|
  {
    if analyses == [] then []
    else (if IsSelected(analyses[0], selectedIds) then [analyses[0]] else [])
         + SelectedAnalyses(analyses[1..], selectedIds)
  }

  /** The selection keeps the order of the list it filters: it distributes over concatenation. */
  lemma {:induction false} SelectedAnalysesKeepsOrder(a: seq<Analise>, b: seq<Analise>, ids: seq<string>)
    ensures SelectedAnalyses(a + b, ids) == SelectedAnalyses(a, ids) + SelectedAnalyses(b, ids)
  {
    if a == [] {
      assert a + b == b;
    } else {
      assert (a + b)[1..] == a[1..] + b;
      SelectedAnalysesKeepsOrder(a[1..], b, ids);
    }
  }

  /** The ids of a list of records, absent ones left out. */
  function IdsOf(s: seq<Analise>): seq<string> {
    if s == [] then []
    else (if s[0].id.Some? then [s[0].id.value] else []) + IdsOf(s[1..])
  }

  /** A list of distinct values has as many elements as its set. */
  lemma {:induction false} DistinctCardinality(s: seq<string>)
    requires Distinct(s)
    ensures |set x | x in s| == |s|
  {
    if s != [] {
      DistinctCardinality(s[1..]);
      assert (set x | x in s) == {s[0]} + (set x | x in s[1..]);
      assert s[0] !in s[1..];
    }
  }

  /** A list never has a larger set than its length. */
  lemma {:induction false} SetCardinalityAtMostLength(s: seq<string>)
    ensures |set x | x in s| <= |s|
  {
    if s != [] {
      SetCardinalityAtMostLength(s[1..]);
      assert (set x | x in s) == {s[0]} + (set x | x in s[1..]);
    }
  }

  /** The ids of a list headed by `a`. */
  lemma IdsOfCons(a: Analise, t: seq<Analise>)
    ensures IdsOf([a] + t) == (if a.id.Some? then [a.id.value] else []) + IdsOf(t)
  {
    assert ([a] + t)[1..] == t;
  }

  /** The ids of selected records are drawn from the selection, one per record, and stay distinct. */
  lemma {:induction false} SelectedIdsAreSelected(analyses: seq<Analise>, ids: seq<string>)
    ensures forall x :: x in IdsOf(SelectedAnalyses(analyses, ids)) ==> x in ids
    ensures |IdsOf(SelectedAnalyses(analyses, ids))| == |SelectedAnalyses(analyses, ids)|
    ensures Distinct(IdsOf(analyses)) ==> Distinct(IdsOf(SelectedAnalyses(analyses, ids)))
  {
    if analyses != [] {
      var a0, tail := analyses[0], analyses[1..];
      var rest := SelectedAnalyses(tail, ids);
      SelectedIdsAreSelected(tail, ids);
      IdsOfSubset(rest, tail);
      assert analyses == [a0] + tail;
      IdsOfCons(a0, tail);
      if a0.id.Some? {
        DistinctCons(a0.id.value, IdsOf(tail));
      } else {
        assert IdsOf(analyses) == IdsOf(tail);
      }
      if IsSelected(a0, ids) {
        assert SelectedAnalyses(analyses, ids) == [a0] + rest;
        IdsOfCons(a0, rest);
        DistinctCons(a0.id.value, IdsOf(rest));
      } else {
        assert SelectedAnalyses(analyses, ids) == rest;
      }
    }
  }

  /** Every id of a sub-list of records is an id of the whole list. */
  lemma {:induction false} IdsOfSubset(sub: seq<Analise>, s: seq<Analise>)
    requires forall a :: a in sub ==> a in s
    ensures forall x :: x in IdsOf(sub) ==> x in IdsOf(s)
  {
    if sub != [] {
      if sub[0].id.Some? {
        IdInIdsOf(sub[0], s);
      }
      IdsOfSubset(sub[1..], s);
      assert sub == [sub[0]] + sub[1..];
      IdsOfCons(sub[0], sub[1..]);
    }
  }

  /** The id of a member of a list is among the list's ids. */
  lemma {:induction false} IdInIdsOf(a: Analise, s: seq<Analise>)
    requires a in s && a.id.Some?
    ensures a.id.value in IdsOf(s)
  {
    assert s == [s[0]] + s[1..];
    IdsOfCons(s[0], s[1..]);
    if s[0] != a {
      IdInIdsOf(a, s[1..]);
    }
  }

  /** With distinct record ids, the panel never shows more records than ids are selected (three at most). */
  lemma SelectedAnalysesBoundedBySelection(analyses: seq<Analise>, ids: seq<string>)
    requires Distinct(IdsOf(analyses))
    ensures |SelectedAnalyses(analyses, ids)| <= |ids|
  {
    var sel := SelectedAnalyses(analyses, ids);
    SelectedIdsAreSelected(analyses, ids);
    DistinctCardinality(IdsOf(sel));
    SetCardinalityAtMostLength(ids);
    var shown, picked := set x | x in IdsOf(sel), set x | x in ids;
    assert shown <= picked;
    assert |shown| <= |picked| by {
      assert picked == shown + (picked - shown);
    }
  }

  /** The compared metrics. */
  datatype Metrica = LucroMensal | PercentualLucro | IndiceConcorrencia | ScoreViabilidade

  /** Whether the highest or the lowest value wins. */
  datatype Modo = Max | Min

  /** `Number(a[metric] || 0)`: a record without derived fields scores 0. */
  function Valor(a: Analise, m: Metrica): (v: real)
    ensures a.calculados.None? ==> v == 0.0
    ensures a.calculados.Some? && m == LucroMensal ==> v == a.calculados.value.lucro_mensal
    ensures a.calculados.Some? && m == PercentualLucro ==> v == a.calculados.value.percentual_lucro
    ensures a.calculados.Some? && m == IndiceConcorrencia ==> v == a.calculados.value.indice_concorrencia
    ensures a.calculados.Some? && m == ScoreViabilidade ==> v == a.calculados.value.score_viabilidade as real
  {
    if a.calculados.None? then 0.0
    else
      var c := a.calculados.value;
      match m
      case LucroMensal => c.lucro_mensal
      case PercentualLucro => c.percentual_lucro
      case IndiceConcorrencia => c.indice_concorrencia
      case ScoreViabilidade => c.score_viabilidade as real
  }

  /** `curr` replaces `prev` only when strictly better. */
  predicate Beats(mode: Modo, curr: real, prev: real) {
    if mode == Max then curr > prev else curr < prev
  }

  /** `a` is at least as good as `b`. */
  predicate AtLeastAsGood(mode: Modo, a: real, b: real) {
    if mode == Max then a >= b else a <= b
  }

  /** The index the `reduce` holds after its first `n` elements. */
  function ReduceIndex(items: seq<Analise>, m: Metrica, mode: Modo, n: nat): (k: nat)
    requires 1 <= n <= |items|
    ensures k < n
    ensures forall j :: 0 <= j < n ==> AtLeastAsGood(mode, Valor(items[k], m), Valor(items[j], m))
    ensures forall j :: 0 <= j < k ==> Beats(mode, Valor(items[k], m), Valor(items[j], m))
  {
    if n == 1 then 0
    else
      var k := ReduceIndex(items, m, mode, n - 1);
      if Beats(mode, Valor(items[n - 1], m), Valor(items[k], m)) then n - 1 else k
  }

  /** `getWinner`: none for fewer than two records, else the first record with the best value. */
  function GetWinner(selected: seq<Analise>, m: Metrica, mode: Modo): (w: Option<Analise>)
    ensures w.None? <==> |selected| < 2
    ensures w.Some? ==>
      exists k ::
        && 0 <= k < |selected| && selected[k] == w.value
        && (forall j :: 0 <= j < |selected| ==> AtLeastAsGood(mode, Valor(w.value, m), Valor(selected[j], m)))
        && (forall j :: 0 <= j < k ==> Beats(mode, Valor(w.value, m), Valor(selected[j], m)))
  {
    if |selected| < 2 then None
    else Some(selected[ReduceIndex(selected, m, mode, |selected|)])
  }

  /** The mode each metric is judged in: the competition index is better low, the rest high. */
  function ModoDe(m: Metrica): (mode: Modo)
    ensures mode == Min <==> m == IndiceConcorrencia
  {
    if m == IndiceConcorrencia then Min else Max
  }

  /** The winners table. */
  datatype Vencedores = Vencedores(
    lucro_mensal: Option<Analise>,
    percentual_lucro: Option<Analise>,
    indice_concorrencia: Option<Analise>,
    score_viabilidade: Option<Analise>)

  /** `winners`: one winner per metric, each in its metric's mode. */
  function Winners(selected: seq<Analise>): (w: Vencedores)
    ensures w.lucro_mensal.Some? <==> |selected| >= 2
    ensures w.lucro_mensal.Some? ==>
      w.lucro_mensal.value in selected
      && forall a :: a in selected ==> Valor(a, LucroMensal) <= Valor(w.lucro_mensal.value, LucroMensal)
    ensures w.percentual_lucro.Some? ==>
      w.percentual_lucro.value in selected
      && forall a :: a in selected ==> Valor(a, PercentualLucro) <= Valor(w.percentual_lucro.value, PercentualLucro)
    ensures w.indice_concorrencia.Some? ==>
      w.indice_concorrencia.value in selected
      && forall a :: a in selected ==> Valor(w.indice_concorrencia.value, IndiceConcorrencia) <= Valor(a, IndiceConcorrencia)
    ensures w.score_viabilidade.Some? ==>
      w.score_viabilidade.value in selected
      && forall a :: a in selected ==> Valor(a, ScoreViabilidade) <= Valor(w.score_viabilidade.value, ScoreViabilidade)
    ensures w.percentual_lucro.Some? == w.indice_concorrencia.Some? == w.score_viabilidade.Some? == w.lucro_mensal.Some?
  {
    Vencedores(
      GetWinner(selected, LucroMensal, ModoDe(LucroMensal)),
      GetWinner(selected, PercentualLucro, ModoDe(PercentualLucro)),
      GetWinner(selected, IndiceConcorrencia, ModoDe(IndiceConcorrencia)),
      GetWinner(selected, ScoreViabilidade, ModoDe(ScoreViabilidade)))
  }
}
