/**
 * The application shell (App.tsx): the list of analyses shown, the record
 * being edited, the active tab, and the handlers that save, delete,
 * duplicate and reload records.
 *
 * The database is a map from id to record (`put` keyed by `id`, `delete` by
 * key). What `getAll` answers, whether a write fails, the fresh id and the
 * clock are parameters of the handlers.
 */
module App {
  import opened Wrappers
  import opened Types
  import opened Calculations

  /** 'dashboard' | 'new' | 'list' | 'sandbox' | 'compare' | 'providers' */
  datatype Aba = DashboardTab | NewTab | ListTab | SandboxTab | CompareTab | ProvidersTab

  /** `new Date(a.data_criacao).getTime()`, with the date parsing supplied as `tempo`. */
  function Instante(a: Analise, tempo: Option<string> -> int): int {
    tempo(a.data_criacao)
  }

  /** Newest first: creation times never increase along the list. */
  predicate NewestFirst(s: seq<Analise>, tempo: Option<string> -> int) {
    forall i, j :: 0 <= i < j < |s| ==> Instante(s[i], tempo) >= Instante(s[j], tempo)
  }

  /** A record at least as new as the head of a newest-first list can go in front of it. */
  lemma PrependNewest(x: Analise, s: seq<Analise>, tempo: Option<string> -> int)
    requires NewestFirst(s, tempo)
    requires s != [] ==> Instante(x, tempo) >= Instante(s[0], tempo)
    ensures NewestFirst([x] + s, tempo)
  {
    var r := [x] + s;
    forall i, j | 0 <= i < j < |r|
      ensures Instante(r[i], tempo) >= Instante(r[j], tempo)
    {
      if i == 0 {
        assert r[j] == s[j - 1];
        if j > 1 {
          assert Instante(s[0], tempo) >= Instante(s[j - 1], tempo);
        }
      } else {
        assert r[i] == s[i - 1] && r[j] == s[j - 1];
      }
    }
  }

  /** The tail of a newest-first list is newest first. */
  lemma TailNewestFirst(s: seq<Analise>, tempo: Option<string> -> int)
    requires s != [] && NewestFirst(s, tempo)
    ensures NewestFirst(s[1..], tempo)
  {
    forall i, j | 0 <= i < j < |s| - 1
      ensures Instante(s[1..][i], tempo) >= Instante(s[1..][j], tempo)
    {
      assert s[1..][i] == s[i + 1] && s[1..][j] == s[j + 1];
    }
  }

  /** Inserts `x` into a newest-first list after every record at least as new. */
  function Insert(s: seq<Analise>, x: Analise, tempo: Option<string> -> int): (r: seq<Analise>)
    requires NewestFirst(s, tempo)
    ensures |r| == |s| + 1
    ensures NewestFirst(r, tempo)
    ensures multiset(r) == multiset(s) + multiset{x}
    ensures r[0] == x || (s != [] && r[0] == s[0])
    decreases |s|
  {
    if s == [] then [x]
    else if Instante(s[0], tempo) >= Instante(x, tempo) then
      TailNewestFirst(s, tempo);
      var rest := Insert(s[1..], x, tempo);
      assert rest[0] == x || rest[0] == s[1];
      assert s == [s[0]] + s[1..];
      PrependNewest(s[0], rest, tempo);
      [s[0]] + rest
    else
      PrependNewest(x, s, tempo);
      [x] + s
  }

  /** The `sort` in `loadData`: the same records, newest first. */
  function SortNewestFirst(s: seq<Analise>, tempo: Option<string> -> int): (r: seq<Analise>)
    ensures NewestFirst(r, tempo)
    ensures multiset(r) == multiset(s)
  {
    if s == [] then []
    else
      assert s == s[..|s| - 1] + [s[|s| - 1]];
      Insert(SortNewestFirst(s[..|s| - 1], tempo), s[|s| - 1], tempo)
  }

  /** Sorting a list that is already newest first changes nothing. */
  lemma {:induction false} SortKeepsSortedList(s: seq<Analise>, tempo: Option<string> -> int)
    requires NewestFirst(s, tempo)
    ensures SortNewestFirst(s, tempo) == s
  {
    if s != [] {
      var init := s[..|s| - 1];
      assert NewestFirst(init, tempo);
      SortKeepsSortedList(init, tempo);
      InsertOldestAppends(init, s[|s| - 1], tempo);
      assert init + [s[|s| - 1]] == s;
    }
  }

  /** A record no newer than any in the list goes to its end. */
  lemma {:induction false} InsertOldestAppends(s: seq<Analise>, x: Analise, tempo: Option<string> -> int)
    requires NewestFirst(s, tempo)
    requires forall i :: 0 <= i < |s| ==> Instante(s[i], tempo) >= Instante(x, tempo)
    ensures Insert(s, x, tempo) == s + [x]
  {
    if s != [] {
      InsertOldestAppends(s[1..], x, tempo);
      assert s == [s[0]] + s[1..];
    }
  }

  /** `String(a.id)`: an absent id prints as "undefined". */
  function IdTexto(a: Analise): (r: string)
    ensures a.id.Some? ==> r == a.id.value
    ensures r == "undefined" <==> a.id.None? || a.id == Some("undefined")
  {
    if a.id.Some? then a.id.value else "undefined"
  }

  /** `prev.filter(a => String(a.id) !== String(id))`. */
  function WithoutId(s: seq<Analise>, id: string): (r: seq<Analise>)
    ensures forall a :: a in r <==> a in s && IdTexto(a) != id
    ensures |r| <= |s|
  {
    if s == [] then []
    else if IdTexto(s[0]) != id then [s[0]] + WithoutId(s[1..], id)
    else WithoutId(s[1..], id)
  }

  /** The filter keeps the remaining records in their order: it works piece by piece. */
  lemma {:induction false} WithoutIdConcat(a: seq<Analise>, b: seq<Analise>, id: string)
    ensures WithoutId(a + b, id) == WithoutId(a, id) + WithoutId(b, id)
  {
    if a == [] {
      assert a + b == b;
    } else {
      assert (a + b)[1..] == a[1..] + b;
      WithoutIdConcat(a[1..], b, id);
    }
  }

  /** Removing the records of one id leaves a newest-first list newest first. */
  lemma {:induction false} WithoutIdKeepsNewestFirst(s: seq<Analise>, id: string, tempo: Option<string> -> int)
    requires NewestFirst(s, tempo)
    ensures NewestFirst(WithoutId(s, id), tempo)
  {
    if s != [] {
      TailNewestFirst(s, tempo);
      WithoutIdKeepsNewestFirst(s[1..], id, tempo);
      var rest := WithoutId(s[1..], id);
      if IdTexto(s[0]) != id {
        if rest != [] {
          assert rest[0] in s[1..];
          var k :| 0 <= k < |s[1..]| && s[1..][k] == rest[0];
          assert s[k + 1] == rest[0];
        }
        PrependNewest(s[0], rest, tempo);
      }
    }
  }

  /** A list without a record of some id is left as it was. */
  lemma {:induction false} WithoutAbsentIdIsIdentity(s: seq<Analise>, id: string)
    requires forall i :: 0 <= i < |s| ==> IdTexto(s[i]) != id
    ensures WithoutId(s, id) == s
  {
    if s != [] {
      WithoutAbsentIdIsIdentity(s[1..], id);
      assert s == [s[0]] + s[1..];
    }
  }

  /** The duplicate built in `handleDuplicate`: a new id, "<name> (Cópia)" and a new creation time. */
  function Duplicate(item: Analise, freshId: string, now: string): (r: Analise)
    ensures r.id == Some(freshId) && r.data_criacao == Some(now)
    ensures r.produto == Some((if item.produto.Some? then item.produto.value else "undefined") + " (Cópia)")
    ensures r.(id := item.id, produto := item.produto, data_criacao := item.data_criacao) == item
  {
    var nome := if item.produto.Some? then item.produto.value else "undefined";
    item.(id := Some(freshId), produto := Some(nome + " (Cópia)"), data_criacao := Some(now))
  }

  /** A duplicate keeps every input of the calculator, so it scores exactly like the original. */
  lemma DuplicateSharesMetrics(item: Analise, freshId: string, now: string)
    ensures Duplicate(item, freshId, now).calculados == item.calculados
    ensures CalculateAnalysis(Duplicate(item, freshId, now)).calculados == CalculateAnalysis(item).calculados
  {
  }

  /** Every stored record sits under its own id. */
  predicate Keyed(store: map<string, Analise>) {
    forall k :: k in store ==> store[k].id == Some(k)
  }

  /** `getAll`: the list holds exactly the stored records. */
  ghost predicate Lists(s: seq<Analise>, store: map<string, Analise>) {
    forall a :: a in s <==> a in store.Values
  }

  /** `store.put(a)` on a store keyed by `id`; a record without an id is refused. */
  function Put(store: map<string, Analise>, a: Analise): (r: Option<map<string, Analise>>)
    ensures a.id.None? <==> r.None?
    ensures r.Some? ==> a.id.value in r.value && r.value[a.id.value] == a
    ensures r.Some? ==> forall k :: k in store && k != a.id.value ==> k in r.value && r.value[k] == store[k]
    ensures r.Some? ==> r.value.Keys == store.Keys + {a.id.value}
    ensures r.Some? && Keyed(store) ==> Keyed(r.value)
  {
    if a.id.Some? then Some(store[a.id.value := a]) else None
  }

  /** After a put and a reload, the new record is on the list and every other record still is. */
  lemma PutThenListShowsRecord(store: map<string, Analise>, a: Analise, s: seq<Analise>)
    requires Put(store, a).Some? && Lists(s, Put(store, a).value)
    ensures a in s
    ensures forall k :: k in store && k != a.id.value ==> store[k] in s
  {
    var after := Put(store, a).value;
    assert after[a.id.value] == a;
    forall k | k in store && k != a.id.value
      ensures store[k] in s
    {
      assert after[k] == store[k];
    }
  }

  /** The state of the application once signed in. */
  class AppState {
    var activeTab: Aba
    var analyses: seq<Analise>
    var editingAnalysis: Option<Analise>
    var loading: bool
    var store: map<string, Analise>
    /** How `new Date(...)` reads a creation timestamp. */
    const tempo: Option<string> -> int

    /** The database keys every record by its id, and the list shown is newest first. */
    ghost predicate Valid()
      reads this
    {
      Keyed(store) && NewestFirst(analyses, tempo)
    }

    constructor (store0: map<string, Analise>, tempo: Option<string> -> int)
      requires Keyed(store0)
      ensures Valid()
      ensures activeTab == DashboardTab && analyses == [] && editingAnalysis.None? && loading
      ensures store == store0 && this.tempo == tempo
    {
      activeTab := DashboardTab;
      analyses := [];
      editingAnalysis := None;
      loading := true;
      store := store0;
      this.tempo := tempo;
    }

    /** `loadData`: a rejected `getAll` (`None`) keeps the list; either way loading ends. */
    method LoadData(fetched: Option<seq<Analise>>)
      requires Valid()
      modifies this
      ensures Valid()
      ensures fetched.Some? ==> multiset(analyses) == multiset(fetched.value)
      ensures fetched.None? ==> analyses == old(analyses)
      ensures !loading
      ensures activeTab == old(activeTab) && editingAnalysis == old(editingAnalysis) && store == old(store)
    {
      if fetched.Some? {
        analyses := SortNewestFirst(fetched.value, tempo);
      }
      loading := false;
    }

    /** `handleTabChange`: opening the `new` tab starts a blank form. */
    method HandleTabChange(tab: Aba)
      requires Valid()
      modifies this
      ensures Valid()
      ensures activeTab == tab
      ensures editingAnalysis == if tab == NewTab then None else old(editingAnalysis)
      ensures analyses == old(analyses) && store == old(store) && loading == old(loading)
    {
      if tab == NewTab {
        editingAnalysis := None;
      }
      activeTab := tab;
    }

    /** `handleEdit`: open the form on `item`. */
    method HandleEdit(item: Analise)
      requires Valid()
      modifies this
      ensures Valid()
      ensures editingAnalysis == Some(item) && activeTab == NewTab
      ensures analyses == old(analyses) && store == old(store) && loading == old(loading)
    {
      editingAnalysis := Some(item);
      activeTab := NewTab;
    }

    /**
     * `handleSave`: store the record, reload, then show the list with no record
     * being edited. A failed write changes nothing on screen.
     */
    method HandleSave(data: Analise, writeFails: bool, fetched: Option<seq<Analise>>)
      requires Valid()
      requires !writeFails && Put(store, data).Some? && fetched.Some? ==> Lists(fetched.value, Put(store, data).value)
      modifies this
      ensures Valid()
      ensures old(Put(store, data)).None? || writeFails ==>
        && store == old(store) && analyses == old(analyses) && activeTab == old(activeTab)
        && editingAnalysis == old(editingAnalysis) && loading == old(loading)
      ensures old(Put(store, data)).Some? && !writeFails ==>
        && store == old(Put(store, data)).value
        && activeTab == ListTab && editingAnalysis.None? && !loading
        && (fetched.Some? ==> data in analyses && Lists(analyses, store))
        && (fetched.None? ==> analyses == old(analyses))
    {
      var put := Put(store, data);
      if put.None? || writeFails {
        return;
      }
      store := put.value;
      LoadData(fetched);
      if fetched.Some? {
        ListedAfterSort(fetched.value, analyses, store);
        PutThenListShowsRecord(old(store), data, fetched.value);
      }
      activeTab := ListTab;
      editingAnalysis := None;
    }

    /**
     * `handleDelete`: an empty id or a cancelled confirmation does nothing;
     * otherwise the records of that id leave the list at once, and the
     * database follows. A failed delete reloads the list.
     */
    method HandleDelete(id: string, confirmed: bool, deleteFails: bool, fetched: Option<seq<Analise>>)
      requires Valid()
      requires id != "" && confirmed && deleteFails && fetched.Some? ==> Lists(fetched.value, store)
      modifies this
      ensures Valid()
      ensures activeTab == old(activeTab) && editingAnalysis == old(editingAnalysis)
      ensures id == "" || !confirmed ==>
        && analyses == old(analyses) && store == old(store) && loading == old(loading)
      ensures id != "" && confirmed && !deleteFails ==>
        && analyses == WithoutId(old(analyses), id) && store == old(store) - {id} && loading == old(loading)
      ensures id != "" && confirmed && deleteFails ==>
        && store == old(store) && !loading
        && (fetched.Some? ==> multiset(analyses) == multiset(fetched.value) && Lists(analyses, store))
        && (fetched.None? ==> analyses == WithoutId(old(analyses), id))
    {
      if id == "" {
        return;
      }
      if confirmed {
        WithoutIdKeepsNewestFirst(analyses, id, tempo);
        analyses := WithoutId(analyses, id);
        if deleteFails {
          LoadData(fetched);
          if fetched.Some? {
            ListedAfterSort(fetched.value, analyses, store);
          }
        } else {
          store := store - {id};
        }
      }
    }

    /**
     * `handleDuplicate`: store a copy under a fresh id, reload and show the
     * list. A failed write changes nothing.
     */
    method HandleDuplicate(item: Analise, freshId: string, now: string, writeFails: bool, fetched: Option<seq<Analise>>)
      requires Valid()
      requires freshId !in store
      requires !writeFails && fetched.Some? ==> Lists(fetched.value, store[freshId := Duplicate(item, freshId, now)])
      modifies this
      ensures Valid()
      ensures editingAnalysis == old(editingAnalysis)
      ensures writeFails ==>
        && store == old(store) && analyses == old(analyses) && activeTab == old(activeTab) && loading == old(loading)
      ensures !writeFails ==>
        && store == old(store)[freshId := Duplicate(item, freshId, now)]
        && |store| == |old(store)| + 1
        && activeTab == ListTab && !loading
        && (fetched.Some? ==> Duplicate(item, freshId, now) in analyses && Lists(analyses, store))
        && (fetched.None? ==> analyses == old(analyses))
    {
      var copy := Duplicate(item, freshId, now);
      if writeFails {
        return;
      }
      store := Put(store, copy).value;
      LoadData(fetched);
      if fetched.Some? {
        ListedAfterSort(fetched.value, analyses, store);
        PutThenListShowsRecord(old(store), copy, fetched.value);
      }
      activeTab := ListTab;
    }
  }

  /** Reordering a listing keeps it a listing. */
  lemma ListedAfterSort(s: seq<Analise>, t: seq<Analise>, store: map<string, Analise>)
    requires Lists(s, store) && multiset(t) == multiset(s)
    ensures Lists(t, store)
  {
    forall a
      ensures a in t <==> a in store.Values
    {
      assert a in t <==> a in multiset(t);
      assert a in s <==> a in multiset(s);
    }
  }
}
