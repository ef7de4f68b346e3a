/**
 * The medication catalog as a dict keyed by name, the three searches of
 * `menu_buscar_medicamentos`, and the numbered choice among several results.
 */
module Catalogo {
  import opened Wrappers
  import opened Strings
  import opened Dicts
  import opened Sequences
  import opened Entidades

  type Medicamentos = Dict<string, Medicamento>

  /** The search the operator picks (options 1, 2, 3, anything else). */
  datatype Consulta =
    | PorNome(termo: string)
    | PorLaboratorio(termo: string)
    | PorDescricao(termo: string)
    | OpcaoInvalida

  /** `med.laboratorio.nome.lower() == termo.lower()`. */
  function DoLaboratorio(termo: string): Medicamento -> bool {
    (m: Medicamento) => Lower(m.laboratorio.nome) == Lower(termo)
  }

  /** `termo.lower() in med.descricao.lower()`. */
  function DescricaoContem(termo: string): Medicamento -> bool {
    (m: Medicamento) => IsSubstring(Lower(termo), Lower(m.descricao))
  }

  /** What a search returns: the matching medications in dict order. */
  function Buscar(meds: Medicamentos, q: Consulta): (r: seq<Medicamento>)
    ensures q.PorNome? ==> |r| <= 1 && (r != [] <==> q.termo in Keys(meds))
    ensures q.PorNome? ==> forall m :: m in r ==> Get(meds, q.termo) == Some(m)
    ensures q.OpcaoInvalida? ==> r == []
  {
    if meds == [] then []
    else
      match q
      case PorNome(t) => (match Get(meds, t) case Some(m) => [m] case None => [])
      case PorLaboratorio(t) => Filter(Values(meds), DoLaboratorio(t))
      case PorDescricao(t) => Filter(Values(meds), DescricaoContem(t))
      case OpcaoInvalida => []
  }

  /** The laboratory search keeps exactly the medications of that laboratory, ignoring case. */
  lemma BuscarPorLaboratorio(meds: Medicamentos, t: string, m: Medicamento)
    ensures m in Buscar(meds, PorLaboratorio(t))
        <==> m in Values(meds) && Lower(m.laboratorio.nome) == Lower(t)
  {
    FilterMembers(Values(meds), DoLaboratorio(t), m);
  }

  /** The description search keeps exactly the medications whose description contains the term, ignoring case. */
  lemma BuscarPorDescricao(meds: Medicamentos, t: string, m: Medicamento)
    ensures m in Buscar(meds, PorDescricao(t))
        <==> m in Values(meds) && IsSubstring(Lower(t), Lower(m.descricao))
  {
    FilterMembers(Values(meds), DescricaoContem(t), m);
  }

  /** An empty description term occurs in every description, so that search lists the whole catalog in dict order. */
  lemma BuscarDescricaoVazia(meds: Medicamentos)
    ensures Buscar(meds, PorDescricao("")) == Values(meds)
  {
    var vs := Values(meds);
    forall i | 0 <= i < |vs| ensures DescricaoContem("")(vs[i]) {
      assert OccursAt(Lower(""), Lower(vs[i].descricao), 0);
    }
    FilterTodos(vs, DescricaoContem(""));
  }

  /** Every search result is a medication of the catalog. */
  lemma BuscarNoCatalogo(meds: Medicamentos, q: Consulta, m: Medicamento)
    requires m in Buscar(meds, q)
    ensures m in Values(meds)
  {
    match q
    case PorNome(t) =>
      GetFound(meds, t);
      var i :| 0 <= i < |meds| && meds[i] == (t, m);
      assert Values(meds)[i] == m;
    case PorLaboratorio(t) => BuscarPorLaboratorio(meds, t, m);
    case PorDescricao(t) => BuscarPorDescricao(meds, t, m);
    case OpcaoInvalida =>
  }

  /**
   * `lista[escolha - 1]` as Python evaluates it: an index below zero counts
   * from the end, so only indexes outside `-|s| .. |s| - 1` raise IndexError.
   * A failed `int(...)` is `None`.
   */
  function IndicePython<T>(s: seq<T>, escolha: Option<int>): (r: Option<T>)
    ensures r.Some? <==> escolha.Some? && -|s| < escolha.value <= |s|
    ensures r.Some? ==> r.value == s[if escolha.value >= 1 then escolha.value - 1 else |s| + escolha.value - 1]
  {
    match escolha
    case None => None
    case Some(e) =>
      var i := e - 1;
      if 0 <= i < |s| then Some(s[i])
      else if -|s| <= i < 0 then Some(s[|s| + i])
      else None
  }

  /** Entering 0 at a numbered prompt picks the last entry instead of being rejected. */
  lemma ZeroEscolheUltimo<T>(s: seq<T>)
    requires s != []
    ensures IndicePython(s, Some(0)) == Some(s[|s| - 1])
  {
  }

  /** The numbered choice `1 .. |s|` the prompts offer; every other answer is rejected. */
  function Escolher<T>(s: seq<T>, escolha: Option<int>): (r: Option<T>)
    ensures r.Some? <==> escolha.Some? && 1 <= escolha.value <= |s|
    ensures r.Some? ==> r.value == s[escolha.value - 1]
  {
    match escolha
    case None => None
    case Some(e) => if 1 <= e <= |s| then Some(s[e - 1]) else None
  }

  /**
   * The intended choice agrees with Python's indexing on every answer it
   * accepts; the two differ exactly on the answers `-|s| + 1 .. 0`, which
   * Python takes as counting from the end.
   */
  lemma EscolherConcordaComPython<T>(s: seq<T>, escolha: Option<int>)
    ensures Escolher(s, escolha).Some? ==> IndicePython(s, escolha) == Escolher(s, escolha)
    ensures escolha.Some? && -|s| < escolha.value <= 0
        ==> Escolher(s, escolha).None? && IndicePython(s, escolha) == Some(s[|s| + escolha.value - 1])
  {
  }

  /** `escolher_laboratorio`: no laboratory registered, or an invalid number, gives `None`. */
  function EscolherLaboratorio(labs: Dict<string, Laboratorio>, escolha: Option<int>): (r: Option<Laboratorio>)
    ensures r.Some? <==> escolha.Some? && 1 <= escolha.value <= |labs|
    ensures r.Some? ==> r.value == Values(labs)[escolha.value - 1] && r.value in Values(labs)
    ensures labs == [] ==> r.None?
  {
    if labs == [] then None else Escolher(Values(labs), escolha)
  }
}
