/**
 * The reports: the client and medication listings sorted by lower-cased
 * name, the listing of one variant, and the end-of-day report with the
 * number of sales, the best seller and the category counters.
 */
module Relatorios {
  import opened Wrappers
  import opened Strings
  import opened Dicts
  import opened Sequences
  import opened Sorting
  import opened Entidades
  import opened Catalogo
  import opened Carrinho
  import opened Estatisticas

  /** The sort key `c.nome.lower()`. */
  function ChaveCliente(c: Cliente): string { Lower(c.nome) }

  /** The sort key `m.nome.lower()`. */
  function ChaveMedicamento(m: Medicamento): string { Lower(m.nome) }

  /** `listar_clientes`: the registered clients, A to Z. */
  function ListarClientes(clientes: Dict<string, Cliente>): (r: seq<Cliente>)
    ensures multiset(r) == multiset(Values(clientes))
    ensures SortedBy(r, ChaveCliente)
  {
    SortBy(Values(clientes), ChaveCliente)
  }

  /** Clients whose lower-cased names are equal stay in the order they were registered. */
  lemma ListarClientesEstavel(clientes: Dict<string, Cliente>, nome: string)
    ensures Filter(ListarClientes(clientes), HasKey(ChaveCliente, nome))
         == Filter(Values(clientes), HasKey(ChaveCliente, nome))
  {
    SortStable(Values(clientes), ChaveCliente, nome);
  }

  /** `listar_todos_medicamentos`: every medication of the catalog, A to Z. */
  function ListarTodosMedicamentos(meds: Medicamentos): (r: seq<Medicamento>)
    ensures multiset(r) == multiset(Values(meds))
    ensures SortedBy(r, ChaveMedicamento)
  {
    SortBy(Values(meds), ChaveMedicamento)
  }

  lemma ListarTodosMedicamentosEstavel(meds: Medicamentos, nome: string)
    ensures Filter(ListarTodosMedicamentos(meds), HasKey(ChaveMedicamento, nome))
         == Filter(Values(meds), HasKey(ChaveMedicamento, nome))
  {
    SortStable(Values(meds), ChaveMedicamento, nome);
  }

  /** The `isinstance` test of a listing: chemotherapy or phytotherapy. */
  function DoTipo(quimio: bool): Medicamento -> bool {
    (m: Medicamento) => if quimio then m.Quimioterapico? else m.Fitoterapico?
  }

  /**
   * `listar_medicamentos_por_tipo` of the modular program: with an empty
   * catalog nothing is asked and nothing listed; a type other than "Q" or
   * "F" (after `.upper()`) is rejected with `None`; otherwise the sorted
   * catalog is walked and the medications of that variant are listed.
   */
  function ListarMedicamentosPorTipo(meds: Medicamentos, tipo: string): (r: Option<seq<Medicamento>>)
    ensures meds == [] ==> r == Some([])
    ensures meds != [] ==> (r.None? <==> Upper(tipo) != "Q" && Upper(tipo) != "F")
  {
    if meds == [] then Some([])
    else if Upper(tipo) != "Q" && Upper(tipo) != "F" then None
    else Some(Filter(ListarTodosMedicamentos(meds), DoTipo(Upper(tipo) == "Q")))
  }

  /**
   * `listar_medicamentos_por_tipo` of the monolithic program: option "1"
   * lists the chemotherapy medications, "2" the phytotherapy ones, each
   * collected first and then sorted; any other option lists nothing.
   */
  function ListarPorTipoMonolito(meds: Medicamentos, escolha: string): (r: Option<seq<Medicamento>>)
    ensures r.None? <==> meds != [] && escolha != "1" && escolha != "2"
    ensures r.Some? ==> SortedBy(r.value, ChaveMedicamento)
    ensures meds == [] ==> r == Some([])
    ensures r.Some? ==> multiset(r.value) == multiset(Filter(Values(meds), DoTipo(escolha == "1")))
  {
    if meds == [] then Some([])
    else if escolha == "1" then Some(SortBy(Filter(Values(meds), DoTipo(true)), ChaveMedicamento))
    else if escolha == "2" then Some(SortBy(Filter(Values(meds), DoTipo(false)), ChaveMedicamento))
    else None
  }

  /**
   * A listing of one variant is sorted and holds exactly the medications of
   * that variant, each as often as in the catalog.
   */
  lemma ListarPorTipoExato(meds: Medicamentos, tipo: string, m: Medicamento)
    requires ListarMedicamentosPorTipo(meds, tipo).Some?
    ensures var r := ListarMedicamentosPorTipo(meds, tipo).value;
      && SortedBy(r, ChaveMedicamento)
      && multiset(r) == multiset(Filter(Values(meds), DoTipo(Upper(tipo) == "Q")))
      && (m in r <==> m in Values(meds) && (if Upper(tipo) == "Q" then m.Quimioterapico? else m.Fitoterapico?))
  {
    var p := DoTipo(Upper(tipo) == "Q");
    SortFilterCommute(Values(meds), ChaveMedicamento, p);
    FilterMembers(Values(meds), p, m);
    var r := ListarMedicamentosPorTipo(meds, tipo).value;
    if meds != [] {
      assert r == SortBy(Filter(Values(meds), p), ChaveMedicamento);
      assert m in r <==> m in multiset(r);
    }
  }

  /**
   * The two programs list the same medications in the same order: sorting
   * and then keeping one variant equals keeping it and then sorting.
   */
  lemma ListagensConcordam(meds: Medicamentos)
    ensures ListarPorTipoMonolito(meds, "1") == ListarMedicamentosPorTipo(meds, "Q")
    ensures ListarPorTipoMonolito(meds, "2") == ListarMedicamentosPorTipo(meds, "F")
  {
    assert Upper("Q") == "Q" && Upper("F") == "F";
    SortFilterCommute(Values(meds), ChaveMedicamento, DoTipo(true));
    SortFilterCommute(Values(meds), ChaveMedicamento, DoTipo(false));
  }

  /**
   * Python's `max(stats.items(), key=quantity)`: the position of an entry of
   * largest quantity, the first one when several tie.
   */
  function IndiceMaisVendido(stats: PorNome): (k: nat)
    requires stats != []
    ensures k < |stats|
    ensures forall i :: 0 <= i < |stats| ==> stats[i].1.qtde <= stats[k].1.qtde
    ensures forall i :: 0 <= i < k ==> stats[i].1.qtde < stats[k].1.qtde
  {
    if |stats| == 1 then 0
    else
      var j := IndiceMaisVendido(stats[..|stats| - 1]);
      if stats[|stats| - 1].1.qtde > stats[j].1.qtde then |stats| - 1 else j
  }

  /**
   * The best seller with its totals, or nothing when nothing was sold. No
   * entry sold more, and every entry that sold as much comes after it.
   */
  function MaisVendido(stats: PorNome): (r: Option<(string, Totais)>)
    ensures r.None? <==> stats == []
    ensures r.Some? ==> r.value in stats
    ensures r.Some? ==> forall e :: e in stats ==> e.1.qtde <= r.value.1.qtde
    ensures r.Some? ==> forall i :: 0 <= i < |stats| && stats[i].1.qtde == r.value.1.qtde ==> r.value in stats[..i + 1]
  {
    if stats == [] then None
    else
      var k := IndiceMaisVendido(stats);
      assert forall i :: 0 <= i < |stats| && stats[i].1.qtde == stats[k].1.qtde ==> stats[..i + 1][k] == stats[k];
      Some(stats[k])
  }

  /** The end-of-day report: people served, the best seller, and the two category counters. */
  datatype Relatorio = Relatorio(atendidos: nat, maisVendido: Option<(string, Totais)>, categorias: Categorias)

  /**
   * `gerar_relatorio_atendimentos_diarios` and `exibir_estatisticas_dia`:
   * one person served per committed sale.
   */
  function GerarRelatorio(vendas: seq<Venda>, stats: PorNome, categorias: Categorias): (r: Relatorio)
    ensures r.atendidos == |vendas|
    ensures r.categorias == categorias
    ensures r.maisVendido == MaisVendido(stats)
    ensures r.maisVendido.None? <==> stats == []
    ensures r.maisVendido.Some? ==> r.maisVendido.value in stats
    ensures r.maisVendido.Some? ==> forall e :: e in stats ==> e.1.qtde <= r.maisVendido.value.1.qtde
    ensures r.maisVendido.Some? ==> forall i :: 0 <= i < |stats| && stats[i].1.qtde == r.maisVendido.value.1.qtde
                                     ==> r.maisVendido.value in stats[..i + 1]
  {
    Relatorio(|vendas|, MaisVendido(stats), categorias)
  }

  /** In a dict the best seller's entry is what its name looks up. */
  lemma MaisVendidoPorNome(stats: PorNome, e: (string, Totais))
    requires DistinctKeys(stats) && MaisVendido(stats) == Some(e)
    ensures QtdeDe(stats, e.0) == e.1.qtde && ValorDe(stats, e.0) == e.1.valor
  {
    var k :| 0 <= k < |stats| && stats[k] == e;
    GetEntry(stats, k);
  }

  /** No name in the dict sold more units than the best seller. */
  lemma MaisVendidoMaximo(stats: PorNome, e: (string, Totais), n: string)
    requires DistinctKeys(stats) && MaisVendido(stats) == Some(e) && n in Keys(stats)
    ensures QtdeDe(stats, n) <= e.1.qtde
  {
    var i :| 0 <= i < |stats| && Keys(stats)[i] == n;
    GetEntry(stats, i);
    assert stats[i] in stats;
  }

  /**
   * The report of a session is about its sales: the best seller's figures
   * are what its lines sold, no other name sold more units, nothing is
   * reported before the first line is sold, and the category counters add
   * up to all units sold.
   */
  lemma RelatorioDoHistorico(vendas: seq<Venda>)
    ensures var r := GerarRelatorio(vendas, EstatisticasDe(vendas), CategoriasDe(vendas));
      && (ItensDe(vendas) == [] ==> r.maisVendido.None?)
      && (r.maisVendido.Some? ==>
           && r.maisVendido.value.1.qtde == QtdeVendida(ItensDe(vendas), r.maisVendido.value.0)
           && r.maisVendido.value.1.valor == ValorVendido(ItensDe(vendas), r.maisVendido.value.0)
           && forall n :: n in Keys(EstatisticasDe(vendas)) ==>
                QtdeVendida(ItensDe(vendas), n) <= r.maisVendido.value.1.qtde)
      && r.categorias.quimioQtde + r.categorias.fitoQtde == QtdeTotal(ItensDe(vendas))
  {
    var itens := ItensDe(vendas);
    var stats := RegistrarTodos([], itens);
    CategoriasSomam(SemVendas, itens);
    RegistrarTodosDistinct([], itens);
    var mv := MaisVendido(stats);
    if mv.Some? {
      var e := mv.value;
      MaisVendidoPorNome(stats, e);
      RegistrarTodosPorNome([], itens, e.0);
      forall n | n in Keys(stats) ensures QtdeVendida(itens, n) <= e.1.qtde {
        MaisVendidoMaximo(stats, e, n);
        RegistrarTodosPorNome([], itens, n);
      }
    }
  }
}
