/**
 * The running statistics of the session: per medication name the quantity
 * and revenue sold, per variant the same two totals, and the best seller.
 * Every figure is a fold over the lines of the committed sales.
 */
module Estatisticas {
  import opened Wrappers
  import opened Dicts
  import opened Entidades
  import opened Carrinho

  /** `(quantidade_vendida, valor_total)` of one medication. */
  datatype Totais = Totais(qtde: int, valor: real)

  /** `estatisticas_itens_vendidos`: name to totals, in the order the names were first sold. */
  type PorNome = Dict<string, Totais>

  const Zero: Totais := Totais(0, 0.0)

  /** One line's update: `stats[nome] = (qtd_antiga + qt, valor_antigo + preco * qt)`. */
  function Registrar(stats: PorNome, it: Item): PorNome {
    var ant := GetOr(stats, it.med.nome, Zero);
    Put(stats, it.med.nome, Totais(ant.qtde + it.qtde, ant.valor + ValorLinha(it)))
  }

  /** `Registrar` with the previous totals of the name given by the caller. */
  lemma RegistrarComAnterior(stats: PorNome, it: Item, ant: Totais)
    requires ant == GetOr(stats, it.med.nome, Zero)
    ensures Registrar(stats, it) == Put(stats, it.med.nome, Totais(ant.qtde + it.qtde, ant.valor + ValorLinha(it)))
  {
  }

  /**
   * After one line, its name looks up the previous totals, or zero when the
   * name was new, grown by the line's quantity and value; every other name
   * looks up what it did before.
   */
  lemma RegistrarConsulta(stats: PorNome, it: Item, n: string)
    ensures Get(Registrar(stats, it), n)
         == if n == it.med.nome
            then Some(Totais(GetOr(stats, n, Zero).qtde + it.qtde, GetOr(stats, n, Zero).valor + ValorLinha(it)))
            else Get(stats, n)
  {
    var ant := GetOr(stats, it.med.nome, Zero);
    RegistrarComAnterior(stats, it, ant);
    PutGet(stats, it.med.nome, Totais(ant.qtde + it.qtde, ant.valor + ValorLinha(it)), n);
  }

  /** The lines registered one after the other, in order. */
  function RegistrarTodos(stats: PorNome, itens: seq<Item>): PorNome {
    if itens == [] then stats
    else Registrar(RegistrarTodos(stats, itens[..|itens| - 1]), itens[|itens| - 1])
  }

  lemma {:induction false} RegistrarTodosConcat(stats: PorNome, a: seq<Item>, b: seq<Item>)
    ensures RegistrarTodos(stats, a + b) == RegistrarTodos(RegistrarTodos(stats, a), b)
  {
    if b == [] {
      assert a + b == a;
    } else {
      assert (a + b)[..|a + b| - 1] == a + b[..|b| - 1];
      RegistrarTodosConcat(stats, a, b[..|b| - 1]);
    }
  }

  function QtdeDe(stats: PorNome, nome: string): int {
    GetOr(stats, nome, Zero).qtde
  }

  function ValorDe(stats: PorNome, nome: string): real {
    GetOr(stats, nome, Zero).valor
  }

  /** The quantity of the lines that sell the medication `nome`. */
  function QtdeVendida(itens: seq<Item>, nome: string): int {
    if itens == [] then 0
    else
      var ult := itens[|itens| - 1];
      QtdeVendida(itens[..|itens| - 1], nome) + (if ult.med.nome == nome then ult.qtde else 0)
  }

  /** The revenue of the lines that sell the medication `nome`. */
  function ValorVendido(itens: seq<Item>, nome: string): real {
    if itens == [] then 0.0
    else
      var ult := itens[|itens| - 1];
      ValorVendido(itens[..|itens| - 1], nome) + (if ult.med.nome == nome then ValorLinha(ult) else 0.0)
  }

  /** Each name's entry grows by exactly the quantity and revenue of its lines; a missing entry starts at zero. */
  lemma {:induction false} RegistrarTodosPorNome(stats: PorNome, itens: seq<Item>, nome: string)
    ensures QtdeDe(RegistrarTodos(stats, itens), nome) == QtdeDe(stats, nome) + QtdeVendida(itens, nome)
    ensures ValorDe(RegistrarTodos(stats, itens), nome) == ValorDe(stats, nome) + ValorVendido(itens, nome)
  {
    if itens != [] {
      var init, it := itens[..|itens| - 1], itens[|itens| - 1];
      RegistrarTodosPorNome(stats, init, nome);
      var antes := RegistrarTodos(stats, init);
      var ant := GetOr(antes, it.med.nome, Zero);
      RegistrarComAnterior(antes, it, ant);
      PutGet(antes, it.med.nome, Totais(ant.qtde + it.qtde, ant.valor + ValorLinha(it)), nome);
    }
  }

  lemma {:induction false} RegistrarDistinct(stats: PorNome, it: Item)
    requires DistinctKeys(stats)
    ensures DistinctKeys(Registrar(stats, it))
  {
    var ant := GetOr(stats, it.med.nome, Zero);
    var novo := Totais(ant.qtde + it.qtde, ant.valor + ValorLinha(it));
    assert Registrar(stats, it) == Put(stats, it.med.nome, novo);
    PutDistinct(stats, it.med.nome, novo);
    assert DistinctKeys(Put(stats, it.med.nome, novo));
  }

  lemma {:induction false} RegistrarTodosDistinct(stats: PorNome, itens: seq<Item>)
    requires DistinctKeys(stats)
    ensures DistinctKeys(RegistrarTodos(stats, itens))
  {
    if itens != [] {
      var init := itens[..|itens| - 1];
      RegistrarTodosDistinct(stats, init);
      RegistrarDistinct(RegistrarTodos(stats, init), itens[|itens| - 1]);
    }
  }

  /** The quantity over all entries of the map. */
  function SomaQtdes(stats: PorNome): int {
    if stats == [] then 0 else stats[0].1.qtde + SomaQtdes(stats[1..])
  }

  /** The quantity over all lines. */
  function QtdeTotal(itens: seq<Item>): int {
    if itens == [] then 0 else QtdeTotal(itens[..|itens| - 1]) + itens[|itens| - 1].qtde
  }

  /** Overwriting or adding one entry changes the sum by the new quantity less the old one. */
  lemma {:induction false} SomaQtdesPut(stats: PorNome, k: string, v: Totais)
    requires DistinctKeys(stats)
    ensures SomaQtdes(Put(stats, k, v)) == SomaQtdes(stats) - QtdeDe(stats, k) + v.qtde
  {
    if stats != [] {
      var t := stats[1..];
      assert DistinctKeys(t) by {
        forall a, b | 0 <= a < b < |t| ensures t[a].0 != t[b].0 {
          assert t[a] == stats[a + 1] && t[b] == stats[b + 1];
        }
      }
      if stats[0].0 == k {
        assert ([(k, v)] + t)[1..] == t;
      } else {
        SomaQtdesPut(t, k, v);
        assert ([stats[0]] + Put(t, k, v))[1..] == Put(t, k, v);
      }
    }
  }

  lemma {:induction false} SomaQtdesRegistrar(stats: PorNome, it: Item)
    requires DistinctKeys(stats)
    ensures SomaQtdes(Registrar(stats, it)) == SomaQtdes(stats) + it.qtde
  {
    var ant := GetOr(stats, it.med.nome, Zero);
    var novo := Totais(ant.qtde + it.qtde, ant.valor + ValorLinha(it));
    assert Registrar(stats, it) == Put(stats, it.med.nome, novo);
    SomaQtdesPut(stats, it.med.nome, novo);
    assert SomaQtdes(Put(stats, it.med.nome, novo)) == SomaQtdes(stats) - ant.qtde + novo.qtde;
  }

  /** The per-name quantities add up to the quantity of all lines registered. */
  lemma {:induction false} SomaQtdesRegistrarTodos(stats: PorNome, itens: seq<Item>)
    requires DistinctKeys(stats)
    ensures SomaQtdes(RegistrarTodos(stats, itens)) == SomaQtdes(stats) + QtdeTotal(itens)
  {
    if itens != [] {
      var init := itens[..|itens| - 1];
      SomaQtdesRegistrarTodos(stats, init);
      RegistrarTodosDistinct(stats, init);
      SomaQtdesRegistrar(RegistrarTodos(stats, init), itens[|itens| - 1]);
    }
  }

  /** `total_quimio_vendido_qtde`, `total_quimio_vendido_valor` and the two phytotherapy counters. */
  datatype Categorias = Categorias(quimioQtde: int, quimioValor: real, fitoQtde: int, fitoValor: real)

  const SemVendas: Categorias := Categorias(0, 0.0, 0, 0.0)

  /** A line goes to the counters of its variant. */
  function RegistrarCategoria(c: Categorias, it: Item): Categorias {
    match it.med
    case Quimioterapico(_, _, _, _, _, _) =>
      c.(quimioQtde := c.quimioQtde + it.qtde, quimioValor := c.quimioValor + ValorLinha(it))
    case Fitoterapico(_, _, _, _, _) =>
      c.(fitoQtde := c.fitoQtde + it.qtde, fitoValor := c.fitoValor + ValorLinha(it))
  }

  function RegistrarCategorias(c: Categorias, itens: seq<Item>): Categorias {
    if itens == [] then c
    else RegistrarCategoria(RegistrarCategorias(c, itens[..|itens| - 1]), itens[|itens| - 1])
  }

  lemma {:induction false} RegistrarCategoriasConcat(c: Categorias, a: seq<Item>, b: seq<Item>)
    ensures RegistrarCategorias(c, a + b) == RegistrarCategorias(RegistrarCategorias(c, a), b)
  {
    if b == [] {
      assert a + b == a;
    } else {
      assert (a + b)[..|a + b| - 1] == a + b[..|b| - 1];
      RegistrarCategoriasConcat(c, a, b[..|b| - 1]);
    }
  }

  /** The revenue over all lines. */
  function ValorTotal(itens: seq<Item>): real {
    if itens == [] then 0.0 else ValorTotal(itens[..|itens| - 1]) + ValorLinha(itens[|itens| - 1])
  }

  /** The quantity of the chemotherapy lines. */
  function QtdeQuimio(itens: seq<Item>): int {
    if itens == [] then 0
    else
      var ult := itens[|itens| - 1];
      QtdeQuimio(itens[..|itens| - 1]) + (if ult.med.Quimioterapico? then ult.qtde else 0)
  }

  /** The revenue of the chemotherapy lines. */
  function ValorQuimio(itens: seq<Item>): real {
    if itens == [] then 0.0
    else
      var ult := itens[|itens| - 1];
      ValorQuimio(itens[..|itens| - 1]) + (if ult.med.Quimioterapico? then ValorLinha(ult) else 0.0)
  }

  /**
   * The two categories together grow by the quantity and the revenue of all
   * lines, and the chemotherapy counters by exactly their own lines, so the
   * phytotherapy counters grow by the rest.
   */
  lemma {:induction false} CategoriasSomam(c: Categorias, itens: seq<Item>)
    ensures RegistrarCategorias(c, itens).quimioQtde + RegistrarCategorias(c, itens).fitoQtde
         == c.quimioQtde + c.fitoQtde + QtdeTotal(itens)
    ensures RegistrarCategorias(c, itens).quimioValor + RegistrarCategorias(c, itens).fitoValor
         == c.quimioValor + c.fitoValor + ValorTotal(itens)
    ensures RegistrarCategorias(c, itens).quimioQtde == c.quimioQtde + QtdeQuimio(itens)
    ensures RegistrarCategorias(c, itens).quimioValor == c.quimioValor + ValorQuimio(itens)
  {
    if itens != [] {
      CategoriasSomam(c, itens[..|itens| - 1]);
    }
  }

  /** The lines of all committed sales, oldest first. */
  function ItensDe(vendas: seq<Venda>): seq<Item> {
    if vendas == [] then [] else ItensDe(vendas[..|vendas| - 1]) + vendas[|vendas| - 1].itens
  }

  /** The round trip of the statistics: what the session history says they must be. */
  function EstatisticasDe(vendas: seq<Venda>): PorNome {
    RegistrarTodos([], ItensDe(vendas))
  }

  function CategoriasDe(vendas: seq<Venda>): Categorias {
    RegistrarCategorias(SemVendas, ItensDe(vendas))
  }

  /** Appending a sale to the history folds its lines into the figures of the history before it. */
  lemma NovaVenda(vendas: seq<Venda>, v: Venda)
    ensures EstatisticasDe(vendas + [v]) == RegistrarTodos(EstatisticasDe(vendas), v.itens)
    ensures CategoriasDe(vendas + [v]) == RegistrarCategorias(CategoriasDe(vendas), v.itens)
  {
    assert (vendas + [v])[..|vendas + [v]| - 1] == vendas;
    RegistrarTodosConcat([], ItensDe(vendas), v.itens);
    RegistrarCategoriasConcat(SemVendas, ItensDe(vendas), v.itens);
  }

  /**
   * For every history of committed sales: each name's figures are the sums
   * over the lines that sold it, the per-name quantities add up to all
   * quantities sold, and so do the two category counters.
   */
  lemma EstatisticasDoHistorico(vendas: seq<Venda>, nome: string)
    ensures QtdeDe(EstatisticasDe(vendas), nome) == QtdeVendida(ItensDe(vendas), nome)
    ensures ValorDe(EstatisticasDe(vendas), nome) == ValorVendido(ItensDe(vendas), nome)
    ensures SomaQtdes(EstatisticasDe(vendas)) == QtdeTotal(ItensDe(vendas))
    ensures CategoriasDe(vendas).quimioQtde + CategoriasDe(vendas).fitoQtde == QtdeTotal(ItensDe(vendas))
  {
    RegistrarTodosPorNome([], ItensDe(vendas), nome);
    SomaQtdesRegistrarTodos([], ItensDe(vendas));
    CategoriasSomam(SemVendas, ItensDe(vendas));
  }
}
