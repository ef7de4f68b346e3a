/**
 * The in-memory store of one session and the operations that change it:
 * registration of clients, laboratories and medications, the medication
 * search, and the sale with its commit into the statistics of the day.
 * The console answers are parameters; today's date and the commit time too.
 */
module Farmacia {
  import opened Wrappers
  import opened Strings
  import opened Dicts
  import opened Sequences
  import opened Entidades
  import opened Desconto
  import opened Catalogo
  import opened Carrinho
  import opened Estatisticas

  function CpfDe(c: Cliente): string { c.cpf }
  function NomeLaboratorio(l: Laboratorio): string { l.nome }
  function NomeMedicamento(m: Medicamento): string { m.nome }

  /** How a registration ended; only `Cadastrado` inserts anything. */
  datatype Cadastro =
    | Cadastrado
    | ChaveDuplicada
    | DataInvalida
    | TipoInvalido
    | SemLaboratorio
    | LaboratorioInvalido
    | PrecoInvalido

  /** How a sale ended, with the figures shown to the operator. */
  datatype ResultadoVenda =
    | ClienteNaoCadastrado
    | NenhumItem
    | NaoConfirmada(orcamento: Orcamento, alerta: seq<string>)
    | Registrada(venda: Venda, orcamento: Orcamento, alerta: seq<string>)

  /** A committed sale: positive quantities of catalogued medications, sold to a registered client, with a discounted total. */
  ghost predicate VendaValida(v: Venda, clientes: Dict<string, Cliente>, medicamentos: Medicamentos) {
    && v.cliente in Values(clientes)
    && (forall it :: it in v.itens ==> it.qtde > 0 && it.med in Values(medicamentos))
    && 0.0 <= v.valorTotal <= Subtotal(v.itens)
  }

  class Farmacia {
    var clientes: Dict<string, Cliente>
    var laboratorios: Dict<string, Laboratorio>
    var medicamentos: Medicamentos
    var vendas: seq<Venda>
    var estatisticas: PorNome
    var categorias: Categorias

    /**
     * Each dict is keyed by its entries' own key, prices are not negative,
     * every medication's laboratory is registered, every sale is valid, and
     * the statistics are exactly the fold of the committed sales.
     */
    ghost predicate Valid()
      reads this
    {
      && KeyedBy(clientes, CpfDe)
      && KeyedBy(laboratorios, NomeLaboratorio)
      && KeyedBy(medicamentos, NomeMedicamento)
      && (forall m :: m in Values(medicamentos) ==> m.preco >= 0.0 && m.laboratorio in Values(laboratorios))
      && (forall v :: v in vendas ==> VendaValida(v, clientes, medicamentos))
      && estatisticas == EstatisticasDe(vendas)
      && categorias == CategoriasDe(vendas)
    }

    /** The empty store the program starts with. */
    constructor ()
      ensures Valid()
      ensures clientes == [] && laboratorios == [] && medicamentos == [] && vendas == []
      ensures estatisticas == [] && categorias == SemVendas
    {
      clientes := [];
      laboratorios := [];
      medicamentos := [];
      vendas := [];
      estatisticas := [];
      categorias := SemVendas;
    }

    /** `cadastrar_cliente`: a known CPF is refused before the date is parsed; `None` is a date that did not parse. */
    method CadastrarCliente(cpf: string, nome: string, nascimento: Option<Date>) returns (r: Cadastro)
      requires Valid()
      modifies this
      ensures Valid()
      ensures cpf in Keys(old(clientes)) ==> r == ChaveDuplicada
      ensures cpf !in Keys(old(clientes)) && nascimento.None? ==> r == DataInvalida
      ensures r == Cadastrado <==> cpf !in Keys(old(clientes)) && nascimento.Some?
      ensures r == Cadastrado ==> clientes == old(clientes) + [(cpf, Cliente(cpf, nome, nascimento.value))]
      ensures r != Cadastrado ==> clientes == old(clientes)
      ensures laboratorios == old(laboratorios) && medicamentos == old(medicamentos)
      ensures vendas == old(vendas) && estatisticas == old(estatisticas) && categorias == old(categorias)
    {
      if cpf in Keys(clientes) {
        return ChaveDuplicada;
      }
      if nascimento.None? {
        return DataInvalida;
      }
      var novo := Cliente(cpf, nome, nascimento.value);
      PutNew(clientes, CpfDe, novo);
      clientes := Put(clientes, cpf, novo);
      r := Cadastrado;
      forall v | v in vendas ensures VendaValida(v, clientes, medicamentos) {
        assert VendaValida(v, old(clientes), medicamentos);
      }
    }

    /** `cadastrar_laboratorio`: a known name is refused; the state is stored upper-cased. */
    method CadastrarLaboratorio(nome: string, endereco: string, telefone: string, cidade: string, estado: string)
      returns (r: Cadastro)
      requires Valid()
      modifies this
      ensures Valid()
      ensures r == Cadastrado <==> nome !in Keys(old(laboratorios))
      ensures r != Cadastrado ==> r == ChaveDuplicada && laboratorios == old(laboratorios)
      ensures r == Cadastrado ==>
        laboratorios == old(laboratorios) + [(nome, Laboratorio(nome, endereco, telefone, cidade, Upper(estado)))]
      ensures clientes == old(clientes) && medicamentos == old(medicamentos)
      ensures vendas == old(vendas) && estatisticas == old(estatisticas) && categorias == old(categorias)
    {
      if nome in Keys(laboratorios) {
        return ChaveDuplicada;
      }
      var lab := Laboratorio(nome, endereco, telefone, cidade, Upper(estado));
      PutNew(laboratorios, NomeLaboratorio, lab);
      laboratorios := Put(laboratorios, nome, lab);
      r := Cadastrado;
    }

    /**
     * `cadastrar_medicamento`. The checks come in the order of the prompts:
     * the type, the name, the laboratory number, the price (`None` when it
     * does not parse). "Q" inserts a chemotherapy medication whose flag is
     * the answer "S", "F" a phytotherapy one.
     */
    method CadastrarMedicamento(tipo: string, nome: string, composto: string, escolhaLaboratorio: Option<int>,
                                descricao: string, preco: Option<real>, receita: string)
      returns (r: Cadastro)
      requires Valid()
      modifies this
      ensures Valid()
      ensures Upper(tipo) != "Q" && Upper(tipo) != "F" ==> r == TipoInvalido
      ensures (Upper(tipo) == "Q" || Upper(tipo) == "F") && nome in Keys(old(medicamentos)) ==> r == ChaveDuplicada
      ensures r == SemLaboratorio ==> laboratorios == []
      ensures (Upper(tipo) == "Q" || Upper(tipo) == "F") && nome !in Keys(old(medicamentos))
        && EscolherLaboratorio(laboratorios, escolhaLaboratorio).None?
        ==> r == (if laboratorios == [] then SemLaboratorio else LaboratorioInvalido)
      ensures (Upper(tipo) == "Q" || Upper(tipo) == "F") && nome !in Keys(old(medicamentos))
        && EscolherLaboratorio(laboratorios, escolhaLaboratorio).Some?
        && (preco.None? || preco.value < 0.0)
        ==> r == PrecoInvalido
      ensures r == Cadastrado <==>
        && (Upper(tipo) == "Q" || Upper(tipo) == "F")
        && nome !in Keys(old(medicamentos))
        && EscolherLaboratorio(laboratorios, escolhaLaboratorio).Some?
        && preco.Some? && preco.value >= 0.0
      ensures r == Cadastrado ==>
        var lab := EscolherLaboratorio(laboratorios, escolhaLaboratorio).value;
        medicamentos == old(medicamentos) + [(nome,
          if Upper(tipo) == "Q" then Quimioterapico(nome, composto, lab, descricao, preco.value, Sim(receita))
          else Fitoterapico(nome, composto, lab, descricao, preco.value))]
      ensures r != Cadastrado ==> medicamentos == old(medicamentos)
      ensures clientes == old(clientes) && laboratorios == old(laboratorios)
      ensures vendas == old(vendas) && estatisticas == old(estatisticas) && categorias == old(categorias)
    {
      var t := Upper(tipo);
      if t != "Q" && t != "F" {
        return TipoInvalido;
      }
      if nome in Keys(medicamentos) {
        return ChaveDuplicada;
      }
      var lab := EscolherLaboratorio(laboratorios, escolhaLaboratorio);
      if lab.None? {
        return if laboratorios == [] then SemLaboratorio else LaboratorioInvalido;
      }
      if preco.None? || preco.value < 0.0 {
        return PrecoInvalido;
      }
      var med: Medicamento;
      if t == "Q" {
        med := Quimioterapico(nome, composto, lab.value, descricao, preco.value, Sim(receita));
      } else {
        med := Fitoterapico(nome, composto, lab.value, descricao, preco.value);
      }
      PutNew(medicamentos, NomeMedicamento, med);
      medicamentos := Put(medicamentos, nome, med);
      r := Cadastrado;
      forall v | v in vendas ensures VendaValida(v, clientes, medicamentos) {
        assert VendaValida(v, clientes, old(medicamentos));
      }
    }

    /** `buscar_cliente_por_cpf`: `clientes.get(cpf)`. */
    function BuscarClientePorCpf(cpf: string): (r: Option<Cliente>)
      reads this
      ensures r.Some? <==> cpf in Keys(clientes)
    {
      Get(clientes, cpf)
    }

    /** In a valid store the client found is the registered client of that CPF. */
    lemma BuscarClienteEncontraOCpf(cpf: string)
      requires Valid()
      ensures BuscarClientePorCpf(cpf).Some? ==>
        BuscarClientePorCpf(cpf).value.cpf == cpf && BuscarClientePorCpf(cpf).value in Values(clientes)
    {
      if BuscarClientePorCpf(cpf).Some? {
        var c := BuscarClientePorCpf(cpf).value;
        GetFound(clientes, cpf);
        var i :| 0 <= i < |clientes| && clientes[i] == (cpf, c);
        assert Values(clientes)[i] == c;
      }
    }

    /** `menu_buscar_medicamentos`: the loops over `medicamentos.values()` collect what the search specifies. */
    method BuscarMedicamentos(q: Consulta) returns (encontrados: seq<Medicamento>)
      ensures encontrados == Buscar(medicamentos, q)
    {
      if medicamentos == [] {
        return [];
      }
      var valores := Values(medicamentos);
      encontrados := [];
      match q
      case PorNome(termo) =>
        var med := Get(medicamentos, termo);
        if med.Some? {
          encontrados := [med.value];
        }
      case PorLaboratorio(termo) =>
        var t := Lower(termo);
        for i := 0 to |valores|
          invariant encontrados == Filter(valores[..i], DoLaboratorio(termo))
        {
          FilterSnoc(valores, i, DoLaboratorio(termo));
          if Lower(valores[i].laboratorio.nome) == t {
            encontrados := encontrados + [valores[i]];
          }
        }
        assert valores[..|valores|] == valores;
      case PorDescricao(termo) =>
        var t := Lower(termo);
        for i := 0 to |valores|
          invariant encontrados == Filter(valores[..i], DescricaoContem(termo))
        {
          FilterSnoc(valores, i, DescricaoContem(termo));
          if IsSubstring(t, Lower(valores[i].descricao)) {
            encontrados := encontrados + [valores[i]];
          }
        }
        assert valores[..|valores|] == valores;
      case OpcaoInvalida =>
    }

    /**
     * One round of the add-item loop of `realizar_venda`: the search, the
     * number picked when there are several results, the quantity, and the
     * answer that decides whether the loop goes on.
     */
    method Rodada(p: Passo) returns (item: Option<Item>, continua: bool)
      ensures Efeito(item, continua) == ExecutarPasso(medicamentos, p)
    {
      var encontrados := BuscarMedicamentos(p.consulta);
      if encontrados == [] {
        return None, Sim(p.tentarOutra);
      }
      var selecionado := if |encontrados| > 1 then Escolher(encontrados, p.escolha) else Some(encontrados[0]);
      if selecionado.None? {
        return None, true;
      }
      if p.quantidade.None? || p.quantidade.value <= 0 {
        return None, true;
      }
      item := Some(Item(selecionado.value, p.quantidade.value));
      continua := Sim(p.adicionarOutro);
    }

    /** Puts the round's line, if any, in the cart and updates the running subtotal and the alert. */
    static method Acrescentar(itens: seq<Item>, subtotal: real, temControlado: bool, nomes: seq<string>, item: Option<Item>)
      returns (itens': seq<Item>, subtotal': real, temControlado': bool, nomes': seq<string>)
      requires subtotal == Subtotal(itens) && nomes == NomesControlados(itens)
      requires temControlado <==> nomes != []
      ensures itens' == itens + (if item.Some? then [item.value] else [])
      ensures subtotal' == Subtotal(itens') && nomes' == NomesControlados(itens')
      ensures temControlado' <==> nomes' != []
    {
      itens', subtotal', temControlado', nomes' := itens, subtotal, temControlado, nomes;
      if item.Some? {
        var it := item.value;
        AdicionarLinha(itens, it);
        itens' := itens + [it];
        subtotal' := subtotal + ValorLinha(it);
        if Controlado(it.med) {
          temControlado' := true;
          nomes' := nomes + [it.med.nome];
        }
      }
    }

    /**
     * The add-item loop of `realizar_venda`, one round per answer set until
     * the operator stops: the cart, its running subtotal and the
     * prescription alert, exactly as `Coletar` builds them.
     */
    method ColetarItens(passos: seq<Passo>)
      returns (itens: seq<Item>, subtotal: real, temControlado: bool, nomes: seq<string>)
      ensures itens == Coletar(medicamentos, passos)
      ensures subtotal == Subtotal(itens)
      ensures nomes == NomesControlados(itens)
      ensures temControlado <==> nomes != []
    {
      itens, subtotal, temControlado, nomes := [], 0.0, false, [];
      var i := 0;
      var parou := false;
      assert itens + Coletar(medicamentos, passos[0..]) == Coletar(medicamentos, passos) by {
        assert passos[0..] == passos;
      }
      while i < |passos| && !parou
        invariant 0 <= i <= |passos|
        invariant !parou ==> itens + Coletar(medicamentos, passos[i..]) == Coletar(medicamentos, passos)
        invariant parou ==> itens == Coletar(medicamentos, passos)
        invariant subtotal == Subtotal(itens)
        invariant nomes == NomesControlados(itens)
        invariant temControlado <==> nomes != []
        decreases |passos| - i
      {
        var item, continua := Rodada(passos[i]);
        ghost var antes := itens;
        itens, subtotal, temControlado, nomes := Acrescentar(itens, subtotal, temControlado, nomes, item);
        ColetarAvanca(medicamentos, passos, i, antes, Efeito(item, continua), itens);
        parou := !continua;
        i := i + 1;
      }
      if !parou {
        assert passos[i..] == [] && itens + [] == itens;
      }
    }

    /**
     * `realizar_venda`. An unknown CPF, an empty cart or a confirmation other
     * than "S" change nothing; otherwise one sale is appended with the
     * discounted total, and every line is folded into the per-name
     * statistics and into the counters of its variant.
     */
    method RealizarVenda(cpf: string, passos: seq<Passo>, confirmacao: string, hoje: Date, agora: DateTime)
      returns (r: ResultadoVenda)
      requires Valid()
      modifies this
      ensures Valid()
      ensures clientes == old(clientes) && laboratorios == old(laboratorios) && medicamentos == old(medicamentos)
      ensures cpf !in Keys(clientes) ==> r == ClienteNaoCadastrado
      ensures cpf in Keys(clientes) ==>
        var cli := BuscarClientePorCpf(cpf).value;
        var itens := Coletar(medicamentos, passos);
        var orcamento := Orcar(Idade(cli, hoje), Subtotal(itens));
        if itens == [] then r == NenhumItem
        else if !Sim(confirmacao) then r == NaoConfirmada(orcamento, NomesControlados(itens))
        else r == Registrada(Venda(agora, itens, cli, orcamento.totalFinal), orcamento, NomesControlados(itens))
      ensures !r.Registrada? ==> vendas == old(vendas) && estatisticas == old(estatisticas) && categorias == old(categorias)
      ensures r.Registrada? ==>
        && vendas == old(vendas) + [r.venda]
        && estatisticas == RegistrarTodos(old(estatisticas), r.venda.itens)
        && categorias == RegistrarCategorias(old(categorias), r.venda.itens)
    {
      var cliente := BuscarClientePorCpf(cpf);
      if cliente.None? {
        return ClienteNaoCadastrado;
      }
      var itens, subtotal, temControlado, nomes := ColetarItens(passos);
      if itens == [] {
        return NenhumItem;
      }
      var orcamento := Orcar(Idade(cliente.value, hoje), subtotal);
      if !Sim(confirmacao) {
        return NaoConfirmada(orcamento, nomes);
      }
      var venda := Venda(agora, itens, cliente.value, orcamento.totalFinal);
      ColetarDoCatalogo(medicamentos, passos);
      SubtotalNaoNegativo(itens);
      GetFound(clientes, cpf);
      EntryInValues(clientes, cpf, cliente.value);
      RegistrarVenda(venda);
      r := Registrada(venda, orcamento, nomes);
    }

    /**
     * The commit of a sale: the sale is appended to `vendas` and each line
     * is folded into the per-name statistics and the category counters.
     */
    method RegistrarVenda(venda: Venda)
      requires Valid() && VendaValida(venda, clientes, medicamentos)
      modifies this
      ensures Valid()
      ensures vendas == old(vendas) + [venda]
      ensures estatisticas == RegistrarTodos(old(estatisticas), venda.itens)
      ensures categorias == RegistrarCategorias(old(categorias), venda.itens)
      ensures clientes == old(clientes) && laboratorios == old(laboratorios) && medicamentos == old(medicamentos)
    {
      NovaVenda(vendas, venda);
      vendas := vendas + [venda];
      AtualizarEstatisticas(venda.itens);
    }

    /** The `for med, qt in itens_venda` loop of the commit. */
    method AtualizarEstatisticas(itens: seq<Item>)
      modifies this
      ensures estatisticas == RegistrarTodos(old(estatisticas), itens)
      ensures categorias == RegistrarCategorias(old(categorias), itens)
      ensures clientes == old(clientes) && laboratorios == old(laboratorios) && medicamentos == old(medicamentos)
      ensures vendas == old(vendas)
    {
      for j := 0 to |itens|
        invariant estatisticas == RegistrarTodos(old(estatisticas), itens[..j])
        invariant categorias == RegistrarCategorias(old(categorias), itens[..j])
        invariant clientes == old(clientes) && laboratorios == old(laboratorios) && medicamentos == old(medicamentos)
        invariant vendas == old(vendas)
      {
        assert itens[..j + 1][..j] == itens[..j];
        RegistrarLinha(itens[j]);
      }
      assert itens[..|itens|] == itens;
    }

    /** One round of that loop: the line's name entry, defaulting to zero, and the counters of its variant. */
    method RegistrarLinha(it: Item)
      modifies this
      ensures estatisticas == Registrar(old(estatisticas), it)
      ensures categorias == RegistrarCategoria(old(categorias), it)
      ensures clientes == old(clientes) && laboratorios == old(laboratorios) && medicamentos == old(medicamentos)
      ensures vendas == old(vendas)
    {
      var med, qt := it.med, it.qtde;
      var ant := GetOr(estatisticas, med.nome, Zero);
      RegistrarComAnterior(estatisticas, it, ant);
      estatisticas := Put(estatisticas, med.nome, Totais(ant.qtde + qt, ant.valor + ValorLinha(it)));
      assert estatisticas == Registrar(old(estatisticas), it);
      if med.Quimioterapico? {
        categorias := categorias.(quimioQtde := categorias.quimioQtde + qt,
                                  quimioValor := categorias.quimioValor + ValorLinha(it));
      } else if med.Fitoterapico? {
        categorias := categorias.(fitoQtde := categorias.fitoQtde + qt,
                                  fitoValor := categorias.fitoValor + ValorLinha(it));
      }
    }
  }
}
