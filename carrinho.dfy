/**
 * The cart of `realizar_venda`: the lines added so far, their subtotal, the
 * names that need a prescription check, and what one round of the
 * add-item loop does with the operator's answers.
 */
module Carrinho {
  import opened Wrappers
  import opened Strings
  import opened Dicts
  import opened Sequences
  import opened Entidades
  import opened Catalogo

  /** `preco * qtde` of one line. */
  function ValorLinha(it: Item): real {
    it.med.preco * it.qtde as real
  }

  /** The sum of `preco * qtde` over the lines. */
  function Subtotal(itens: seq<Item>): real {
    if itens == [] then 0.0 else Subtotal(itens[..|itens| - 1]) + ValorLinha(itens[|itens| - 1])
  }

  /** With prices that are not negative and positive quantities the subtotal is not negative. */
  lemma {:induction false} SubtotalNaoNegativo(itens: seq<Item>)
    requires forall i :: 0 <= i < |itens| ==> itens[i].med.preco >= 0.0 && itens[i].qtde > 0
    ensures Subtotal(itens) >= 0.0
  {
    if itens != [] {
      SubtotalNaoNegativo(itens[..|itens| - 1]);
    }
  }

  /** The names of the prescription-only chemotherapy lines, in cart order. */
  function NomesControlados(itens: seq<Item>): seq<string> {
    if itens == [] then []
    else
      var ult := itens[|itens| - 1];
      NomesControlados(itens[..|itens| - 1]) + (if Controlado(ult.med) then [ult.med.nome] else [])
  }

  /** A name is in the alert exactly when some line is a prescription-only medication of that name. */
  lemma {:induction false} NomesControladosSpec(itens: seq<Item>, n: string)
    ensures n in NomesControlados(itens)
        <==> exists i :: 0 <= i < |itens| && Controlado(itens[i].med) && itens[i].med.nome == n
  {
    if itens != [] {
      var init := itens[..|itens| - 1];
      NomesControladosSpec(init, n);
      if exists i :: 0 <= i < |itens| && Controlado(itens[i].med) && itens[i].med.nome == n {
        var i :| 0 <= i < |itens| && Controlado(itens[i].med) && itens[i].med.nome == n;
        if i < |init| {
          assert init[i] == itens[i];
        }
      }
      if exists i :: 0 <= i < |init| && Controlado(init[i].med) && init[i].med.nome == n {
        var i :| 0 <= i < |init| && Controlado(init[i].med) && init[i].med.nome == n;
        assert itens[i] == init[i];
      }
    }
  }

  /** A cart of phytotherapy medications raises no alert. */
  lemma {:induction false} FitoterapicosSemAlerta(itens: seq<Item>)
    requires forall i :: 0 <= i < |itens| ==> itens[i].med.Fitoterapico?
    ensures NomesControlados(itens) == []
  {
    if itens != [] {
      FitoterapicosSemAlerta(itens[..|itens| - 1]);
    }
  }

  /** A yes/no answer after `.strip().upper()`: only "S" is yes. */
  predicate Sim(resposta: string) {
    Upper(resposta) == "S"
  }

  /**
   * The operator's answers in one round of the add-item loop: the search,
   * whether to search again after finding nothing, the number picked among
   * several results, the quantity (`None` when it is not an integer) and
   * whether to add another medication.
   */
  datatype Passo = Passo(consulta: Consulta, tentarOutra: string, escolha: Option<int>,
                         quantidade: Option<int>, adicionarOutro: string)

  /** What one round does: the line it adds, if any, and whether the loop goes on. */
  datatype Efeito = Efeito(item: Option<Item>, continua: bool)

  function ExecutarPasso(meds: Medicamentos, p: Passo): (e: Efeito)
    ensures e.item.Some? ==> e.item.value.qtde > 0 && p.quantidade == Some(e.item.value.qtde)
    ensures e.item.Some? ==> e.item.value.med in Buscar(meds, p.consulta)
    ensures e.item.Some? ==> e.continua == Sim(p.adicionarOutro)
    ensures Buscar(meds, p.consulta) == [] ==> e == Efeito(None, Sim(p.tentarOutra))
    ensures Buscar(meds, p.consulta) != [] && (p.quantidade.None? || p.quantidade.value <= 0)
        ==> e == Efeito(None, true)
    ensures |Buscar(meds, p.consulta)| > 1 && Escolher(Buscar(meds, p.consulta), p.escolha).None?
        ==> e == Efeito(None, true)
    ensures |Buscar(meds, p.consulta)| == 1 && p.quantidade.Some? && p.quantidade.value > 0
        ==> e == Efeito(Some(Item(Buscar(meds, p.consulta)[0], p.quantidade.value)), Sim(p.adicionarOutro))
    ensures |Buscar(meds, p.consulta)| > 1 && Escolher(Buscar(meds, p.consulta), p.escolha).Some?
            && p.quantidade.Some? && p.quantidade.value > 0
        ==> e == Efeito(Some(Item(Buscar(meds, p.consulta)[p.escolha.value - 1], p.quantidade.value)),
                        Sim(p.adicionarOutro))
  {
    var encontrados := Buscar(meds, p.consulta);
    if encontrados == [] then Efeito(None, Sim(p.tentarOutra))
    else
      var selecionado := if |encontrados| > 1 then Escolher(encontrados, p.escolha) else Some(encontrados[0]);
      match selecionado
      case None => Efeito(None, true)
      case Some(med) =>
        match p.quantidade
        case None => Efeito(None, true)
        case Some(qtde) =>
          if qtde <= 0 then Efeito(None, true)
          else Efeito(Some(Item(med, qtde)), Sim(p.adicionarOutro))
  }

  /** The cart the add-item loop builds from the operator's answers, round by round. */
  function Coletar(meds: Medicamentos, passos: seq<Passo>): (itens: seq<Item>)
    ensures |itens| <= |passos|
    decreases |passos|
  {
    if passos == [] then []
    else
      var e := ExecutarPasso(meds, passos[0]);
      var resto := if e.continua then Coletar(meds, passos[1..]) else [];
      match e.item
      case None => resto
      case Some(it) =>
        [it] + resto
  }

  /** The cart is the line of the first round, if any, before the cart of the rounds after it, if the loop goes on. */
  lemma ColetarUmPasso(meds: Medicamentos, passos: seq<Passo>)
    requires passos != []
    ensures var e := ExecutarPasso(meds, passos[0]);
      Coletar(meds, passos)
      == (if e.item.Some? then [e.item.value] else []) + (if e.continua then Coletar(meds, passos[1..]) else [])
  {
  }

  /**
   * After a round with effect `e`, the cart so far with the round's line,
   * followed by what the later rounds add if the loop goes on, is still the
   * cart of the whole loop.
   */
  lemma ColetarAvanca(meds: Medicamentos, passos: seq<Passo>, i: nat, itens: seq<Item>, e: Efeito, novos: seq<Item>)
    requires i < |passos| && e == ExecutarPasso(meds, passos[i])
    requires itens + Coletar(meds, passos[i..]) == Coletar(meds, passos)
    requires novos == itens + (if e.item.Some? then [e.item.value] else [])
    ensures e.continua ==> novos + Coletar(meds, passos[i + 1..]) == Coletar(meds, passos)
    ensures !e.continua ==> novos == Coletar(meds, passos)
  {
    var L := if e.item.Some? then [e.item.value] else [];
    var R := if e.continua then Coletar(meds, passos[i + 1..]) else [];
    assert passos[i..][0] == passos[i] && passos[i..][1..] == passos[i + 1..];
    ColetarUmPasso(meds, passos[i..]);
    assert Coletar(meds, passos[i..]) == L + R;
    ConcatAssoc(itens, L, R);
    if !e.continua {
      assert novos + R == novos;
    }
  }

  /** A line appended to the cart adds its value to the subtotal and, if controlled, its name to the alert. */
  lemma AdicionarLinha(itens: seq<Item>, it: Item)
    ensures Subtotal(itens + [it]) == Subtotal(itens) + ValorLinha(it)
    ensures NomesControlados(itens + [it]) == NomesControlados(itens) + (if Controlado(it.med) then [it.med.nome] else [])
  {
    assert (itens + [it])[..|itens + [it]| - 1] == itens;
  }

  /** Every line of the cart has a positive quantity and a medication of the catalog. */
  lemma {:induction false} ColetarDoCatalogo(meds: Medicamentos, passos: seq<Passo>)
    ensures forall it :: it in Coletar(meds, passos) ==> it.qtde > 0 && it.med in Values(meds)
    decreases |passos|
  {
    if passos != [] {
      var e := ExecutarPasso(meds, passos[0]);
      ColetarDoCatalogo(meds, passos[1..]);
      if e.item.Some? {
        BuscarNoCatalogo(meds, passos[0].consulta, e.item.value.med);
      }
    }
  }

  /** A round that adds nothing and goes on leaves the cart as the remaining rounds build it. */
  lemma PassoRejeitado(meds: Medicamentos, p: Passo, resto: seq<Passo>)
    requires ExecutarPasso(meds, p) == Efeito(None, true)
    ensures Coletar(meds, [p] + resto) == Coletar(meds, resto)
  {
    assert ([p] + resto)[1..] == resto;
  }
}
