/**
 * The records of the pharmacy: clients, laboratories, medications (a tagged
 * union of the chemotherapy and phytotherapy variants) and committed sales.
 */
module Entidades {
  import opened Strings

  /** A calendar date as `datetime.date` holds it. */
  datatype Date = Date(year: int, month: int, day: int)

  /** The commit time of a sale, `datetime.datetime.now()` in the source, given by the caller. */
  datatype DateTime = DateTime(date: Date, hour: int, minute: int, second: int)

  /** Python's tuple comparison `(m1, d1) < (m2, d2)`. */
  predicate MonthDayBefore(m1: int, d1: int, m2: int, d2: int) {
    m1 < m2 || (m1 == m2 && d1 < d2)
  }

  /** `a <= b` on dates. */
  predicate DateLe(a: Date, b: Date) {
    a.year < b.year || (a.year == b.year && !MonthDayBefore(b.month, b.day, a.month, a.day))
  }

  /** The `n`-th anniversary of a date: same month and day, `n` years later. */
  function Anniversary(d: Date, n: int): Date {
    Date(d.year + n, d.month, d.day)
  }

  datatype Cliente = Cliente(cpf: string, nome: string, dataNascimento: Date)

  /**
   * `Cliente.idade`, with today's date passed in: the number of completed years,
   * the year difference less one when this year's birthday is still ahead.
   */
  function Idade(c: Cliente, hoje: Date): (anos: int)
    ensures DateLe(Anniversary(c.dataNascimento, anos), hoje)
    ensures !DateLe(Anniversary(c.dataNascimento, anos + 1), hoje)
    ensures anos == hoje.year - c.dataNascimento.year
        <==> !MonthDayBefore(hoje.month, hoje.day, c.dataNascimento.month, c.dataNascimento.day)
    ensures anos == hoje.year - c.dataNascimento.year - 1
        <==> MonthDayBefore(hoje.month, hoje.day, c.dataNascimento.month, c.dataNascimento.day)
    ensures DateLe(c.dataNascimento, hoje) ==> anos >= 0
  {
    var nasc := c.dataNascimento;
    var anos := hoje.year - nasc.year;
    if MonthDayBefore(hoje.month, hoje.day, nasc.month, nasc.day) then anos - 1 else anos
  }

  /** The age is the largest `n` whose `n`-th anniversary is not after today. */
  lemma IdadeIsCompletedYears(c: Cliente, hoje: Date, n: int)
    ensures DateLe(Anniversary(c.dataNascimento, n), hoje) <==> n <= Idade(c, hoje)
  {
  }

  datatype Laboratorio = Laboratorio(nome: string, endereco: string, telefone: string, cidade: string, estado: string)

  /**
   * `MedicamentoQuimioterapico` and `MedicamentoFitoterapico` over the common
   * fields of `Medicamento`; only the first carries the prescription flag.
   */
  datatype Medicamento =
    | Quimioterapico(nome: string, compostoPrincipal: string, laboratorio: Laboratorio,
                     descricao: string, preco: real, necessitaReceita: bool)
    | Fitoterapico(nome: string, compostoPrincipal: string, laboratorio: Laboratorio,
                   descricao: string, preco: real)

  /** A chemotherapy medication sold only on prescription. */
  predicate Controlado(m: Medicamento) {
    m.Quimioterapico? && m.necessitaReceita
  }

  /** What `__str__` appends after the common fields: the prescription label of the chemotherapy variant. */
  function SufixoReceita(m: Medicamento): string {
    match m
    case Quimioterapico(_, _, _, _, _, receita) => " | Receita: " + (if receita then "Sim" else "Não")
    case Fitoterapico(_, _, _, _, _) => ""
  }

  lemma SufixoReceitaFlag(m: Medicamento)
    ensures m.Quimioterapico? ==> (EndsWith(SufixoReceita(m), "Receita: Sim") <==> m.necessitaReceita)
    ensures m.Quimioterapico? ==> (EndsWith(SufixoReceita(m), "Receita: Não") <==> !m.necessitaReceita)
    ensures m.Fitoterapico? ==> SufixoReceita(m) == ""
  {
    if m.Quimioterapico? {
      var s := SufixoReceita(m);
      if m.necessitaReceita {
        assert s[|s| - 12..] == "Receita: Sim";
        assert s[|s| - 12..] != "Receita: Não";
      } else {
        assert s[|s| - 12..] == "Receita: Não";
        assert s[|s| - 12..] != "Receita: Sim";
      }
    }
  }

  /** One line of a sale: a medication and the quantity sold. */
  datatype Item = Item(med: Medicamento, qtde: int)

  datatype Venda = Venda(dataHora: DateTime, itens: seq<Item>, cliente: Cliente, valorTotal: real)
}
