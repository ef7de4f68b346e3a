/** The discount policy of a sale: a pure function of the client's age and the subtotal. */
module Desconto {

  const TaxaIdoso: real := 0.20
  const TaxaVolume: real := 0.10
  /** Older than this (strictly) earns the elderly rate. */
  const IdadeLimite: int := 65
  /** A subtotal above this (strictly) earns the bulk rate. */
  const SubtotalLimite: real := 150.0

  function DescontoIdoso(idade: int): real {
    if idade > IdadeLimite then TaxaIdoso else 0.0
  }

  function DescontoValor(subtotal: real): real {
    if subtotal > SubtotalLimite then TaxaVolume else 0.0
  }

  function Max(a: real, b: real): real {
    if a >= b then a else b
  }

  /** `max(desconto_idoso, desconto_valor)`: the larger rate applies, the two never add up. */
  function TaxaAplicada(idade: int, subtotal: real): (taxa: real)
    ensures taxa == TaxaIdoso <==> idade > IdadeLimite
    ensures taxa == TaxaVolume <==> idade <= IdadeLimite && subtotal > SubtotalLimite
    ensures taxa == 0.0 <==> idade <= IdadeLimite && subtotal <= SubtotalLimite
    ensures taxa >= DescontoIdoso(idade) && taxa >= DescontoValor(subtotal)
    ensures taxa == DescontoIdoso(idade) || taxa == DescontoValor(subtotal)
    ensures taxa < TaxaIdoso + TaxaVolume
  {
    Max(DescontoIdoso(idade), DescontoValor(subtotal))
  }

  /** The figures a sale shows before confirmation. */
  datatype Orcamento = Orcamento(subtotal: real, taxa: real, valorDesconto: real, totalFinal: real)

  function Orcar(idade: int, subtotal: real): (o: Orcamento)
    ensures o.subtotal == subtotal && o.taxa == TaxaAplicada(idade, subtotal)
    ensures o.valorDesconto == subtotal * o.taxa
    ensures o.totalFinal == subtotal - o.valorDesconto
    ensures subtotal >= 0.0 ==> 0.0 <= (1.0 - TaxaIdoso) * subtotal <= o.totalFinal <= subtotal
    ensures o.taxa == 0.0 ==> o.totalFinal == subtotal
  {
    var taxa := TaxaAplicada(idade, subtotal);
    var valorDesconto := subtotal * taxa;
    Orcamento(subtotal, taxa, valorDesconto, subtotal - valorDesconto)
  }

  /** The thresholds are strict and the rates do not stack. */
  lemma Fronteiras()
    ensures TaxaAplicada(65, 100.0) == 0.0 && TaxaAplicada(66, 100.0) == TaxaIdoso
    ensures TaxaAplicada(30, 150.0) == 0.0 && TaxaAplicada(30, 150.01) == TaxaVolume
    ensures TaxaAplicada(70, 200.0) == TaxaIdoso
    ensures Orcar(40, 40.0).totalFinal == 40.0
  {
  }
}
