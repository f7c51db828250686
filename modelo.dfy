/**
  The invoice balance state machine and the reconciliation flag of payment
  transactions (RegistrarPagoyConciliar/modelo.py).

  Amounts are integer cents, so the test "the balance is exactly zero" is exact.
  The current date and time (`datetime.now()`) are parameters of the operations.
 */
module Modelo {
  import opened Comun

  /** A calendar day: the value of `datetime.now().date()`. */
  datatype Fecha = Fecha(dia: int)

  /** A point in time: the value of `datetime.now()`. */
  datatype Instante = Instante(segundo: int)

  /** `EstadoFactura`. `Conciliada` exists but no operation ever assigns it. */
  datatype EstadoFactura = Pendiente | PagadaParcial | Pagada | Conciliada

  /** The enum's string value, as it is written to the store: it reads back as the same status,
      so no two statuses share a value. */
  function ValorEstado(e: EstadoFactura): (v: string)
    ensures EstadoDeValor(v) == Some(e)
  {
    match e
    case Pendiente => "PENDIENTE"
    case PagadaParcial => "PAGADA_PARCIAL"
    case Pagada => "PAGADA"
    case Conciliada => "CONCILIADA"
  }

  /** `EstadoFactura(valor)`: reads a stored status back; only the four values have a status. */
  function EstadoDeValor(v: string): (r: Option<EstadoFactura>)
    ensures r.None? <==> v !in {"PENDIENTE", "PAGADA_PARCIAL", "PAGADA", "CONCILIADA"}
  {
    if v == "PENDIENTE" then Some(Pendiente)
    else if v == "PAGADA_PARCIAL" then Some(PagadaParcial)
    else if v == "PAGADA" then Some(Pagada)
    else if v == "CONCILIADA" then Some(Conciliada)
    else None
  }

  /** Every string that reads back as a status is that status's stored value. */
  lemma ValorEstadoIdaYVuelta(v: string)
    requires EstadoDeValor(v).Some?
    ensures ValorEstado(EstadoDeValor(v).value) == v
  {
  }

  /** The two `ValueError`s that `registrar_pago` raises. */
  datatype ErrorPago = MontoNoPositivo | PagoExcedeSaldo

  /** One payment of `monto` against the balance `saldo`: the new balance, or the error raised. */
  function Pagar(saldo: int, monto: int): (r: Result<int, ErrorPago>)
    ensures r.Ok? <==> 0 < monto <= saldo
    ensures r.Ok? ==> r.value + monto == saldo && 0 <= r.value < saldo
    ensures r.Err? ==> (r.error == MontoNoPositivo <==> monto <= 0)
  {
    if monto <= 0 then Err(MontoNoPositivo)
    else if monto > saldo then Err(PagoExcedeSaldo)
    else Ok(saldo - monto)
  }

  /** The status an accepted payment leaves behind, given the new balance: paid exactly when
      nothing is left, and never pending or reconciled. */
  function EstadoTrasPago(saldo: int): (e: EstadoFactura)
    ensures e == Pagada <==> saldo == 0
    ensures e != Pendiente && e != Conciliada
  {
    if saldo == 0 then Pagada else PagadaParcial
  }

  /** An accepted payment leaves the invoice paid exactly when it empties the balance,
      and never leaves it pending or reconciled. */
  lemma EstadoTrasPagoSii(saldo: int, monto: int)
    requires Pagar(saldo, monto).Ok?
    ensures var e := EstadoTrasPago(Pagar(saldo, monto).value);
      && (e == Pagada <==> monto == saldo)
      && (e == PagadaParcial <==> monto < saldo)
      && e != Pendiente && e != Conciliada
  {
  }

  /** The balances after each payment of `montos`, applied in order starting from `saldo`.
      The first rejected payment stops the sequence, as the raised exception does. */
  function SaldosTras(saldo: int, montos: seq<int>): (r: Result<seq<int>, ErrorPago>)
    ensures r.Ok? ==> |r.value| == |montos|
    ensures r.Ok? ==> forall i :: 0 <= i < |montos| ==>
      r.value[i] == (if i == 0 then saldo else r.value[i - 1]) - montos[i]
    decreases |montos|
  {
    if montos == [] then Ok([])
    else match Pagar(saldo, montos[0])
      case Err(e) => Err(e)
      case Ok(s) =>
        match SaldosTras(s, montos[1..])
        case Err(e) => Err(e)
        case Ok(ss) => Ok([s] + ss)
  }

  /** After any sequence of accepted payments, every intermediate balance is non-negative and
      the amount paid so far, `saldo - ss[i]`, is exactly the sum of the payments up to `i`. */
  lemma {:induction false} SaldosTrasSumaPagos(saldo: int, montos: seq<int>)
    requires SaldosTras(saldo, montos).Ok?
    ensures |SaldosTras(saldo, montos).value| == |montos|
    ensures forall i :: 0 <= i < |montos| ==> montos[i] > 0
    ensures forall i :: 0 <= i < |montos| ==>
      0 <= SaldosTras(saldo, montos).value[i] < saldo
      && saldo - SaldosTras(saldo, montos).value[i] == Suma(montos[..i + 1])
    decreases |montos|
  {
    if montos != [] {
      var s := Pagar(saldo, montos[0]).value;
      var resto := montos[1..];
      SaldosTrasSumaPagos(s, resto);
      var ss := SaldosTras(saldo, montos).value;
      assert ss == [s] + SaldosTras(s, resto).value;
      forall i | 0 <= i < |montos|
        ensures 0 <= ss[i] < saldo && saldo - ss[i] == Suma(montos[..i + 1])
      {
        assert montos[..i + 1][1..] == resto[..i];
        if i > 0 {
          assert ss[i] == SaldosTras(s, resto).value[i - 1];
          assert resto[..i - 1 + 1] == resto[..i];
        }
      }
    }
  }

  /** A sequence of payments is accepted in full exactly when every payment is positive and
      together they do not exceed the starting balance. */
  lemma {:induction false} SaldosTrasAceptados(saldo: int, montos: seq<int>)
    requires saldo >= 0
    ensures SaldosTras(saldo, montos).Ok? <==>
      (forall i :: 0 <= i < |montos| ==> montos[i] > 0) && Suma(montos) <= saldo
    decreases |montos|
  {
    if montos != [] {
      var resto := montos[1..];
      var todosPositivos := forall i :: 0 <= i < |montos| ==> montos[i] > 0;
      if todosPositivos {
        assert forall i :: 0 <= i < |resto| ==> resto[i] == montos[i + 1];
        SumaPositiva(resto);
      }
      if Pagar(saldo, montos[0]).Ok? {
        SaldosTrasAceptados(saldo - montos[0], resto);
        if !todosPositivos {
          var i :| 0 <= i < |montos| && montos[i] <= 0;
          assert resto[i - 1] <= 0;
        }
      }
    }
  }

  /**
    An invoice (`Factura`): a fixed total and a balance that payments reduce in place.
   */
  class Factura {
    var id: string
    var pedidoId: string
    var total: int
    var saldoPendiente: int
    var cliente: string
    var fechaEmision: Fecha
    var estado: EstadoFactura
    var fechaPago: Option<Fecha>
    var comprobantePago: Option<string>
    /** The payments accepted so far, in order; the source does not keep them. */
    ghost var pagos: seq<int>

    /** `0 <= saldo <= total`, the amount paid is the sum of the accepted payments, and the
        status, the payment date and the receipt agree with whether anything was paid. */
    ghost predicate Valid()
      reads this
    {
      && 0 <= saldoPendiente <= total
      && (forall i :: 0 <= i < |pagos| ==> pagos[i] > 0)
      && total - saldoPendiente == Suma(pagos)
      && estado == (if pagos == [] then Pendiente else EstadoTrasPago(saldoPendiente))
      && (fechaPago.Some? <==> pagos != [])
      && (pagos == [] ==> comprobantePago == None)
    }

    /** A new invoice owes its whole total and is pending; the source does not check the
        total, so only a non-negative total yields a valid invoice. */
    constructor (idFactura: string, pedidoId: string, total: int, cliente: string, hoy: Fecha)
      ensures this.id == idFactura && this.pedidoId == pedidoId && this.total == total
      ensures this.cliente == cliente && fechaEmision == hoy
      ensures saldoPendiente == total && estado == Pendiente
      ensures fechaPago == None && comprobantePago == None && pagos == []
      ensures Valid() <==> total >= 0
    {
      this.id := idFactura;
      this.pedidoId := pedidoId;
      this.total := total;
      this.saldoPendiente := total;
      this.cliente := cliente;
      this.fechaEmision := hoy;
      this.estado := Pendiente;
      this.fechaPago := None;
      this.comprobantePago := None;
      this.pagos := [];
    }

    /** `registrar_pago`: a rejected payment changes nothing; an accepted one lowers the
        balance by exactly `monto`, records the receipt (even an absent one) and the date,
        and makes the invoice paid exactly when the balance reaches zero. */
    method RegistrarPago(monto: int, comprobante: Option<string>, hoy: Fecha) returns (error: Option<ErrorPago>)
      modifies this
      ensures var p := Pagar(old(saldoPendiente), monto);
        error == (if p.Err? then Some(p.error) else None)
      ensures error.Some? ==> unchanged(this)
      ensures error.None? ==>
        && saldoPendiente == old(saldoPendiente) - monto
        && estado == EstadoTrasPago(saldoPendiente)
        && comprobantePago == comprobante
        && fechaPago == Some(hoy)
        && pagos == old(pagos) + [monto]
      ensures id == old(id) && pedidoId == old(pedidoId) && total == old(total)
      ensures cliente == old(cliente) && fechaEmision == old(fechaEmision)
      ensures old(Valid()) ==> Valid()
    {
      if monto <= 0 {
        return Some(MontoNoPositivo);
      }
      if monto > saldoPendiente {
        return Some(PagoExcedeSaldo);
      }
      saldoPendiente := saldoPendiente - monto;
      comprobantePago := comprobante;
      if saldoPendiente == 0 {
        estado := Pagada;
      } else {
        estado := PagadaParcial;
      }
      fechaPago := Some(hoy);
      SumaConcatUno(pagos, monto);
      pagos := pagos + [monto];
      error := None;
    }

    /** In a valid invoice the status follows from the balance alone: pending exactly when
        nothing is paid, paid exactly when a positive total is fully paid. */
    lemma EstadoSegunSaldo()
      requires Valid()
      ensures estado == Pendiente <==> saldoPendiente == total
      ensures estado == Pagada <==> saldoPendiente == 0 < total
      ensures estado == PagadaParcial <==> 0 < saldoPendiente < total
      ensures estado != Conciliada
    {
      SumaPositiva(pagos);
    }
  }

  /** The status value a new transaction has. */
  const TransaccionPendiente := "PENDIENTE"

  /** The status value a reconciled transaction has. */
  const TransaccionConciliada := "CONCILIADA"

  /**
    A payment transaction (`Transaccion`): one recorded payment against an invoice, which a
    settlement confirmation later marks as reconciled.
   */
  class Transaccion {
    var id: string
    var monto: int
    var metodoPago: string
    var facturaId: string
    var referenciaBancaria: string
    var fecha: Instante
    var estado: string
    var conciliado: bool
    /** None until `Conciliar` runs: the source creates this attribute only there. */
    var fechaConciliacion: Option<Instante>

    /** The status, the flag and the reconciliation time agree. */
    ghost predicate Valid()
      reads this
    {
      && (estado == TransaccionPendiente || estado == TransaccionConciliada)
      && (conciliado <==> estado == TransaccionConciliada)
      && (conciliado <==> fechaConciliacion.Some?)
    }

    /** A new transaction is pending and not reconciled; the source checks none of its arguments. */
    constructor (idTransaccion: string, monto: int, metodoPago: string, facturaId: string,
                 referenciaBancaria: string, ahora: Instante)
      ensures this.id == idTransaccion && this.monto == monto && this.metodoPago == metodoPago
      ensures this.facturaId == facturaId && this.referenciaBancaria == referenciaBancaria
      ensures fecha == ahora
      ensures estado == TransaccionPendiente && !conciliado && fechaConciliacion == None
      ensures Valid()
    {
      this.id := idTransaccion;
      this.monto := monto;
      this.metodoPago := metodoPago;
      this.facturaId := facturaId;
      this.referenciaBancaria := referenciaBancaria;
      this.fecha := ahora;
      this.estado := TransaccionPendiente;
      this.conciliado := false;
      this.fechaConciliacion := None;
    }

    /** `conciliar`: from any state, the transaction becomes reconciled at `ahora`; amount,
        method, invoice, bank reference and creation time are untouched. A repeated call
        gives the same status and flag and only sets the time again. */
    method Conciliar(ahora: Instante)
      modifies this
      ensures estado == TransaccionConciliada && conciliado && fechaConciliacion == Some(ahora)
      ensures id == old(id) && monto == old(monto) && metodoPago == old(metodoPago)
      ensures facturaId == old(facturaId) && referenciaBancaria == old(referenciaBancaria)
      ensures fecha == old(fecha)
      ensures Valid()
    {
      estado := TransaccionConciliada;
      conciliado := true;
      fechaConciliacion := Some(ahora);
    }
  }
}
