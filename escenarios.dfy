/**
  The payment flows of RegistrarPagoyConciliar/pruebas.py, restated on the model: an
  invoice is created, paid and saved, and each payment's transaction is saved and
  reconciled. Amounts are in cents (1500.50 is 150050).
 */
module Escenarios {
  import opened Comun
  import opened Modelo
  import opened Persistencia

  /** `test_flujo_completo`: an invoice of 1500.50 paid in full, saved while the store is
      locked twice, and its transaction saved, reconciled and saved again. The stored rows
      show the invoice paid with a zero balance and the transaction reconciled. */
  method FlujoCompleto(hoy: Fecha, creada: Instante, conciliadaEn: Instante)
    returns (fila: FilaFactura, filaT: FilaTransaccion, intentos: nat)
    ensures fila == FilaFactura("FAC-001", "PED-001", hoy, 150050, 0, "CLI-001", "PAGADA",
                                Some(hoy), Some("comprobantes/pago1.pdf"))
    ensures filaT == FilaTransaccion("TRX-001", 150050, "TRANSFERENCIA", "FAC-001", "REF-001",
                                     creada, "CONCILIADA", Some(conciliadaEn), 1, None, None)
    ensures intentos == 3
  {
    var db := new BaseDatos();
    var sinBloqueo := [Escrita, Escrita, Escrita];
    var bloqueo := Fallida(ErrorOperacional(MensajeBloqueo));
    BloqueoReintentable();

    var factura := new Factura("FAC-001", "PED-001", 150050, "CLI-001", hoy);
    var r := db.GuardarFactura(factura, sinBloqueo);
    var error := factura.RegistrarPago(150050, Some("comprobantes/pago1.pdf"), hoy);
    r := db.GuardarFactura(factura, [bloqueo, bloqueo, Escrita]);
    intentos := r.intentos;

    var transaccion := new Transaccion("TRX-001", 150050, "TRANSFERENCIA", "FAC-001", "REF-001", creada);
    r := db.GuardarTransaccion(transaccion, sinBloqueo);
    transaccion.Conciliar(conciliadaEn);
    r := db.GuardarTransaccion(transaccion, sinBloqueo);

    fila := db.facturas["FAC-001"];
    filaT := db.transacciones["TRX-001"];
  }

  /** `test_pago_parcial`: an invoice of 3000.00 paid 1000.00, 1500.00 and 500.00. The balances
      are 2000.00, 500.00 and 0.00, the invoice is partially paid twice and then paid, and the
      transaction table, once the three transactions are reconciled and saved, holds exactly
      three reconciled rows of that invoice whose amounts sum to its total. */
  method PagoParcial(hoy: Fecha, ahora: Instante)
    returns (saldos: seq<int>, estados: seq<EstadoFactura>, fila: FilaFactura,
             tabla: map<string, FilaTransaccion>)
    ensures saldos == [200000, 50000, 0]
    ensures estados == [PagadaParcial, PagadaParcial, Pagada]
    ensures fila.estado == "PAGADA" && fila.saldoPendiente == 0 && fila.total == 300000
    ensures tabla.Keys == {"TRX-002", "TRX-003", "TRX-004"}
    ensures forall k :: k in tabla ==>
      tabla[k].facturaId == "FAC-002" && tabla[k].conciliado == 1 && tabla[k].estado == "CONCILIADA"
    ensures tabla["TRX-002"].monto + tabla["TRX-003"].monto + tabla["TRX-004"].monto == fila.total
  {
    var db := new BaseDatos();
    var t1, t2, t3;
    saldos, estados, fila, t1, t2, t3 := TresPagos(db, hoy, ahora);
    var filasT := ConciliarTres(db, t1, t2, t3, ahora);
    tabla := db.transacciones;
    assert tabla == map[]["TRX-002" := filasT[0]]["TRX-003" := filasT[1]]["TRX-004" := filasT[2]];
  }

  /** The payment half of `test_pago_parcial`: the invoice is created and saved, then each of
      the three payments is applied, the invoice saved again and a transaction recorded. */
  method TresPagos(db: BaseDatos, hoy: Fecha, ahora: Instante)
    returns (saldos: seq<int>, estados: seq<EstadoFactura>, fila: FilaFactura,
             t1: Transaccion, t2: Transaccion, t3: Transaccion)
    modifies db
    ensures saldos == [200000, 50000, 0]
    ensures estados == [PagadaParcial, PagadaParcial, Pagada]
    ensures fila.estado == "PAGADA" && fila.saldoPendiente == 0 && fila.total == 300000
    ensures fresh(t1) && fresh(t2) && fresh(t3) && t1 != t2 && t2 != t3 && t1 != t3
    ensures t1.monto == 100000 && t2.monto == 150000 && t3.monto == 50000
    ensures t1.facturaId == "FAC-002" && t2.facturaId == "FAC-002" && t3.facturaId == "FAC-002"
    ensures t1.id == "TRX-002" && t2.id == "TRX-003" && t3.id == "TRX-004"
    ensures db.transacciones.Keys == old(db.transacciones).Keys + {"TRX-002", "TRX-003", "TRX-004"}
  {
    var sinBloqueo := [Escrita, Escrita, Escrita];
    SinBloqueoConfirma(sinBloqueo);
    var factura := new Factura("FAC-002", "PED-002", 300000, "CLI-001", hoy);
    var r := db.GuardarFactura(factura, sinBloqueo);

    t1 := PagarYRegistrar(db, factura, 100000, "comprobantes/pago_parcial1.pdf", hoy,
                          "TRX-002", "TARJETA", "REF-002", ahora);
    saldos, estados := [factura.saldoPendiente], [factura.estado];
    t2 := PagarYRegistrar(db, factura, 150000, "comprobantes/pago_parcial2.pdf", hoy,
                          "TRX-003", "EFECTIVO", "REF-003", ahora);
    saldos, estados := saldos + [factura.saldoPendiente], estados + [factura.estado];
    t3 := PagarYRegistrar(db, factura, 50000, "comprobantes/pago_parcial3.pdf", hoy,
                          "TRX-004", "TRANSFERENCIA", "REF-004", ahora);
    saldos, estados := saldos + [factura.saldoPendiente], estados + [factura.estado];
    fila := db.facturas["FAC-002"];
    assert fila == FilaDeFactura(factura);
  }

  /** The reconciliation half of `test_pago_parcial`: the three transactions are reconciled and
      then saved; their rows keep the amounts and the invoice they belong to, and replace the
      rows stored under their ids. */
  method ConciliarTres(db: BaseDatos, t1: Transaccion, t2: Transaccion, t3: Transaccion, ahora: Instante)
    returns (filasT: seq<FilaTransaccion>)
    requires t1 != t2 && t2 != t3 && t1 != t3
    modifies db, t1, t2, t3
    ensures |filasT| == 3
    ensures filasT[0].monto == old(t1.monto) && filasT[1].monto == old(t2.monto) && filasT[2].monto == old(t3.monto)
    ensures filasT[0].facturaId == old(t1.facturaId) && filasT[1].facturaId == old(t2.facturaId)
    ensures filasT[2].facturaId == old(t3.facturaId)
    ensures forall i :: 0 <= i < |filasT| ==> filasT[i].conciliado == 1 && filasT[i].estado == "CONCILIADA"
    ensures db.transacciones ==
      old(db.transacciones)[old(t1.id) := filasT[0]][old(t2.id) := filasT[1]][old(t3.id) := filasT[2]]
    ensures db.facturas == old(db.facturas)
  {
    var sinBloqueo := [Escrita, Escrita, Escrita];
    SinBloqueoConfirma(sinBloqueo);
    t1.Conciliar(ahora);
    t2.Conciliar(ahora);
    t3.Conciliar(ahora);
    var r := db.GuardarTransaccion(t1, sinBloqueo);
    r := db.GuardarTransaccion(t2, sinBloqueo);
    r := db.GuardarTransaccion(t3, sinBloqueo);
    filasT := [FilaDeTransaccion(t1), FilaDeTransaccion(t2), FilaDeTransaccion(t3)];
  }

  /** One step of `test_pago_parcial`: a payment applied to the invoice, the invoice saved,
      and a pending transaction for that payment created and saved. */
  method PagarYRegistrar(db: BaseDatos, factura: Factura, monto: int, comprobante: string, hoy: Fecha,
                         idT: string, metodo: string, referencia: string, ahora: Instante)
    returns (t: Transaccion)
    requires 0 < monto <= factura.saldoPendiente
    modifies db, factura
    ensures fresh(t) && t.id == idT && t.monto == monto && t.facturaId == factura.id
    ensures factura.saldoPendiente == old(factura.saldoPendiente) - monto
    ensures factura.estado == EstadoTrasPago(factura.saldoPendiente)
    ensures factura.id == old(factura.id) && factura.total == old(factura.total)
    ensures db.facturas == old(db.facturas)[factura.id := FilaDeFactura(factura)]
    ensures db.transacciones == old(db.transacciones)[idT := FilaDeTransaccion(t)]
  {
    var sinBloqueo := [Escrita, Escrita, Escrita];
    SinBloqueoConfirma(sinBloqueo);
    var error := factura.RegistrarPago(monto, Some(comprobante), hoy);
    var r := db.GuardarFactura(factura, sinBloqueo);
    t := new Transaccion(idT, monto, metodo, factura.id, referencia, ahora);
    r := db.GuardarTransaccion(t, sinBloqueo);
  }

  /** A payment followed by a save that meets "locked" on all three attempts: the save raises,
      the store keeps the unpaid row, and the balance in memory is reduced once only. */
  method ReintentosAgotados(hoy: Fecha)
    returns (r: Ejecucion, fila: FilaFactura, saldoEnMemoria: int)
    ensures r == Ejecucion(Propagada(ErrorOperacional(MensajeBloqueo)), 3, [100, 200])
    ensures fila.saldoPendiente == 300000 && fila.estado == "PENDIENTE"
    ensures saldoEnMemoria == 200000
  {
    var db := new BaseDatos();
    var bloqueo := Fallida(ErrorOperacional(MensajeBloqueo));
    BloqueoReintentable();
    var factura := new Factura("FAC-002", "PED-002", 300000, "CLI-001", hoy);
    r := db.GuardarFactura(factura, [Escrita, Escrita, Escrita]);
    var error := factura.RegistrarPago(100000, None, hoy);
    r := db.GuardarFactura(factura, [bloqueo, bloqueo, bloqueo]);
    fila := db.facturas["FAC-002"];
    saldoEnMemoria := factura.saldoPendiente;
  }
}
