/**
  Durable saving of invoices and transactions with a bounded retry on a locked store
  (RegistrarPagoyConciliar/persistencia.py).

  The store is two tables keyed by id; each write is an upsert (`INSERT OR REPLACE`).
  What each write attempt does (commit, or raise some exception) is an input sequence,
  one outcome per possible attempt, and each `time.sleep` is recorded as its delay in
  milliseconds instead of being waited for.
 */
module Persistencia {
  import opened Comun
  import opened Modelo

  /** The exceptions a write attempt can raise. */
  datatype Excepcion =
    | ErrorOperacional(mensaje: string)   // sqlite3.OperationalError
    | ErrorNombre(nombre: string)         // NameError: an unbound name was looked up
    | OtraExcepcion(mensaje: string)      // any other exception

  /** The outcome of one attempt (connect, execute, commit). A failed attempt leaves the
      store as it was: the connection's context manager rolls the write back. */
  datatype Escritura = Escrita | Fallida(e: Excepcion)

  /** `max_intentos`. */
  const MaxIntentos: nat := 3

  /** Python's `sub in s` on strings: `sub` occurs in `s` as a contiguous piece. */
  predicate Contiene(s: string, sub: string)
    decreases |s|
  {
    |sub| <= |s| && (s[..|sub|] == sub || Contiene(s[1..], sub))
  }

  /** `sub` occurs in `s` starting at position `i`. */
  predicate OcurreEn(s: string, sub: string, i: int)
  {
    0 <= i <= |s| - |sub| && s[i..i + |sub|] == sub
  }

  /** `Contiene` holds exactly when `sub` occurs at some position of `s`. */
  lemma {:induction false} ContieneSii(s: string, sub: string)
    ensures Contiene(s, sub) <==> exists i :: OcurreEn(s, sub, i)
    decreases |s|
  {
    if |sub| < |s| {
      ContieneSii(s[1..], sub);
      assert s[..|sub|] == s[0..|sub|];
      if s[..|sub|] == sub {
        assert OcurreEn(s, sub, 0);
      }
      if s[..|sub|] != sub && Contiene(s[1..], sub) {
        var i :| OcurreEn(s[1..], sub, i);
        assert OcurreEn(s, sub, i + 1);
      }
      if exists i :: OcurreEn(s, sub, i) {
        var i :| OcurreEn(s, sub, i);
        if i > 0 {
          assert OcurreEn(s[1..], sub, i - 1);
        }
      }
    } else if |sub| == |s| {
      assert s[..|sub|] == s[0..|sub|] == s;
      if s != [] {
        assert !Contiene(s[1..], sub);
      }
      if s == sub {
        assert OcurreEn(s, sub, 0);
      }
    }
  }

  /** The message SQLite gives when another writer holds the store. */
  const MensajeBloqueo := "database is locked"

  /** A failure is retried only if it is an `OperationalError` whose message contains "locked". */
  predicate Reintentable(e: Excepcion)
  {
    e.ErrorOperacional? && Contiene(e.mensaje, "locked")
  }

  /** A failure is retryable exactly when it is an `OperationalError` and "locked" occurs
      somewhere in its message. */
  lemma ReintentableSii(e: Excepcion)
    ensures Reintentable(e) <==> e.ErrorOperacional? && exists i :: OcurreEn(e.mensaje, "locked", i)
  {
    if e.ErrorOperacional? {
      ContieneSii(e.mensaje, "locked");
    }
  }

  /** The pause, in milliseconds, after failed attempt `intento` (counted from 0): 0.1 × (intento + 1) s. */
  function Espera(intento: nat): nat
  {
    100 * (intento + 1)
  }

  /** How a save ends: it returns after a commit, or an exception propagates to the caller. */
  datatype Desenlace = Confirmado | Propagada(e: Excepcion)

  /** A whole save: how it ended, how many attempts it made, and the pauses it took. */
  datatype Ejecucion = Ejecucion(desenlace: Desenlace, intentos: nat, esperas: seq<nat>)

  /**
    The retry policy from attempt `intento` on: an attempt that commits ends the save; a
    "locked" failure that is not the last attempt pauses and tries again; any other failure,
    and a "locked" failure on the last attempt, propagates.
   */
  function Reintentar(resultados: seq<Escritura>, intento: nat): Ejecucion
    requires intento < MaxIntentos <= |resultados|
    decreases MaxIntentos - intento
  {
    match resultados[intento]
    case Escrita => Ejecucion(Confirmado, intento + 1, [])
    case Fallida(e) =>
      if Reintentable(e) && intento < MaxIntentos - 1 then
        var resto := Reintentar(resultados, intento + 1);
        resto.(esperas := [Espera(intento)] + resto.esperas)
      else
        Ejecucion(Propagada(e), intento + 1, [])
  }

  /** What the policy guarantees from attempt `intento` on: at most the remaining attempts are
      made; every attempt before the last was a "locked" failure and was followed by its pause;
      the save commits exactly when its last attempt commits, and otherwise raises that
      attempt's exception, which was not retryable or came on the last attempt. */
  lemma {:induction false} ReintentarCumplePolitica(resultados: seq<Escritura>, intento: nat)
    requires intento < MaxIntentos <= |resultados|
    ensures var r := Reintentar(resultados, intento);
      && intento < r.intentos <= MaxIntentos
      && |r.esperas| == r.intentos - intento - 1
      && (forall k :: 0 <= k < |r.esperas| ==> r.esperas[k] == Espera(intento + k))
      && (forall k :: intento <= k < r.intentos - 1 ==>
            resultados[k].Fallida? && Reintentable(resultados[k].e))
      && (r.desenlace.Confirmado? <==> resultados[r.intentos - 1].Escrita?)
      && (r.desenlace.Propagada? ==>
            && resultados[r.intentos - 1] == Fallida(r.desenlace.e)
            && (!Reintentable(r.desenlace.e) || r.intentos == MaxIntentos))
    decreases MaxIntentos - intento
  {
    match resultados[intento]
    case Escrita =>
    case Fallida(e) =>
      if Reintentable(e) && intento < MaxIntentos - 1 {
        ReintentarCumplePolitica(resultados, intento + 1);
        var resto := Reintentar(resultados, intento + 1);
        var r := Reintentar(resultados, intento);
        assert r.esperas == [Espera(intento)] + resto.esperas;
        forall k | 0 <= k < |r.esperas| ensures r.esperas[k] == Espera(intento + k) {
          if k > 0 {
            assert r.esperas[k] == resto.esperas[k - 1];
          }
        }
      }
  }

  /** A save pauses at most twice, for 100 ms and then 200 ms: never more than 300 ms in all. */
  lemma EsperasAcotadas(resultados: seq<Escritura>)
    requires MaxIntentos <= |resultados|
    ensures var r := Reintentar(resultados, 0);
      && |r.esperas| <= 2
      && r.esperas <= [100, 200]
      && Suma(r.esperas) <= 300
  {
    ReintentarCumplePolitica(resultados, 0);
    var r := Reintentar(resultados, 0);
    if |r.esperas| == 2 {
      assert r.esperas == [100, 200];
      assert Suma(r.esperas) == 100 + Suma([200]) == 300;
    } else if |r.esperas| == 1 {
      assert r.esperas == [100];
      assert Suma(r.esperas) == 100 + Suma([]);
    }
  }

  /** The save commits exactly when some attempt commits and every attempt before it was a
      "locked" failure; it then commits at that attempt. */
  lemma {:induction false} ConfirmadoSii(resultados: seq<Escritura>, j: nat)
    requires MaxIntentos <= |resultados| && j < MaxIntentos
    requires forall k :: 0 <= k < j ==> resultados[k].Fallida? && Reintentable(resultados[k].e)
    ensures resultados[j].Escrita? <==>
      Reintentar(resultados, 0).desenlace.Confirmado? && Reintentar(resultados, 0).intentos == j + 1
  {
    ReintentarCumplePolitica(resultados, 0);
  }

  /** Whatever the attempts do, exactly one of them decides the save: it never runs past the
      third attempt and never ends without either a commit or a raised exception. */
  lemma NuncaSinDesenlace(resultados: seq<Escritura>)
    requires MaxIntentos <= |resultados|
    ensures var r := Reintentar(resultados, 0);
      1 <= r.intentos <= MaxIntentos
      && (r.desenlace.Confirmado? || resultados[r.intentos - 1] == Fallida(r.desenlace.e))
  {
    ReintentarCumplePolitica(resultados, 0);
  }

  /** Attempts whose first one commits: the save commits at once, without pausing. */
  lemma SinBloqueoConfirma(resultados: seq<Escritura>)
    requires MaxIntentos <= |resultados| && resultados[0] == Escrita
    ensures Reintentar(resultados, 0) == Ejecucion(Confirmado, 1, [])
  {
  }

  /**
    The same loop as the source has it: `persistencia.py` never imports `sqlite3`, so when an
    attempt raises, evaluating `except sqlite3.OperationalError` raises `NameError` instead, and
    no failure is ever retried.
   */
  function ReintentarComoEscrito(resultados: seq<Escritura>): (r: Ejecucion)
    requires MaxIntentos <= |resultados|
    ensures r.intentos == 1 && r.esperas == []
    ensures r.desenlace.Confirmado? <==> resultados[0].Escrita?
    ensures r.desenlace.Propagada? ==> r.desenlace.e == ErrorNombre("sqlite3")
  {
    match resultados[0]
    case Escrita => Ejecucion(Confirmado, 1, [])
    case Fallida(_) => Ejecucion(Propagada(ErrorNombre("sqlite3")), 1, [])
  }

  /** SQLite's message for a store held by another writer is retryable. */
  lemma BloqueoReintentable()
    ensures Reintentable(ErrorOperacional(MensajeBloqueo))
  {
    assert OcurreEn(MensajeBloqueo, "locked", 12);
    ReintentableSii(ErrorOperacional(MensajeBloqueo));
  }

  /** Two "database is locked" failures and then a commit: as written the save raises
      `NameError` after one attempt; the intended policy commits on the third attempt. */
  lemma SinImportarSqlite3NoHayReintento()
    ensures var bloqueo := Fallida(ErrorOperacional(MensajeBloqueo));
      var resultados := [bloqueo, bloqueo, Escrita];
      && ReintentarComoEscrito(resultados) == Ejecucion(Propagada(ErrorNombre("sqlite3")), 1, [])
      && Reintentar(resultados, 0) == Ejecucion(Confirmado, 3, [100, 200])
  {
    BloqueoReintentable();
  }

  /** The logical row `guardar_factura` writes (nine values). */
  datatype FilaFactura = FilaFactura(
    id: string,
    pedidoId: string,
    fechaEmision: Fecha,
    total: int,
    saldoPendiente: int,
    cliente: string,
    estado: string,
    fechaPago: Option<Fecha>,
    comprobantePago: Option<string>)

  /** The logical row `guardar_transaccion` writes (eleven values; the last two are always null). */
  datatype FilaTransaccion = FilaTransaccion(
    id: string,
    monto: int,
    metodoPago: string,
    facturaId: string,
    referenciaBancaria: string,
    fecha: Instante,
    estado: string,
    fechaConciliacion: Option<Instante>,
    conciliado: int,
    timestampInicio: Option<Instante>,
    timestampFin: Option<Instante>)

  /** The row that stores an invoice's current state. */
  function FilaDeFactura(f: Factura): (fila: FilaFactura)
    reads f
    ensures fila.id == f.id
    ensures EstadoDeValor(fila.estado) == Some(f.estado)
    ensures fila.fechaPago.None? <==> f.fechaPago.None?
  {
    FilaFactura(f.id, f.pedidoId, f.fechaEmision, f.total, f.saldoPendiente, f.cliente,
                ValorEstado(f.estado), f.fechaPago, f.comprobantePago)
  }

  /** The row that stores a transaction's current state. */
  function FilaDeTransaccion(t: Transaccion): (fila: FilaTransaccion)
    reads t
    ensures fila.id == t.id
    ensures fila.conciliado == (if t.conciliado then 1 else 0)
    ensures t.Valid() ==> (fila.conciliado == 1 <==> fila.fechaConciliacion.Some?)
    ensures fila.timestampInicio == None && fila.timestampFin == None
  {
    FilaTransaccion(t.id, t.monto, t.metodoPago, t.facturaId, t.referenciaBancaria, t.fecha,
                    t.estado, t.fechaConciliacion, if t.conciliado then 1 else 0, None, None)
  }

  /** `INSERT OR REPLACE` by primary key: the row for `id` becomes `fila`, every other row stays. */
  function Upsert<R>(tabla: map<string, R>, id: string, fila: R): (t: map<string, R>)
    ensures t.Keys == tabla.Keys + {id}
    ensures t[id] == fila
    ensures forall k :: k in tabla && k != id ==> t[k] == tabla[k]
  {
    tabla[id := fila]
  }

  /** Writing the same row twice leaves the table as writing it once. */
  lemma UpsertIdempotente<R>(tabla: map<string, R>, id: string, fila: R)
    ensures Upsert(Upsert(tabla, id, fila), id, fila) == Upsert(tabla, id, fila)
  {
  }

  /** The embedded store: one table of invoice rows and one of transaction rows, by id. */
  /** The run `e` preceded by the waits already spent. */
  function Anteponer(esperas: seq<nat>, e: Ejecucion): Ejecucion
  {
    e.(esperas := esperas + e.esperas)
  }

  class BaseDatos {
    var facturas: map<string, FilaFactura>
    var transacciones: map<string, FilaTransaccion>

    constructor ()
      ensures facturas == map[] && transacciones == map[]
    {
      facturas := map[];
      transacciones := map[];
    }

    /** `guardar_factura`: runs the retry policy on the attempts' outcomes; the invoice's row is
        upserted only if an attempt commits, the transaction table is untouched, and the
        invoice itself is never changed, so a retry cannot apply a payment twice. */
    method GuardarFactura(factura: Factura, resultados: seq<Escritura>) returns (r: Ejecucion)
      requires |resultados| == MaxIntentos
      modifies this
      ensures r == Reintentar(resultados, 0)
      ensures facturas == if r.desenlace.Confirmado?
        then Upsert(old(facturas), factura.id, FilaDeFactura(factura))
        else old(facturas)
      ensures transacciones == old(transacciones)
      ensures unchanged(factura)
    {
      var fila := FilaDeFactura(factura);
      var intento: nat := 0;
      var esperas: seq<nat> := [];
      while intento < MaxIntentos
        invariant intento < MaxIntentos
        invariant facturas == old(facturas) && transacciones == old(transacciones)
        invariant Reintentar(resultados, 0) == Anteponer(esperas, Reintentar(resultados, intento))
        decreases MaxIntentos - intento
      {
        match resultados[intento]
        case Escrita =>
          facturas := Upsert(facturas, factura.id, fila);
          return Ejecucion(Confirmado, intento + 1, esperas);
        case Fallida(e) =>
          if Reintentable(e) && intento < MaxIntentos - 1 {
            esperas := esperas + [Espera(intento)];
            intento := intento + 1;
            continue;
          }
          return Ejecucion(Propagada(e), intento + 1, esperas);
      }
      assert false;
    }

    /** `guardar_transaccion`: the same policy for a transaction's row; the invoice table and
        the transaction object are untouched. */
    method GuardarTransaccion(transaccion: Transaccion, resultados: seq<Escritura>) returns (r: Ejecucion)
      requires |resultados| == MaxIntentos
      modifies this
      ensures r == Reintentar(resultados, 0)
      ensures transacciones == if r.desenlace.Confirmado?
        then Upsert(old(transacciones), transaccion.id, FilaDeTransaccion(transaccion))
        else old(transacciones)
      ensures facturas == old(facturas)
      ensures unchanged(transaccion)
    {
      var fila := FilaDeTransaccion(transaccion);
      var intento: nat := 0;
      var esperas: seq<nat> := [];
      while intento < MaxIntentos
        invariant intento < MaxIntentos
        invariant facturas == old(facturas) && transacciones == old(transacciones)
        invariant Reintentar(resultados, 0) == Anteponer(esperas, Reintentar(resultados, intento))
        decreases MaxIntentos - intento
      {
        match resultados[intento]
        case Escrita =>
          transacciones := Upsert(transacciones, transaccion.id, fila);
          return Ejecucion(Confirmado, intento + 1, esperas);
        case Fallida(e) =>
          if Reintentable(e) && intento < MaxIntentos - 1 {
            esperas := esperas + [Espera(intento)];
            intento := intento + 1;
            continue;
          }
          return Ejecucion(Propagada(e), intento + 1, esperas);
      }
      assert false;
    }
  }
}
