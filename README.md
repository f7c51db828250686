# Invoice payment and reconciliation, modelled in Dafny

This project models the payment side of an order-and-invoicing system for shops.

- An invoice (`Factura`) has a fixed total and a pending balance. Payments lower the balance in place and move the status from `PENDIENTE` to `PAGADA_PARCIAL` or `PAGADA`.
- A payment transaction (`Transaccion`) is recorded as pending. It is later reconciled against the bank settlement: the status becomes `CONCILIADA`, the flag is set and the time is recorded.
- Invoices and transactions are saved with `INSERT OR REPLACE` into an embedded store. The save is written to retry when the store reports "locked", for up to three attempts, pausing 0.1 s and then 0.2 s. As written it never retries: the file does not import `sqlite3`, so the `except` clause raises `NameError` at the first failure (see "## Findings"). The save methods model the intended save, with that import supplied; the code as written is modelled beside them.
- The invoicing form adds some checks and calculations. It validates the RFC (the Mexican taxpayer id) by position and checks a client's fiscal data in two ways. It computes an order's subtotal, 16% IVA and total in exact decimals. It checks the connection with the SAT (the tax authority) with up to three attempts.

Modules:

- `Comun` (`comun.dfy`): `Option`, `Result` and an integer `Suma`.
- `Modelo` (`modelo.dfy`): the invoice and transaction classes. Their methods update the fields in place. The pure function `Pagar` specifies one payment, and `SaldosTras` specifies a sequence of payments.
- `Persistencia` (`persistencia.dfy`): the store is a class `BaseDatos` with one map per table. The two save methods are `while` loops over the attempt counter. Each is proved against the specification function `Reintentar`, the intended retry policy. The lemma `ReintentarCumplePolitica` states what that policy guarantees.
- `GenerarFactura` (`generar_factura.dfy`): the form's RFC and fiscal-data checks as functions. The totals loop and the SAT retry loop are methods.
- `Escenarios` (`escenarios.dfy`): the two payment flows of the test script, restated on the model with their expected rows proved. It also has one flow in which the store stays locked.

Modelling choices:

- Money is integer cents in `Modelo` and `Persistencia`. This makes "the balance is exactly zero" an exact test.
- The form's `Decimal` arithmetic is exact `real`.
- `datetime.now()` is a parameter: a `Fecha` for a day, an `Instante` for a time.
- The outcome of each write attempt is an input sequence with one entry per possible attempt. An entry is a commit or a raised exception.
- The SAT answers are an input sequence too.
- Each `time.sleep` becomes a recorded pause in milliseconds (`esperas`) or a pause count (`pausas`).
- The invoice's ghost field `pagos` holds the accepted payments. It lets `Valid()` state that the amount paid equals the sum of the accepted payments.

Where the code and its written description disagree, the model follows the code:

- A repeated `conciliar` sets the reconciliation time again. It is not a no-op.
- Neither constructor validates its arguments.
- The invoice status `CONCILIADA` exists but nothing ever assigns it.
- The retry is not performed by the code as written, because of the missing `sqlite3` import. This is the one place where the model gives both behaviours: `ReintentarComoEscrito` is the code as written, and `Reintentar` is the policy that the code and its description intend.

## Model

| member | source | states |
|---|---|---|
| Modelo.ValorEstado | RegistrarPagoyConciliar/modelo.py:6-10 | `.value` of a status is a string that reads back as that same status, so no two statuses share a value |
| Modelo.EstadoDeValor | RegistrarPagoyConciliar/modelo.py:6-10 | looking up a stored string finds no status exactly when the string is none of the four values |
| Modelo.ValorEstadoIdaYVuelta | RegistrarPagoyConciliar/modelo.py:6-10 | a string that names a status is that status's `.value`: lookup and `.value` are inverse |
| Modelo.Pagar | RegistrarPagoyConciliar/modelo.py:25-31 | a payment is accepted iff 0 < monto <= saldo; the new balance plus the payment is the old balance and lies in [0, saldo); the error is "not positive" exactly when monto <= 0 |
| Modelo.EstadoTrasPago | RegistrarPagoyConciliar/modelo.py:34-37 | the status set after a payment is PAGADA iff the new balance is 0, and is never PENDIENTE or CONCILIADA |
| Modelo.EstadoTrasPagoSii | RegistrarPagoyConciliar/modelo.py:34-37 | after an accepted payment the status is PAGADA iff the payment equals the balance, PAGADA_PARCIAL iff it is smaller, never PENDIENTE or CONCILIADA |
| Modelo.SaldosTras | RegistrarPagoyConciliar/modelo.py:24-39 | repeated `registrar_pago`: when all payments are accepted there is one balance per payment, each the previous balance (the starting one for the first) minus that payment |
| Modelo.SaldosTrasSumaPagos | RegistrarPagoyConciliar/modelo.py:24-39 | for accepted payments, every payment is positive, each balance after payment i is in [0, saldo), and saldo minus it equals the sum of payments 0..i |
| Modelo.SaldosTrasAceptados | RegistrarPagoyConciliar/modelo.py:25-31 | from a non-negative balance, a sequence of payments is accepted in full iff every payment is positive and their sum does not exceed the balance |
| Modelo.Factura.constructor | RegistrarPagoyConciliar/modelo.py:13-22 | a new invoice keeps its arguments, owes its whole total, is PENDIENTE, has no payment date or receipt; it is valid iff the total is not negative |
| Modelo.Factura.RegistrarPago | RegistrarPagoyConciliar/modelo.py:24-39 | the outcome is Pagar's; on a rejected payment nothing changes; on an accepted one the balance drops by monto, the receipt is the argument (even absent), the payment date is set, the status is PAGADA iff the balance is 0, id/order/total/client/issue date never change, and 0 <= saldo <= total with total - saldo = sum of payments is preserved |
| Modelo.Factura.EstadoSegunSaldo | RegistrarPagoyConciliar/modelo.py:34-37 | in a valid invoice, PENDIENTE iff nothing is paid, PAGADA iff a positive total is fully paid, PAGADA_PARCIAL iff 0 < saldo < total, never CONCILIADA |
| Modelo.Transaccion.constructor | RegistrarPagoyConciliar/modelo.py:42-50 | a new transaction keeps its arguments, has the creation time, is 'PENDIENTE', not reconciled, with no reconciliation time |
| Modelo.Transaccion.Conciliar | RegistrarPagoyConciliar/modelo.py:52-55 | from any state the transaction becomes 'CONCILIADA', reconciled, with the given time; amount, method, invoice, bank reference and creation time are unchanged; status, flag and time agree |
| Persistencia.ContieneSii | RegistrarPagoyConciliar/persistencia.py:31 | the substring test holds iff the piece occurs at some position |
| Persistencia.Reintentable | RegistrarPagoyConciliar/persistencia.py:31 | the retry condition: an OperationalError whose text contains "locked" (defined here; its meaning is stated by ReintentableSii) |
| Persistencia.ReintentableSii | RegistrarPagoyConciliar/persistencia.py:31 | an exception is retryable iff it is an OperationalError and "locked" occurs at some position of its text |
| Persistencia.BloqueoReintentable | RegistrarPagoyConciliar/persistencia.py:31 | an OperationalError with SQLite's "database is locked" message is retryable |
| Persistencia.Reintentar | RegistrarPagoyConciliar/persistencia.py:10-35 | the intended retry policy, with `sqlite3` imported, as a function of the attempt outcomes; its guarantees are stated by ReintentarCumplePolitica |
| Persistencia.ReintentarCumplePolitica | RegistrarPagoyConciliar/persistencia.py:10-35 | a save makes between 1 and 3 attempts; every attempt before the last was a "locked" OperationalError; it pauses once per retry, 0.1·(k+1) s after attempt k; it commits iff the last attempt committed; otherwise it raises the last attempt's exception, which is not retryable or came on the third attempt |
| Persistencia.EsperasAcotadas | RegistrarPagoyConciliar/persistencia.py:32 | a save pauses at most twice, for 100 ms then 200 ms, at most 300 ms in all |
| Persistencia.ConfirmadoSii | RegistrarPagoyConciliar/persistencia.py:10-35 | when attempts 0..j-1 were "locked" failures, attempt j commits iff the save commits with j+1 attempts |
| Persistencia.NuncaSinDesenlace | RegistrarPagoyConciliar/persistencia.py:10-35 | the loop never falls through: it makes 1 to 3 attempts and ends with a commit or with the exception of its last attempt |
| Persistencia.SinBloqueoConfirma | RegistrarPagoyConciliar/persistencia.py:12-29 | when the first attempt commits, the save commits after one attempt with no pause |
| Persistencia.ReintentarComoEscrito | RegistrarPagoyConciliar/persistencia.py:1-35 | as written: exactly one attempt and no pause; it commits iff that attempt commits, and any failure becomes NameError for `sqlite3` |
| Persistencia.SinImportarSqlite3NoHayReintento | RegistrarPagoyConciliar/persistencia.py:30-35 | with [locked, locked, commit], the code as written raises NameError after one attempt; the intended policy commits on the third attempt after pauses of 100 and 200 ms |
| Persistencia.FilaDeFactura | RegistrarPagoyConciliar/persistencia.py:17-27 | the invoice row carries the id, a status string that reads back as the invoice's status, and a null payment date iff none is set |
| Persistencia.FilaDeTransaccion | RegistrarPagoyConciliar/persistencia.py:48-60 | the transaction row stores the flag as 1/0; for a valid transaction it is 1 iff a reconciliation time is stored; the last two timestamps are null |
| Persistencia.Upsert | RegistrarPagoyConciliar/persistencia.py:14-16 | INSERT OR REPLACE: the keys gain the id, its row becomes the new row, every other row stays |
| Persistencia.UpsertIdempotente | RegistrarPagoyConciliar/persistencia.py:14-16 | writing the same row twice leaves the table as writing it once |
| Persistencia.BaseDatos.GuardarFactura | RegistrarPagoyConciliar/persistencia.py:6-35 | the intended save, with `sqlite3` imported: it behaves as Reintentar; the invoice's row is upserted iff an attempt commits; the transaction table and the invoice object are unchanged |
| Persistencia.BaseDatos.GuardarTransaccion | RegistrarPagoyConciliar/persistencia.py:37-68 | the intended save, with `sqlite3` imported: it behaves as Reintentar; the transaction's row is upserted iff an attempt commits; the invoice table and the transaction object are unchanged |
| Escenarios.FlujoCompleto | RegistrarPagoyConciliar/pruebas.py:63-76 | an invoice of 1500.50 paid in full and saved through two "locked" failures is stored PAGADA with balance 0, the payment date and receipt, after 3 attempts; its transaction is stored reconciled with flag 1 |
| Escenarios.PagoParcial | RegistrarPagoyConciliar/pruebas.py:130-184 | 3000.00 paid 1000, 1500, 500 gives balances 2000, 500, 0 and statuses PAGADA_PARCIAL, PAGADA_PARCIAL, PAGADA; the stored invoice is PAGADA with balance 0; the transaction table holds exactly the rows TRX-002, TRX-003 and TRX-004, all of FAC-002, reconciled with flag 1, and their amounts sum to the total |
| Escenarios.TresPagos | RegistrarPagoyConciliar/pruebas.py:130-155 | the payment half of that flow: the balances, statuses and stored invoice row above, and three distinct new transactions TRX-002, TRX-003 and TRX-004 with those amounts for FAC-002, whose ids are exactly the keys added to the transaction table |
| Escenarios.PagarYRegistrar | RegistrarPagoyConciliar/pruebas.py:134-137 | one step: the balance drops by the amount, the status follows the new balance, the invoice row is upserted, and a new transaction for that invoice and amount is stored |
| Escenarios.ConciliarTres | RegistrarPagoyConciliar/pruebas.py:158-163 | the three transactions are reconciled and then saved; their rows keep amount and invoice and show flag 1 and 'CONCILIADA'; the transaction table is the old one with those three rows written under the three ids in that order; the invoice table is unchanged |
| Escenarios.ReintentosAgotados | RegistrarPagoyConciliar/persistencia.py:30-35 | a save that meets "locked" on all three attempts raises after pauses of 100 and 200 ms; the store keeps the unpaid row while the invoice in memory is paid |
| GenerarFactura.QuitarGuiones | Alexis/generar_factura.py:899 | removing hyphens keeps every other character, as many times as it occurs (as multisets, the result is the input with the hyphens taken out); it leaves no hyphen, never lengthens the string, and leaves a hyphen-free string as it is |
| GenerarFactura.SinEspaciosIniciales | Alexis/generar_factura.py:872 | the result is a suffix of the string; what was removed is whitespace; the result does not start with whitespace |
| GenerarFactura.SinEspaciosFinales | Alexis/generar_factura.py:872 | the result is a prefix of the string; what was removed is whitespace; the result does not end with whitespace |
| GenerarFactura.Recortar | Alexis/generar_factura.py:872 | `str.strip` never lengthens the string, and a non-empty result neither starts nor ends with whitespace |
| GenerarFactura.RecortarEsPieza | Alexis/generar_factura.py:872 | strip keeps a contiguous piece of the string, and leaves nothing iff the string is all whitespace |
| GenerarFactura.ValidarRfc | Alexis/generar_factura.py:889-912 | an accepted RFC is non-empty, has 12 or 13 characters, and is only letters and digits once its hyphens are removed |
| GenerarFactura.FormaEsAlfanumerica | Alexis/generar_factura.py:903-910 | every character of an RFC of either shape is a letter or a digit |
| GenerarFactura.ValidarRfcSii | Alexis/generar_factura.py:889-912 | an RFC is accepted iff it is 13 characters of 4 letters, 6 digits and 3 letters or digits, or 12 characters of 3 letters, 6 digits and 3 letters or digits |
| GenerarFactura.RfcAceptadoSinGuiones | Alexis/generar_factura.py:891-910 | an accepted RFC is non-empty, has 12 or 13 characters and contains no hyphen |
| GenerarFactura.FiltroAdmiteGuiones | Alexis/generar_factura.py:899 | letters, digits and hyphens with at least one letter or digit pass the hyphen-stripping filter |
| GenerarFactura.AlfanumericosSinGuiones | Alexis/generar_factura.py:899 | letters, digits and hyphens leave only letters and digits once hyphens are removed |
| GenerarFactura.GuionEnLugarDeLetra | Alexis/generar_factura.py:899-910 | a 12-character RFC with a hyphen in its fourth position passes the filter but is rejected |
| GenerarFactura.RfcConGuionRechazado | Alexis/generar_factura.py:899-910 | "ABC-12345678" passes the filter and is rejected |
| GenerarFactura.ValidarDatosFiscalesSistema | Alexis/generar_factura.py:364-377 | valid iff the RFC has 12 or 13 characters, the fiscal address at least 10 and the regime is given; the first failing check, in that order, gives its message; success says "Datos fiscales válidos" |
| GenerarFactura.ValidarDatosFiscalesFormulario | Alexis/generar_factura.py:862-887 | the form accepts a client iff the RFC is accepted, the stripped fiscal address has at least 10 characters and the stripped regime is not empty |
| GenerarFactura.FormularioImplicaSistema | Alexis/generar_factura.py:862-883 | every client the form's check accepts passes the simpler check too |
| GenerarFactura.SistemaNoImplicaFormulario | Alexis/generar_factura.py:862-883 | a client with RFC "ABC-12345678" and an address of ten blanks passes the simpler check but not the form's |
| GenerarFactura.Subtotal | Alexis/generar_factura.py:764-768 | the sum of price × quantity over the lines; it is not negative when no line has a negative price or quantity |
| GenerarFactura.SubtotalConcat | Alexis/generar_factura.py:764-768 | the subtotal of two line lists in sequence is the sum of their subtotals |
| GenerarFactura.CalcularTotales | Alexis/generar_factura.py:763-779 | the loop's subtotal is the exact sum of price × quantity; the IVA is 0.16 × subtotal; the total is subtotal + IVA = 1.16 × subtotal |
| GenerarFactura.TotalCubreSubtotal | Alexis/generar_factura.py:778-779 | with non-negative lines the total is at least the subtotal, and equal only when the subtotal is 0 |
| GenerarFactura.VerificarConexionSat | Alexis/generar_factura.py:960-982 | 1 to 3 attempts; connected iff some answer connects (an exception is a failure), and then at the first such answer; one pause per failed attempt but the last; the SAT error is shown iff not connected |

## Left out

- The tkinter windows and callbacks of the invoicing form, the product-update, negotiation and client screens, and the form's entry script are user interface.
- Database plumbing is not modelled: the connection helper, the database manager, the `from_db` readers and the table schema. The schema declares fewer columns than the upserts write; the model keeps the logical rows of nine and eleven values.
- Sending the invoice by SMTP, the `mailto` launch and the CFDI XML file are foreign I/O.
- `validar_email` is not part of this model: its meaning rests on Python's Unicode `\w`.
- The stale entry script of the payment package (a three-argument `Factura`, a missing `marcar_como_pagada`) is not part of this model. The test script is used only as a source of the flows in `Escenarios`.
- The locking semantics of SQLite (WAL mode, concurrent writers) are not modelled. Only the sequential retry logic is.
- Real waiting (`time.sleep`), `random.random()` and `datetime.now()` are inputs or recorded values.
- The ISO text of dates (`isoformat()`) is not modelled: rows hold the `Fecha`/`Instante` values.
- Floating-point amounts of the payment classes are not modelled; they are exact cents. Float rounding (for example a balance left at 1e-13 instead of 0) is therefore absent.
- Decimal's 28-digit context is not modelled; the form's totals are exact reals. The two-decimal display formatting is also left out.
- `isalpha`, `isdigit` and `isalnum` accept only ASCII letters and digits here. Python also accepts other Unicode letters and digits.
- Client fields that are `None` are not modelled; every field is a string. In the form's check, a `None` field does not raise: `validar_rfc(None)` returns False (Alexis/generar_factura.py:891), and `not` short-circuits before `strip` is called (lines 872 and 878), so the check returns False. In the simpler check, a `None` RFC makes `len` raise `TypeError` (line 366).
- The error dialogs of the form's fiscal check and the console messages of the SAT check are left out. Only whether the SAT error dialog is shown is modelled.
- Persistencia.BaseDatos.GuardarFactura: requires one outcome for each of the three possible attempts. Outcomes that are never reached are ignored.
- Persistencia.BaseDatos.GuardarTransaccion: requires one outcome for each of the three possible attempts, as above.
- GenerarFactura.VerificarConexionSat: requires one answer for each of the three possible attempts. The unreachable final `return False` of the source has no counterpart.
- The schema declares a UNIQUE index on the invoice's order id (RegistrarPagoyConciliar/init_db.py:98). So an `INSERT OR REPLACE` of an invoice also deletes any other invoice row with the same order id. `Upsert` replaces by primary key only, because the schema is not part of this model.
- The text of the `ValueError` messages of `registrar_pago` is not modelled. `ErrorPago` only tells the two rejections apart.

## Findings

| source | as written | input that shows it | evidently intended | confidence | as-written member | corrected member |
|---|---|---|---|---|---|---|
| RegistrarPagoyConciliar/persistencia.py:1-4 | the file never imports `sqlite3`, so evaluating `except sqlite3.OperationalError` (lines 30 and 63) raises `NameError` on the first failed attempt, and no failure is ever retried | attempt outcomes [locked, locked, commit] | a "locked" OperationalError is retried up to three attempts, so this save commits on the third attempt after pauses of 0.1 s and 0.2 s | not executed | Persistencia.ReintentarComoEscrito, Persistencia.SinImportarSqlite3NoHayReintento | Persistencia.Reintentar, Persistencia.BaseDatos.GuardarFactura, Persistencia.BaseDatos.GuardarTransaccion |
