/**
  The self-contained logic of the invoicing form (Alexis/generar_factura.py): the RFC
  (Mexican taxpayer id) format check, the two checks of a client's fiscal data, the
  subtotal / IVA / total of an order, and the retried connection check with the SAT
  (the tax authority).

  Decimal amounts are exact `real`s. Character classes are ASCII letters and digits.
 */
module GenerarFactura {

  // ---------------------------------------------------------------------------
  // Characters and strings
  // ---------------------------------------------------------------------------

  predicate EsLetra(c: char)
  {
    'A' <= c <= 'Z' || 'a' <= c <= 'z'
  }

  predicate EsDigito(c: char)
  {
    '0' <= c <= '9'
  }

  predicate EsAlfanumerico(c: char)
  {
    EsLetra(c) || EsDigito(c)
  }

  /** `str.isalpha()`: non-empty and made of letters only. */
  predicate SoloLetras(s: string)
  {
    |s| > 0 && forall i :: 0 <= i < |s| ==> EsLetra(s[i])
  }

  /** `str.isdigit()`: non-empty and made of digits only. */
  predicate SoloDigitos(s: string)
  {
    |s| > 0 && forall i :: 0 <= i < |s| ==> EsDigito(s[i])
  }

  /** `str.isalnum()`: non-empty and made of letters and digits only. */
  predicate SoloAlfanumericos(s: string)
  {
    |s| > 0 && forall i :: 0 <= i < |s| ==> EsAlfanumerico(s[i])
  }

  /** `s.replace('-', '')`: the characters of `s` other than hyphens, in order. */
  function QuitarGuiones(s: string): (r: string)
    ensures multiset(r) == multiset(s)['-' := 0]
    ensures '-' !in r
    ensures |r| <= |s|
    ensures '-' !in s ==> r == s
  {
    if s == [] then []
    else
      assert s == [s[0]] + s[1..];
      (if s[0] == '-' then [] else [s[0]]) + QuitarGuiones(s[1..])
  }

  /** The characters `str.strip()` removes: Python's whitespace (`str.isspace()`). */
  predicate EsEspacio(c: char)
  {
    var n := c as int;
    || 9 <= n <= 13 || 28 <= n <= 32 || n == 0x85 || n == 0xA0 || n == 0x1680
    || 0x2000 <= n <= 0x200A || n == 0x2028 || n == 0x2029 || n == 0x202F
    || n == 0x205F || n == 0x3000
  }

  /** `s` without its leading whitespace. */
  function SinEspaciosIniciales(s: string): (r: string)
    ensures |r| <= |s| && r == s[|s| - |r|..]
    ensures forall i :: 0 <= i < |s| - |r| ==> EsEspacio(s[i])
    ensures r != [] ==> !EsEspacio(r[0])
  {
    if s != [] && EsEspacio(s[0]) then SinEspaciosIniciales(s[1..]) else s
  }

  /** `s` without its trailing whitespace. */
  function SinEspaciosFinales(s: string): (r: string)
    ensures |r| <= |s| && r == s[..|r|]
    ensures forall i :: |r| <= i < |s| ==> EsEspacio(s[i])
    ensures r != [] ==> !EsEspacio(r[|r| - 1])
  {
    if s != [] && EsEspacio(s[|s| - 1]) then SinEspaciosFinales(s[..|s| - 1]) else s
  }

  /** `s.strip()`: no longer than `s`, and with no whitespace at either end. */
  function Recortar(s: string): (r: string)
    ensures |r| <= |s|
    ensures r != [] ==> !EsEspacio(r[0]) && !EsEspacio(r[|r| - 1])
  {
    SinEspaciosFinales(SinEspaciosIniciales(s))
  }

  /** `r` is the piece of `s` that starts at position `i`. */
  predicate PiezaEn(r: string, s: string, i: int)
  {
    0 <= i <= |s| - |r| && r == s[i..i + |r|]
  }

  /** Stripping keeps a contiguous piece of the string, and leaves nothing exactly when the
      string is all whitespace. */
  lemma RecortarEsPieza(s: string)
    ensures exists i :: PiezaEn(Recortar(s), s, i)
    ensures Recortar(s) == [] <==> forall i :: 0 <= i < |s| ==> EsEspacio(s[i])
  {
    var a := SinEspaciosIniciales(s);
    var r := Recortar(s);
    var i := |s| - |a|;
    assert r == a[..|r|] == s[i..i + |r|];
    assert PiezaEn(r, s, i);
    if r != [] {
      assert s[i] == r[0];
    }
  }

  // ---------------------------------------------------------------------------
  // RFC format: GenerarFacturaGUI.validar_rfc
  // ---------------------------------------------------------------------------

  /** `validar_rfc`: non-empty, 12 or 13 characters, letters and digits once hyphens are
      removed, and the positional shape that its length calls for. */
  function ValidarRfc(rfc: string): (ok: bool)
    ensures ok ==> rfc != "" && (|rfc| == 12 || |rfc| == 13)
    ensures ok ==> SoloAlfanumericos(QuitarGuiones(rfc))
  {
    if rfc == "" then false
    else if |rfc| != 12 && |rfc| != 13 then false
    else if !SoloAlfanumericos(QuitarGuiones(rfc)) then false
    else if |rfc| == 13 then
      SoloLetras(rfc[..4]) && SoloDigitos(rfc[4..10]) && SoloAlfanumericos(rfc[10..])
    else
      SoloLetras(rfc[..3]) && SoloDigitos(rfc[3..9]) && SoloAlfanumericos(rfc[9..])
  }

  /** The RFC of a natural person: four letters, six digits, three letters or digits. */
  predicate FormaPersonaFisica(rfc: string)
  {
    && |rfc| == 13
    && (forall i :: 0 <= i < 4 ==> EsLetra(rfc[i]))
    && (forall i :: 4 <= i < 10 ==> EsDigito(rfc[i]))
    && (forall i :: 10 <= i < 13 ==> EsAlfanumerico(rfc[i]))
  }

  /** The RFC of a legal person: three letters, six digits, three letters or digits. */
  predicate FormaPersonaMoral(rfc: string)
  {
    && |rfc| == 12
    && (forall i :: 0 <= i < 3 ==> EsLetra(rfc[i]))
    && (forall i :: 3 <= i < 9 ==> EsDigito(rfc[i]))
    && (forall i :: 9 <= i < 12 ==> EsAlfanumerico(rfc[i]))
  }

  /** Every character of a string of either shape is a letter or a digit. */
  lemma FormaEsAlfanumerica(rfc: string)
    requires FormaPersonaFisica(rfc) || FormaPersonaMoral(rfc)
    ensures forall i :: 0 <= i < |rfc| ==> EsAlfanumerico(rfc[i])
  {
    forall i | 0 <= i < |rfc| ensures EsAlfanumerico(rfc[i]) {
      if |rfc| == 13 {
        if i < 4 {} else if i < 10 {} else {}
      } else {
        if i < 3 {} else if i < 9 {} else {}
      }
    }
  }

  /** An RFC is accepted exactly when it has the natural-person or the legal-person shape: the
      hyphen-stripping filter accepts nothing the positional checks would reject. */
  lemma ValidarRfcSii(rfc: string)
    ensures ValidarRfc(rfc) <==> FormaPersonaFisica(rfc) || FormaPersonaMoral(rfc)
  {
    if FormaPersonaFisica(rfc) || FormaPersonaMoral(rfc) {
      FormaEsAlfanumerica(rfc);
      assert '-' !in rfc;
      assert QuitarGuiones(rfc) == rfc;
      if |rfc| == 13 {
        assert forall i :: 0 <= i < 4 ==> rfc[..4][i] == rfc[i];
        assert forall i :: 0 <= i < 6 ==> rfc[4..10][i] == rfc[4 + i];
        assert forall i :: 0 <= i < 3 ==> rfc[10..][i] == rfc[10 + i];
      } else {
        assert forall i :: 0 <= i < 3 ==> rfc[..3][i] == rfc[i];
        assert forall i :: 0 <= i < 6 ==> rfc[3..9][i] == rfc[3 + i];
        assert forall i :: 0 <= i < 3 ==> rfc[9..][i] == rfc[9 + i];
      }
    }
    if ValidarRfc(rfc) {
      if |rfc| == 13 {
        forall i | 0 <= i < 13
          ensures i < 4 ==> EsLetra(rfc[i])
          ensures 4 <= i < 10 ==> EsDigito(rfc[i])
          ensures 10 <= i ==> EsAlfanumerico(rfc[i])
        {
          if i < 4 { assert rfc[..4][i] == rfc[i]; }
          else if i < 10 { assert rfc[4..10][i - 4] == rfc[i]; }
          else { assert rfc[10..][i - 10] == rfc[i]; }
        }
      } else {
        forall i | 0 <= i < 12
          ensures i < 3 ==> EsLetra(rfc[i])
          ensures 3 <= i < 9 ==> EsDigito(rfc[i])
          ensures 9 <= i ==> EsAlfanumerico(rfc[i])
        {
          if i < 3 { assert rfc[..3][i] == rfc[i]; }
          else if i < 9 { assert rfc[3..9][i - 3] == rfc[i]; }
          else { assert rfc[9..][i - 9] == rfc[i]; }
        }
      }
    }
  }

  /** An accepted RFC is non-empty, has 12 or 13 characters and holds no hyphen, although the
      first character filter looks at it with its hyphens removed. */
  lemma RfcAceptadoSinGuiones(rfc: string)
    requires ValidarRfc(rfc)
    ensures rfc != "" && (|rfc| == 12 || |rfc| == 13)
    ensures '-' !in rfc
  {
    ValidarRfcSii(rfc);
    FormaEsAlfanumerica(rfc);
  }

  /** A string of letters, digits and hyphens with at least one letter or digit passes the
      hyphen-stripping filter of `validar_rfc`. */
  lemma FiltroAdmiteGuiones(s: string, k: int)
    requires forall i :: 0 <= i < |s| ==> EsAlfanumerico(s[i]) || s[i] == '-'
    requires 0 <= k < |s| && EsAlfanumerico(s[k])
    ensures SoloAlfanumericos(QuitarGuiones(s))
  {
    AlfanumericosSinGuiones(s);
    assert s[k] in multiset(s) && s[k] != '-';
    assert s[k] in multiset(QuitarGuiones(s));
  }

  /** Removing hyphens keeps only letters and digits from a string of letters, digits and hyphens. */
  lemma {:induction false} AlfanumericosSinGuiones(s: string)
    requires forall i :: 0 <= i < |s| ==> EsAlfanumerico(s[i]) || s[i] == '-'
    ensures forall i :: 0 <= i < |QuitarGuiones(s)| ==> EsAlfanumerico(QuitarGuiones(s)[i])
    decreases |s|
  {
    if s != [] {
      AlfanumericosSinGuiones(s[1..]);
    }
  }

  /** A 12-character RFC of letters and digits with a hyphen in place of its fourth letter
      passes the hyphen-stripping filter but is rejected by the positional check. */
  lemma GuionEnLugarDeLetra(rfc: string)
    requires |rfc| == 12 && rfc[3] == '-' && EsAlfanumerico(rfc[0])
    requires forall i :: 0 <= i < |rfc| ==> EsAlfanumerico(rfc[i]) || rfc[i] == '-'
    ensures SoloAlfanumericos(QuitarGuiones(rfc))
    ensures !ValidarRfc(rfc)
  {
    ValidarRfcSii(rfc);
    assert !FormaPersonaMoral(rfc) by {
      assert 3 <= 3 < 9 && !EsDigito(rfc[3]);
    }
    FiltroAdmiteGuiones(rfc, 0);
  }

  /** `ABC-12345678`: the filter lets it through (eleven letters and digits remain) but the
      positional check rejects it. */
  lemma RfcConGuionRechazado()
    ensures SoloAlfanumericos(QuitarGuiones("ABC-12345678"))
    ensures !ValidarRfc("ABC-12345678")
  {
    var rfc := "ABC-12345678";
    assert |rfc| == 12 && rfc[3] == '-' && EsAlfanumerico(rfc[0]);
    assert forall i :: 0 <= i < |rfc| ==> EsAlfanumerico(rfc[i]) || rfc[i] == '-';
    GuionEnLugarDeLetra(rfc);
  }

  // ---------------------------------------------------------------------------
  // Fiscal data: Sistema.validar_datos_fiscales and GenerarFacturaGUI.validar_datos_fiscales
  // ---------------------------------------------------------------------------

  /** The client fields the checks read (`Cliente`). */
  datatype Cliente = Cliente(
    id: string,
    nombre: string,
    direccion: string,
    rfc: string,
    regimenFiscal: string,
    direccionFiscal: string)

  /** A check's answer: whether the data is valid, and the message that says why. */
  datatype Veredicto = Veredicto(valido: bool, mensaje: string)

  /** `Sistema.validar_datos_fiscales`: checks the RFC's length, then that the fiscal address
      has at least 10 characters, then that a regime is given, and answers with the first
      failure's message. */
  function ValidarDatosFiscalesSistema(c: Cliente): (v: Veredicto)
    ensures v.valido <==>
      (|c.rfc| == 12 || |c.rfc| == 13) && |c.direccionFiscal| >= 10 && c.regimenFiscal != ""
    ensures v.valido ==> v.mensaje == "Datos fiscales válidos"
    ensures |c.rfc| != 12 && |c.rfc| != 13 ==> v == Veredicto(false, "RFC inválido")
    ensures (|c.rfc| == 12 || |c.rfc| == 13) && |c.direccionFiscal| < 10 ==>
      v == Veredicto(false, "Dirección fiscal incompleta")
    ensures (|c.rfc| == 12 || |c.rfc| == 13) && |c.direccionFiscal| >= 10 && c.regimenFiscal == "" ==>
      v == Veredicto(false, "Régimen fiscal no especificado")
  {
    if !(|c.rfc| in {12, 13}) then Veredicto(false, "RFC inválido")
    else if c.direccionFiscal == "" || |c.direccionFiscal| < 10 then
      Veredicto(false, "Dirección fiscal incompleta")
    else if c.regimenFiscal == "" then Veredicto(false, "Régimen fiscal no especificado")
    else Veredicto(true, "Datos fiscales válidos")
  }

  /** The form's `validar_datos_fiscales`, without its error dialogs: the RFC passes
      `validar_rfc`, the stripped fiscal address has at least 10 characters, and the
      stripped regime is not empty. */
  function ValidarDatosFiscalesFormulario(c: Cliente): (ok: bool)
    ensures ok <==>
      ValidarRfc(c.rfc) && |Recortar(c.direccionFiscal)| >= 10 && Recortar(c.regimenFiscal) != ""
  {
    if !ValidarRfc(c.rfc) then false
    else if c.direccionFiscal == "" || |Recortar(c.direccionFiscal)| < 10 then false
    else if c.regimenFiscal == "" || Recortar(c.regimenFiscal) == "" then false
    else true
  }

  /** Whatever the form accepts, `Sistema` accepts too: the form's checks are the stricter ones. */
  lemma FormularioImplicaSistema(c: Cliente)
    requires ValidarDatosFiscalesFormulario(c)
    ensures ValidarDatosFiscalesSistema(c).valido
  {
    RfcAceptadoSinGuiones(c.rfc);
  }

  /** The converse fails: a hyphenated RFC and an address of blanks pass `Sistema` and not the form. */
  lemma SistemaNoImplicaFormulario()
    ensures var c := Cliente("C1", "Cliente", "Calle 1", "ABC-12345678", "601", "          ");
      ValidarDatosFiscalesSistema(c).valido && !ValidarDatosFiscalesFormulario(c)
  {
    var c := Cliente("C1", "Cliente", "Calle 1", "ABC-12345678", "601", "          ");
    assert ValidarDatosFiscalesSistema(c).valido;
    assert !ValidarDatosFiscalesFormulario(c) by {
      RfcConGuionRechazado();
    }
  }

  // ---------------------------------------------------------------------------
  // Order totals: the arithmetic of on_pedido_selected
  // ---------------------------------------------------------------------------

  /** One order line as the detail query returns it: product id, name, unit price, quantity. */
  datatype Detalle = Detalle(productoId: string, nombre: string, precio: real, cantidad: int)

  /** The IVA rate, `Decimal('0.16')`. */
  const TasaIva: real := 0.16

  /** A line's amount, `precio * cantidad`. */
  function Importe(d: Detalle): real
  {
    d.precio * d.cantidad as real
  }

  /** The sum of the line amounts, accumulated from the first line to the last. Lines with
      non-negative prices and quantities have a non-negative sum. */
  function Subtotal(detalles: seq<Detalle>): (r: real)
    ensures (forall i :: 0 <= i < |detalles| ==> detalles[i].precio >= 0.0 && detalles[i].cantidad >= 0)
      ==> r >= 0.0
  {
    if detalles == [] then 0.0
    else
      var ultimo := detalles[|detalles| - 1];
      assert ultimo.precio >= 0.0 && ultimo.cantidad >= 0 ==> Importe(ultimo) >= 0.0;
      Subtotal(detalles[..|detalles| - 1]) + Importe(ultimo)
  }

  /** The subtotal of two lists of lines one after the other is the sum of their subtotals. */
  lemma {:induction false} SubtotalConcat(a: seq<Detalle>, b: seq<Detalle>)
    ensures Subtotal(a + b) == Subtotal(a) + Subtotal(b)
    decreases |b|
  {
    if b == [] {
      assert a + b == a;
    } else {
      assert (a + b)[..|a + b| - 1] == a + b[..|b| - 1];
      SubtotalConcat(a, b[..|b| - 1]);
    }
  }

  /** The totals of an order: `subtotal` is the exact sum of the line amounts, the IVA is 16% of
      it and the total is the subtotal plus the IVA, that is 1.16 times the subtotal. */
  method CalcularTotales(detalles: seq<Detalle>) returns (subtotal: real, iva: real, total: real)
    ensures subtotal == Subtotal(detalles)
    ensures iva == subtotal * TasaIva
    ensures total == subtotal + iva && total == subtotal * 1.16
  {
    subtotal := 0.0;
    for i := 0 to |detalles|
      invariant subtotal == Subtotal(detalles[..i])
    {
      var precio := detalles[i].precio;
      var cantidad := detalles[i].cantidad;
      var importe := precio * cantidad as real;
      assert detalles[..i + 1][..i] == detalles[..i];
      subtotal := subtotal + importe;
    }
    assert detalles[..|detalles|] == detalles;
    iva := subtotal * TasaIva;
    total := subtotal + iva;
  }

  /** With non-negative lines the total is never below the subtotal, and the two are equal only
      when the subtotal is zero. */
  lemma TotalCubreSubtotal(detalles: seq<Detalle>)
    requires forall i :: 0 <= i < |detalles| ==> detalles[i].precio >= 0.0 && detalles[i].cantidad >= 0
    ensures Subtotal(detalles) * 1.16 >= Subtotal(detalles)
    ensures Subtotal(detalles) * 1.16 == Subtotal(detalles) <==> Subtotal(detalles) == 0.0
  {
  }

  // ---------------------------------------------------------------------------
  // SAT connection check: verificar_conexion_sat
  // ---------------------------------------------------------------------------

  /** What one call of `simular_conexion_sat` does: connects, fails, or raises. */
  datatype RespuestaSat = Conecta | NoConecta | Excepcion

  /** `max_intentos`: retries after the first attempt. */
  const MaxReintentosSat: nat := 2

  /** `verificar_conexion_sat`: tries up to three times, pausing one second after each failed
      attempt but the last. It reports a connection exactly when some attempt connects (an
      exception counts as a failure) and it shows the SAT error exactly when none does. */
  method VerificarConexionSat(respuestas: seq<RespuestaSat>)
    returns (conectado: bool, intentos: nat, pausas: nat, errorMostrado: bool)
    requires |respuestas| == MaxReintentosSat + 1
    ensures conectado <==> Conecta in respuestas
    ensures 1 <= intentos <= MaxReintentosSat + 1 && pausas == intentos - 1
    ensures conectado ==> respuestas[intentos - 1] == Conecta && Conecta !in respuestas[..intentos - 1]
    ensures !conectado ==> intentos == MaxReintentosSat + 1
    ensures errorMostrado <==> !conectado
  {
    var intento := 0;
    pausas := 0;
    while intento < MaxReintentosSat + 1
      invariant intento <= MaxReintentosSat
      invariant pausas == intento
      invariant Conecta !in respuestas[..intento]
    {
      if respuestas[intento] == Conecta {
        return true, intento + 1, pausas, false;
      }
      if intento < MaxReintentosSat {
        pausas := pausas + 1;
      } else {
        assert respuestas[..intento + 1] == respuestas;
        return false, intento + 1, pausas, true;
      }
      assert respuestas[..intento + 1] == respuestas[..intento] + [respuestas[intento]];
      intento := intento + 1;
    }
    assert false;
  }
}
