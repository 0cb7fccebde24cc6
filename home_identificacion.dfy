/** The identification technician's home screen: starting an order picks, from the order's
    subservice name once trimmed and lower-cased, the endpoint that starts the process and the
    screen that is opened next. */
module HomeIdentificacion {
  import opened Js

  /** The four processes an order can start. */
  datatype Modulo = VerificacionSeries | HistorialVehicular | CertificadoUnico | Contratos

  /** `subservicio.trim().toLowerCase()`: the normal form carries no upper-case letter and no
      whitespace at either end, and is as long as the trimmed name. */
  function Normalizar(s: string): (r: string)
    ensures |r| == |Trim(s)|
    ensures forall k :: 0 <= k < |r| ==> !IsUpper(r[k])
    ensures r == [] || (!IsWhitespace(r[0]) && !IsWhitespace(r[|r| - 1]))
  {
    ToLower(Trim(s))
  }

  /** The normalised subservice names that select each process. */
  function Nombres(m: Modulo): set<string>
  {
    match m
    case VerificacionSeries => {"verificaci\U{F3}n de series"}
    case HistorialVehicular => {"historial vehicular"}
    case CertificadoUnico => {"certificado unico vehicular"}
    case Contratos => {"constancia", "legalizacion de contratos"}
  }

  /** The process a subservice name selects, if any: the one whose names hold its normal form. */
  function ModuloDe(subservicio: string): (r: Option<Modulo>)
    ensures forall m :: r == Some(m) <==> Normalizar(subservicio) in Nombres(m)
    ensures r.None? <==> forall m :: Normalizar(subservicio) !in Nombres(m)
  {
    ModuloDeNormal(Normalizar(subservicio))
  }

  /** The match on an already normalised name. */
  function ModuloDeNormal(modulo: string): (r: Option<Modulo>)
    ensures forall m :: r == Some(m) <==> modulo in Nombres(m)
    ensures r.None? <==> forall m :: modulo !in Nombres(m)
  {
    if modulo == "verificaci\U{F3}n de series" then Some(VerificacionSeries)
    else if modulo == "historial vehicular" then Some(HistorialVehicular)
    else if modulo == "certificado unico vehicular" then Some(CertificadoUnico)
    else if modulo == "constancia" || modulo == "legalizacion de contratos" then Some(Contratos)
    else None
  }

  /** The start endpoint of each process for order `idOrden`. */
  function Endpoint(m: Modulo, idOrden: string): (r: string)
    ensures |r| >= |idOrden| + 10 && r[0] == '/'
    ensures r[|r| - |idOrden| - 9..] == "/iniciar/" + idOrden
  {
    match m
    case VerificacionSeries => "/identificacion/iniciar/" + idOrden
    case HistorialVehicular => "/historial/iniciar/" + idOrden
    case CertificadoUnico => "/certificados/iniciar/" + idOrden
    case Contratos => "/contratos/iniciar/" + idOrden
  }

  /** The screen each process opens. */
  function Pantalla(m: Modulo): (r: string)
    ensures r == "Identificacion" <==> m == VerificacionSeries
    ensures r == "HistorialVehicular" <==> m == HistorialVehicular
    ensures r == "CUV" <==> m == CertificadoUnico
    ensures r == "Contrato" <==> m == Contratos
  {
    match m
    case VerificacionSeries => "Identificacion"
    case HistorialVehicular => "HistorialVehicular"
    case CertificadoUnico => "CUV"
    case Contratos => "Contrato"
  }

  /** Different processes have different endpoints and screens. */
  lemma EndpointsDistintos(m1: Modulo, m2: Modulo, idOrden: string)
    requires m1 != m2
    ensures Endpoint(m1, idOrden) != Endpoint(m2, idOrden)
    ensures Pantalla(m1) != Pantalla(m2)
  {
    var e1, e2 := Endpoint(m1, idOrden), Endpoint(m2, idOrden);
    assert e1[1] != e2[1] || e1[2] != e2[2];
  }

  const MensajeError := "Error iniciando el proceso."

  /** What `iniciarProceso` does with the PUT's outcome: `None` when the request itself fails,
      which throws to the caller; a non-ok status only alerts and returns normally. */
  datatype Proceso = Proceso(lanza: bool, alerta: bool)

  function IniciarProceso(respuestaOk: Option<bool>): (p: Proceso)
    ensures p.lanza <==> respuestaOk.None?
    ensures p.alerta <==> respuestaOk == Some(false)
  {
    if respuestaOk.None? then Proceso(true, false)
    else Proceso(false, !respuestaOk.value)
  }

  /** The observable effects of one press of "Iniciar Identificación". */
  datatype Efecto = Efecto(solicitud: Option<string>, alertas: seq<string>, navegacion: Option<(string, string)>)

  /** `iniciarIdentificacion`. A missing subservice name throws before the `try`, with no effect.
      A name that selects no process does nothing. Otherwise the start request is sent; when it
      fails the error is alerted and nothing is opened, and when it answers the process screen is
      opened with the order id, after an alert if the status was not ok. */
  function IniciarIdentificacion(idOrden: string, subservicio: Option<string>, respuestaOk: Option<bool>): (e: Efecto)
    ensures subservicio.None? ==> e == Efecto(None, [], None)
    ensures e.solicitud.Some? <==> subservicio.Some? && ModuloDe(subservicio.value).Some?
    ensures e.solicitud.Some? ==> e.solicitud.value == Endpoint(ModuloDe(subservicio.value).value, idOrden)
    ensures e.navegacion.Some? <==> e.solicitud.Some? && respuestaOk.Some?
    ensures e.navegacion.Some? ==> e.navegacion.value == (Pantalla(ModuloDe(subservicio.value).value), idOrden)
    ensures e.alertas == if e.solicitud.Some? && respuestaOk != Some(true) then [MensajeError] else []
  {
    if subservicio.None? then Efecto(None, [], None)
    else
      var m := ModuloDe(subservicio.value);
      if m.None? then Efecto(None, [], None)
      else
        var url := Endpoint(m.value, idOrden);
        var p := IniciarProceso(respuestaOk);
        if p.lanza then Efecto(Some(url), [MensajeError], None)
        else Efecto(Some(url), if p.alerta then [MensajeError] else [], Some((Pantalla(m.value), idOrden)))
  }

  /** Normalising is idempotent, so a name and its normal form select the same process. */
  lemma {:induction false} ModuloDeNormalizado(s: string)
    ensures Normalizar(Normalizar(s)) == Normalizar(s)
    ensures ModuloDe(Normalizar(s)) == ModuloDe(s)
  {
    var t := Trim(s);
    TrimIdempotent(s);
    TrimOfLower(t);
    assert Trim(ToLower(t)) == ToLower(t);
    ToLowerIdempotent(t);
  }

  lemma LowerHistorial()
    ensures ToLower("Historial Vehicular") == "historial vehicular"
  {
  }

  lemma TrimHistorial()
    ensures Trim("Historial Vehicular") == "Historial Vehicular"
  {
    TrimOfTrimmed("Historial Vehicular");
  }

  /** A name written with capitals selects its process. */
  lemma HistorialConMayusculas()
    ensures ModuloDe("Historial Vehicular") == Some(HistorialVehicular)
  {
    TrimHistorial();
    LowerHistorial();
  }
}
