/** The technician's vehicle-identification case: loading the stored case, the registry lookup
    of the plate with its manual fallback, the data saved, and the seven photo slots. */
module Identificacion {
  import opened Js

  // ---------------------------------------------------------------------------
  // Photo slots

  datatype TipoFoto = TipoFoto(tipo: string, nombre: string)

  /** The seven mandatory photo slots, in the order the screen shows them. */
  const TiposFotos: seq<TipoFoto> := [
    TipoFoto("vehiculo", "Veh\U{ED}culo"),
    TipoFoto("motor", "Motor"),
    TipoFoto("chasis", "Chasis"),
    TipoFoto("plaquilla_referencial", "Plaquilla Referencial"),
    TipoFoto("placa_vin", "Placa VIN"),
    TipoFoto("adhesivo_seguridad", "Adhesivo Seguridad"),
    TipoFoto("lectura_ecu", "Lectura ECU")
  ]

  /** A captured photo as the case record lists it. */
  datatype Foto = Foto(id: int, tipo: string, path: string, descripcion: string)

  predicate TiposDistintos(slots: seq<TipoFoto>)
  {
    forall i, j :: 0 <= i < j < |slots| ==> slots[i].tipo != slots[j].tipo
  }

  lemma TiposFotosDistintos()
    ensures |TiposFotos| == 7 && TiposDistintos(TiposFotos)
  {
  }

  function EsDeTipo(tipo: string): Foto -> bool
  {
    (f: Foto) => f.tipo == tipo
  }

  /** `fotos.filter(x => x.tipo === tipo)`: the photos one slot shows. */
  function FotosDeTipo(fotos: seq<Foto>, tipo: string): seq<Foto>
  {
    Filter(fotos, EsDeTipo(tipo))
  }

  predicate TieneCasillero(slots: seq<TipoFoto>, tipo: string)
  {
    exists k :: 0 <= k < |slots| && slots[k].tipo == tipo
  }

  /** How many times photo `f` is shown over all of `slots`. */
  function VecesMostrada(fotos: seq<Foto>, slots: seq<TipoFoto>, f: Foto): nat
  {
    if slots == [] then 0
    else VecesMostrada(fotos, slots[..|slots| - 1], f)
         + multiset(FotosDeTipo(fotos, slots[|slots| - 1].tipo))[f]
  }

  /** With distinct slot types, the slots partition the photos: each photo is shown exactly as
      often as it occurs when its type has a slot, and not at all otherwise. */
  lemma {:induction false} VecesMostradaParticion(fotos: seq<Foto>, slots: seq<TipoFoto>, f: Foto)
    requires TiposDistintos(slots)
    ensures VecesMostrada(fotos, slots, f) == if TieneCasillero(slots, f.tipo) then multiset(fotos)[f] else 0
  {
    if slots != [] {
      var n := |slots| - 1;
      var pre := slots[..n];
      assert TiposDistintos(pre);
      VecesMostradaParticion(fotos, pre, f);
      FilterCount(fotos, EsDeTipo(slots[n].tipo), f);
      if f.tipo == slots[n].tipo {
        assert !TieneCasillero(pre, f.tipo);
        assert TieneCasillero(slots, f.tipo);
      } else {
        assert TieneCasillero(slots, f.tipo) <==> TieneCasillero(pre, f.tipo) by {
          if TieneCasillero(slots, f.tipo) {
            var k :| 0 <= k < |slots| && slots[k].tipo == f.tipo;
            assert k < n && pre[k].tipo == f.tipo;
          }
          if TieneCasillero(pre, f.tipo) {
            var k :| 0 <= k < |pre| && pre[k].tipo == f.tipo;
            assert slots[k].tipo == f.tipo;
          }
        }
      }
    }
  }

  /** On the screen: a photo whose type is one of the seven is shown in exactly its slot, as often
      as it occurs; a photo of any other type is shown nowhere. */
  lemma FotosParticionadas(fotos: seq<Foto>, f: Foto)
    ensures VecesMostrada(fotos, TiposFotos, f)
            == if TieneCasillero(TiposFotos, f.tipo) then multiset(fotos)[f] else 0
    ensures forall k :: 0 <= k < |TiposFotos| ==>
              (f in FotosDeTipo(fotos, TiposFotos[k].tipo) <==> f in fotos && f.tipo == TiposFotos[k].tipo)
  {
    TiposFotosDistintos();
    VecesMostradaParticion(fotos, TiposFotos, f);
    forall k | 0 <= k < |TiposFotos|
      ensures f in FotosDeTipo(fotos, TiposFotos[k].tipo) <==> f in fotos && f.tipo == TiposFotos[k].tipo
    {
      FilterCount(fotos, EsDeTipo(TiposFotos[k].tipo), f);
    }
  }

  // ---------------------------------------------------------------------------
  // Vehicle data

  /** Vehicle data, either from the registry or typed in by hand; `manual` marks the second. */
  datatype Vehiculo = Vehiculo(placa: string, marca: string, modelo: string, anio: string,
                               paisOrigen: string, numeroMotor: string, numeroChasis: string,
                               manual: bool)

  const VehiculoManualInicial := Vehiculo("", "", "", "", "", "", "", true)

  /** The fields the manual-entry form edits, each with its new text. */
  datatype CambioManual =
    | Marca(v: string) | Modelo(v: string) | Anio(v: string)
    | PaisOrigen(v: string) | NumeroMotor(v: string) | NumeroChasis(v: string)

  /** The requester's contact data shown on the case. */
  datatype Contacto = Contacto(nombres: string, apellidos: string, telefono: string, direccion: string)

  const ContactoVacio := Contacto("", "", "", "")

  datatype PersonaContacto = PersonaContacto(nombres: Option<string>, apellidos: Option<string>,
                                             telefono: Option<string>, direccion: Option<string>)

  /** The answer of the ticket-contact request. */
  datatype RespuestaContacto = RespuestaContacto(ok: bool, persona: Option<PersonaContacto>)

  /** The stored case. `datosVehiculo` is the already-parsed vehicle JSON, `None` when it is
      absent or empty. */
  datatype RegistroCaso = RegistroCaso(placa: Option<string>, cedula: Option<string>,
                                       observaciones: Option<string>, conclusiones: Option<string>,
                                       datosVehiculo: Option<Vehiculo>, fotosDetalle: Option<seq<Foto>>)

  /** The registry lookup's answer. */
  datatype RespuestaAnt = RespuestaAnt(ok: bool, vehiculo: Option<Vehiculo>, propietarioCedula: Option<string>)

  /** What a lookup did to the case. */
  datatype Consulta = SinPlaca | SinRespuesta | Manual | Autoritativa

  const MensajeSinPlaca := "Ingrese la placa"

  const RutaFinalizar := "/identificacion/finalizar/"

  /** The menu shown after finalising; its buttons (view the PDF, go to the identifications list,
      cancel) lead outside this screen. */
  const MenuFinalizado := Alerta("Finalizado", Some("Seleccione una opci\U{F3}n"))

  /** What finalising did: the request as (route, conclusions) and the dialogs shown. */
  datatype Finalizacion = Finalizacion(solicitud: (string, string), alertas: seq<Alerta>)
  const MensajeIngresoManual := "No se encontr\U{F3} el veh\U{ED}culo, ingrese los datos manualmente"

  /** The requester data of the save payload. */
  datatype DatosCedula = DatosCedula(nombre: string, telefonoManual: string, direccionManual: string)

  /** What "save" sends: the vehicle data is whichever of the two shapes is in force. */
  datatype Payload = Payload(placa: string, cedula: string, observaciones: string,
                             datosCedula: DatosCedula, datosVehiculo: Option<Vehiculo>)

  class Caso {
    const idOrden: string
    var cargando: bool
    var placa: string
    var cedula: string
    var cedulaDueno: string
    var observaciones: string
    var conclusiones: string
    var vehiculo: Option<Vehiculo>
    var vehiculoManual: bool
    var vehiculoManualData: Vehiculo
    var fotos: seq<Foto>
    var cliente: Contacto

    constructor (id: string)
      ensures idOrden == id && cargando
      ensures placa == "" && cedula == "" && cedulaDueno == "" && observaciones == "" && conclusiones == ""
      ensures vehiculo == None && !vehiculoManual && vehiculoManualData == VehiculoManualInicial
      ensures fotos == [] && cliente == ContactoVacio
    {
      idOrden := id;
      cargando := true;
      placa, cedula, cedulaDueno, observaciones, conclusiones := "", "", "", "", "";
      vehiculo, vehiculoManual, vehiculoManualData := None, false, VehiculoManualInicial;
      fotos, cliente := [], ContactoVacio;
    }

    /** `cargarDatos` (with `cargarContactoTicket` first). A request that fails stops the load
        where it is. The contact is replaced only when the answer is ok and has a person; the text
        fields take the stored value or ""; stored vehicle data becomes both the vehicle and the
        manual data, and manual mode is on exactly when its `manual` flag is true. */
    method CargarDatos(contacto: Option<RespuestaContacto>, registro: Option<RegistroCaso>)
      modifies this`cargando, this`placa, this`cedula, this`observaciones, this`conclusiones,
               this`vehiculo, this`vehiculoManual, this`vehiculoManualData, this`fotos, this`cliente
      ensures contacto.None? ==> cliente == old(cliente) && cargando == old(cargando)
                                 && placa == old(placa) && vehiculo == old(vehiculo)
                                 && vehiculoManual == old(vehiculoManual) && fotos == old(fotos)
                                 && cedula == old(cedula) && observaciones == old(observaciones)
                                 && conclusiones == old(conclusiones) && vehiculoManualData == old(vehiculoManualData)
      ensures contacto.Some? ==>
                cliente == (if contacto.value.ok && contacto.value.persona.Some?
                            then var p := contacto.value.persona.value;
                                 Contacto(Or(p.nombres, ""), Or(p.apellidos, ""), Or(p.telefono, ""), Or(p.direccion, ""))
                            else old(cliente))
      ensures contacto.Some? && registro.None? ==>
                cargando == old(cargando) && placa == old(placa) && vehiculo == old(vehiculo)
                && vehiculoManual == old(vehiculoManual) && fotos == old(fotos)
                && cedula == old(cedula) && observaciones == old(observaciones)
                && conclusiones == old(conclusiones) && vehiculoManualData == old(vehiculoManualData)
      ensures contacto.Some? && registro.Some? ==> RegistroCargado(registro.value, old(vehiculo), old(vehiculoManual), old(vehiculoManualData))
      ensures cedulaDueno == old(cedulaDueno)
    {
      if contacto.None? {
        return;
      }
      var c := contacto.value;
      if c.ok && c.persona.Some? {
        var p := c.persona.value;
        cliente := Contacto(Or(p.nombres, ""), Or(p.apellidos, ""), Or(p.telefono, ""), Or(p.direccion, ""));
      }
      if registro.None? {
        return;
      }
      CargarRegistro(registro.value);
    }

    /** The state once the stored case `d` is loaded, given the vehicle fields before it: the
        text fields take the stored value or "", the photos the stored ones or none, and stored
        vehicle data becomes both the vehicle and the manual data, with manual mode on exactly
        when its `manual` flag is true. Without vehicle data the vehicle fields are kept. */
    predicate RegistroCargado(d: RegistroCaso, vehiculo0: Option<Vehiculo>, manual0: bool, manualData0: Vehiculo)
      reads this
    {
      !cargando
      && placa == Nullish(d.placa, "") && cedula == Nullish(d.cedula, "")
      && observaciones == Nullish(d.observaciones, "") && conclusiones == Nullish(d.conclusiones, "")
      && fotos == (if d.fotosDetalle.Some? then d.fotosDetalle.value else [])
      && (d.datosVehiculo.Some? ==>
            vehiculo == d.datosVehiculo && vehiculoManualData == d.datosVehiculo.value
            && (vehiculoManual <==> d.datosVehiculo.value.manual))
      && (d.datosVehiculo.None? ==>
            vehiculo == vehiculo0 && vehiculoManualData == manualData0 && vehiculoManual == manual0)
    }

    /** The second half of `cargarDatos`: the stored case is written into the screen's state. */
    method CargarRegistro(d: RegistroCaso)
      modifies this`cargando, this`placa, this`cedula, this`observaciones, this`conclusiones,
               this`vehiculo, this`vehiculoManual, this`vehiculoManualData, this`fotos
      ensures RegistroCargado(d, old(vehiculo), old(vehiculoManual), old(vehiculoManualData))
    {
      placa := Nullish(d.placa, "");
      cedula := Nullish(d.cedula, "");
      observaciones := Nullish(d.observaciones, "");
      conclusiones := Nullish(d.conclusiones, "");
      if d.datosVehiculo.Some? {
        var v := d.datosVehiculo.value;
        vehiculo := Some(v);
        vehiculoManual := v.manual == true;
        vehiculoManualData := v;
      }
      fotos := if d.fotosDetalle.Some? then d.fotosDetalle.value else [];
      cargando := false;
    }

    /** `consultarANT`. With no plate there is no lookup and nothing changes, nor when the request
        fails. A lookup that is not ok or finds no vehicle turns manual mode on and seeds the manual
        data with the current plate, keeping its other fields; the registry vehicle is left alone.
        A lookup that finds the vehicle turns manual mode off and makes it the vehicle; the owner's
        cedula is taken only when the answer carries one. */
    method ConsultarAnt(d: Option<RespuestaAnt>) returns (r: Consulta, alertas: seq<Alerta>)
      modifies this`vehiculo, this`vehiculoManual, this`vehiculoManualData, this`cedulaDueno
      ensures r == SinPlaca <==> placa == ""
      ensures r == SinRespuesta <==> placa != "" && d.None?
      ensures r == Manual <==> placa != "" && d.Some? && !(d.value.ok && d.value.vehiculo.Some?)
      ensures r == Autoritativa <==> placa != "" && d.Some? && d.value.ok && d.value.vehiculo.Some?
      ensures r == SinPlaca ==> alertas == [Alerta(MensajeSinPlaca, None)]
      ensures r == Manual ==> alertas == [Alerta(MensajeIngresoManual, None)]
      ensures r in {SinRespuesta, Autoritativa} ==> alertas == []
      ensures r in {SinPlaca, SinRespuesta} ==>
                vehiculo == old(vehiculo) && vehiculoManual == old(vehiculoManual)
                && vehiculoManualData == old(vehiculoManualData) && cedulaDueno == old(cedulaDueno)
      ensures r == Manual ==>
                vehiculoManual && vehiculoManualData == old(vehiculoManualData).(placa := placa, manual := true)
                && vehiculo == old(vehiculo) && cedulaDueno == old(cedulaDueno)
                && PayloadGuardar().datosVehiculo == Some(vehiculoManualData)
      ensures r == Autoritativa ==>
                !vehiculoManual && vehiculo == d.value.vehiculo
                && vehiculoManualData == old(vehiculoManualData)
                && cedulaDueno == Or(d.value.propietarioCedula, old(cedulaDueno))
                && PayloadGuardar().datosVehiculo == d.value.vehiculo
    {
      if placa == "" {
        return SinPlaca, [Alerta(MensajeSinPlaca, None)];
      }
      if d.None? {
        return SinRespuesta, [];
      }
      var a := d.value;
      if !a.ok || a.vehiculo.None? {
        vehiculoManual := true;
        vehiculoManualData := vehiculoManualData.(placa := placa, manual := true);
        return Manual, [Alerta(MensajeIngresoManual, None)];
      }
      vehiculoManual := false;
      vehiculo := a.vehiculo;
      if a.propietarioCedula.Some? && a.propietarioCedula.value != "" {
        cedulaDueno := a.propietarioCedula.value;
      }
      r, alertas := Autoritativa, [];
    }

    /** Typing into the manual-entry form changes that one field of the manual data. */
    method EditarManual(c: CambioManual)
      modifies this`vehiculoManualData
      ensures vehiculoManualData.placa == old(vehiculoManualData).placa
      ensures vehiculoManualData.manual == old(vehiculoManualData).manual
      ensures vehiculoManualData == match c
        case Marca(v) => old(vehiculoManualData).(marca := v)
        case Modelo(v) => old(vehiculoManualData).(modelo := v)
        case Anio(v) => old(vehiculoManualData).(anio := v)
        case PaisOrigen(v) => old(vehiculoManualData).(paisOrigen := v)
        case NumeroMotor(v) => old(vehiculoManualData).(numeroMotor := v)
        case NumeroChasis(v) => old(vehiculoManualData).(numeroChasis := v)
    {
      vehiculoManualData := match c
        case Marca(v) => vehiculoManualData.(marca := v)
        case Modelo(v) => vehiculoManualData.(modelo := v)
        case Anio(v) => vehiculoManualData.(anio := v)
        case PaisOrigen(v) => vehiculoManualData.(paisOrigen := v)
        case NumeroMotor(v) => vehiculoManualData.(numeroMotor := v)
        case NumeroChasis(v) => vehiculoManualData.(numeroChasis := v);
    }

    /** The payload `guardar` sends. The name is the requester's names and surnames joined by a
        space and trimmed; the vehicle data is the manual data in manual mode and the registry
        vehicle otherwise, never both. */
    function PayloadGuardar(): (p: Payload)
      reads this
      ensures p.placa == placa && p.cedula == cedula && p.observaciones == observaciones
      ensures vehiculoManual ==> p.datosVehiculo == Some(vehiculoManualData)
      ensures !vehiculoManual ==> p.datosVehiculo == vehiculo
      ensures TrimmedSliceOf(p.datosCedula.nombre, cliente.nombres + " " + cliente.apellidos)
      ensures p.datosCedula.telefonoManual == cliente.telefono
      ensures p.datosCedula.direccionManual == cliente.direccion
    {
      Payload(placa, cedula, observaciones,
              DatosCedula(Trim(cliente.nombres + " " + cliente.apellidos), cliente.telefono, cliente.direccion),
              if vehiculoManual then Some(vehiculoManualData) else vehiculo)
    }

    /** The photos slot `k` shows. */
    function FotosDeCasillero(k: nat): (r: seq<Foto>)
      requires k < |TiposFotos|
      reads this
      ensures forall x :: x in r <==> x in fotos && x.tipo == TiposFotos[k].tipo
    {
      var r := FotosDeTipo(fotos, TiposFotos[k].tipo);
      assert forall x :: x in r <==> x in fotos && x.tipo == TiposFotos[k].tipo by {
        forall x ensures x in r <==> x in fotos && x.tipo == TiposFotos[k].tipo {
          FilterCount(fotos, EsDeTipo(TiposFotos[k].tipo), x);
        }
      }
      r
    }

    /** `finalizar`. The conclusions are always sent to the order's finalise route, whatever the
        photo slots hold. `respuesta` is the PUT's status, `None` when the request throws, which
        escapes the handler before any dialog. Any answer, rejected or not, is followed by the
        "Finalizado" menu: the status is never looked at. */
    function Finalizar(respuesta: Option<bool>): (r: Finalizacion)
      reads this
      ensures r.solicitud.0 == RutaFinalizar + idOrden && r.solicitud.1 == conclusiones
      ensures r.alertas == [] <==> respuesta.None?
      ensures respuesta.Some? ==> r.alertas == [MenuFinalizado]
    {
      var solicitud := (RutaFinalizar + idOrden, conclusiones);
      if respuesta.None? then Finalizacion(solicitud, [])
      else Finalizacion(solicitud, [MenuFinalizado])
    }
  }
}
