/** The administrator's technician-assignment screen: the active technicians offered, the
    assignment gate on the two pickers, and the list of technicians assigned to a service. */
module AsignacionTecnicos {
  import opened Js

  datatype Servicio = Servicio(id: int, nombre: string)

  /** A user of the system; `estado` is whatever JSON scalar the server sends. */
  datatype Usuario = Usuario(id: int, nombres: string, apellidos: string, rol: Option<string>, estado: Scalar)

  datatype Asignado = Asignado(nombres: string, apellidos: string, correo: string,
                               telefono: Option<string>, estado: Scalar)

  /** `u.rol === "tecnico" && u.estado == 1`. */
  predicate EsTecnicoActivo(u: Usuario)
  {
    u.rol == Some("tecnico") && LooseEqualsOne(u.estado)
  }

  /** The technicians offered by the picker: exactly the active technicians, each as often as it
      occurs among the users. */
  function TecnicosActivos(usuarios: seq<Usuario>): (r: seq<Usuario>)
    ensures forall k :: 0 <= k < |r| ==> EsTecnicoActivo(r[k])
    ensures forall u :: multiset(r)[u] == if EsTecnicoActivo(u) then multiset(usuarios)[u] else 0
  {
    var r := Filter(usuarios, EsTecnicoActivo);
    assert forall u :: multiset(r)[u] == if EsTecnicoActivo(u) then multiset(usuarios)[u] else 0 by {
      forall u ensures multiset(r)[u] == if EsTecnicoActivo(u) then multiset(usuarios)[u] else 0 {
        FilterCount(usuarios, EsTecnicoActivo, u);
      }
    }
    r
  }

  /** The technicians keep the order of the user list: selecting over two parts of the list is
      selecting over each part in turn. */
  lemma TecnicosEnOrden(a: seq<Usuario>, b: seq<Usuario>)
    ensures TecnicosActivos(a + b) == TecnicosActivos(a) + TecnicosActivos(b)
  {
    FilterConcat(a, b, EsTecnicoActivo);
  }

  /** Loose equality admits a technician whose `estado` is the string "1" or `true`, and rejects
      the number 0 and `null`. */
  lemma EstadoLaxo(u: Usuario)
    requires u.rol == Some("tecnico")
    ensures u.estado == Text("1") ==> EsTecnicoActivo(u)
    ensures u.estado == Boolean(true) ==> EsTecnicoActivo(u)
    ensures u.estado == Number(0.0) || u.estado == Null ==> !EsTecnicoActivo(u)
  {
    if u.estado == Text("1") {
      TrimOfTrimmed("1");
    }
  }

  /** A picker's value: `None` for the placeholder "", otherwise the chosen id. */
  predicate Elegido(v: Option<int>)
  {
    v.Some? && v.value != 0
  }

  const MensajeSeleccion := "Seleccione servicio y t\U{E9}cnico"
  const MensajeAsignado := "Asignado correctamente"

  /** What one press of "Asignar Técnico" did: the request body as (technician, service), the
      alerts, and the service whose assigned list was reloaded. */
  datatype Asignacion = Asignacion(solicitud: Option<(int, int)>, alertas: seq<Alerta>, recargado: Option<int>)

  class Pantalla {
    var servicios: seq<Servicio>
    var tecnicos: seq<Usuario>
    var asignados: seq<Asignado>
    var servicioSel: Option<int>
    var tecnicoSel: Option<int>

    constructor ()
      ensures servicios == [] && tecnicos == [] && asignados == []
      ensures servicioSel == None && tecnicoSel == None
    {
      servicios, tecnicos, asignados := [], [], [];
      servicioSel, tecnicoSel := None, None;
    }

    /** `cargarServicios`: a non-array answer gives no services; a failed request alerts. */
    method CargarServicios(resp: Option<Lista<Servicio>>) returns (alertas: seq<Alerta>)
      modifies this`servicios
      ensures resp.Some? ==> servicios == ArregloOVacio(resp.value) && alertas == []
      ensures resp.None? ==> servicios == old(servicios)
                             && alertas == [Alerta("Error", Some("No se pudieron cargar los servicios"))]
    {
      if resp.None? {
        return [Alerta("Error", Some("No se pudieron cargar los servicios"))];
      }
      servicios := ArregloOVacio(resp.value);
      alertas := [];
    }

    /** `cargarTecnicos`: the active technicians of the user list. A non-array answer makes the
        call to `filter` throw, so it is alerted like a failed request and nothing changes. */
    method CargarTecnicos(resp: Option<Lista<Usuario>>) returns (alertas: seq<Alerta>)
      modifies this`tecnicos
      ensures resp.Some? && resp.value.Arreglo? ==>
                tecnicos == TecnicosActivos(resp.value.elementos) && alertas == []
      ensures !(resp.Some? && resp.value.Arreglo?) ==>
                tecnicos == old(tecnicos)
                && alertas == [Alerta("Error", Some("No se pudieron cargar los t\U{E9}cnicos"))]
    {
      if resp.None? || resp.value.NoArreglo? {
        return [Alerta("Error", Some("No se pudieron cargar los t\U{E9}cnicos"))];
      }
      tecnicos := TecnicosActivos(resp.value.elementos);
      alertas := [];
    }

    /** `cargarAsignados`: a non-array answer gives no assigned technicians. */
    method CargarAsignados(resp: Option<Lista<Asignado>>) returns (alertas: seq<Alerta>)
      modifies this`asignados
      ensures resp.Some? ==> asignados == ArregloOVacio(resp.value) && alertas == []
      ensures resp.None? ==> asignados == old(asignados)
                             && alertas == [Alerta("Error", Some("No se pudieron cargar los asignados"))]
    {
      if resp.None? {
        return [Alerta("Error", Some("No se pudieron cargar los asignados"))];
      }
      asignados := ArregloOVacio(resp.value);
      alertas := [];
    }

    /** The service picker's handler: the value is always stored, and only a chosen service loads
        its assigned technicians (whose answer is `resp`); the placeholder loads nothing. */
    method AlCambiarServicio(v: Option<int>, resp: Option<Lista<Asignado>>) returns (consultado: bool, alertas: seq<Alerta>)
      modifies this`servicioSel, this`asignados
      ensures servicioSel == v
      ensures consultado <==> Elegido(v)
      ensures !consultado ==> asignados == old(asignados) && alertas == []
      ensures consultado && resp.Some? ==> asignados == ArregloOVacio(resp.value) && alertas == []
      ensures consultado && resp.None? ==>
                asignados == old(asignados)
                && alertas == [Alerta("Error", Some("No se pudieron cargar los asignados"))]
    {
      servicioSel := v;
      consultado := Elegido(v);
      alertas := [];
      if consultado {
        alertas := CargarAsignados(resp);
      }
    }

    method AlCambiarTecnico(v: Option<int>)
      modifies this`tecnicoSel
      ensures tecnicoSel == v
    {
      tecnicoSel := v;
    }

    /** `asignarTecnico`. Without both a service and a technician chosen nothing is sent. Otherwise
        the pair is sent; a failed request alerts, and any answer, whatever its status, shows the
        server's message or the default and reloads the chosen service's list (answer `recarga`). */
    method AsignarTecnico(mensaje: Option<Option<string>>, recarga: Option<Lista<Asignado>>) returns (r: Asignacion)
      modifies this`asignados
      ensures r.solicitud.Some? <==> Elegido(servicioSel) && Elegido(tecnicoSel)
      ensures r.solicitud.None? ==> r.alertas == [Alerta("Error", Some(MensajeSeleccion))]
      ensures r.solicitud.Some? ==> r.solicitud.value == (tecnicoSel.value, servicioSel.value)
      ensures r.solicitud.Some? && mensaje.None? ==> r.alertas == [Alerta("Error", Some("No se pudo asignar"))]
      ensures r.recargado.Some? <==> r.solicitud.Some? && mensaje.Some?
      ensures r.recargado.Some? ==>
                r.recargado.value == servicioSel.value
                && r.alertas == [Alerta("\U{2705}", Some(Or(mensaje.value, MensajeAsignado)))]
                               + (if recarga.None? then [Alerta("Error", Some("No se pudieron cargar los asignados"))] else [])
                && (recarga.Some? ==> asignados == ArregloOVacio(recarga.value))
                && (recarga.None? ==> asignados == old(asignados))
      ensures r.recargado.None? ==> asignados == old(asignados)
    {
      if !Elegido(servicioSel) || !Elegido(tecnicoSel) {
        return Asignacion(None, [Alerta("Error", Some(MensajeSeleccion))], None);
      }
      var cuerpo := (tecnicoSel.value, servicioSel.value);
      if mensaje.None? {
        return Asignacion(Some(cuerpo), [Alerta("Error", Some("No se pudo asignar"))], None);
      }
      var mas := CargarAsignados(recarga);
      r := Asignacion(Some(cuerpo), [Alerta("\U{2705}", Some(Or(mensaje.value, MensajeAsignado)))] + mas,
                      Some(servicioSel.value));
    }
  }
}
