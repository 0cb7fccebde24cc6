/** The administrator's list of assigned orders: loading the list, deleting an order after
    confirmation, and the date column. */
module OrdenesAsignadas {
  import opened Js

  datatype Orden = Orden(idOrden: int, placa: string, fechaAsignacion: Option<string>)

  /** The list answer's JSON body. */
  datatype RespuestaOrdenes = RespuestaOrdenes(ok: bool, ordenes: seq<Orden>)

  /** The delete answer: the HTTP status is `ok`, the JSON body carries its own `ok` and `msg`. */
  datatype DatosEliminar = DatosEliminar(ok: bool, msg: Option<string>)
  datatype RespuestaEliminar = RespuestaEliminar(ok: bool, data: DatosEliminar)

  const MensajeNoCargadas := "No se pudieron cargar las \U{F3}rdenes"
  const MensajeSinToken := "Token no disponible. Vuelva a ingresar."
  const MensajeNoEliminada := "No se pudo eliminar la orden"
  const MensajeConexion := "Error de conexi\U{F3}n con el servidor"
  const TituloEliminado := "\U{2705} Eliminado"

  /** A delete failed when either the transport or the body says so. */
  predicate EliminacionFallida(res: RespuestaEliminar)
  {
    !res.ok || !res.data.ok
  }

  /** The alert shown for a delete that got an answer, and whether the list is reloaded. */
  function ClasificarEliminacion(res: RespuestaEliminar): (c: (Alerta, bool))
    ensures c.1 <==> !EliminacionFallida(res)
    ensures EliminacionFallida(res) ==> c.0 == Alerta("Error", Some(Or(res.data.msg, MensajeNoEliminada)))
    ensures !EliminacionFallida(res) ==> c.0 == Alerta(TituloEliminado, res.data.msg)
  {
    if !res.ok || !res.data.ok then (Alerta("Error", Some(Or(res.data.msg, MensajeNoEliminada))), false)
    else (Alerta(TituloEliminado, res.data.msg), true)
  }

  /** `formatearFecha`: an absent or empty date is "-"; any other is its locale date and time,
      which `local` stands for. */
  function FormatearFecha(fecha: Option<string>, local: string -> string): (r: string)
    ensures !Truthy(fecha) ==> r == "-"
    ensures Truthy(fecha) ==> r == local(fecha.value)
  {
    if !Truthy(fecha) then "-" else local(fecha.value)
  }

  /** What one delete attempt did. */
  datatype Eliminacion = Eliminacion(solicitud: Option<string>, alertas: seq<Alerta>, recargada: bool)

  class Ordenes {
    var token: Option<string>
    var ordenes: seq<Orden>

    constructor (t: Option<string>)
      ensures token == t && ordenes == []
    {
      token := t;
      ordenes := [];
    }

    /** `cargarOrdenes`: the list becomes the answer's orders when it is ok and empty otherwise;
        a failed request keeps the list and alerts. */
    method CargarOrdenes(resp: Option<RespuestaOrdenes>) returns (alertas: seq<Alerta>)
      modifies this`ordenes
      ensures resp.None? ==> ordenes == old(ordenes) && alertas == [Alerta("Error", Some(MensajeNoCargadas))]
      ensures resp.Some? ==> alertas == [] && ordenes == (if resp.value.ok then resp.value.ordenes else [])
    {
      if resp.None? {
        return [Alerta("Error", Some(MensajeNoCargadas))];
      }
      ordenes := if resp.value.ok then resp.value.ordenes else [];
      alertas := [];
    }

    /** `eliminarOrden`. Without a token nothing is sent. With one, the confirmation dialog
        opens; it is not listed among the returned alerts, and `confirmado` stands for the
        user's answer to it. A confirmed delete sends the request. A failed request alerts
        the connection error; an answer is classified, and only a success reloads the list, whose
        answer is `recarga`. */
    method EliminarOrden(idOrden: string, confirmado: bool, resp: Option<RespuestaEliminar>,
                         recarga: Option<RespuestaOrdenes>) returns (r: Eliminacion)
      modifies this`ordenes
      ensures r.solicitud.Some? <==> Truthy(token) && confirmado
      ensures r.solicitud.Some? ==> r.solicitud.value == "/orden/asignadas/" + idOrden
      ensures !Truthy(token) ==> r.alertas == [Alerta("Error", Some(MensajeSinToken))]
      ensures Truthy(token) && !confirmado ==> r.alertas == []
      ensures r.solicitud.Some? && resp.None? ==> r.alertas == [Alerta("Error", Some(MensajeConexion))]
      ensures r.recargada <==> r.solicitud.Some? && resp.Some? && !EliminacionFallida(resp.value)
      ensures r.solicitud.Some? && resp.Some? && EliminacionFallida(resp.value) ==>
                r.alertas == [ClasificarEliminacion(resp.value).0]
      ensures !r.recargada ==> ordenes == old(ordenes)
      ensures r.recargada ==>
                r.alertas == [ClasificarEliminacion(resp.value).0]
                             + (if recarga.None? then [Alerta("Error", Some(MensajeNoCargadas))] else [])
                && (recarga.None? ==> ordenes == old(ordenes))
                && (recarga.Some? ==> ordenes == if recarga.value.ok then recarga.value.ordenes else [])
    {
      if !Truthy(token) {
        return Eliminacion(None, [Alerta("Error", Some(MensajeSinToken))], false);
      }
      if !confirmado {
        return Eliminacion(None, [], false);
      }
      var url := "/orden/asignadas/" + idOrden;
      if resp.None? {
        return Eliminacion(Some(url), [Alerta("Error", Some(MensajeConexion))], false);
      }
      var c := ClasificarEliminacion(resp.value);
      if !c.1 {
        return Eliminacion(Some(url), [c.0], false);
      }
      var mas := CargarOrdenes(recarga);
      r := Eliminacion(Some(url), [c.0] + mas, true);
    }
  }
}
