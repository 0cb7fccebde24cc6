/** The administrator's user-management screen: the user list, the creation form with its
    required fields, and the active/inactive column. */
module GestionUsuarios {
  import opened Js

  datatype Usuario = Usuario(id: int, nombres: string, apellidos: string, correo: string,
                             telefono: Option<string>, rol: string, estado: Scalar)

  /** The body of the creation request. */
  datatype NuevoUsuario = NuevoUsuario(nombres: string, apellidos: string, correo: string,
                                       telefono: string, rol: string, contrasena: string)

  /** The creation answer: the HTTP status is `ok`, the JSON body may carry `error`. */
  datatype RespuestaCrear = RespuestaCrear(ok: bool, error: Option<string>)

  const MensajeIncompleto := "Complete todos los campos obligatorios"
  const MensajeNoCreado := "No se pudo crear usuario"
  const MensajeNoCargados := "No se pudieron cargar los usuarios"

  /** The state column: `estado == 1 ? "Activo" : "Inactivo"`. */
  function EstadoTexto(estado: Scalar): (r: string)
    ensures r == "Activo" || r == "Inactivo"
    ensures r == "Activo" <==> LooseEqualsOne(estado)
  {
    if LooseEqualsOne(estado) then "Activo" else "Inactivo"
  }

  /** The number 1, `true` and the string "1" show as active; 0, `false`, "" and `null` as inactive. */
  lemma EstadosConocidos()
    ensures EstadoTexto(Number(1.0)) == "Activo" && EstadoTexto(Boolean(true)) == "Activo"
    ensures EstadoTexto(Text("1")) == "Activo"
    ensures EstadoTexto(Number(0.0)) == "Inactivo" && EstadoTexto(Boolean(false)) == "Inactivo"
    ensures EstadoTexto(Text("")) == "Inactivo" && EstadoTexto(Null) == "Inactivo"
  {
    TrimOfTrimmed("1");
    TrimOfTrimmed("");
  }

  /** What one press of "Crear" did. */
  datatype Creacion = Creacion(solicitud: Option<NuevoUsuario>, alertas: seq<Alerta>, recargado: bool)

  class Gestion {
    var usuarios: seq<Usuario>
    var nombres: string
    var apellidos: string
    var correo: string
    var telefono: string
    var rol: string
    var contrasena: string

    constructor ()
      ensures usuarios == [] && !FormularioCompleto()
      ensures nombres == "" && apellidos == "" && correo == "" && telefono == "" && rol == "" && contrasena == ""
    {
      usuarios := [];
      nombres, apellidos, correo, telefono, rol, contrasena := "", "", "", "", "", "";
    }

    /** Every required field is filled in; the phone is optional. */
    predicate FormularioCompleto()
      reads this
    {
      nombres != "" && apellidos != "" && correo != "" && rol != "" && contrasena != ""
    }

    function Formulario(): NuevoUsuario
      reads this
    {
      NuevoUsuario(nombres, apellidos, correo, telefono, rol, contrasena)
    }

    /** `cargarUsuarios`: a non-array answer gives no users; a failed request alerts. */
    method CargarUsuarios(resp: Option<Lista<Usuario>>) returns (alertas: seq<Alerta>)
      modifies this`usuarios
      ensures resp.Some? ==> usuarios == ArregloOVacio(resp.value) && alertas == []
      ensures resp.Some? && resp.value.NoArreglo? ==> usuarios == []
      ensures resp.None? ==> usuarios == old(usuarios) && alertas == [Alerta("Error", Some(MensajeNoCargados))]
    {
      if resp.None? {
        return [Alerta("Error", Some(MensajeNoCargados))];
      }
      usuarios := ArregloOVacio(resp.value);
      alertas := [];
    }

    /** `crearUsuario`. An incomplete form sends nothing. Otherwise the six fields are sent; a
        failed request alerts the connection error and a non-ok answer the server's error or the
        default, both keeping the form. A created user clears the six fields, so the form is
        incomplete again, and reloads the list (answer `recarga`). */
    method CrearUsuario(resp: Option<RespuestaCrear>, recarga: Option<Lista<Usuario>>) returns (r: Creacion)
      modifies this
      ensures r.solicitud.Some? <==> old(FormularioCompleto())
      ensures r.solicitud.Some? ==> r.solicitud.value == old(Formulario())
      ensures r.solicitud.None? ==> r.alertas == [Alerta("Error", Some(MensajeIncompleto))]
      ensures r.solicitud.Some? && resp.None? ==> r.alertas == [Alerta("Error", Some("Error de conexi\U{F3}n"))]
      ensures r.solicitud.Some? && resp.Some? && !resp.value.ok ==>
                r.alertas == [Alerta("Error", Some(Or(resp.value.error, MensajeNoCreado)))]
      ensures r.recargado <==> r.solicitud.Some? && resp.Some? && resp.value.ok
      ensures !r.recargado ==> Formulario() == old(Formulario()) && usuarios == old(usuarios)
      ensures r.recargado ==>
                nombres == "" && apellidos == "" && correo == "" && telefono == "" && rol == "" && contrasena == ""
                && !FormularioCompleto()
                && r.alertas == [Alerta("\U{2705} Usuario creado", None)]
                                + (if recarga.None? then [Alerta("Error", Some(MensajeNoCargados))] else [])
                && (recarga.Some? ==> usuarios == ArregloOVacio(recarga.value))
                && (recarga.None? ==> usuarios == old(usuarios))
    {
      if !FormularioCompleto() {
        return Creacion(None, [Alerta("Error", Some(MensajeIncompleto))], false);
      }
      var cuerpo := Formulario();
      if resp.None? {
        return Creacion(Some(cuerpo), [Alerta("Error", Some("Error de conexi\U{F3}n"))], false);
      }
      if !resp.value.ok {
        return Creacion(Some(cuerpo), [Alerta("Error", Some(Or(resp.value.error, MensajeNoCreado)))], false);
      }
      var creado := Alerta("\U{2705} Usuario creado", None);
      nombres := "";
      apellidos := "";
      correo := "";
      telefono := "";
      rol := "";
      contrasena := "";
      var mas := CargarUsuarios(recarga);
      r := Creacion(Some(cuerpo), [creado] + mas, true);
    }
  }
}
