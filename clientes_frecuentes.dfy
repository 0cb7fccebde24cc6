/** The administrator's frequent-clients screen: the client list, the civil-registry lookup of a
    cedula, saving a client and clearing the form. */
module ClientesFrecuentes {
  import opened Js

  datatype Persona = Persona(id: int, cedula: string, nombres: string, apellidos: string,
                             telefono: Option<string>, direccion: Option<string>, email: Option<string>)

  /** The registry lookup's JSON body. */
  datatype RespuestaCedula = RespuestaCedula(ok: bool, nombres: Option<string>, apellidos: Option<string>)

  /** The body of the save request. */
  datatype NuevaPersona = NuevaPersona(cedula: string, nombres: string, apellidos: string,
                                       telefono: string, direccion: string, email: string)

  /** The shortest cedula the lookup accepts, in UTF-16 code units. */
  const LongitudCedula := 10

  const MensajeNoCargados := "No se pudo cargar clientes"

  datatype Busqueda = Busqueda(consultado: bool, alertas: seq<Alerta>)

  class Clientes {
    var cedula: string
    var nombres: string
    var apellidos: string
    var telefono: string
    var direccion: string
    var email: string
    var personas: seq<Persona>

    constructor ()
      ensures cedula == "" && nombres == "" && apellidos == "" && telefono == "" && direccion == "" && email == ""
      ensures personas == [] && !CedulaConsultable()
    {
      cedula, nombres, apellidos, telefono, direccion, email := "", "", "", "", "", "";
      personas := [];
    }

    /** The lookup is only tried for a cedula of at least ten characters. */
    predicate CedulaConsultable()
      reads this
    {
      Utf16Length(cedula) >= LongitudCedula
    }

    function Formulario(): NuevaPersona
      reads this
    {
      NuevaPersona(cedula, nombres, apellidos, telefono, direccion, email)
    }

    /** `cargarPersonas`: a missing `personas` gives no clients; a failed request alerts. */
    method CargarPersonas(resp: Option<Option<seq<Persona>>>) returns (alertas: seq<Alerta>)
      modifies this`personas
      ensures resp.Some? ==> alertas == [] && personas == (if resp.value.Some? then resp.value.value else [])
      ensures resp.None? ==> personas == old(personas) && alertas == [Alerta("Error", Some(MensajeNoCargados))]
    {
      if resp.None? {
        return [Alerta("Error", Some(MensajeNoCargados))];
      }
      personas := if resp.value.Some? then resp.value.value else [];
      alertas := [];
    }

    /** `buscarCedula`. A cedula under ten characters is rejected without a lookup. A failed
        lookup and an answer that is not ok alert and change nothing; a found person fills in
        only the names, each defaulting to "". */
    method BuscarCedula(resp: Option<RespuestaCedula>) returns (b: Busqueda)
      modifies this`nombres, this`apellidos
      ensures b.consultado <==> CedulaConsultable()
      ensures !b.consultado ==> b.alertas == [Alerta("Error", Some("Ingrese una c\U{E9}dula v\U{E1}lida"))]
      ensures b.consultado && resp.None? ==> b.alertas == [Alerta("Error", Some("Error consultando Registro Civil"))]
      ensures b.consultado && resp.Some? && !resp.value.ok ==>
                b.alertas == [Alerta("Aviso", Some("No se encontraron datos"))]
      ensures !(b.consultado && resp.Some? && resp.value.ok) ==>
                nombres == old(nombres) && apellidos == old(apellidos)
      ensures b.consultado && resp.Some? && resp.value.ok ==>
                b.alertas == [] && nombres == Or(resp.value.nombres, "") && apellidos == Or(resp.value.apellidos, "")
    {
      if !CedulaConsultable() {
        return Busqueda(false, [Alerta("Error", Some("Ingrese una c\U{E9}dula v\U{E1}lida"))]);
      }
      if resp.None? {
        return Busqueda(true, [Alerta("Error", Some("Error consultando Registro Civil"))]);
      }
      if !resp.value.ok {
        return Busqueda(true, [Alerta("Aviso", Some("No se encontraron datos"))]);
      }
      nombres := Or(resp.value.nombres, "");
      apellidos := Or(resp.value.apellidos, "");
      b := Busqueda(true, []);
    }

    /** `limpiarFormulario`: the six fields become "", so the lookup is rejected until a new
        cedula is typed. */
    method LimpiarFormulario()
      modifies this`cedula, this`nombres, this`apellidos, this`telefono, this`direccion, this`email
      ensures cedula == "" && nombres == "" && apellidos == "" && telefono == "" && direccion == "" && email == ""
      ensures !CedulaConsultable()
    {
      cedula := "";
      nombres := "";
      apellidos := "";
      telefono := "";
      direccion := "";
      email := "";
    }

    /** `guardarPersona`: the form is always sent (`ok` is `None` when the request fails). Only
        a saved client clears the form and reloads the list (answer `recarga`). */
    method GuardarPersona(ok: Option<bool>, recarga: Option<Option<seq<Persona>>>) returns (enviado: NuevaPersona, alertas: seq<Alerta>)
      modifies this
      ensures enviado == old(Formulario())
      ensures ok.None? ==> alertas == [Alerta("Error", Some("Error al guardar cliente"))]
      ensures ok == Some(false) ==> alertas == [Alerta("Error", Some("No se pudo guardar"))]
      ensures ok != Some(true) ==> Formulario() == old(Formulario()) && personas == old(personas)
      ensures ok == Some(true) ==>
                Formulario() == NuevaPersona("", "", "", "", "", "") && !CedulaConsultable()
                && alertas == [Alerta("\U{C9}xito", Some("Cliente guardado"))]
                              + (if recarga.None? then [Alerta("Error", Some(MensajeNoCargados))] else [])
                && (recarga.Some? ==> personas == if recarga.value.Some? then recarga.value.value else [])
                && (recarga.None? ==> personas == old(personas))
    {
      enviado := Formulario();
      if ok.None? {
        return enviado, [Alerta("Error", Some("Error al guardar cliente"))];
      }
      if !ok.value {
        return enviado, [Alerta("Error", Some("No se pudo guardar"))];
      }
      LimpiarFormulario();
      var mas := CargarPersonas(recarga);
      alertas := [Alerta("\U{C9}xito", Some("Cliente guardado"))] + mas;
    }
  }
}
