/** The login handler: the server's answer decides between an alert and exactly one
    destination, chosen by role and, for technicians, by substrings of the technician type. */
module Login {
  import opened Js

  datatype Usuario = Usuario(tipoUsuario: Option<string>, tipoTecnico: Option<string>)

  /** The login answer: the HTTP status is `ok`, the JSON body carries `error` and `usuario`. */
  datatype RespuestaLogin = RespuestaLogin(ok: bool, error: Option<string>, usuario: Option<Usuario>)

  /** The screens `navigation.replace` can be sent to. */
  datatype Destino = Admin | HomeIdentificacion | HomeDetailing | HomeAutoservicios | HomeScreen | Home

  datatype Resultado = Navegar(destino: Destino) | Aviso(mensaje: string)

  const SubtipoIdentificacion := "IDENTIFICACI\U{D3}N VEHICULAR"
  const SubtipoDetailing := "DETAILING"
  const SubtipoAutoservicios := "AUTO SERVICIOS"
  const MensajeCredenciales := "Credenciales incorrectas"
  const MensajeConexion := "Error conectando con el servidor."

  /** `sub` occurs somewhere in `s`. */
  ghost predicate Menciona(s: string, sub: string)
  {
    exists i :: OccursAt(s, sub, i)
  }

  /** A technician's destination: the first of identification, detailing and self-service whose
      name the technician type contains, and the general menu when it contains none. */
  function DestinoTecnico(tipoTec: string): (d: Destino)
    ensures d == HomeIdentificacion <==> Menciona(tipoTec, SubtipoIdentificacion)
    ensures d == HomeDetailing <==>
              !Menciona(tipoTec, SubtipoIdentificacion) && Menciona(tipoTec, SubtipoDetailing)
    ensures d == HomeAutoservicios <==>
              !Menciona(tipoTec, SubtipoIdentificacion) && !Menciona(tipoTec, SubtipoDetailing)
              && Menciona(tipoTec, SubtipoAutoservicios)
    ensures d == HomeScreen <==>
              !Menciona(tipoTec, SubtipoIdentificacion) && !Menciona(tipoTec, SubtipoDetailing)
              && !Menciona(tipoTec, SubtipoAutoservicios)
  {
    if Contains(tipoTec, SubtipoIdentificacion) then HomeIdentificacion
    else if Contains(tipoTec, SubtipoDetailing) then HomeDetailing
    else if Contains(tipoTec, SubtipoAutoservicios) then HomeAutoservicios
    else HomeScreen
  }

  /** `handleLogin` once the request has answered; `None` stands for a request or a JSON body
      that failed. A non-ok answer alerts the server's error or the default; reading a missing
      user, or the technician type of a technician who has none, throws and alerts the connection
      message; otherwise "ADMIN" goes to Admin whatever the technician type, "TECNICO" goes by
      technician type, and any other role goes to Home. */
  function HandleLogin(resp: Option<RespuestaLogin>): (r: Resultado)
    ensures resp.None? ==> r == Aviso(MensajeConexion)
    ensures resp.Some? && !resp.value.ok ==> r == Aviso(Or(resp.value.error, MensajeCredenciales))
    ensures r.Navegar? ==> resp.Some? && resp.value.ok && resp.value.usuario.Some?
    ensures resp.Some? && resp.value.ok && resp.value.usuario.Some? ==>
              var u := resp.value.usuario.value;
              && (u.tipoUsuario == Some("ADMIN") ==> r == Navegar(Admin))
              && (u.tipoUsuario == Some("TECNICO") && u.tipoTecnico.Some? ==>
                    r == Navegar(DestinoTecnico(u.tipoTecnico.value)))
              && (u.tipoUsuario == Some("TECNICO") && u.tipoTecnico.None? ==> r == Aviso(MensajeConexion))
              && (u.tipoUsuario != Some("ADMIN") && u.tipoUsuario != Some("TECNICO") ==> r == Navegar(Home))
  {
    if resp.None? then Aviso(MensajeConexion)
    else
      var data := resp.value;
      if !data.ok then Aviso(Or(data.error, MensajeCredenciales))
      else if data.usuario.None? then Aviso(MensajeConexion)
      else
        var rol := data.usuario.value.tipoUsuario;
        var tipoTec := data.usuario.value.tipoTecnico;
        if rol == Some("ADMIN") then Navegar(Admin)
        else if rol == Some("TECNICO") then
          if tipoTec.None? then Aviso(MensajeConexion) else Navegar(DestinoTecnico(tipoTec.value))
        else Navegar(Home)
  }

  /** An ok answer with a user yields a destination unless the user is a technician without a
      technician type. */
  lemma LoginExitosoNavega(resp: RespuestaLogin)
    requires resp.ok && resp.usuario.Some?
    requires resp.usuario.value.tipoUsuario == Some("TECNICO") ==> resp.usuario.value.tipoTecnico.Some?
    ensures HandleLogin(Some(resp)).Navegar?
  {
  }

  /** No occurrence of `sub` in `s` can start at a character other than `sub`'s first one. */
  lemma SinPrimeraLetra(s: string, sub: string)
    requires sub != []
    requires forall i :: 0 <= i && i + |sub| <= |s| ==> s[i] != sub[0]
    ensures !Menciona(s, sub)
  {
    forall i ensures !OccursAt(s, sub, i) {
      if 0 <= i && i + |sub| <= |s| {
        assert s[i..i + |sub|][0] == s[i];
      }
    }
  }

  /** Identification wins over detailing: a type naming both goes to identification. */
  lemma PrecedenciaIdentificacion(t: string)
    requires Menciona(t, SubtipoIdentificacion) && Menciona(t, SubtipoDetailing)
    ensures DestinoTecnico(t) == HomeIdentificacion
  {
  }

  /** Detailing wins over self-service: a type naming both, and not identification, goes to
      detailing. */
  lemma PrecedenciaDetailing(t: string)
    requires !Menciona(t, SubtipoIdentificacion)
    requires Menciona(t, SubtipoDetailing) && Menciona(t, SubtipoAutoservicios)
    ensures DestinoTecnico(t) == HomeDetailing
  {
  }

  /** A type naming self-service and neither of the other two goes to self-service. */
  lemma DestinoAutoservicios(t: string)
    requires !Menciona(t, SubtipoIdentificacion) && !Menciona(t, SubtipoDetailing)
    requires Menciona(t, SubtipoAutoservicios)
    ensures DestinoTecnico(t) == HomeAutoservicios
  {
  }

  /** A concrete type naming identification and detailing goes to identification. */
  lemma EjemploIdentificacion()
    ensures DestinoTecnico("IDENTIFICACI\U{D3}N VEHICULAR / DETAILING") == HomeIdentificacion
  {
    assert OccursAt("IDENTIFICACI\U{D3}N VEHICULAR / DETAILING", SubtipoIdentificacion, 0);
  }

  /** A concrete type naming detailing and self-service goes to detailing. */
  lemma EjemploDetailing()
    ensures DestinoTecnico("DETAILING Y AUTO SERVICIOS") == HomeDetailing
  {
    var t := "DETAILING Y AUTO SERVICIOS";
    assert OccursAt(t, SubtipoDetailing, 0);
    SinPrimeraLetra(t, SubtipoIdentificacion);
  }

  /** A concrete type naming only self-service goes to self-service. */
  lemma EjemploAutoservicios()
    ensures DestinoTecnico("TECNICO AUTO SERVICIOS") == HomeAutoservicios
  {
    var t := "TECNICO AUTO SERVICIOS";
    assert OccursAt(t, SubtipoAutoservicios, 8);
    assert !Menciona(t, SubtipoIdentificacion);
    SinPrimeraLetra(t, SubtipoDetailing);
  }

  /** The match is exact on the accented letter: without it the type falls through to the menu. */
  lemma SinTildeVaAlMenu()
    ensures DestinoTecnico("IDENTIFICACION VEHICULAR") == HomeScreen
  {
    var s := "IDENTIFICACION VEHICULAR";
    assert !Menciona(s, SubtipoIdentificacion) by {
      forall i ensures !OccursAt(s, SubtipoIdentificacion, i) {
        if 0 <= i && i + |SubtipoIdentificacion| <= |s| {
          assert i == 0;
          assert s[i..i + |SubtipoIdentificacion|][12] != SubtipoIdentificacion[12];
        }
      }
    }
    assert !Menciona(s, SubtipoDetailing) by {
      forall i ensures !OccursAt(s, SubtipoDetailing, i) {
        if 0 <= i && i + |SubtipoDetailing| <= |s| {
          assert s[i..i + |SubtipoDetailing|][0] == s[i];
          assert s[i..i + |SubtipoDetailing|][1] == s[i + 1];
          assert s[i..i + |SubtipoDetailing|][2] == s[i + 2];
        }
      }
    }
    assert !Menciona(s, SubtipoAutoservicios) by {
      forall i ensures !OccursAt(s, SubtipoAutoservicios, i) {
        if 0 <= i && i + |SubtipoAutoservicios| <= |s| {
          assert s[i..i + |SubtipoAutoservicios|][0] == s[i];
          assert s[i..i + |SubtipoAutoservicios|][1] == s[i + 1];
        }
      }
    }
  }
}
