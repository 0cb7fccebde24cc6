/** The direct-proforma screen: client lookup, service and subservice selection, a validated
    item list whose stored totals are quantity times unit price, and the two ways the form is
    reset after a proforma is created. */
module ProformaDirecta {
  import opened Js

  /** A line of the proforma as it is stored: its total is fixed when the line is added. */
  datatype ItemProforma = ItemProforma(descripcion: string, cantidad: real, precioUnitario: real, total: real)

  const MensajeIncompleto := "Complete descripci\U{F3}n y precio"
  const MensajeNoCreada := "No se pudo crear la proforma"

  /** The dialog shown once a proforma is created; its "No" and "Sí" buttons are the two resets. */
  const PreguntaMismosDatos := Alerta("\U{2714} Proforma creada", Some("\U{BF}Crear otro servicio con los mismos datos?"))

  predicate TotalCorrecto(i: ItemProforma)
  {
    i.total == i.cantidad * i.precioUnitario
  }

  /** `items.reduce((s, i) => s + i.total, 0)`. */
  function TotalProforma(items: seq<ItemProforma>): (r: real)
    ensures items == [] ==> r == 0.0
    ensures (forall k :: 0 <= k < |items| ==> items[k].total >= 0.0) ==> r >= 0.0
  {
    if items == [] then 0.0
    else TotalProforma(items[..|items| - 1]) + items[|items| - 1].total
  }

  /** The document total of two lists put together is the sum of their totals. */
  lemma {:induction false} TotalProformaConcat(a: seq<ItemProforma>, b: seq<ItemProforma>)
    ensures TotalProforma(a + b) == TotalProforma(a) + TotalProforma(b)
    decreases |b|
  {
    if b == [] {
      assert a + b == a;
    } else {
      var n := |b| - 1;
      assert (a + b)[..|a + b| - 1] == a + b[..n];
      TotalProformaConcat(a, b[..n]);
    }
  }

  /** When every stored total is right, the document total is the sum of quantity times price. */
  function SumaProductos(items: seq<ItemProforma>): real
  {
    if items == [] then 0.0
    else SumaProductos(items[..|items| - 1]) + items[|items| - 1].cantidad * items[|items| - 1].precioUnitario
  }

  lemma {:induction false} TotalEsSumaDeProductos(items: seq<ItemProforma>)
    requires forall k :: 0 <= k < |items| ==> TotalCorrecto(items[k])
    ensures TotalProforma(items) == SumaProductos(items)
  {
    if items != [] {
      TotalEsSumaDeProductos(items[..|items| - 1]);
    }
  }

  /** The line `agregarItem` builds from the three inputs; `numero` is JavaScript's `Number`. */
  function Linea(desc: string, cant: string, precio: string, numero: string -> real): (i: ItemProforma)
    ensures TotalCorrecto(i)
    ensures i.descripcion == desc && i.cantidad == numero(cant) && i.precioUnitario == numero(precio)
  {
    ItemProforma(desc, numero(cant), numero(precio), numero(cant) * numero(precio))
  }

  /** A person offered by the lookup dropdown. */
  datatype Persona = Persona(id: int, cedula: string, nombres: string, apellidos: string,
                             telefono: Option<string>, direccion: Option<string>)

  /** A service or subservice of the catalogue. */
  datatype Servicio = Servicio(id: int, nombre: string)

  /** The request body of `guardarProforma`; an unselected service is sent as absent. */
  datatype Cuerpo = Cuerpo(nombreCliente: string, apellidoCliente: string, telefonoCliente: string,
                           direccion: string, placa: string, numeroCedula: string,
                           idService: Option<int>, idSubservice: Option<int>, items: seq<ItemProforma>)

  function IdDe(s: Option<Servicio>): (r: Option<int>)
    ensures r.Some? <==> s.Some?
    ensures s.Some? ==> r.value == s.value.id
  {
    if s.Some? then Some(s.value.id) else None
  }

  class Proforma {
    var cedula: string
    var nombre: string
    var apellido: string
    var telefono: string
    var direccion: string
    var placa: string
    var personas: seq<Persona>
    var showDropdown: bool
    var subservices: seq<Servicio>
    var idService: Option<Servicio>
    var idSubservice: Option<Servicio>
    var showServices: bool
    var showSubservices: bool
    var itemDesc: string
    var itemCant: string
    var itemPrecio: string
    var items: seq<ItemProforma>

    /** Every stored line total is its quantity times its unit price. */
    predicate Valid()
      reads this
    {
      forall k :: 0 <= k < |items| ==> TotalCorrecto(items[k])
    }

    constructor ()
      ensures Valid()
      ensures cedula == "" && nombre == "" && apellido == "" && telefono == "" && direccion == "" && placa == ""
      ensures personas == [] && !showDropdown && subservices == []
      ensures idService == None && idSubservice == None && !showServices && !showSubservices
      ensures itemDesc == "" && itemCant == "1" && itemPrecio == "" && items == []
    {
      cedula, nombre, apellido, telefono, direccion, placa := "", "", "", "", "", "";
      personas, showDropdown, subservices := [], false, [];
      idService, idSubservice, showServices, showSubservices := None, None, false, false;
      itemDesc, itemCant, itemPrecio, items := "", "1", "", [];
    }

    /** `buscarPersonaBD`: the text always becomes the cedula; under 3 characters there is no
        lookup and the dropdown closes. Otherwise the results (or none) fill the dropdown.
        `respuesta` is `None` when the lookup request fails, which leaves the rest untouched. */
    method BuscarPersonaBD(text: string, respuesta: Option<Option<seq<Persona>>>) returns (consulta: bool)
      modifies this`cedula, this`showDropdown, this`personas
      ensures cedula == text
      ensures consulta <==> Utf16Length(text) >= 3
      ensures !consulta ==> !showDropdown && personas == old(personas)
      ensures consulta && respuesta.Some? ==>
                showDropdown && personas == (if respuesta.value.Some? then respuesta.value.value else [])
      ensures consulta && respuesta.None? ==> showDropdown == old(showDropdown) && personas == old(personas)
    {
      cedula := text;
      if Utf16Length(text) < 3 {
        showDropdown := false;
        return false;
      }
      consulta := true;
      if respuesta.None? {
        return;
      }
      personas := if respuesta.value.Some? then respuesta.value.value else [];
      showDropdown := true;
    }

    /** `seleccionarPersona`: the chosen person fills the client fields and the dropdown closes. */
    method SeleccionarPersona(p: Persona)
      modifies this`cedula, this`nombre, this`apellido, this`telefono, this`direccion, this`showDropdown
      ensures cedula == p.cedula && nombre == p.nombres && apellido == p.apellidos
      ensures telefono == Or(p.telefono, "") && direccion == Or(p.direccion, "")
      ensures !showDropdown
    {
      cedula := p.cedula;
      nombre := p.nombres;
      apellido := p.apellidos;
      telefono := Or(p.telefono, "");
      direccion := Or(p.direccion, "");
      showDropdown := false;
    }

    /** `seleccionarServicio`: choosing a service always clears the subservice and closes the
        list; the service's subservices replace the old ones when their request succeeds. */
    method SeleccionarServicio(s: Servicio, respuesta: Option<seq<Servicio>>)
      modifies this`idService, this`idSubservice, this`showServices, this`subservices
      ensures idService == Some(s) && idSubservice == None && !showServices
      ensures subservices == if respuesta.Some? then respuesta.value else old(subservices)
    {
      idService := Some(s);
      idSubservice := None;
      showServices := false;
      if respuesta.Some? {
        subservices := respuesta.value;
      }
    }

    method SeleccionarSubservicio(ss: Servicio)
      modifies this`idSubservice, this`showSubservices
      ensures idSubservice == Some(ss) && !showSubservices
    {
      idSubservice := Some(ss);
      showSubservices := false;
    }

    /** `agregarItem`: with an empty description or an empty price nothing changes; otherwise one
        line is appended with total = quantity times unit price and the inputs go back to
        "", "1" and "". `numero` is JavaScript's `Number` on the two numeric inputs. */
    method AgregarItem(numero: string -> real) returns (agregado: bool, alertas: seq<Alerta>)
      requires Valid()
      modifies this`items, this`itemDesc, this`itemCant, this`itemPrecio
      ensures Valid()
      ensures agregado <==> old(itemDesc) != "" && old(itemPrecio) != ""
      ensures !agregado ==> alertas == [Alerta("Error", Some(MensajeIncompleto))]
      ensures agregado ==> alertas == []
      ensures !agregado ==> items == old(items) && itemDesc == old(itemDesc)
                            && itemCant == old(itemCant) && itemPrecio == old(itemPrecio)
      ensures agregado ==> itemDesc == "" && itemCant == "1" && itemPrecio == ""
      ensures agregado ==> items == old(items) + [Linea(old(itemDesc), old(itemCant), old(itemPrecio), numero)]
      ensures agregado ==> TotalProforma(items) == TotalProforma(old(items)) + numero(old(itemCant)) * numero(old(itemPrecio))
    {
      if itemDesc == "" || itemPrecio == "" {
        return false, [Alerta("Error", Some(MensajeIncompleto))];
      }
      var nuevo := Linea(itemDesc, itemCant, itemPrecio, numero);
      TotalProformaConcat(items, [nuevo]);
      assert [nuevo][..0] == [];
      items := items + [nuevo];
      itemDesc := "";
      itemCant := "1";
      itemPrecio := "";
      agregado, alertas := true, [];
    }

    /** The body `guardarProforma` sends. */
    function CuerpoGuardar(): (b: Cuerpo)
      reads this
      ensures b.numeroCedula == cedula && b.placa == placa && b.items == items
      ensures b.nombreCliente == nombre && b.apellidoCliente == apellido
      ensures b.telefonoCliente == telefono && b.direccion == direccion
      ensures b.idService == IdDe(idService) && b.idSubservice == IdDe(idSubservice)
    {
      Cuerpo(nombre, apellido, telefono, direccion, placa, cedula, IdDe(idService), IdDe(idSubservice), items)
    }

    /** The "Sí" answer after a proforma is created: a new proforma for the same client, so only
        the items and the service selection are cleared. */
    method NuevaConMismosDatos()
      modifies this`items, this`idService, this`idSubservice
      ensures items == [] && idService == None && idSubservice == None
      ensures Valid()
    {
      items := [];
      idService := None;
      idSubservice := None;
    }

    /** `limpiarTodo`: client fields, plate, items and selections are cleared. */
    method LimpiarTodo()
      modifies this`cedula, this`nombre, this`apellido, this`telefono, this`direccion, this`placa,
               this`items, this`idService, this`idSubservice
      ensures cedula == "" && nombre == "" && apellido == "" && telefono == "" && direccion == "" && placa == ""
      ensures items == [] && idService == None && idSubservice == None
      ensures Valid()
    {
      cedula := "";
      nombre := "";
      apellido := "";
      telefono := "";
      direccion := "";
      placa := "";
      items := [];
      idService := None;
      idSubservice := None;
    }

    /** `guardarProforma`. `respuestaOk` is the POST's status, `None` when the request throws,
        which escapes the handler with no alert. A thrown or rejected request changes nothing;
        after a created proforma the user's answer to the dialog picks one of the two resets. */
    method GuardarProforma(respuestaOk: Option<bool>, mismosDatos: bool) returns (creada: bool, alertas: seq<Alerta>)
      requires Valid()
      modifies this`cedula, this`nombre, this`apellido, this`telefono, this`direccion, this`placa,
               this`items, this`idService, this`idSubservice
      ensures Valid()
      ensures creada <==> respuestaOk == Some(true)
      ensures respuestaOk.None? ==> alertas == []
      ensures respuestaOk == Some(false) ==> alertas == [Alerta("Error", Some(MensajeNoCreada))]
      ensures creada ==> alertas == [PreguntaMismosDatos]
      ensures !creada ==> items == old(items) && idService == old(idService) && idSubservice == old(idSubservice)
                          && cedula == old(cedula) && nombre == old(nombre) && apellido == old(apellido)
                          && telefono == old(telefono) && direccion == old(direccion) && placa == old(placa)
      ensures creada ==> items == [] && idService == None && idSubservice == None
      ensures creada && mismosDatos ==> cedula == old(cedula) && nombre == old(nombre) && apellido == old(apellido)
                                        && telefono == old(telefono) && direccion == old(direccion) && placa == old(placa)
      ensures creada && !mismosDatos ==> cedula == "" && nombre == "" && apellido == "" && telefono == ""
                                         && direccion == "" && placa == ""
    {
      if respuestaOk.None? {
        return false, [];
      }
      if !respuestaOk.value {
        return false, [Alerta("Error", Some(MensajeNoCreada))];
      }
      if mismosDatos {
        NuevaConMismosDatos();
      } else {
        LimpiarTodo();
      }
      creada, alertas := true, [PreguntaMismosDatos];
    }
  }
}
