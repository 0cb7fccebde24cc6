/** The invoice-finalisation screen: an ordered, user-edited list of line items, the
    85 % / 15 % split of each item's base into subtotal and IVA, and the payload sent
    when the invoice is finalised. Money is exact (`real`); display rounding is not part of it. */
module FinalizarFactura {
  import opened Js

  /** One line of the invoice, as the screen keeps it. */
  datatype Item = Item(servicio: string, subservicio: string, descripcion: string,
                       cantidad: real, precio: real, descuento: real)

  /** The line that "add item" appends: empty texts, quantity 1, price 0, discount 0. */
  const ItemNuevo := Item("", "", "", 1.0, 0.0, 0.0)

  /** What an item contributes before the split: quantity times price, less its own discount. */
  function Base(i: Item): (r: real)
    ensures r + i.descuento == i.cantidad * i.precio
    ensures i.descuento >= 0.0 ==> r <= i.cantidad * i.precio
  {
    i.cantidad * i.precio - i.descuento
  }

  /** The sum of the bases, accumulated from the first item onwards. */
  function SumaBases(items: seq<Item>): real
  {
    if items == [] then 0.0
    else SumaBases(items[..|items| - 1]) + Base(items[|items| - 1])
  }

  lemma {:induction false} SumaBasesConcat(a: seq<Item>, b: seq<Item>)
    ensures SumaBases(a + b) == SumaBases(a) + SumaBases(b)
    decreases |b|
  {
    if b == [] {
      assert a + b == a;
    } else {
      var n := |b| - 1;
      assert (a + b)[..|a + b| - 1] == a + b[..n];
      SumaBasesConcat(a, b[..n]);
    }
  }

  lemma SumaBasesUno(x: Item)
    ensures SumaBases([x]) == Base(x)
  {
    assert [x][..0] == [];
  }

  // ---------------------------------------------------------------------------
  // Totals

  datatype Totales = Totales(subtotal: real, iva: real, total: real)

  /** `calcularTotales`: per item, 85 % of the base goes to the subtotal and 15 % to the IVA;
      the document discount is taken off the sum. The total is not clamped at zero. */
  method CalcularTotales(items: seq<Item>, descuentoTotal: real) returns (t: Totales)
    ensures t.subtotal == 0.85 * SumaBases(items)
    ensures t.iva == 0.15 * SumaBases(items)
    ensures t.total == SumaBases(items) - descuentoTotal
  {
    var subtotal, iva := 0.0, 0.0;
    for k := 0 to |items|
      invariant subtotal == 0.85 * SumaBases(items[..k])
      invariant iva == 0.15 * SumaBases(items[..k])
    {
      var base := items[k].cantidad * items[k].precio - items[k].descuento;
      subtotal := subtotal + base * 0.85;
      iva := iva + base * 0.15;
      assert items[..k + 1][..k] == items[..k];
    }
    assert items[..|items|] == items;
    t := Totales(subtotal, iva, subtotal + iva - descuentoTotal);
  }

  /** The worked examples: two units at 10 give 17 + 3 = 20; one unit at 100 with 10 off and a
      document discount of 5 give 76.5 + 13.5 - 5 = 85; a discount above the base leaves the
      total negative. */
  lemma EjemplosDeTotales()
    ensures var s := SumaBases([Item("", "", "", 2.0, 10.0, 0.0)]);
            0.85 * s == 17.0 && 0.15 * s == 3.0 && s - 0.0 == 20.0
    ensures var s := SumaBases([Item("", "", "", 1.0, 100.0, 10.0)]);
            0.85 * s == 76.5 && 0.15 * s == 13.5 && s - 5.0 == 85.0
    ensures SumaBases([Item("", "", "", 1.0, 5.0, 8.0)]) - 0.0 < 0.0
  {
    SumaBasesUno(Item("", "", "", 2.0, 10.0, 0.0));
    SumaBasesUno(Item("", "", "", 1.0, 100.0, 10.0));
    SumaBasesUno(Item("", "", "", 1.0, 5.0, 8.0));
  }

  // ---------------------------------------------------------------------------
  // Editing the list

  /** `items.filter((_, index) => index !== i)`, visiting the positions from the left. */
  function SinPosicion(items: seq<Item>, i: int): (r: seq<Item>)
    ensures |r| == if 0 <= i < |items| then |items| - 1 else |items|
  {
    if items == [] then []
    else
      var n := |items| - 1;
      SinPosicion(items[..n], i) + (if n != i then [items[n]] else [])
  }

  /** Removing by position drops exactly position `i` and keeps the others in order;
      a position outside the list removes nothing. */
  lemma {:induction false} SinPosicionEs(items: seq<Item>, i: int)
    ensures 0 <= i < |items| ==> SinPosicion(items, i) == items[..i] + items[i + 1..]
    ensures !(0 <= i < |items|) ==> SinPosicion(items, i) == items
  {
    if items != [] {
      var n := |items| - 1;
      SinPosicionEs(items[..n], i);
      if 0 <= i < n {
        assert items[..n][..i] + items[..n][i + 1..] + [items[n]] == items[..i] + items[i + 1..];
      } else if i == n {
        assert items[..n] == items[..i] + items[i + 1..];
      } else {
        assert items[..n] + [items[n]] == items;
      }
    }
  }

  /** Removing item `i` takes exactly its base off the sum. */
  lemma SumaBasesSinPosicion(items: seq<Item>, i: int)
    requires 0 <= i < |items|
    ensures SumaBases(SinPosicion(items, i)) == SumaBases(items) - Base(items[i])
  {
    SinPosicionEs(items, i);
    var pre, x, post := items[..i], items[i], items[i + 1..];
    assert items == (pre + [x]) + post;
    SumaBasesConcat(pre + [x], post);
    SumaBasesConcat(pre, [x]);
    SumaBasesConcat(pre, post);
    SumaBasesUno(x);
  }

  /** The six fields an item's row lets the user edit, each with the value it receives
      (the numeric inputs are parsed before the update). */
  datatype Cambio =
    | Servicio(texto: string) | Subservicio(texto: string) | Descripcion(texto: string)
    | Cantidad(numero: real) | Precio(numero: real) | Descuento(numero: real)

  datatype Campo = CServicio | CSubservicio | CDescripcion | CCantidad | CPrecio | CDescuento

  datatype Valor = Texto(t: string) | Numero(n: real)

  function CampoDe(c: Cambio): Campo
  {
    match c
    case Servicio(_) => CServicio
    case Subservicio(_) => CSubservicio
    case Descripcion(_) => CDescripcion
    case Cantidad(_) => CCantidad
    case Precio(_) => CPrecio
    case Descuento(_) => CDescuento
  }

  function ValorDe(c: Cambio): Valor
  {
    match c
    case Servicio(t) => Texto(t)
    case Subservicio(t) => Texto(t)
    case Descripcion(t) => Texto(t)
    case Cantidad(n) => Numero(n)
    case Precio(n) => Numero(n)
    case Descuento(n) => Numero(n)
  }

  /** `item[campo]`. */
  function Leer(it: Item, f: Campo): Valor
  {
    match f
    case CServicio => Texto(it.servicio)
    case CSubservicio => Texto(it.subservicio)
    case CDescripcion => Texto(it.descripcion)
    case CCantidad => Numero(it.cantidad)
    case CPrecio => Numero(it.precio)
    case CDescuento => Numero(it.descuento)
  }

  /** `item[campo] = valor`: the named field takes the new value and every other field keeps its own. */
  function Aplicar(it: Item, c: Cambio): (r: Item)
    ensures forall f :: Leer(r, f) == if f == CampoDe(c) then ValorDe(c) else Leer(it, f)
  {
    match c
    case Servicio(t) => it.(servicio := t)
    case Subservicio(t) => it.(subservicio := t)
    case Descripcion(t) => it.(descripcion := t)
    case Cantidad(n) => it.(cantidad := n)
    case Precio(n) => it.(precio := n)
    case Descuento(n) => it.(descuento := n)
  }

  /** Updating item `i` changes the sum by the difference of its old and new bases. */
  lemma SumaBasesActualizada(items: seq<Item>, i: int, x: Item)
    requires 0 <= i < |items|
    ensures SumaBases(items[i := x]) == SumaBases(items) - Base(items[i]) + Base(x)
  {
    var u := items[i := x];
    assert u == items[..i] + ([x] + items[i + 1..]);
    assert items == items[..i] + ([items[i]] + items[i + 1..]);
    SumaBasesConcat(items[..i], [x] + items[i + 1..]);
    SumaBasesConcat([x], items[i + 1..]);
    SumaBasesConcat(items[..i], [items[i]] + items[i + 1..]);
    SumaBasesConcat([items[i]], items[i + 1..]);
    SumaBasesUno(x);
    SumaBasesUno(items[i]);
  }

  // ---------------------------------------------------------------------------
  // Loading the invoice

  /** One stored detail line of the invoice; numbers are given already parsed, an absent
      discount is `None`. */
  datatype Detalle = Detalle(servicio: Option<string>, subservicio: Option<string>,
                             descripcion: Option<string>, cantidad: real, precioUnit: real,
                             descuento: Option<real>)

  function ItemDeDetalle(d: Detalle): Item
  {
    Item(Or(d.servicio, ""), Or(d.subservicio, ""), Or(d.descripcion, ""),
         d.cantidad, d.precioUnit, if d.descuento.Some? then d.descuento.value else 0.0)
  }

  /** The items the screen starts from: the details when there are any, otherwise a single line
      priced at the invoice total (0 when there is none). */
  function ItemsIniciales(detalles: Option<seq<Detalle>>, total: Option<real>): (r: seq<Item>)
    ensures |r| > 0
    ensures |r| == if detalles.Some? && |detalles.value| > 0 then |detalles.value| else 1
  {
    if detalles.Some? && |detalles.value| > 0 then
      var ds := detalles.value;
      seq(|ds|, k requires 0 <= k < |ds| => ItemDeDetalle(ds[k]))
    else
      [Item("", "", "", 1.0, if total.Some? then total.value else 0.0, 0.0)]
  }

  /** Loading maps the details one to one and in order, with an absent discount read as 0 and
      an absent or empty text read as "". */
  lemma ItemsDesdeDetalles(ds: seq<Detalle>, total: Option<real>)
    requires |ds| > 0
    ensures var r := ItemsIniciales(Some(ds), total);
            |r| == |ds| &&
            forall k :: 0 <= k < |r| ==>
              r[k].cantidad == ds[k].cantidad && r[k].precio == ds[k].precioUnit &&
              r[k].descuento == (if ds[k].descuento.Some? then ds[k].descuento.value else 0.0) &&
              r[k].servicio == Or(ds[k].servicio, "") && r[k].subservicio == Or(ds[k].subservicio, "") &&
              r[k].descripcion == Or(ds[k].descripcion, "")
  {
  }

  /** With no details the screen starts from one line whose base is the invoice total, or 0. */
  lemma ItemsSinDetalles(detalles: Option<seq<Detalle>>, total: Option<real>)
    requires detalles.None? || detalles.value == []
    ensures var r := ItemsIniciales(detalles, total);
            |r| == 1 && SumaBases(r) == (if total.Some? then total.value else 0.0)
  {
    SumaBasesUno(ItemsIniciales(detalles, total)[0]);
  }

  datatype Cliente = Cliente(identificacion: string, tipoIdentificacion: string, razonSocial: string,
                             direccion: string, telefono: string, correo: string)

  const ClienteInicial := Cliente("", "CEDULA", "", "", "", "")

  /** The invoice header as the server returns it; absent fields are `None`. */
  datatype FacturaGuardada = FacturaGuardada(
    identificacion: Option<string>, tipoIdentificacion: Option<string>, razonSocial: Option<string>,
    direccion: Option<string>, telefono: Option<string>, correo: Option<string>,
    observacion: Option<string>, formaPago: Option<string>, total: Option<real>)

  datatype RespuestaFactura = RespuestaFactura(ok: bool, factura: FacturaGuardada,
                                               detalles: Option<seq<Detalle>>)

  /** The loaded client: each stored field when it is truthy, and the initial client's value
      otherwise, so the identification type is never empty. */
  function ClienteDe(f: FacturaGuardada): (c: Cliente)
    ensures c.tipoIdentificacion != ""
    ensures c.identificacion == if Truthy(f.identificacion) then f.identificacion.value else ClienteInicial.identificacion
    ensures c.tipoIdentificacion ==
              if Truthy(f.tipoIdentificacion) then f.tipoIdentificacion.value else ClienteInicial.tipoIdentificacion
    ensures c.razonSocial == if Truthy(f.razonSocial) then f.razonSocial.value else ClienteInicial.razonSocial
    ensures c.direccion == if Truthy(f.direccion) then f.direccion.value else ClienteInicial.direccion
    ensures c.telefono == if Truthy(f.telefono) then f.telefono.value else ClienteInicial.telefono
    ensures c.correo == if Truthy(f.correo) then f.correo.value else ClienteInicial.correo
  {
    Cliente(Or(f.identificacion, ""), Or(f.tipoIdentificacion, "CEDULA"), Or(f.razonSocial, ""),
            Or(f.direccion, ""), Or(f.telefono, ""), Or(f.correo, ""))
  }

  /** What is sent when the invoice is finalised. */
  datatype Payload = Payload(idEstablecimiento: Option<int>, cliente: Cliente, observacion: string,
                             formaPago: string, subtotal: real, iva: real, descuentoTotal: real,
                             total: real, estadoSri: string, items: seq<Item>)

  // ---------------------------------------------------------------------------
  // The screen's state

  class Factura {
    var idEstablecimiento: Option<int>
    var cliente: Cliente
    var items: seq<Item>
    var observacion: string
    var formaPago: string
    /** No handler of the screen ever changes it: it stays 0. */
    var descuentoTotal: real

    constructor ()
      ensures idEstablecimiento == None && cliente == ClienteInicial && items == []
      ensures observacion == "" && formaPago == "EFECTIVO" && descuentoTotal == 0.0
    {
      idEstablecimiento := None;
      cliente := ClienteInicial;
      items := [];
      observacion := "";
      formaPago := "EFECTIVO";
      descuentoTotal := 0.0;
    }

    /** `cargarFactura`: a response that is not ok changes nothing; otherwise the header fields
        take the stored values or their defaults and the items are rebuilt. */
    method CargarFactura(json: RespuestaFactura)
      modifies this
      ensures !json.ok ==> cliente == old(cliente) && observacion == old(observacion)
                           && formaPago == old(formaPago) && items == old(items)
      ensures json.ok ==> cliente == ClienteDe(json.factura)
                          && observacion == Or(json.factura.observacion, "")
                          && formaPago == Or(json.factura.formaPago, "EFECTIVO")
                          && items == ItemsIniciales(json.detalles, json.factura.total)
      ensures idEstablecimiento == old(idEstablecimiento) && descuentoTotal == old(descuentoTotal)
    {
      if !json.ok {
        return;
      }
      var f := json.factura;
      cliente := ClienteDe(f);
      observacion := Or(f.observacion, "");
      formaPago := Or(f.formaPago, "EFECTIVO");
      items := ItemsIniciales(json.detalles, f.total);
    }

    /** `agregarItem`: one new default line at the end; the totals do not move. */
    method AgregarItem()
      modifies this`items
      ensures items == old(items) + [ItemNuevo]
      ensures SumaBases(items) == SumaBases(old(items))
    {
      SumaBasesConcat(items, [ItemNuevo]);
      SumaBasesUno(ItemNuevo);
      items := items + [ItemNuevo];
    }

    /** `eliminarItem`: exactly position `i` goes, the rest keep their order; an index outside
        the list changes nothing. */
    method EliminarItem(i: int)
      modifies this`items
      ensures 0 <= i < |old(items)| ==> items == old(items)[..i] + old(items)[i + 1..]
                                        && SumaBases(items) == SumaBases(old(items)) - Base(old(items)[i])
      ensures !(0 <= i < |old(items)|) ==> items == old(items)
    {
      SinPosicionEs(items, i);
      if 0 <= i < |items| {
        SumaBasesSinPosicion(items, i);
      }
      items := SinPosicion(items, i);
    }

    /** `actualizarItem`: only the named field of item `i` changes. The source indexes the list
        directly, so `i` must be a position of it (any other index throws). */
    method ActualizarItem(i: int, c: Cambio)
      requires 0 <= i < |items|
      modifies this`items
      ensures |items| == |old(items)|
      ensures forall k :: 0 <= k < |items| && k != i ==> items[k] == old(items)[k]
      ensures forall f :: Leer(items[i], f) == if f == CampoDe(c) then ValorDe(c) else Leer(old(items)[i], f)
      ensures SumaBases(items) == SumaBases(old(items)) - Base(old(items)[i]) + Base(items[i])
    {
      var copia := items;
      var nuevo := Aplicar(copia[i], c);
      SumaBasesActualizada(copia, i, nuevo);
      copia := copia[i := nuevo];
      items := copia;
    }

    /** `finalizarFactura`'s payload: the totals computed from the current items, the numeric
        document discount, the header and the items themselves, marked "APROBADA". */
    method PayloadFinalizar() returns (p: Payload)
      ensures p.subtotal == 0.85 * SumaBases(items) && p.iva == 0.15 * SumaBases(items)
      ensures p.total == SumaBases(items) - descuentoTotal
      ensures p.descuentoTotal == descuentoTotal && p.items == items && p.estadoSri == "APROBADA"
      ensures p.cliente == cliente && p.observacion == observacion && p.formaPago == formaPago
      ensures p.idEstablecimiento == idEstablecimiento
    {
      var t := CalcularTotales(items, descuentoTotal);
      p := Payload(idEstablecimiento, cliente, observacion, formaPago,
                   t.subtotal, t.iva, descuentoTotal, t.total, "APROBADA", items);
    }
  }

  /** What the app shows after the finalise request: the alerts and whether it goes back to the
      previous screen. */
  datatype Cierre = Cierre(alertas: seq<Alerta>, volver: bool)

  const MensajeNoFinalizada := "No se pudo finalizar la factura"
  const TituloFinalizada := "\U{2714} Factura finalizada"

  /** The end of `finalizarFactura`. `jsonOk` is the answer's `ok` (a missing one is `Some(false)`);
      `None` means the request or its JSON threw, which escapes the handler with no alert. A
      falsy `ok` alerts the error and stays; only a truthy one confirms and goes back. */
  function CierreFactura(jsonOk: Option<bool>): (c: Cierre)
    ensures c.volver <==> jsonOk == Some(true)
    ensures jsonOk.None? ==> c.alertas == []
    ensures jsonOk == Some(false) ==> c.alertas == [Alerta("Error", Some(MensajeNoFinalizada))]
    ensures c.volver ==> c.alertas == [Alerta(TituloFinalizada, None)]
  {
    match jsonOk
    case None => Cierre([], false)
    case Some(ok) =>
      if !ok then Cierre([Alerta("Error", Some(MensajeNoFinalizada))], false)
      else Cierre([Alerta(TituloFinalizada, None)], true)
  }
}
