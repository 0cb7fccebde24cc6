# auto360suite-app screens — a verified model

This project models the decision logic of the auto360suite mobile app's screens in Dafny.
The app is a React Native client for a vehicle-services business. These are the screens covered:

- **FinalizarFactura**: the invoice-finalisation ledger (items, the 85 % / 15 % subtotal/IVA split, the finalise payload).
- **ProformaDirecta**: the direct proforma (validated line items with stored totals, client lookup, service selection, the two resets after saving).
- **Identificacion**: the technician's vehicle-identification case (stored case loading, the registry plate lookup with manual fallback, the save payload, the seven photo slots).
- **Login**: the login dispatch from role and technician type to one destination.
- **HomeIdentificacion**: the subservice name normalised and dispatched to a start endpoint and a screen.
- **OrdenesAsignadas**: assigned orders (load rule, delete outcome, date column).
- **AsignacionTecnicos**: technician assignment (active-technician filter, the two-picker gate, non-array answers).
- **GestionUsuarios**: user management (required fields, reset after creation, the state column).
- **ClientesFrecuentes**: frequent clients (the ten-character cedula gate, registry fill-in, saving, clearing).

Every server answer is an input value. `None` stands for a request, or a JSON body, that failed (the JavaScript `await` threw). The `Js` module models the pieces of JavaScript the handlers rely on:

- `||` and `??` on optional strings;
- `.length` in UTF-16 code units;
- `trim` over the ECMAScript whitespace set;
- `toLowerCase`;
- `includes`;
- `filter`;
- `Array.isArray`;
- loose `== 1`.

Screens whose handlers update React state step by step are classes whose methods modify those fields. Pure expressions (the dispatch tables, payloads, filters, `reduce`) are functions. Money is exact `real`.

## Model

| member | source | states |
|---|---|---|
| Js.Or | src/screens/admin/FinalizarFacturaScreen.js:83-90 | the or-default `o or d` gives the value when it is present and not "", the default otherwise, and is "" only when the default is |
| Js.Nullish | src/screens/tecnico_identificacion/IdentificacionScreen.js:94-97 | `o ?? d` replaces only an absent value, so it keeps "", and agrees with the or-default on present non-empty or absent values |
| Js.Utf16Length | src/screens/admin/ClientesFrecuentesScreen.js:148 | `.length` counts UTF-16 code units: between the number of code points and twice it, and equal to it when no code point is above U+FFFF |
| Js.Trim | src/screens/tecnico_identificacion/IdentificacionScreen.js:178 | `trim()` returns a slice of the input that neither starts nor ends with whitespace, with only whitespace around it |
| Js.TrimIdempotent | src/screens/tecnico_identificacion/HomeIdentificacionScreen.js:102 | trimming twice is trimming once |
| Js.ToLower | src/screens/tecnico_identificacion/HomeIdentificacionScreen.js:102 | `toLowerCase()` keeps the length and lower-cases each character |
| Js.TrimOfLower | src/screens/tecnico_identificacion/HomeIdentificacionScreen.js:102 | lower-casing a trimmed string leaves it trimmed |
| Js.TrimDeRelleno | src/screens/tecnico_identificacion/HomeIdentificacionScreen.js:102 | conversely to `Trim`'s contract, a string neither starting nor ending with whitespace and padded with whitespace on both sides trims back to itself, so `trim` is exactly the unpadded text |
| Js.Contains | src/screens/LoginScreen.js:55-68 | `includes` is true exactly when the substring occurs at some position |
| Js.Filter | src/screens/admin/AsignacionTecnicosScreen.js:73-75 | `filter` keeps only elements satisfying the predicate and never lengthens the list |
| Js.FilterCount | src/screens/tecnico_identificacion/IdentificacionScreen.js:304 | `filter` keeps each satisfying element as often as it occurs and drops every other one |
| Js.FilterConcat | src/screens/admin/AsignacionTecnicosScreen.js:73-75 | `filter` preserves order: it distributes over concatenation |
| Js.LooseEqualsOne | src/screens/admin/GestionUsuariosScreen.js:150 | `== 1` never holds for null, and holds for a string only when it is "1" with nothing but whitespace around it |
| Js.TextoUno | src/screens/admin/AsignacionTecnicosScreen.js:74 | the other direction: "1" padded with any whitespace is loosely equal to 1 |
| Js.ArregloOVacio | src/screens/admin/GestionUsuariosScreen.js:57 | `Array.isArray(x) ? x : []` gives the array's elements, and no elements for any other answer |
| FinalizarFactura.Base | src/screens/admin/FinalizarFacturaScreen.js:150 | an item's base is quantity × price with its discount taken off, so a non-negative discount never raises it |
| FinalizarFactura.SumaBasesConcat | src/screens/admin/FinalizarFacturaScreen.js:145-153 | the sum of item bases over two lists put together is the sum of their sums |
| FinalizarFactura.CalcularTotales | src/screens/admin/FinalizarFacturaScreen.js:145-157 | subtotal is 0.85 and IVA 0.15 of the sum of `cantidad*precio - descuento` over all items; total is that sum minus the document discount, unclamped |
| FinalizarFactura.EjemplosDeTotales | src/screens/admin/FinalizarFacturaScreen.js:145-156 | worked cases: 2×10 gives 17 + 3 = 20; 1×100 less 10 with a document discount of 5 gives 76.5 + 13.5 − 5 = 85; a discount above the base gives a negative total |
| FinalizarFactura.SinPosicion | src/screens/admin/FinalizarFacturaScreen.js:132-134 | the index filter is one shorter than the list when the index is in range and as long otherwise |
| FinalizarFactura.SinPosicionEs | src/screens/admin/FinalizarFacturaScreen.js:132-134 | the index filter removes exactly position i, keeping the rest in order; an index outside the list removes nothing |
| FinalizarFactura.SumaBasesSinPosicion | src/screens/admin/FinalizarFacturaScreen.js:132-134 | removing item i takes exactly its base off the sum |
| FinalizarFactura.Aplicar | src/screens/admin/FinalizarFacturaScreen.js:136-140 | writing one field of an item changes that field to the new value and every other field keeps its value |
| FinalizarFactura.SumaBasesActualizada | src/screens/admin/FinalizarFacturaScreen.js:136-140 | replacing item i changes the sum of bases by the new base minus the old |
| FinalizarFactura.ItemsIniciales | src/screens/admin/FinalizarFacturaScreen.js:95-115 | the ledger never starts empty: one item per stored detail, or a single item when there are none |
| FinalizarFactura.ItemsDesdeDetalles | src/screens/admin/FinalizarFacturaScreen.js:95-104 | stored details map one to one and in order to items: quantity and price kept, an absent discount read as 0, an absent or empty service, subservice or description read as "" |
| FinalizarFactura.ItemsSinDetalles | src/screens/admin/FinalizarFacturaScreen.js:105-115 | with no details the ledger starts from a single item whose base is the invoice total, or 0 |
| FinalizarFactura.ClienteDe | src/screens/admin/FinalizarFacturaScreen.js:83-90 | each loaded client field is the stored value when truthy and the initial client's value otherwise, so the identification type is never empty ("CEDULA" by default) |
| FinalizarFactura.Factura.constructor | src/screens/admin/FinalizarFacturaScreen.js:26-41 | the initial state: no items, client identified by "CEDULA", payment "EFECTIVO", document discount 0 |
| FinalizarFactura.Factura.CargarFactura | src/screens/admin/FinalizarFacturaScreen.js:74-116 | a response that is not ok changes nothing; otherwise the client fields take stored values or defaults, and the items are rebuilt from the details or the total |
| FinalizarFactura.Factura.AgregarItem | src/screens/admin/FinalizarFacturaScreen.js:121-130 | exactly one default item (quantity 1, price 0, discount 0, empty texts) is appended; earlier items and the sum of bases are unchanged |
| FinalizarFactura.Factura.EliminarItem | src/screens/admin/FinalizarFacturaScreen.js:132-134 | exactly position i is removed and the rest keep their order, with the sum dropping by its base; an out-of-range i changes nothing |
| FinalizarFactura.Factura.ActualizarItem | src/screens/admin/FinalizarFacturaScreen.js:136-140 | the list keeps its length; every other item is unchanged; item i changes only in the named field |
| FinalizarFactura.Factura.PayloadFinalizar | src/screens/admin/FinalizarFacturaScreen.js:164-176 | the payload carries exactly the computed subtotal, IVA and total, the document discount, the items and the header, with state "APROBADA" |
| FinalizarFactura.CierreFactura | src/screens/admin/FinalizarFacturaScreen.js:186-194 | the screen goes back iff the answer's `ok` is true, after the "✔ Factura finalizada" alert; a false `ok` alerts "No se pudo finalizar la factura" and stays; a thrown request shows nothing |
| ProformaDirecta.TotalProforma | src/screens/admin/ProformaDirectaScreen.js:152 | the `reduce` total starts from 0 for no items and is not negative when no line total is negative |
| ProformaDirecta.TotalProformaConcat | src/screens/admin/ProformaDirectaScreen.js:152 | the reduce total of two item lists put together is the sum of their totals |
| ProformaDirecta.TotalEsSumaDeProductos | src/screens/admin/ProformaDirectaScreen.js:137-152 | when every stored total is quantity × price, the document total is the sum of quantity × price (0 for no items) |
| ProformaDirecta.Linea | src/screens/admin/ProformaDirectaScreen.js:139-144 | the line built from the inputs stores total = quantity × unit price of the parsed inputs |
| ProformaDirecta.IdDe | src/screens/admin/ProformaDirectaScreen.js:165-166 | an unselected service is sent as absent, a selected one as its id |
| ProformaDirecta.Proforma.constructor | src/screens/admin/ProformaDirectaScreen.js:24-50 | the initial state: empty client fields and plate, no people, services or items, nothing selected, item inputs "", "1", "" |
| ProformaDirecta.Proforma.BuscarPersonaBD | src/screens/admin/ProformaDirectaScreen.js:78-91 | the text always becomes the cedula; under 3 UTF-16 units there is no lookup and the dropdown hides; otherwise the results, or none, fill the dropdown |
| ProformaDirecta.Proforma.SeleccionarPersona | src/screens/admin/ProformaDirectaScreen.js:93-100 | the chosen person fills the client fields (absent phone or address as "") and the dropdown closes |
| ProformaDirecta.Proforma.SeleccionarServicio | src/screens/admin/ProformaDirectaScreen.js:112-121 | choosing a service clears the subservice and closes the list |
| ProformaDirecta.Proforma.SeleccionarSubservicio | src/screens/admin/ProformaDirectaScreen.js:123-126 | the subservice is chosen and its list closes |
| ProformaDirecta.Proforma.AgregarItem | src/screens/admin/ProformaDirectaScreen.js:131-150 | an empty description or price is rejected with the alert "Complete descripción y precio" and nothing changed; otherwise exactly one line with total = quantity × price is appended, the document total grows by it, and the inputs reset to "", "1", "" |
| ProformaDirecta.Proforma.CuerpoGuardar | src/screens/admin/ProformaDirectaScreen.js:158-168 | the saved body carries the client's name, surname, phone and address, the cedula, plate and items, and the ids of the chosen service and subservice |
| ProformaDirecta.Proforma.NuevaConMismosDatos | src/screens/admin/ProformaDirectaScreen.js:192-196 | the "Sí" answer clears items, service and subservice and nothing else |
| ProformaDirecta.Proforma.LimpiarTodo | src/screens/admin/ProformaDirectaScreen.js:202-212 | client fields, plate, items and selections are cleared |
| ProformaDirecta.Proforma.GuardarProforma | src/screens/admin/ProformaDirectaScreen.js:157-200 | a thrown request shows nothing and a rejected one alerts "No se pudo crear la proforma"; both leave every field it may touch (client fields, plate, items, selections) unchanged. A created proforma asks "¿Crear otro servicio con los mismos datos?", and either answer clears items and selections. "Sí" keeps all client fields and the plate; "No" clears all six |
| Identificacion.TiposFotosDistintos | src/screens/tecnico_identificacion/IdentificacionScreen.js:13-21 | there are seven photo slots and their types are distinct |
| Identificacion.VecesMostradaParticion | src/screens/tecnico_identificacion/IdentificacionScreen.js:300-304 | with distinct slot types, each photo is shown over all slots exactly as often as it occurs if its type has a slot, and never otherwise |
| Identificacion.FotosParticionadas | src/screens/tecnico_identificacion/IdentificacionScreen.js:13-21 | over the seven slots, each photo appears in exactly the slot of its type, as often as it occurs |
| Identificacion.Caso.constructor | src/screens/tecnico_identificacion/IdentificacionScreen.js:26-57 | the initial state: empty texts, no vehicle, manual mode off, blank manual data marked manual |
| Identificacion.Caso.CargarDatos | src/screens/tecnico_identificacion/IdentificacionScreen.js:68-108 | a failed contact request, or a failed case request after it, leaves every case field as it was. The contact is replaced only by an ok answer with a person. Missing texts become "". Stored vehicle data becomes both vehicle and manual data, with manual mode on iff its flag is true; the owner cedula is never touched |
| Identificacion.Caso.ConsultarAnt | src/screens/tecnico_identificacion/IdentificacionScreen.js:111-133 | an empty plate alerts "Ingrese la placa" and changes nothing; a failed request changes nothing. Not ok or no vehicle: the manual-entry alert, manual mode on, manual data seeded with the plate and `manual: true`, vehicle untouched. A found vehicle: no alert, manual mode off and that vehicle stored. The owner cedula changes only when the found record carries one. Each outcome fixes the saved vehicle data |
| Identificacion.Caso.EditarManual | src/screens/tecnico_identificacion/IdentificacionScreen.js:271-293 | typing changes only the edited field of the manual data |
| Identificacion.Caso.PayloadGuardar | src/screens/tecnico_identificacion/IdentificacionScreen.js:172-183 | the vehicle data sent is the manual data in manual mode and the registry vehicle otherwise; the name is the trimmed "names surnames"; building it reads the state only |
| Identificacion.Caso.FotosDeCasillero | src/screens/tecnico_identificacion/IdentificacionScreen.js:304 | slot k shows exactly the photos whose type is slot k's |
| Identificacion.Caso.Finalizar | src/screens/tecnico_identificacion/IdentificacionScreen.js:198-216 | the conclusions always go to the order's finalise route, whatever the photo slots hold; the "Finalizado" menu follows every answer, a rejected one included, since the status is never checked; a thrown request shows nothing |
| Login.DestinoTecnico | src/screens/LoginScreen.js:53-73 | a technician goes to identification if the type contains "IDENTIFICACIÓN VEHICULAR", else detailing if it contains "DETAILING", else self-service if it contains "AUTO SERVICIOS", else the general menu |
| Login.HandleLogin | src/screens/LoginScreen.js:15-83 | a failed request alerts the connection message; a non-ok answer alerts the server's error or "Credenciales incorrectas" and never navigates; "ADMIN" goes to Admin whatever the subtype; "TECNICO" goes by subtype; any other role goes to Home |
| Login.LoginExitosoNavega | src/screens/LoginScreen.js:47-76 | every ok login with a user yields one destination, unless a technician has no technician type |
| Login.PrecedenciaIdentificacion | src/screens/LoginScreen.js:55-60 | every technician type naming both identification and detailing goes to identification |
| Login.PrecedenciaDetailing | src/screens/LoginScreen.js:55-68 | every type naming detailing and self-service but not identification goes to detailing |
| Login.DestinoAutoservicios | src/screens/LoginScreen.js:55-68 | every type naming only self-service goes to HomeAutoservicios |
| Login.EjemploIdentificacion | src/screens/LoginScreen.js:55-58 | example: "IDENTIFICACIÓN VEHICULAR / DETAILING" goes to identification |
| Login.EjemploDetailing | src/screens/LoginScreen.js:55-63 | example: "DETAILING Y AUTO SERVICIOS" goes to detailing |
| Login.EjemploAutoservicios | src/screens/LoginScreen.js:55-68 | example: "TECNICO AUTO SERVICIOS" goes to self-service |
| Login.SinTildeVaAlMenu | src/screens/LoginScreen.js:55-71 | the match is exact on the accented Ó: "IDENTIFICACION VEHICULAR" falls through to HomeScreen |
| HomeIdentificacion.Normalizar | src/screens/tecnico_identificacion/HomeIdentificacionScreen.js:102 | the normal form has no upper-case letter and no whitespace at either end, and is as long as the trimmed name |
| HomeIdentificacion.ModuloDeNormal | src/screens/tecnico_identificacion/HomeIdentificacionScreen.js:105-117 | a normalised name selects process m iff it is one of m's names, and no process iff it names none |
| HomeIdentificacion.ModuloDe | src/screens/tecnico_identificacion/HomeIdentificacionScreen.js:102-117 | a subservice name selects process m iff its trimmed lower-case form is one of m's names |
| HomeIdentificacion.Endpoint | src/screens/tecnico_identificacion/HomeIdentificacionScreen.js:105-117 | each process's start route is a path ending in `/iniciar/` followed by the order id |
| HomeIdentificacion.Pantalla | src/screens/tecnico_identificacion/HomeIdentificacionScreen.js:105-117 | the four processes open the Identificacion, HistorialVehicular, CUV and Contrato screens respectively, one screen per process |
| HomeIdentificacion.EndpointsDistintos | src/screens/tecnico_identificacion/HomeIdentificacionScreen.js:105-117 | the four processes have different start endpoints and different screens |
| HomeIdentificacion.IniciarProceso | src/screens/tecnico_identificacion/HomeIdentificacionScreen.js:123-135 | a failed request throws to the caller; a non-ok status only alerts |
| HomeIdentificacion.IniciarIdentificacion | src/screens/tecnico_identificacion/HomeIdentificacionScreen.js:101-121 | a request is sent iff the normalised name selects a process, to that process's endpoint. The screen opens iff the request answered, even with a non-ok status, which also alerts. An unknown name has no effect |
| HomeIdentificacion.ModuloDeNormalizado | src/screens/tecnico_identificacion/HomeIdentificacionScreen.js:102 | normalising is idempotent, so a name and its normal form select the same process |
| HomeIdentificacion.HistorialConMayusculas | src/screens/tecnico_identificacion/HomeIdentificacionScreen.js:102-110 | "Historial Vehicular" written with capitals selects the historial process |
| OrdenesAsignadas.ClasificarEliminacion | src/screens/admin/OrdenesAsignadasScreen.js:86-94 | a delete fails iff the status or the body's `ok` is false; failure shows `msg` or the default, success shows `msg`; the list reloads iff it succeeded |
| OrdenesAsignadas.FormatearFecha | src/screens/admin/OrdenesAsignadasScreen.js:108-112 | an absent or empty date formats to "-" |
| OrdenesAsignadas.Ordenes.constructor | src/screens/admin/OrdenesAsignadasScreen.js:16-17 | the screen starts with the given token and no orders |
| OrdenesAsignadas.Ordenes.CargarOrdenes | src/screens/admin/OrdenesAsignadasScreen.js:41-52 | the list is the answer's orders when ok and empty otherwise; a failed request keeps it and alerts |
| OrdenesAsignadas.Ordenes.EliminarOrden | src/screens/admin/OrdenesAsignadasScreen.js:57-103 | without a token nothing is sent. A confirmed delete is sent. A failure, or a failed request, alerts and leaves the list alone. Only a success shows the server message and reloads |
| AsignacionTecnicos.TecnicosActivos | src/screens/admin/AsignacionTecnicosScreen.js:73-75 | the offered technicians are exactly the users with rol "tecnico" and `estado == 1`, each as often as it occurs |
| AsignacionTecnicos.TecnicosEnOrden | src/screens/admin/AsignacionTecnicosScreen.js:73-75 | technicians keep the user list's order |
| AsignacionTecnicos.EstadoLaxo | src/screens/admin/AsignacionTecnicosScreen.js:74 | loose equality admits `estado` "1" and `true` and rejects 0 and null |
| AsignacionTecnicos.Pantalla.constructor | src/screens/admin/AsignacionTecnicosScreen.js:19-24 | the screen starts with no services, technicians or assigned technicians and both pickers on the placeholder |
| AsignacionTecnicos.Pantalla.CargarServicios | src/screens/admin/AsignacionTecnicosScreen.js:52-62 | a non-array answer gives no services; a failed request keeps them and alerts |
| AsignacionTecnicos.Pantalla.CargarTecnicos | src/screens/admin/AsignacionTecnicosScreen.js:67-80 | an array answer gives its active technicians; anything else alerts and keeps the list |
| AsignacionTecnicos.Pantalla.CargarAsignados | src/screens/admin/AsignacionTecnicosScreen.js:85-96 | a non-array answer gives no assigned technicians; a failed request keeps them and alerts |
| AsignacionTecnicos.Pantalla.AlCambiarServicio | src/screens/admin/AsignacionTecnicosScreen.js:171-174 | the value is always stored. The assigned list loads iff a service (not the empty option) was chosen, with no alert when answered. A failed load keeps the list and alerts |
| AsignacionTecnicos.Pantalla.AlCambiarTecnico | src/screens/admin/AsignacionTecnicosScreen.js:186 | the technician picker stores its value |
| AsignacionTecnicos.Pantalla.AsignarTecnico | src/screens/admin/AsignacionTecnicosScreen.js:101-126 | nothing is sent unless both a service and a technician are chosen. Any answer shows its message or the default and reloads that service's list; a failed reload keeps the list. A failed request does not reload |
| GestionUsuarios.EstadoTexto | src/screens/admin/GestionUsuariosScreen.js:150 | the state shows "Activo" iff `estado == 1`, "Inactivo" otherwise |
| GestionUsuarios.EstadosConocidos | src/screens/admin/GestionUsuariosScreen.js:150 | 1, true and "1" show as active; 0, false, "" and null as inactive |
| GestionUsuarios.Gestion.constructor | src/screens/admin/GestionUsuariosScreen.js:19-28 | the screen starts with no users and an empty, hence incomplete, form |
| GestionUsuarios.Gestion.CargarUsuarios | src/screens/admin/GestionUsuariosScreen.js:51-61 | a non-array answer gives no users; a failed request keeps them and alerts |
| GestionUsuarios.Gestion.CrearUsuario | src/screens/admin/GestionUsuariosScreen.js:66-107 | nothing is sent if any of names, surnames, mail, role or password is empty (phone optional). A non-ok answer or a failed request keeps the form. Success clears all six fields, so the form is incomplete again, and reloads the list |
| ClientesFrecuentes.Clientes.constructor | src/screens/admin/ClientesFrecuentesScreen.js:104-111 | the screen starts with an empty form, so no lookup is possible, and no clients |
| ClientesFrecuentes.Clientes.CargarPersonas | src/screens/admin/ClientesFrecuentesScreen.js:135-145 | a missing `personas` gives no clients; a failed request keeps them and alerts |
| ClientesFrecuentes.Clientes.BuscarCedula | src/screens/admin/ClientesFrecuentesScreen.js:147-170 | a cedula under 10 UTF-16 units is rejected with no lookup. A lookup that is not ok, or that fails, changes nothing. A found person sets only names and surnames, defaulting to "" |
| ClientesFrecuentes.Clientes.LimpiarFormulario | src/screens/admin/ClientesFrecuentesScreen.js:205-212 | all six fields become "", so the lookup is rejected until a new cedula is typed |
| ClientesFrecuentes.Clientes.GuardarPersona | src/screens/admin/ClientesFrecuentesScreen.js:172-203 | the form is always sent; a failed save leaves it unchanged; a successful one clears all six fields and reloads the list |

## Left out

- Network, storage and device I/O are not modelled: `fetch`, SecureStore, the camera and ImagePicker, FormData photo uploads, photo-description updates and opening the PDF with `Linking`. Each answer is a parameter instead.
- Ordering of async work is not modelled: `Promise.all`, requests left running, a reload that is not awaited. A reload's answer is taken as a parameter right after the request that triggers it.
- `Number()` parsing (NaN included) is not modelled, since numeric inputs arrive parsed or through a `numero` parameter. IEEE-754 rounding of 0.85 and 0.15 and `toFixed(2)` display formatting are left out too, since money is exact.
- `toLocaleDateString` and `toLocaleTimeString` depend on a locale library: `FormatearFecha` takes the formatter as a parameter.
- Js.ToLower: lower-cases only Basic Latin and Latin-1 letters, because the names compared are Spanish text in that range.
- Js.LooseEqualsOne: for a string it recognises only "1" with surrounding whitespace, not other numerals equal to 1 such as "1.0", "01" or "0x1", because it has no numeric string parser.
- `JSON.parse` of stored vehicle data is not modelled: it arrives parsed, and a malformed string (which throws) is not covered. Vehicle fields present as `undefined` and as "" are not told apart.
- FinalizarFactura.Factura.ActualizarItem: requires a valid index, because the source indexes the list directly and throws otherwise. The screen only calls it for rows it renders.
- Loading establishments on the invoice screen, user deletion, the `init` session checks and the success alert after saving an identification are not modelled: they are a fetch plus an alert with no decision in between.
- Plain field setters bound to text inputs (plate, cedula, observations and the like) are not modelled: they store the typed text. The invoice's `setDescuentoTotal` is never called, so `descuentoTotal` stays 0 after construction.
- The order state machine (assigned, in process, finished) is decided by the server and not modelled. So are the read-only list screens (orders in process, finished orders, pending invoices): their rules are `json.ok ? list : []`, the one `CargarOrdenes` models, and the `!fecha` to "-" date column, the one `FormatearFecha` models.
- Rendering, styles, navigation configuration and the static welcome and menu screens are UI only, with no decisions.
- When a list answer is ok but has no orders array, the screen stores `undefined`. The model requires the array and does not cover this case.
