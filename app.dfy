/**
 * The application shell (App.jsx): which view is shown, which invoice is being
 * edited, what a save sends to the backend, and which screen the user sees
 * while authentication loads or when nobody is signed in.
 */
module App {
  import opened Wrappers
  import opened Invoices
  import InvoiceForm

  /** `vistaActual`: `'dashboard'`, `'nueva-factura'` or `'ver-facturas'`. */
  datatype Vista = Dashboard | NuevaFactura | VerFacturas

  /** The backend call a save makes: `actualizarFactura(id, factura)` or `crearFactura(factura)`. */
  datatype Guardado =
    | Actualizar(id: string, factura: InvoiceForm.Payload)
    | Crear(factura: InvoiceForm.Payload)

  /**
   * The call `handleGuardarFactura` makes: an update of the invoice being edited
   * when there is one, a creation otherwise; the form's payload is sent unchanged.
   */
  function LlamadaDeGuardado(editando: Option<Factura>, factura: InvoiceForm.Payload): (g: Guardado)
    ensures g.Actualizar? <==> editando.Some?
    ensures g.Actualizar? ==> g.id == editando.value.id
    ensures g.factura == factura
  {
    match editando
    case Some(f) => Actualizar(f.id, factura)
    case None => Crear(factura)
  }

  /** What the main area shows for a view: the form receives the invoice being edited. */
  datatype Contenido = Estadisticas | Formulario(facturaEditando: Option<Factura>) | Listado

  /** The screen rendered: a spinner, the login form, or the main layout. */
  datatype Pantalla = Cargando | Login | Principal(contenido: Contenido)

  function ContenidoDe(vista: Vista, editando: Option<Factura>): (c: Contenido)
    ensures c.Formulario? <==> vista == NuevaFactura
    ensures c.Formulario? ==> c.facturaEditando == editando
    ensures c.Estadisticas? <==> vista == Dashboard
  {
    match vista
    case Dashboard => Estadisticas
    case NuevaFactura => Formulario(editando)
    case VerFacturas => Listado
  }

  /**
   * The render: the loading screen while authentication loads, else the login
   * when there is no user, else the main layout with the current view.
   */
  function Render(cargandoAuth: bool, hayUsuario: bool, vista: Vista, editando: Option<Factura>): (p: Pantalla)
    ensures p.Cargando? <==> cargandoAuth
    ensures p.Login? <==> !cargandoAuth && !hayUsuario
    ensures p.Principal? <==> !cargandoAuth && hayUsuario
    ensures p.Principal? ==> p.contenido == ContenidoDe(vista, editando)
  {
    if cargandoAuth then Cargando
    else if !hayUsuario then Login
    else Principal(ContenidoDe(vista, editando))
  }

  /** The view and the editing state never decide the loading or the login screen. */
  lemma GatingIgnoresNavigation(cargandoAuth: bool, hayUsuario: bool, v1: Vista, e1: Option<Factura>, v2: Vista, e2: Option<Factura>)
    requires cargandoAuth || !hayUsuario
    ensures Render(cargandoAuth, hayUsuario, v1, e1) == Render(cargandoAuth, hayUsuario, v2, e2)
  {
  }

  class AppState {
    var vistaActual: Vista
    var facturaEditando: Option<Factura>

    /** An invoice is being edited only while the form is the current view. */
    ghost predicate Valid()
      reads this
    {
      facturaEditando.Some? ==> vistaActual == NuevaFactura
    }

    /** The initial state: the dashboard, nothing being edited. */
    constructor ()
      ensures vistaActual == Dashboard && facturaEditando == None
      ensures Valid()
    {
      vistaActual := Dashboard;
      facturaEditando := None;
    }

    /**
     * `handleGuardarFactura(factura)`, given the outcome of the backend call. The
     * call made is returned. A success ends the editing and shows the invoice
     * list; a failure only shows an error and leaves the state as it was.
     */
    method HandleGuardarFactura(factura: InvoiceForm.Payload, resultado: Result<(), string>) returns (llamada: Guardado)
      requires Valid()
      modifies this
      ensures Valid()
      ensures llamada == LlamadaDeGuardado(old(facturaEditando), factura)
      ensures resultado.Ok? ==> vistaActual == VerFacturas && facturaEditando == None
      ensures resultado.Err? ==> vistaActual == old(vistaActual) && facturaEditando == old(facturaEditando)
    {
      if facturaEditando.Some? {
        llamada := Actualizar(facturaEditando.value.id, factura);
      } else {
        llamada := Crear(factura);
      }
      if resultado.Ok? {
        facturaEditando := None;
        vistaActual := VerFacturas;
      }
    }

    /** `handleEditarFactura(factura)`: the invoice goes to the form, which is shown. */
    method HandleEditarFactura(factura: Factura)
      modifies this
      ensures Valid()
      ensures facturaEditando == Some(factura) && vistaActual == NuevaFactura
    {
      facturaEditando := Some(factura);
      vistaActual := NuevaFactura;
    }

    /** `handleCancelarEdicion`: the editing ends and the dashboard is shown. */
    method HandleCancelarEdicion()
      modifies this
      ensures Valid()
      ensures facturaEditando == None && vistaActual == Dashboard
    {
      facturaEditando := None;
      vistaActual := Dashboard;
    }

    /** `handleNavigate(vista)`: any navigation, even to the form, ends the editing. */
    method HandleNavigate(vista: Vista)
      modifies this
      ensures Valid()
      ensures vistaActual == vista && facturaEditando == None
    {
      vistaActual := vista;
      facturaEditando := None;
    }
  }

  /**
   * In every reachable state the screen shows an invoice under edit only inside
   * the form: the dashboard and the list never carry one.
   */
  lemma EditingOnlyInForm(vista: Vista, editando: Option<Factura>, cargandoAuth: bool, hayUsuario: bool)
    requires editando.Some? ==> vista == NuevaFactura
    ensures editando.Some? ==> Render(cargandoAuth, hayUsuario, vista, editando).Principal? ==>
              Render(cargandoAuth, hayUsuario, vista, editando).contenido == Formulario(editando)
  {
  }

  /**
   * A save that follows a navigation always creates a new invoice: navigating
   * drops the invoice that was being edited, so nothing is overwritten.
   */
  method NavigateThenSave(app: AppState, vista: Vista, factura: InvoiceForm.Payload, resultado: Result<(), string>)
    returns (llamada: Guardado)
    requires app.Valid()
    modifies app
    ensures app.Valid()
    ensures llamada == Crear(factura)
  {
    app.HandleNavigate(vista);
    llamada := app.HandleGuardarFactura(factura, resultado);
  }

  /** Editing an invoice and then saving updates exactly that invoice. */
  method EditThenSave(app: AppState, f: Factura, factura: InvoiceForm.Payload, resultado: Result<(), string>)
    returns (llamada: Guardado)
    requires app.Valid()
    modifies app
    ensures app.Valid()
    ensures llamada == Actualizar(f.id, factura)
    ensures resultado.Ok? ==> app.facturaEditando == None && app.vistaActual == VerFacturas
    ensures resultado.Err? ==> app.facturaEditando == Some(f) && app.vistaActual == NuevaFactura
  {
    app.HandleEditarFactura(f);
    llamada := app.HandleGuardarFactura(factura, resultado);
  }
}
