/**
  The fund service: subscribe and cancel on the stored client, in place, and
  the two read-only queries. Each mutating method is specified by the
  account-level functions Suscribir and Cancelar.
 */
module Servicio {
  import opened Wrappers
  import opened Modelo
  import opened Suscripciones
  import opened Catalogo

  /** The client store: it holds at most the one client account. */
  class ClienteRepository {
    var guardado: Cliente?

    constructor ()
      ensures guardado == null
    {
      guardado := null;
    }

    /** The stored client when it carries the given id. */
    method FindById(id: string) returns (c: Cliente?)
      ensures c == (if guardado != null && guardado.id == id then guardado else null)
    {
      c := null;
      if guardado != null && guardado.id == id {
        c := guardado;
      }
    }

    /** Stores the client and hands it back. */
    method Save(c: Cliente) returns (r: Cliente)
      modifies this
      ensures guardado == c && r == c
    {
      guardado := c;
      r := c;
    }
  }

  class FondoService {
    const clienteRepository: ClienteRepository
    const fondoRepository: FondoRepository

    ghost predicate Valid()
      reads this, clienteRepository, clienteRepository.guardado, fondoRepository
    {
      && fondoRepository.Valid()
      && MinimosPositivos(fondoRepository.fondos)
      && (clienteRepository.guardado != null ==>
            clienteRepository.guardado.id == CLIENTE_ID && clienteRepository.guardado.Valid())
    }

    /** The account the service works on: the stored one, or the one it would create. */
    ghost function CuentaActual(): Cuenta
      reads this, clienteRepository, clienteRepository.guardado
    {
      if clienteRepository.guardado == null then CuentaInicial() else clienteRepository.guardado.Estado()
    }

    /** The catalog as a map from fund id to fund. */
    function Catalogo(): (cat: map<string, Fondo>)
      reads this, fondoRepository
      requires fondoRepository.Valid() && MinimosPositivos(fondoRepository.fondos)
      ensures CatalogoValido(cat)
    {
      fondoRepository.PorId()
    }

    constructor (clienteRepository: ClienteRepository, fondoRepository: FondoRepository)
      requires fondoRepository.Valid() && MinimosPositivos(fondoRepository.fondos)
      requires clienteRepository.guardado != null ==>
        clienteRepository.guardado.id == CLIENTE_ID && clienteRepository.guardado.Valid()
      ensures this.clienteRepository == clienteRepository && this.fondoRepository == fondoRepository
      ensures Valid()
    {
      this.clienteRepository := clienteRepository;
      this.fondoRepository := fondoRepository;
    }

    /**
      Subscribes the client to a fund. On any failed check nothing changes
      (a client that was not stored stays unstored); on success the client
      is updated as Suscribir says and saved. The clock is read twice, once
      for the new position and once for the transaction entry.
     */
    method SuscribirseAFondo(request: SuscripcionRequest, fechaPosicion: Fecha, fechaTransaccion: Fecha, idTransaccion: string)
      returns (r: Result<Cliente, Error>)
      requires Valid()
      modifies clienteRepository, clienteRepository.guardado
      ensures Valid()
      ensures var esperado := Suscribir(old(Catalogo()), old(CuentaActual()), request, fechaPosicion, fechaTransaccion, idTransaccion);
        && (esperado.Failure? ==>
              && r == Failure(esperado.error)
              && clienteRepository.guardado == old(clienteRepository.guardado)
              && (clienteRepository.guardado != null ==> unchanged(clienteRepository.guardado)))
        && (esperado.Success? ==>
              && r.Success?
              && clienteRepository.guardado == r.value
              && r.value.Estado() == esperado.value
              && (old(clienteRepository.guardado) != null ==> r.value == old(clienteRepository.guardado))
              && (old(clienteRepository.guardado) == null ==> fresh(r.value)))
    {
      ghost var cat := Catalogo();
      ghost var antes := CuentaActual();
      var cliente := ObtenerCliente();
      var fondo := ObtenerFondo(request.idFondo);
      if fondo.Failure? {
        return Failure(fondo.error);
      }
      var rechazo := ValidarSuscripcion(cliente.saldo, cliente.fondosActivos, fondo.value, request.monto);
      if rechazo.Some? {
        return Failure(rechazo.value);
      }
      AplicarSuscripcion(cliente, fondo.value, request, fechaPosicion);
      RegistrarTransaccion(cliente, fondo.value, request, fechaTransaccion, idTransaccion);
      SuscribirPreservaInvariante(cat, antes, request, fechaPosicion, fechaTransaccion, idTransaccion);
      var guardado := clienteRepository.Save(cliente);
      // The notification sent after the save does not touch the account.
      r := Success(guardado);
    }

    /**
      Cancels the client's position in a fund: the client must be stored, hold
      a position in the fund, and the fund must still be in the catalog. On
      failure nothing changes; on success the client is updated as Cancelar says.
     */
    method CancelarSuscripcion(idFondo: string, fecha: Fecha, idTransaccion: string)
      returns (r: Result<Cliente, Error>)
      requires Valid()
      modifies clienteRepository, clienteRepository.guardado
      ensures Valid()
      ensures clienteRepository.guardado == old(clienteRepository.guardado)
      ensures old(clienteRepository.guardado) == null ==> r == Failure(ClienteNotFound)
      ensures old(clienteRepository.guardado) != null ==>
        var esperado := Cancelar(old(Catalogo()), old(clienteRepository.guardado.Estado()), idFondo, fecha, idTransaccion);
        && (esperado.Failure? ==> r == Failure(esperado.error) && unchanged(clienteRepository.guardado))
        && (esperado.Success? ==>
              r == Success(clienteRepository.guardado) && clienteRepository.guardado.Estado() == esperado.value)
    {
      var cliente := clienteRepository.FindById(CLIENTE_ID);
      if cliente == null {
        return Failure(ClienteNotFound);
      }
      ghost var antes := cliente.Estado();
      var k := BuscarActivo(cliente.fondosActivos, idFondo);
      if k.None? {
        return Failure(SuscripcionNotFound);
      }
      var fondo := fondoRepository.FindById(idFondo);
      if fondo.None? {
        return Failure(FondoNotFound(idFondo));
      }
      var fondoActivo := cliente.fondosActivos[k.value];
      cliente.saldo := cliente.saldo + fondoActivo.monto;
      cliente.fondosActivos := RemoverPrimero(cliente.fondosActivos, fondoActivo);
      cliente.historialTransacciones := cliente.historialTransacciones
        + [Transaccion(idTransaccion, CANCELACION, fondo.value.nombre, fondoActivo.monto, fecha)];
      CancelarPreservaInvariante(Catalogo(), antes, idFondo, fecha, idTransaccion);
      var guardado := clienteRepository.Save(cliente);
      // The notification sent after the save does not touch the account.
      r := Success(guardado);
    }

    /** The client's transaction history, in the order it was recorded. */
    method ObtenerHistorialTransacciones() returns (r: Result<seq<Transaccion>, Error>)
      requires Valid()
      ensures clienteRepository.guardado == null ==> r == Failure(ClienteNotFound)
      ensures clienteRepository.guardado != null ==> r == Success(clienteRepository.guardado.historialTransacciones)
    {
      var cliente := clienteRepository.FindById(CLIENTE_ID);
      if cliente == null {
        return Failure(ClienteNotFound);
      }
      r := Success(cliente.historialTransacciones);
    }

    /** The whole catalog in store order; each listed fund is the one its id finds. */
    method ObtenerFondos() returns (fondos: seq<Fondo>)
      requires Valid()
      ensures fondos == fondoRepository.fondos
      ensures forall i :: 0 <= i < |fondos| ==> ObtenerFondo(fondos[i].id) == Success(fondos[i])
    {
      fondos := fondoRepository.FindAll();
    }

    /** A new client with the fixed id and the initial balance. */
    method CrearClienteInicial() returns (cliente: Cliente)
      ensures fresh(cliente) && cliente.Estado() == CuentaInicial()
    {
      cliente := new Cliente(CLIENTE_ID, SALDO_INICIAL);
    }

    /** The stored client, or a new initial client (not stored) when there is none. */
    method ObtenerCliente() returns (cliente: Cliente)
      requires Valid()
      ensures cliente.Estado() == CuentaActual() && cliente.Valid()
      ensures old(clienteRepository.guardado) != null ==> cliente == clienteRepository.guardado
      ensures old(clienteRepository.guardado) == null ==> fresh(cliente)
    {
      var encontrado := clienteRepository.FindById(CLIENTE_ID);
      // The default client is built whether or not it is needed.
      var inicial := CrearClienteInicial();
      cliente := if encontrado != null then encontrado else inicial;
    }

    /** The catalog fund with the given id, or FondoNotFound. */
    function ObtenerFondo(idFondo: string): (r: Result<Fondo, Error>)
      reads this, fondoRepository
      requires fondoRepository.Valid()
      ensures r.Success? ==> r.value in fondoRepository.fondos && r.value.id == idFondo
      ensures r.Failure? ==> r.error == FondoNotFound(idFondo) && SinId(fondoRepository.fondos, idFondo)
    {
      match fondoRepository.FindById(idFondo)
      case Some(f) => Success(f)
      case None => Failure(FondoNotFound(idFondo))
    }

    /** Debits the amount, records preference and contact, and appends the new position. */
    method AplicarSuscripcion(cliente: Cliente, fondo: Fondo, request: SuscripcionRequest, fecha: Fecha)
      modifies cliente
      ensures cliente.Estado() == old(cliente.Estado()).(
        saldo := old(cliente.saldo) - request.monto,
        preferenciaNotificacion := Some(request.preferenciaNotificacion),
        contacto := Some(request.contacto),
        fondosActivos := old(cliente.fondosActivos) + [NuevaPosicion(fondo, request.monto, fecha)])
    {
      cliente.saldo := cliente.saldo - request.monto;
      cliente.preferenciaNotificacion := Some(request.preferenciaNotificacion);
      cliente.contacto := Some(request.contacto);
      cliente.fondosActivos := cliente.fondosActivos + [NuevaPosicion(fondo, request.monto, fecha)];
    }

    /** Appends the SUSCRIPCION entry for the request to the client's history. */
    method RegistrarTransaccion(cliente: Cliente, fondo: Fondo, request: SuscripcionRequest, fecha: Fecha, idTransaccion: string)
      modifies cliente
      ensures cliente.Estado() == old(cliente.Estado()).(
        historialTransacciones := old(cliente.historialTransacciones)
          + [Transaccion(idTransaccion, SUSCRIPCION, fondo.nombre, request.monto, fecha)])
    {
      cliente.historialTransacciones := cliente.historialTransacciones
        + [Transaccion(idTransaccion, SUSCRIPCION, fondo.nombre, request.monto, fecha)];
    }
  }
}
