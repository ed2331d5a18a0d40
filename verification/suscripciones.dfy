/**
  The subscription engine on account values: the checks a subscription goes
  through, and what a successful subscribe or cancel does to the account.
  The service class applies these same steps to the stored client in place.
 */
module Suscripciones {
  import opened Wrappers
  import opened Modelo

  /** Every catalog entry is keyed by its own fund id. */
  predicate ClavesConsistentes(cat: map<string, Fondo>) {
    forall k :: k in cat ==> cat[k].id == k
  }

  /** A catalog keyed by fund id, with a positive minimum for every fund. */
  predicate CatalogoValido(cat: map<string, Fondo>) {
    && ClavesConsistentes(cat)
    && forall k :: k in cat ==> cat[k].montoMinimo > 0
  }

  /** Whether any held position is in the given fund. */
  function Suscrito(s: seq<FondoActivo>, idFondo: string): (r: bool)
    ensures r <==> exists i :: 0 <= i < |s| && s[i].idFondo == idFondo
  {
    if s == [] then false
    else if s[0].idFondo == idFondo then true
    else
      var r := Suscrito(s[1..], idFondo);
      assert r ==> exists i :: 0 <= i < |s| && s[i].idFondo == idFondo by {
        if r {
          var i :| 0 <= i < |s[1..]| && s[1..][i].idFondo == idFondo;
          assert s[i + 1] == s[1..][i];
        }
      }
      assert (exists i :: 0 <= i < |s| && s[i].idFondo == idFondo) ==> r by {
        if exists i :: 0 <= i < |s| && s[i].idFondo == idFondo {
          var i :| 0 <= i < |s| && s[i].idFondo == idFondo;
          assert i > 0 && s[1..][i - 1] == s[i];
        }
      }
      r
  }

  /** Index of the first held position in the given fund, if there is one. */
  function BuscarActivo(s: seq<FondoActivo>, idFondo: string): (r: Option<nat>)
    ensures r.Some? ==> r.value < |s| && s[r.value].idFondo == idFondo
    ensures r.Some? ==> forall j :: 0 <= j < r.value ==> s[j].idFondo != idFondo
    ensures r.None? ==> forall j :: 0 <= j < |s| ==> s[j].idFondo != idFondo
  {
    if s == [] then None
    else if s[0].idFondo == idFondo then Some(0)
    else match BuscarActivo(s[1..], idFondo)
      case None => None
      case Some(k) => Some(k + 1)
  }

  /** Removal of the first element equal to x; the list is unchanged when x does not occur. */
  function RemoverPrimero<T(==)>(s: seq<T>, x: T): (r: seq<T>)
    ensures x in s ==> |r| == |s| - 1
    ensures x !in s ==> r == s
  {
    if s == [] then []
    else if s[0] == x then s[1..]
    else
      var t := RemoverPrimero(s[1..], x);
      assert s == [s[0]] + s[1..];
      [s[0]] + t
  }

  /** Removal takes away exactly one copy of x and keeps every other element. */
  lemma {:induction false} RemoverPrimeroMultiset<T>(s: seq<T>, x: T)
    requires x in s
    ensures multiset(RemoverPrimero(s, x)) == multiset(s) - multiset{x}
  {
    assert s == [s[0]] + s[1..];
    if s[0] != x {
      RemoverPrimeroMultiset(s[1..], x);
    }
  }

  /** When s[k] does not occur before index k, removing it removes index k. */
  lemma {:induction false} RemoverPrimeroEnIndice<T>(s: seq<T>, k: int)
    requires 0 <= k < |s|
    requires s[k] !in s[..k]
    ensures RemoverPrimero(s, s[k]) == s[..k] + s[k+1..]
  {
    var x := s[k];
    if k == 0 {
      assert s[..0] + s[1..] == s[1..];
    } else {
      var t := s[1..];
      assert s[0] in s[..k];
      assert t[k - 1] == x;
      assert t[..k - 1] == s[..k][1..];
      RemoverPrimeroEnIndice(t, k - 1);
      calc {
        RemoverPrimero(s, x);
        [s[0]] + RemoverPrimero(t, x);
        [s[0]] + (t[..k - 1] + t[k..]);
        { assert s[..k] == [s[0]] + t[..k - 1]; assert s[k+1..] == t[k..]; }
        s[..k] + s[k+1..];
      }
    }
  }

  /** The checks run, in order, before a subscription is applied; None when all pass. */
  function ValidarSuscripcion(saldo: int, activos: seq<FondoActivo>, fondo: Fondo, monto: int): (r: Option<Error>)
    ensures r.None? <==> fondo.montoMinimo <= monto <= saldo && !Suscrito(activos, fondo.id)
    ensures monto < fondo.montoMinimo ==> r == Some(MontoMinimo(fondo.nombre, fondo.montoMinimo))
    ensures fondo.montoMinimo <= monto && saldo < monto ==> r == Some(SaldoInsuficiente(fondo.nombre))
    ensures fondo.montoMinimo <= monto <= saldo && Suscrito(activos, fondo.id) ==> r == Some(YaSuscrito)
  {
    if monto < fondo.montoMinimo then Some(MontoMinimo(fondo.nombre, fondo.montoMinimo))
    else if saldo < monto then Some(SaldoInsuficiente(fondo.nombre))
    else if Suscrito(activos, fondo.id) then Some(YaSuscrito)
    else None
  }

  /** The position a successful subscription adds. */
  function NuevaPosicion(fondo: Fondo, monto: int, fecha: Fecha): FondoActivo {
    FondoActivo(fondo.id, fondo.nombre, monto, fecha)
  }

  /** A subscription of the given request against the catalog and the account. */
  function Suscribir(cat: map<string, Fondo>, c: Cuenta, req: SuscripcionRequest, fechaPosicion: Fecha, fechaTransaccion: Fecha, idTransaccion: string)
    : Result<Cuenta, Error>
  {
    if req.idFondo !in cat then Failure(FondoNotFound(req.idFondo))
    else
      var fondo := cat[req.idFondo];
      match ValidarSuscripcion(c.saldo, c.fondosActivos, fondo, req.monto)
      case Some(e) => Failure(e)
      case None =>
        Success(c.(
          saldo := c.saldo - req.monto,
          preferenciaNotificacion := Some(req.preferenciaNotificacion),
          contacto := Some(req.contacto),
          fondosActivos := c.fondosActivos + [NuevaPosicion(fondo, req.monto, fechaPosicion)],
          historialTransacciones := c.historialTransacciones
            + [Transaccion(idTransaccion, SUSCRIPCION, fondo.nombre, req.monto, fechaTransaccion)]))
  }

  /** A cancellation of the position held in the given fund. */
  function Cancelar(cat: map<string, Fondo>, c: Cuenta, idFondo: string, fecha: Fecha, idTransaccion: string)
    : Result<Cuenta, Error>
  {
    match BuscarActivo(c.fondosActivos, idFondo)
    case None => Failure(SuscripcionNotFound)
    case Some(k) =>
      if idFondo !in cat then Failure(FondoNotFound(idFondo))
      else
        var activo := c.fondosActivos[k];
        Success(c.(
          saldo := c.saldo + activo.monto,
          fondosActivos := RemoverPrimero(c.fondosActivos, activo),
          historialTransacciones := c.historialTransacciones
            + [Transaccion(idTransaccion, CANCELACION, cat[idFondo].nombre, activo.monto, fecha)]))
  }

  /**
    Which outcome a subscription has: the fund must exist, then the amount must
    reach its minimum, then the balance must cover it, then the fund must not
    already be held; it succeeds exactly when all four hold.
   */
  lemma SuscribirResultado(cat: map<string, Fondo>, c: Cuenta, req: SuscripcionRequest, fechaPosicion: Fecha, fechaTransaccion: Fecha, idTransaccion: string)
    ensures var r := Suscribir(cat, c, req, fechaPosicion, fechaTransaccion, idTransaccion);
      && (req.idFondo !in cat ==> r == Failure(FondoNotFound(req.idFondo)))
      && (req.idFondo in cat ==>
            var f := cat[req.idFondo];
            && (req.monto < f.montoMinimo ==> r == Failure(MontoMinimo(f.nombre, f.montoMinimo)))
            && (f.montoMinimo <= req.monto && c.saldo < req.monto ==> r == Failure(SaldoInsuficiente(f.nombre)))
            && (f.montoMinimo <= req.monto <= c.saldo && Suscrito(c.fondosActivos, f.id) ==> r == Failure(YaSuscrito))
            && (r.Success? <==> f.montoMinimo <= req.monto <= c.saldo && !Suscrito(c.fondosActivos, f.id)))
  {
  }

  /**
    A successful subscription debits exactly the amount, appends exactly one
    position carrying the fund id, name and amount, overwrites preference and
    contact, appends exactly one SUSCRIPCION entry and keeps earlier history;
    balance plus held amounts is unchanged.
   */
  lemma SuscribirExito(cat: map<string, Fondo>, c: Cuenta, req: SuscripcionRequest, fechaPosicion: Fecha, fechaTransaccion: Fecha, idTransaccion: string)
    requires ClavesConsistentes(cat)
    requires Suscribir(cat, c, req, fechaPosicion, fechaTransaccion, idTransaccion).Success?
    ensures var c' := Suscribir(cat, c, req, fechaPosicion, fechaTransaccion, idTransaccion).value;
      && req.idFondo in cat
      && c'.id == c.id
      && c'.saldo == c.saldo - req.monto
      && c'.fondosActivos == c.fondosActivos + [FondoActivo(req.idFondo, cat[req.idFondo].nombre, req.monto, fechaPosicion)]
      && c'.preferenciaNotificacion == Some(req.preferenciaNotificacion)
      && c'.contacto == Some(req.contacto)
      && c'.historialTransacciones[..|c.historialTransacciones|] == c.historialTransacciones
      && c'.historialTransacciones[|c.historialTransacciones|..]
         == [Transaccion(idTransaccion, SUSCRIPCION, cat[req.idFondo].nombre, req.monto, fechaTransaccion)]
      && Total(c') == Total(c)
  {
    var c' := Suscribir(cat, c, req, fechaPosicion, fechaTransaccion, idTransaccion).value;
    SumaMontosConcat(c.fondosActivos, [NuevaPosicion(cat[req.idFondo], req.monto, fechaPosicion)]);
    assert SumaMontos([NuevaPosicion(cat[req.idFondo], req.monto, fechaPosicion)]) == req.monto;
  }

  /** Subscribing keeps the account invariant: balance non-negative, one position per fund, positive amounts. */
  lemma SuscribirPreservaInvariante(cat: map<string, Fondo>, c: Cuenta, req: SuscripcionRequest, fechaPosicion: Fecha, fechaTransaccion: Fecha, idTransaccion: string)
    requires CatalogoValido(cat) && Invariante(c)
    requires Suscribir(cat, c, req, fechaPosicion, fechaTransaccion, idTransaccion).Success?
    ensures Invariante(Suscribir(cat, c, req, fechaPosicion, fechaTransaccion, idTransaccion).value)
  {
    var s := c.fondosActivos;
    var s' := Suscribir(cat, c, req, fechaPosicion, fechaTransaccion, idTransaccion).value.fondosActivos;
    assert !Suscrito(s, req.idFondo);
    forall i, j | 0 <= i < j < |s'| ensures s'[i].idFondo != s'[j].idFondo {
      if j == |s| {
        assert s'[i] == s[i];
      } else {
        assert s'[i] == s[i] && s'[j] == s[j];
      }
    }
  }

  /**
    Cancelling fails with SuscripcionNotFound when no position is in the fund,
    then with FondoNotFound when the fund has left the catalog; it succeeds
    exactly when both are present.
   */
  lemma CancelarResultado(cat: map<string, Fondo>, c: Cuenta, idFondo: string, fecha: Fecha, idTransaccion: string)
    ensures var r := Cancelar(cat, c, idFondo, fecha, idTransaccion);
      && (!Suscrito(c.fondosActivos, idFondo) ==> r == Failure(SuscripcionNotFound))
      && (Suscrito(c.fondosActivos, idFondo) && idFondo !in cat ==> r == Failure(FondoNotFound(idFondo)))
      && (r.Success? <==> Suscrito(c.fondosActivos, idFondo) && idFondo in cat)
  {
  }

  /**
    A successful cancel of the first position held in the fund credits its
    amount, removes exactly that position, appends one CANCELACION entry with
    the catalog name, and keeps balance plus held amounts unchanged.
   */
  lemma CancelarExito(cat: map<string, Fondo>, c: Cuenta, idFondo: string, fecha: Fecha, idTransaccion: string)
    requires Suscrito(c.fondosActivos, idFondo) && idFondo in cat
    ensures BuscarActivo(c.fondosActivos, idFondo).Some?
    ensures var k := BuscarActivo(c.fondosActivos, idFondo).value;
      var r := Cancelar(cat, c, idFondo, fecha, idTransaccion);
      var m := c.fondosActivos[k].monto;
      && r.Success?
      && r.value == c.(
           saldo := c.saldo + m,
           fondosActivos := c.fondosActivos[..k] + c.fondosActivos[k+1..],
           historialTransacciones := c.historialTransacciones
             + [Transaccion(idTransaccion, CANCELACION, cat[idFondo].nombre, m, fecha)])
      && Total(r.value) == Total(c)
  {
    var s := c.fondosActivos;
    var k := BuscarActivo(s, idFondo).value;
    assert s[k] !in s[..k] by {
      forall j | 0 <= j < k ensures s[..k][j] != s[k] {
        assert s[j].idFondo != idFondo;
      }
    }
    RemoverPrimeroEnIndice(s, k);
    SumaMontosSinIndice(s, k);
  }

  /** Cancelling keeps the account invariant. */
  lemma CancelarPreservaInvariante(cat: map<string, Fondo>, c: Cuenta, idFondo: string, fecha: Fecha, idTransaccion: string)
    requires Invariante(c)
    requires Cancelar(cat, c, idFondo, fecha, idTransaccion).Success?
    ensures Invariante(Cancelar(cat, c, idFondo, fecha, idTransaccion).value)
  {
    var s := c.fondosActivos;
    var k := BuscarActivo(s, idFondo).value;
    CancelarExito(cat, c, idFondo, fecha, idTransaccion);
    UnoPorFondoSinIndice(s, k);
    var t := s[..k] + s[k+1..];
    forall i | 0 <= i < |t| ensures t[i].monto > 0 {
      assert t[i] == if i < k then s[i] else s[i + 1];
    }
  }

  /**
    Subscribing and then cancelling the same fund gives back the balance and
    the positions held before; the history keeps both entries and the
    notification preference and contact stay as the subscription set them.
   */
  lemma SuscribirLuegoCancelar(cat: map<string, Fondo>, c: Cuenta, req: SuscripcionRequest,
                                fechaPosicion: Fecha, fechaSuscripcion: Fecha, id1: string,
                                fechaCancelacion: Fecha, id2: string)
    requires ClavesConsistentes(cat)
    requires Suscribir(cat, c, req, fechaPosicion, fechaSuscripcion, id1).Success?
    ensures var c1 := Suscribir(cat, c, req, fechaPosicion, fechaSuscripcion, id1).value;
      var r := Cancelar(cat, c1, req.idFondo, fechaCancelacion, id2);
      && r.Success?
      && r.value.saldo == c.saldo
      && r.value.fondosActivos == c.fondosActivos
      && r.value.preferenciaNotificacion == Some(req.preferenciaNotificacion)
      && r.value.contacto == Some(req.contacto)
      && r.value.historialTransacciones == c.historialTransacciones + [
           Transaccion(id1, SUSCRIPCION, cat[req.idFondo].nombre, req.monto, fechaSuscripcion),
           Transaccion(id2, CANCELACION, cat[req.idFondo].nombre, req.monto, fechaCancelacion)]
  {
    var c1 := Suscribir(cat, c, req, fechaPosicion, fechaSuscripcion, id1).value;
    var s := c.fondosActivos;
    var s1 := c1.fondosActivos;
    SuscribirExito(cat, c, req, fechaPosicion, fechaSuscripcion, id1);
    var n := |s|;
    assert !Suscrito(s, req.idFondo);
    var b := BuscarActivo(s1, req.idFondo);
    assert s1[n].idFondo == req.idFondo;
    forall j | 0 <= j < n ensures s1[j].idFondo != req.idFondo {
      assert s1[j] == s[j];
    }
    assert b == Some(n);
    assert s1[..n] == s;
    assert s1[n] !in s by {
      forall j | 0 <= j < n ensures s[j] != s1[n] {
        assert s1[j] == s[j];
      }
    }
    RemoverPrimeroEnIndice(s1, n);
    assert s1[..n] + s1[n+1..] == s;
  }

  /**
    The service test's subscription: balance 500000, fund "1" with minimum
    75000, subscribing 100000 leaves 400000 and one position; 10000 is below
    the minimum, 800000 exceeds the balance, and an absent fund is not found.
   */
  lemma EscenariosSuscripcion()
    ensures var cat := map["1" := Fondo("1", "FPV", "FPV_BTG_PACTUAL_RECAUDADORA", 75000)];
      var c := Cuenta(CLIENTE_ID, 500000, [], None, None, []);
      var ok := Suscribir(cat, c, SuscripcionRequest("1", 100000, "EMAIL", "carolinapasuy@hotmail..com"), 0, 0, "t1");
      && ok.Success? && ok.value.saldo == 400000 && |ok.value.fondosActivos| == 1
      && Suscribir(cat, c, SuscripcionRequest("1", 10000, "EMAIL", "x"), 0, 0, "t1")
         == Failure(MontoMinimo("FPV_BTG_PACTUAL_RECAUDADORA", 75000))
      && Suscribir(cat, c, SuscripcionRequest("1", 800000, "EMAIL", "x"), 0, 0, "t1")
         == Failure(SaldoInsuficiente("FPV_BTG_PACTUAL_RECAUDADORA"))
      && Suscribir(map[], c, SuscripcionRequest("1", 100000, "EMAIL", "x"), 0, 0, "t1")
         == Failure(FondoNotFound("1"))
  {
  }

  /**
    The service test's cancellation: a client with balance 500000 holding
    100000 in fund "1" ends with 600000 and no positions; without the position
    the cancel is SuscripcionNotFound, without the fund it is FondoNotFound.
   */
  lemma EscenariosCancelacion()
    ensures var cat := map["1" := Fondo("1", "FPV", "FPV_BTG_PACTUAL_RECAUDADORA", 75000)];
      var p := FondoActivo("1", "FPV_BTG_PACTUAL_RECAUDADORA", 100000, 0);
      var c := Cuenta(CLIENTE_ID, 500000, [p], None, None, []);
      var ok := Cancelar(cat, c, "1", 1, "t2");
      && ok.Success? && ok.value.saldo == 600000 && ok.value.fondosActivos == []
      && Cancelar(cat, c.(fondosActivos := []), "1", 1, "t2") == Failure(SuscripcionNotFound)
      && Cancelar(map[], c, "1", 1, "t2") == Failure(FondoNotFound("1"))
  {
  }
}
