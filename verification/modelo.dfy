/**
  The records of the fund subscription engine: catalog funds, the positions a
  client holds, the transactions in the client's history and the client
  account itself. Amounts are whole Colombian pesos (COP).
 */
module Modelo {
  import opened Wrappers

  /** The one client the system manages. */
  const CLIENTE_ID: string := "CAROLINA-PASUY"

  /** Balance a newly created account starts with. */
  const SALDO_INICIAL: int := 500000

  /** A clock reading supplied by the caller (the service reads the wall clock). */
  type Fecha = int

  /** A catalog fund; immutable once seeded. */
  datatype Fondo = Fondo(id: string, categoria: string, nombre: string, montoMinimo: int)

  /** A position held by the client: fund id, a snapshot of the fund name, the amount paid in. */
  datatype FondoActivo = FondoActivo(idFondo: string, nombre: string, monto: int, fechaSuscripcion: Fecha)

  datatype TipoTransaccion = SUSCRIPCION | CANCELACION

  /** One entry of the append-only history. */
  datatype Transaccion = Transaccion(idTransaccion: string, tipo: TipoTransaccion, fondo: string, monto: int, fecha: Fecha)

  /** The body of a subscription request. */
  datatype SuscripcionRequest = SuscripcionRequest(idFondo: string, monto: int, preferenciaNotificacion: string, contacto: string)

  /** The failures the engine reports, one per exception it throws. */
  datatype Error =
    | FondoNotFound(idFondo: string)
    | MontoMinimo(nombreFondo: string, montoMinimo: int)
    | SaldoInsuficiente(nombreFondo: string)
    | YaSuscrito
    | SuscripcionNotFound
    | ClienteNotFound

  /** The value of a client account at one moment. */
  datatype Cuenta = Cuenta(
    id: string,
    saldo: int,
    fondosActivos: seq<FondoActivo>,
    preferenciaNotificacion: Option<string>,
    contacto: Option<string>,
    historialTransacciones: seq<Transaccion>)

  /** The account a client is created with: fixed id, initial balance, nothing held, no history. */
  function CuentaInicial(): Cuenta {
    Cuenta(CLIENTE_ID, SALDO_INICIAL, [], None, None, [])
  }

  /** Sum of the amounts held in the given positions. */
  function SumaMontos(s: seq<FondoActivo>): int {
    if s == [] then 0 else s[0].monto + SumaMontos(s[1..])
  }

  /** Balance plus everything held in funds: what subscribe and cancel conserve. */
  function Total(c: Cuenta): int {
    c.saldo + SumaMontos(c.fondosActivos)
  }

  /** At most one position per fund id. */
  predicate UnoPorFondo(s: seq<FondoActivo>) {
    forall i, j :: 0 <= i < j < |s| ==> s[i].idFondo != s[j].idFondo
  }

  /** The account invariant the engine maintains. */
  predicate Invariante(c: Cuenta) {
    && c.saldo >= 0
    && UnoPorFondo(c.fondosActivos)
    && forall i :: 0 <= i < |c.fondosActivos| ==> c.fondosActivos[i].monto > 0
  }

  lemma {:induction false} SumaMontosConcat(a: seq<FondoActivo>, b: seq<FondoActivo>)
    ensures SumaMontos(a + b) == SumaMontos(a) + SumaMontos(b)
  {
    if a == [] {
      assert a + b == b;
    } else {
      assert (a + b)[1..] == a[1..] + b;
      SumaMontosConcat(a[1..], b);
    }
  }

  /** Removing the position at index k lowers the held sum by exactly that position's amount. */
  lemma SumaMontosSinIndice(s: seq<FondoActivo>, k: int)
    requires 0 <= k < |s|
    ensures SumaMontos(s[..k] + s[k+1..]) == SumaMontos(s) - s[k].monto
  {
    assert s == s[..k] + ([s[k]] + s[k+1..]);
    SumaMontosConcat(s[..k], [s[k]] + s[k+1..]);
    SumaMontosConcat([s[k]], s[k+1..]);
    SumaMontosConcat(s[..k], s[k+1..]);
    assert SumaMontos([s[k]]) == s[k].monto by {
      assert [s[k]][1..] == [];
    }
  }

  /** Removing one position keeps the one-position-per-fund property. */
  lemma UnoPorFondoSinIndice(s: seq<FondoActivo>, k: int)
    requires 0 <= k < |s| && UnoPorFondo(s)
    ensures UnoPorFondo(s[..k] + s[k+1..])
  {
    var t := s[..k] + s[k+1..];
    forall i, j | 0 <= i < j < |t|
      ensures t[i].idFondo != t[j].idFondo
    {
      var i' := if i < k then i else i + 1;
      var j' := if j < k then j else j + 1;
      assert t[i] == s[i'] && t[j] == s[j'];
    }
  }

  /** The client account, updated in place by the service. */
  class Cliente {
    var id: string
    var saldo: int
    var fondosActivos: seq<FondoActivo>
    var preferenciaNotificacion: Option<string>
    var contacto: Option<string>
    var historialTransacciones: seq<Transaccion>

    /** The account's current value. */
    function Estado(): Cuenta
      reads this
    {
      Cuenta(id, saldo, fondosActivos, preferenciaNotificacion, contacto, historialTransacciones)
    }

    ghost predicate Valid()
      reads this
    {
      Invariante(Estado())
    }

    /** A client with the given id and balance, no positions, no history and no contact data. */
    constructor (id: string, saldo: int)
      ensures Estado() == Cuenta(id, saldo, [], None, None, [])
    {
      this.id := id;
      this.saldo := saldo;
      fondosActivos := [];
      preferenciaNotificacion := None;
      contacto := None;
      historialTransacciones := [];
    }
  }
}
