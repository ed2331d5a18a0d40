/**
  The fund catalog store. Funds are kept in the order they were stored; a fund
  is looked up by its id. Saving a fund whose id is already stored replaces
  it in place, saving a new one appends it.
 */
module Catalogo {
  import opened Wrappers
  import opened Modelo

  /** No two stored funds share an id. */
  predicate IdsDistintos(fs: seq<Fondo>) {
    forall i, j :: 0 <= i < j < |fs| ==> fs[i].id != fs[j].id
  }

  /** Every fund asks for a positive minimum amount. */
  predicate MinimosPositivos(fs: seq<Fondo>) {
    forall f :: f in fs ==> f.montoMinimo > 0
  }

  /** No fund in fs carries the given id. */
  predicate SinId(fs: seq<Fondo>, id: string) {
    forall g :: g in fs ==> g.id != id
  }

  /** Saving one fund: replace the stored fund with the same id, or append. */
  function Upsert(fs: seq<Fondo>, f: Fondo): seq<Fondo> {
    if fs == [] then [f]
    else if fs[0].id == f.id then [f] + fs[1..]
    else [fs[0]] + Upsert(fs[1..], f)
  }

  /** Saving a list of funds, one after another in list order. */
  function UpsertAll(fs: seq<Fondo>, ns: seq<Fondo>): seq<Fondo>
    decreases |ns|
  {
    if ns == [] then fs else UpsertAll(Upsert(fs, ns[0]), ns[1..])
  }

  lemma DistintosCons(x: Fondo, t: seq<Fondo>)
    requires IdsDistintos(t) && SinId(t, x.id)
    ensures IdsDistintos([x] + t)
  {
    var s := [x] + t;
    forall i, j | 0 <= i < j < |s| ensures s[i].id != s[j].id {
      assert s[j] == t[j - 1];
      if i > 0 { assert s[i] == t[i - 1]; } else { assert t[j - 1] in t; }
    }
  }

  /** Saving a fund whose id is not stored appends it at the end. */
  lemma {:induction false} UpsertNuevo(fs: seq<Fondo>, f: Fondo)
    requires SinId(fs, f.id)
    ensures Upsert(fs, f) == fs + [f]
  {
    if fs != [] {
      assert fs[0] in fs;
      UpsertNuevo(fs[1..], f);
      assert fs == [fs[0]] + fs[1..];
    }
  }

  /** After saving f, every stored fund is f or was stored before. */
  lemma {:induction false} UpsertMiembros(fs: seq<Fondo>, f: Fondo)
    ensures f in Upsert(fs, f)
    ensures forall g :: g in Upsert(fs, f) ==> g == f || g in fs
  {
    if fs != [] && fs[0].id != f.id {
      UpsertMiembros(fs[1..], f);
    }
  }

  /** Saving a fund keeps ids distinct. */
  lemma {:induction false} UpsertDistintos(fs: seq<Fondo>, f: Fondo)
    requires IdsDistintos(fs)
    ensures IdsDistintos(Upsert(fs, f))
  {
    if fs == [] {
    } else if fs[0].id == f.id {
      assert SinId(fs[1..], f.id) by {
        forall g | g in fs[1..] ensures g.id != f.id {
          var j :| 0 <= j < |fs[1..]| && fs[1..][j] == g;
          assert fs[j + 1] == g;
        }
      }
      DistintosCons(f, fs[1..]);
    } else {
      var t := Upsert(fs[1..], f);
      UpsertDistintos(fs[1..], f);
      UpsertMiembros(fs[1..], f);
      assert SinId(t, fs[0].id) by {
        forall g | g in t ensures g.id != fs[0].id {
          if g != f {
            var j :| 0 <= j < |fs[1..]| && fs[1..][j] == g;
            assert fs[j + 1] == g;
          }
        }
      }
      DistintosCons(fs[0], t);
    }
  }

  /** Saving a list keeps ids distinct, and stores nothing but old funds and saved ones. */
  lemma {:induction false} UpsertAllPreserva(fs: seq<Fondo>, ns: seq<Fondo>)
    requires IdsDistintos(fs)
    ensures IdsDistintos(UpsertAll(fs, ns))
    ensures forall g :: g in UpsertAll(fs, ns) ==> g in fs || g in ns
    decreases |ns|
  {
    if ns != [] {
      UpsertDistintos(fs, ns[0]);
      UpsertMiembros(fs, ns[0]);
      UpsertAllPreserva(Upsert(fs, ns[0]), ns[1..]);
      assert forall g :: g in ns[1..] ==> g in ns;
    }
  }

  /** Saving funds with fresh, distinct ids appends them in order. */
  lemma {:induction false} UpsertAllNuevos(fs: seq<Fondo>, ns: seq<Fondo>)
    requires IdsDistintos(ns)
    requires forall g :: g in ns ==> SinId(fs, g.id)
    ensures UpsertAll(fs, ns) == fs + ns
    decreases |ns|
  {
    if ns != [] {
      assert ns[0] in ns;
      UpsertNuevo(fs, ns[0]);
      var fs' := fs + [ns[0]];
      forall g | g in ns[1..] ensures SinId(fs', g.id) {
        var j :| 0 <= j < |ns[1..]| && ns[1..][j] == g;
        assert ns[j + 1] == g;
        assert g in ns;
      }
      UpsertAllNuevos(fs', ns[1..]);
      assert fs' + ns[1..] == fs + ns;
    }
  }

  /** The fund store, updated in place by saveAll. */
  class FondoRepository {
    var fondos: seq<Fondo>

    ghost predicate Valid()
      reads this
    {
      IdsDistintos(fondos)
    }

    constructor ()
      ensures Valid() && fondos == []
    {
      fondos := [];
    }

    /** The catalog viewed as a map from fund id to fund. */
    function PorId(): (m: map<string, Fondo>)
      reads this
      requires Valid()
      ensures forall id :: id in m ==> m[id].id == id && m[id] in fondos
      ensures forall f :: f in fondos ==> f.id in m && m[f.id] == f
    {
      map f | f in fondos :: f.id := f
    }

    /** The stored fund with the given id, if any. */
    function FindById(id: string): (r: Option<Fondo>)
      reads this
      requires Valid()
      ensures r.Some? ==> r.value in fondos && r.value.id == id
      ensures r.None? ==> forall f :: f in fondos ==> f.id != id
    {
      var m := PorId();
      if id in m then Some(m[id]) else None
    }

    method Count() returns (n: nat)
      ensures n == |fondos|
    {
      n := |fondos|;
    }

    /** All stored funds, in store order. */
    method FindAll() returns (fs: seq<Fondo>)
      ensures fs == fondos
    {
      fs := fondos;
    }

    method SaveAll(ns: seq<Fondo>)
      requires Valid()
      modifies this
      ensures Valid()
      ensures fondos == UpsertAll(old(fondos), ns)
    {
      UpsertAllPreserva(fondos, ns);
      fondos := UpsertAll(fondos, ns);
    }
  }
}
