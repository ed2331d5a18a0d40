/**
  Start-up seeding of the fund catalog: the five fixed funds are saved, in one
  saveAll call, only when the store holds no fund at all.
 */
module Inicializacion {
  import opened Modelo
  import opened Catalogo

  /** The five funds the catalog is seeded with, in the order they are saved. */
  function FondosIniciales(): (fs: seq<Fondo>)
    ensures |fs| == 5
    ensures forall i :: 0 <= i < 5 ==> fs[i].id == ["1", "2", "3", "4", "5"][i]
    ensures IdsDistintos(fs)
    ensures forall f :: f in fs ==> (f.categoria == "FPV" || f.categoria == "FIC") && f.montoMinimo > 0
  {
    [ Fondo("1", "FPV", "FPV_BTG_PACTUAL_RECAUDADORA", 75000),
      Fondo("2", "FPV", "FPV_BTG_PACTUAL_ECOPETROL", 125000),
      Fondo("3", "FIC", "DEUDAPRIVADA", 50000),
      Fondo("4", "FIC", "FDO-ACCIONES", 250000),
      Fondo("5", "FPV", "FPV_BTG_PACTUAL_DINAMICA", 100000) ]
  }

  /** The catalog after one start-up run, as a function of the catalog before it. */
  function Sembrar(fs: seq<Fondo>): seq<Fondo> {
    if |fs| == 0 then UpsertAll(fs, FondosIniciales()) else fs
  }

  /** Seeding an empty store leaves exactly the five funds, in list order; a non-empty store is left alone. */
  lemma SembrarResultado(fs: seq<Fondo>)
    ensures |fs| == 0 ==> Sembrar(fs) == FondosIniciales()
    ensures |fs| != 0 ==> Sembrar(fs) == fs
  {
    if |fs| == 0 {
      UpsertAllNuevos(fs, FondosIniciales());
      assert fs + FondosIniciales() == FondosIniciales();
    }
  }

  /** Running the seeding twice gives the same catalog as running it once. */
  lemma SembrarIdempotente(fs: seq<Fondo>)
    ensures Sembrar(Sembrar(fs)) == Sembrar(fs)
  {
    SembrarResultado(fs);
    SembrarResultado(Sembrar(fs));
  }

  /** Seeding keeps the store's ids distinct and every minimum positive. */
  lemma SembrarPreserva(fs: seq<Fondo>)
    requires IdsDistintos(fs) && MinimosPositivos(fs)
    ensures IdsDistintos(Sembrar(fs)) && MinimosPositivos(Sembrar(fs))
  {
    SembrarResultado(fs);
  }

  class DataInitializationService {
    const fondoRepository: FondoRepository

    constructor (fondoRepository: FondoRepository)
      ensures this.fondoRepository == fondoRepository
    {
      this.fondoRepository := fondoRepository;
    }

    /** Start-up hook: seed the catalog only if it is empty. */
    method Run()
      requires fondoRepository.Valid()
      modifies fondoRepository
      ensures fondoRepository.Valid()
      ensures fondoRepository.fondos == Sembrar(old(fondoRepository.fondos))
    {
      var n := fondoRepository.Count();
      if n == 0 {
        InicializarFondos();
      }
    }

    /** Saves the five fixed funds in one call. */
    method InicializarFondos()
      requires fondoRepository.Valid()
      modifies fondoRepository
      ensures fondoRepository.Valid()
      ensures fondoRepository.fondos == UpsertAll(old(fondoRepository.fondos), FondosIniciales())
    {
      fondoRepository.SaveAll(FondosIniciales());
    }
  }
}
