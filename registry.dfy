/**
 * The process-wide factory registry: one cell holding the active Factory, wrapped
 * in a holder value, set to the no-op factory at start-up, read by GetFactory and
 * replaced by SwapFactory, which hands back what it replaced.
 */
module Registry {
  import Loggers
  import Nop

  /** The holder the cell stores; it is replaced as a whole, never updated. */
  datatype StoredFactory = StoredFactory(factory: Loggers.Factory)

  /** What start-up installs. */
  function DefaultFactory(): (f: Loggers.Factory)
    ensures f.NopFactory? && f != Loggers.NilFactory
  {
    Loggers.NopFactory(Nop.NewNopLoggerFactory())
  }

  /** The factory in force after the given sequence of swaps. */
  function Current(swaps: seq<Loggers.Factory>): Loggers.Factory {
    if swaps == [] then DefaultFactory() else swaps[|swaps| - 1]
  }

  /** What each swap of the sequence hands back, in order. */
  function Returns(swaps: seq<Loggers.Factory>): (r: seq<Loggers.Factory>)
    ensures |r| == |swaps|
    decreases |swaps|
  {
    if swaps == [] then [] else
      var before := swaps[..|swaps| - 1];
      Returns(before) + [Current(before)]
  }

  /** The first swap hands back the default; the i-th hands back the argument of the one before. */
  lemma {:induction false} ReturnsAt(swaps: seq<Loggers.Factory>, i: nat)
    requires i < |swaps|
    ensures Returns(swaps)[i] == if i == 0 then DefaultFactory() else swaps[i - 1]
    decreases |swaps|
  {
    var before := swaps[..|swaps| - 1];
    if i < |before| {
      ReturnsAt(before, i);
    }
  }

  /** Swapping `f` in and the returned factory back restores the cell; the second swap returns `f`. */
  lemma SwapBackRestores(swaps: seq<Loggers.Factory>, f: Loggers.Factory)
    ensures Current(swaps + [f, Current(swaps)]) == Current(swaps)
    ensures Returns(swaps + [f, Current(swaps)])[|swaps|] == Current(swaps)
    ensures Returns(swaps + [f, Current(swaps)])[|swaps| + 1] == f
  {
    var all := swaps + [f, Current(swaps)];
    ReturnsAt(all, |swaps|);
    ReturnsAt(all, |swaps| + 1);
    if swaps != [] {
      assert all[|swaps| - 1] == swaps[|swaps| - 1];
    }
  }

  predicate NoneNil(swaps: seq<Loggers.Factory>) {
    forall i :: 0 <= i < |swaps| ==> swaps[i] != Loggers.NilFactory
  }

  /** The cell is non-nil as long as nil was never swapped in; swapping nil in makes it nil. */
  lemma CurrentNilness(swaps: seq<Loggers.Factory>)
    ensures NoneNil(swaps) ==> Current(swaps) != Loggers.NilFactory
    ensures Current(swaps + [Loggers.NilFactory]) == Loggers.NilFactory
  {
  }

  class FactoryStore {
    var stored: StoredFactory
    /** Every factory passed to SwapFactory since start-up, in order. */
    ghost var swaps: seq<Loggers.Factory>
    /** What those calls handed back, in order. */
    ghost var returned: seq<Loggers.Factory>

    ghost predicate Valid()
      reads this
    {
      stored.factory == Current(swaps) && returned == Returns(swaps)
    }

    /** Start-up: the cell holds the no-op factory. */
    constructor ()
      ensures Valid() && swaps == [] && returned == []
      ensures stored == StoredFactory(DefaultFactory())
    {
      stored := StoredFactory(DefaultFactory());
      swaps, returned := [], [];
    }

    method GetFactory() returns (f: Loggers.Factory)
      requires Valid()
      ensures f == stored.factory && f == Current(swaps)
      ensures NoneNil(swaps) ==> f != Loggers.NilFactory
    {
      CurrentNilness(swaps);
      f := stored.factory;
    }

    method SwapFactory(factory: Loggers.Factory) returns (previous: Loggers.Factory)
      requires Valid()
      modifies this
      ensures Valid()
      ensures stored == StoredFactory(factory) && previous == old(stored.factory)
      ensures swaps == old(swaps) + [factory] && returned == old(returned) + [previous]
    {
      previous := stored.factory;
      stored := StoredFactory(factory);
      swaps := swaps + [factory];
      returned := returned + [previous];
      assert swaps[..|swaps| - 1] == old(swaps);
    }
  }

  /**
   * The swap test: swapping in `f` returns the factory in force, a following read
   * sees `f`, and swapping the old one back restores the cell and returns `f`.
   */
  method SwapAndRestore(store: FactoryStore, f: Loggers.Factory) returns (origin: Loggers.Factory, back: Loggers.Factory)
    requires store.Valid()
    modifies store
    ensures store.Valid()
    ensures origin == old(store.stored.factory) && back == f
    ensures store.stored == old(store.stored)
  {
    var before := store.GetFactory();
    origin := store.SwapFactory(f);
    assert origin == before;
    var now := store.GetFactory();
    assert now == f;
    back := store.SwapFactory(origin);
  }
}
