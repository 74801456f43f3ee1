/**
 * The registries of SimpleCoinTrading.Core/Algorithms/IAlgorithmFactory.cs:
 * the factory registry (a case-insensitive dictionary of factories by key),
 * the parameter registry (parameters by algorithm id), and the list of
 * configured algorithms.
 *
 * The factory registry never changes after construction, so it is a value;
 * the parameter maps' values (`object`) are a type parameter.
 */
module AlgorithmRegistries {
  import opened Common

  /** A factory as the registry sees it: its key, and an identity (what it creates is not modelled). */
  datatype AlgorithmFactory = AlgorithmFactory(key: string, id: nat)

  /** The dictionary, and its keys in the order they were added (the order Keys enumerates them in). */
  datatype FactoryRegistry = FactoryRegistry(factories: CIMap<AlgorithmFactory>, order: seq<string>)

  function DuplicateKey(key: string): string
  {
    "ArgumentException: An item with the same key has already been added. Key: " + key
  }

  /**
   * The constructor: ToDictionary by key, ignoring case, in sequence order;
   * the first factory whose key repeats an earlier one (ignoring case)
   * throws.
   */
  function Build(factories: seq<AlgorithmFactory>): Outcome<FactoryRegistry>
  {
    if factories == [] then Returned(FactoryRegistry(map[], []))
    else
      var f := factories[|factories| - 1];
      match Build(factories[..|factories| - 1])
      case Threw(e) => Threw(e)
      case Returned(reg) =>
        if Fold(f.key) in reg.factories then Threw(DuplicateKey(f.key))
        else Returned(FactoryRegistry(reg.factories[Fold(f.key) := Entry(f.key, f)], reg.order + [f.key]))
  }

  /** No two factories share a key, ignoring case. */
  predicate DistinctKeys(factories: seq<AlgorithmFactory>)
  {
    forall i, j :: 0 <= i < j < |factories| ==> Fold(factories[i].key) != Fold(factories[j].key)
  }

  function Keys(factories: seq<AlgorithmFactory>): (r: seq<string>)
    ensures |r| == |factories|
  {
    seq(|factories|, i requires 0 <= i < |factories| => factories[i].key)
  }

  /** Get: the factory filed under the key, ignoring case; an unknown key throws. */
  function Get(reg: FactoryRegistry, key: string): Outcome<AlgorithmFactory>
  {
    match CIFind(reg.factories, key)
    case Some(f) => Returned(f)
    case None => Threw("InvalidOperationException: Unknown algorithm key: " + key)
  }

  /** ListKeys: the keys as they were added. */
  function ListKeys(reg: FactoryRegistry): seq<string>
  {
    reg.order
  }

  /** Construction succeeds exactly when the keys are distinct ignoring case. */
  lemma {:induction false} BuildSucceeds(factories: seq<AlgorithmFactory>)
    ensures Build(factories).Returned? <==> DistinctKeys(factories)
    ensures Build(factories).Returned? ==> Build(factories).value.factories.Keys == FoldedKeys(factories)
    decreases |factories|
  {
    if factories != [] {
      var n := |factories| - 1;
      var prefix := factories[..n];
      var key := Fold(factories[n].key);
      BuildSucceeds(prefix);
      KeysSnoc(factories);
      if Build(prefix).Returned? {
        var reg := Build(prefix).value;
        assert Build(factories) == if key in reg.factories then Threw(DuplicateKey(factories[n].key))
          else Returned(FactoryRegistry(reg.factories[key := Entry(factories[n].key, factories[n])], reg.order + [factories[n].key]));
      }
    }
  }

  /** The last factory's key is new exactly when the keys stay distinct; the folded keys gain it. */
  lemma KeysSnoc(factories: seq<AlgorithmFactory>)
    requires factories != []
    ensures var n := |factories| - 1;
      && (DistinctKeys(factories) <==> DistinctKeys(factories[..n]) && Fold(factories[n].key) !in FoldedKeys(factories[..n]))
      && FoldedKeys(factories) == FoldedKeys(factories[..n]) + {Fold(factories[n].key)}
  {
    var n := |factories| - 1;
    var prefix := factories[..n];
    assert forall i :: 0 <= i < n ==> prefix[i] == factories[i];
    if DistinctKeys(prefix) && Fold(factories[n].key) !in FoldedKeys(prefix) {
      forall i, j | 0 <= i < j < |factories|
        ensures Fold(factories[i].key) != Fold(factories[j].key)
      {
        if j == n {
          assert Fold(prefix[i].key) in FoldedKeys(prefix);
        }
      }
    }
  }

  /** The keys of the factories, folded. */
  function FoldedKeys(factories: seq<AlgorithmFactory>): set<string>
  {
    set i | 0 <= i < |factories| :: Fold(factories[i].key)
  }

  /**
   * A registry built from factories with distinct keys files each factory
   * under its folded key, with the key's own spelling, and lists the keys
   * in sequence order.
   */
  lemma {:induction false} BuildContents(factories: seq<AlgorithmFactory>)
    requires Build(factories).Returned?
    ensures var reg := Build(factories).value;
      && reg.order == Keys(factories)
      && (forall i :: 0 <= i < |factories| ==>
            Fold(factories[i].key) in reg.factories && reg.factories[Fold(factories[i].key)] == Entry(factories[i].key, factories[i]))
    decreases |factories|
  {
    if factories != [] {
      var n := |factories| - 1;
      var prefix := factories[..n];
      assert Build(prefix).Returned?;
      BuildContents(prefix);
      BuildSucceeds(factories);
      assert forall i :: 0 <= i < n ==> prefix[i] == factories[i];
      assert Keys(factories) == Keys(prefix) + [factories[n].key];
    }
  }

  /**
   * On a registry built from `factories`, Get finds a factory exactly when
   * some factory's key equals the asked key ignoring case, and then it is
   * that factory; ListKeys gives the factories' keys in order.
   */
  lemma GetFindsRegistered(factories: seq<AlgorithmFactory>, key: string)
    requires Build(factories).Returned?
    ensures var reg := Build(factories).value;
      && ListKeys(reg) == Keys(factories)
      && (Get(reg, key).Returned? <==> exists i :: 0 <= i < |factories| && Fold(factories[i].key) == Fold(key))
      && (forall i :: 0 <= i < |factories| && Fold(factories[i].key) == Fold(key) ==> Get(reg, key) == Returned(factories[i]))
      && (Get(reg, key).Threw? ==> Get(reg, key).message == "InvalidOperationException: Unknown algorithm key: " + key)
  {
    BuildSucceeds(factories);
    BuildContents(factories);
  }

  /** GetParameters: the algorithm's parameters, or an empty map for an id with none registered. */
  function GetParameters<V>(parameters: map<string, map<string, V>>, algorithmId: string): (r: map<string, V>)
    ensures algorithmId in parameters ==> r == parameters[algorithmId]
    ensures algorithmId !in parameters ==> r == map[]
  {
    if algorithmId in parameters then parameters[algorithmId] else map[]
  }

  /** An entry of the configured-algorithms list. */
  datatype AlgorithmRegistryItem = AlgorithmRegistryItem(algorithmId: string, factoryKey: string, isActive: bool)

  class AlgorithmRegistry {
    var items: seq<AlgorithmRegistryItem>

    constructor(items: seq<AlgorithmRegistryItem>)
      ensures this.items == items
    {
      this.items := [] + items;
    }

    /** GetAllAlgorithms: the items the registry was built with, in order. */
    method GetAllAlgorithms() returns (r: seq<AlgorithmRegistryItem>)
      ensures r == items
    {
      r := items;
    }
  }
}
