/**
  The plugin object and its node registration, against a sequence-backed
  model of the SDK's node registry. The registry keeps factories in
  insertion order and refuses a second factory with a node-type id it
  already holds (node-type ids are unique within a module).
 */
module ExamplePlugin {
  import opened Sdk

  /** The factories this plugin contributes. */
  datatype Factory = HelloWorldFactory | MathAddFactory {
    /** The node-type id each factory's metadata declares. */
    function TypeId(): string {
      match this
      case HelloWorldFactory => "HelloWorld"
      case MathAddFactory => "PluginMathAdd"
    }
  }

  datatype RegistryError = DuplicateTypeId(typeId: string)

  /** Some factory of `factories` has node-type id `typeId`. */
  predicate Holds(factories: seq<Factory>, typeId: string) {
    exists i :: 0 <= i < |factories| && factories[i].TypeId() == typeId
  }

  /** The position of the first factory at or after `from` with node-type id `typeId`. */
  function FindFrom(factories: seq<Factory>, typeId: string, from: nat): (r: Option<nat>)
    requires from <= |factories|
    ensures r.Some? ==> from <= r.value < |factories| && factories[r.value].TypeId() == typeId
    ensures r.Some? ==> forall j :: from <= j < r.value ==> factories[j].TypeId() != typeId
    ensures r.None? ==> forall j :: from <= j < |factories| ==> factories[j].TypeId() != typeId
    decreases |factories| - from
  {
    if from == |factories| then None
    else if factories[from].TypeId() == typeId then Some(from)
    else FindFrom(factories, typeId, from + 1)
  }

  class Registry {
    var factories: seq<Factory>

    constructor ()
      ensures factories == []
    {
      factories := [];
    }

    /** Looking up a node-type id finds the factory registered under it, if any. */
    function Lookup(typeId: string): (r: Option<Factory>)
      reads this
      ensures r.Some? <==> Holds(factories, typeId)
      ensures r.Some? ==> r.value.TypeId() == typeId && r.value in factories
    {
      match FindFrom(factories, typeId, 0)
      case Some(i) => Some(factories[i])
      case None => None
    }

    /** `register_node_factory`: appends a factory whose id is new, refuses a duplicate. */
    method RegisterNodeFactory(f: Factory) returns (r: Outcome<RegistryError>)
      modifies this
      ensures !Holds(old(factories), f.TypeId()) ==> r == Pass && factories == old(factories) + [f]
      ensures Holds(old(factories), f.TypeId()) ==>
        r == Fail(DuplicateTypeId(f.TypeId())) && factories == old(factories)
    {
      if FindFrom(factories, f.TypeId(), 0).Some? {
        r := Fail(DuplicateTypeId(f.TypeId()));
      } else {
        factories := factories + [f];
        r := Pass;
      }
    }
  }

  /**
    `register_nodes`: registers the greeting factory, then the adder factory,
    unwrapping each result. A refused registration panics at that point; the
    panic is returned as Fail, and the registrations made before it remain.
   */
  method RegisterNodes(registry: Registry) returns (r: Outcome<RegistryError>)
    modifies registry
    ensures r == Pass <==>
      !Holds(old(registry.factories), "HelloWorld") && !Holds(old(registry.factories), "PluginMathAdd")
    ensures r == Pass ==>
      registry.factories == old(registry.factories) + [HelloWorldFactory, MathAddFactory]
    ensures Holds(old(registry.factories), "HelloWorld") ==>
      r == Fail(DuplicateTypeId("HelloWorld")) && registry.factories == old(registry.factories)
    ensures !Holds(old(registry.factories), "HelloWorld") && Holds(old(registry.factories), "PluginMathAdd") ==>
      r == Fail(DuplicateTypeId("PluginMathAdd")) &&
      registry.factories == old(registry.factories) + [HelloWorldFactory]
  {
    r := registry.RegisterNodeFactory(HelloWorldFactory);
    if r.Fail? {
      return;
    }
    assert !Holds(old(registry.factories) + [HelloWorldFactory], "PluginMathAdd") <==>
           !Holds(old(registry.factories), "PluginMathAdd") by {
      var s := old(registry.factories) + [HelloWorldFactory];
      assert forall i :: 0 <= i < |old(registry.factories)| ==> s[i] == old(registry.factories)[i];
      assert s[|s| - 1].TypeId() != "PluginMathAdd";
    }
    r := registry.RegisterNodeFactory(MathAddFactory);
  }

  /** After registering into an empty registry, both node types can be looked up. */
  method RegisterIntoEmpty() returns (hello: Option<Factory>, add: Option<Factory>, other: Option<Factory>)
    ensures hello == Some(HelloWorldFactory)
    ensures add == Some(MathAddFactory)
    ensures other == None
  {
    var registry := new Registry();
    var r := RegisterNodes(registry);
    assert registry.factories[0].TypeId() == "HelloWorld";
    assert registry.factories[1].TypeId() == "PluginMathAdd";
    hello := registry.Lookup("HelloWorld");
    add := registry.Lookup("PluginMathAdd");
    other := registry.Lookup("MathAdd");
  }
}
