/** `BaseSqlAlchemyRepository._register`: enrols an aggregate in the shared registry. */
module BaseRepository {
  import opened Primitives
  import opened AggregateRegistry

  class SqlAlchemyRepository {
    const registry: AggregateRegistry

    constructor (registry: AggregateRegistry)
      ensures this.registry == registry
    {
      this.registry := registry;
    }

    /** Returns its argument; a present aggregate is added to the registry, `None` changes nothing. */
    method Register(aggregate: AggregateRoot?) returns (r: AggregateRoot?)
      requires registry.Valid()
      modifies registry
      ensures r == aggregate
      ensures registry.Valid()
      ensures aggregate == null ==> registry.aggregates == old(registry.aggregates)
      ensures aggregate != null ==> registry.aggregates == Added(old(registry.aggregates), aggregate)
    {
      if aggregate != null {
        registry.Register(aggregate);
      }
      r := aggregate;
    }
  }
}
