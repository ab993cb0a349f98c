/**
 * What the router and the editor share: the configured domain-to-entity pairs,
 * the configuration object that holds them, and the entity services of the
 * host framework, given as plain functions.
 */
module DomainEntity {
  import opened Php

  /** One configured mapping; a key missing from the stored array reads as Null. */
  datatype Pair = Pair(domain: Value, entityType: Value, entityId: Value)

  /** A loaded content entity, known by its type and id. */
  datatype Entity = Entity(entityType: Value, id: Value)

  /** One entry of the entity type manager's `getDefinitions()`. */
  datatype EntityTypeDefinition = EntityTypeDefinition(id: string, group: string, displayLabel: string)

  /** The entity type manager and the entities it stores. */
  datatype EntityServices = EntityServices(
    load: (Value, Value) -> Option<Entity>,  // getStorage($type)->load($id); None for NULL
    hasCanonical: Value -> bool,             // getDefinition($type)->hasLinkTemplate('canonical')
    canonicalUrl: Entity -> string,          // $entity->toUrl('canonical')->toString()
    definitions: seq<EntityTypeDefinition>)  // getDefinitions(), in registry order

  /** The `dynamic_frontpage.domain_entity_config` configuration object. */
  type Config = map<string, seq<Pair>>

  const PairsKey: string := "domain_entity_pairs"

  /** `$config->get('domain_entity_pairs')`: None when the key was never set. */
  function StoredPairs(config: Config): Option<seq<Pair>>
  {
    if PairsKey in config then Some(config[PairsKey]) else None
  }

  /** `$list ?? []` */
  function OrEmpty(list: Option<seq<Pair>>): seq<Pair>
  {
    match list
    case Some(ps) => ps
    case None => []
  }
}
