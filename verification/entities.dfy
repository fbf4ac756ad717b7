/** Content entities and the storage that loads, revises and saves them. */
module Entities {
  import opened Common

  /** An entity's identity: its type id and its id. */
  datatype EntityKey = EntityKey(entityTypeId: string, id: string)

  /** A snapshot of one revision of a content entity: what `save()` writes
      and what the storage hands back as the latest revision. */
  datatype EntityValue = EntityValue(
    entityTypeId: string,
    id: string,
    entityLabel: string,
    revisionable: bool,   // the entity type is revisionable
    revisionLog: bool,    // the entity class keeps revision metadata
    tracksChanged: bool,  // the entity class records a changed time
    moderationState: Option<string>,
    isDefaultRevision: bool,
    isNewRevision: bool,
    revisionCreationTime: int,
    revisionUser: int,
    changedTime: int)
  {
    function Key(): EntityKey { EntityKey(entityTypeId, id) }
  }

  /** A loaded entity object; its setters update the fields in place. */
  class ContentEntity {
    const entityTypeId: string
    const id: string
    const revisionable: bool
    const revisionLog: bool
    const tracksChanged: bool
    var entityLabel: string
    var moderationState: Option<string>
    var isDefaultRevision: bool
    var isNewRevision: bool
    var revisionCreationTime: int
    var revisionUser: int
    var changedTime: int

    constructor (v: EntityValue)
      ensures Value() == v
    {
      entityTypeId, id, revisionable, revisionLog, tracksChanged := v.entityTypeId, v.id, v.revisionable, v.revisionLog, v.tracksChanged;
      entityLabel, moderationState := v.entityLabel, v.moderationState;
      isDefaultRevision, isNewRevision := v.isDefaultRevision, v.isNewRevision;
      revisionCreationTime, revisionUser, changedTime := v.revisionCreationTime, v.revisionUser, v.changedTime;
    }

    /** The object's current field values. */
    function Value(): EntityValue
      reads this
    {
      EntityValue(entityTypeId, id, entityLabel, revisionable, revisionLog, tracksChanged, moderationState,
                  isDefaultRevision, isNewRevision, revisionCreationTime, revisionUser, changedTime)
    }
  }

  /** Every stored revision is filed under its own entity's key. */
  ghost predicate Filed(latest: map<EntityKey, EntityValue>)
  {
    forall k :: k in latest ==> latest[k].Key() == k
  }

  /** Entity storage: the latest revision of each entity, and the log of
      every `save()` in the order they happened. */
  class EntityStorage {
    var latest: map<EntityKey, EntityValue>
    var saved: seq<EntityValue>

    ghost predicate Valid()
      reads this
    {
      Filed(latest)
    }

    constructor (latest: map<EntityKey, EntityValue>)
      requires Filed(latest)
      ensures Valid() && this.latest == latest && saved == []
    {
      this.latest := latest;
      saved := [];
    }

    /** Loads the latest revision of the entity with the given key as a new
        object, or gives NULL when the storage has no revision of it. */
    method LoadLatestRevision(key: EntityKey) returns (e: ContentEntity?)
      ensures e != null <==> key in latest
      ensures e != null ==> fresh(e) && e.Value() == latest[key]
    {
      if key in latest {
        e := new ContentEntity(latest[key]);
      } else {
        e := null;
      }
    }

    /** A new revision object built from `entity`, marked as a new revision
        and as the default revision exactly when `makeDefault` holds; the
        storage itself is unchanged until the revision is saved. */
    method CreateRevision(entity: ContentEntity, makeDefault: bool) returns (r: ContentEntity)
      ensures fresh(r)
      ensures r.Value() == entity.Value().(isNewRevision := true, isDefaultRevision := makeDefault)
    {
      r := new ContentEntity(entity.Value().(isNewRevision := true, isDefaultRevision := makeDefault));
    }

    /** Saves the entity: it becomes the latest revision of its key, and the
        save is appended to the log. */
    method Save(entity: ContentEntity)
      requires Valid()
      modifies this
      ensures Valid()
      ensures saved == old(saved) + [entity.Value()]
      ensures latest == old(latest)[entity.Value().Key() := entity.Value()]
    {
      saved := saved + [entity.Value()];
      latest := latest[entity.Value().Key() := entity.Value()];
    }
  }
}
