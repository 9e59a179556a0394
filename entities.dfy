/** What the logger sees of an application entity through reflection: its
    class (simple name, annotations, declared fields, superclass) and the
    current value of each field. */
module Entities {
  import opened JavaLang
  import opened JavaObject

  /** The annotation types the logger looks for.  The repository declares
      `@ExcludeFromLogging` three times, in different packages, and each
      component checks its own; `Excluded(pkg)` keeps them apart. */
  datatype Annotation = Id | Transient | Excluded(pkg: ExclusionPackage)

  datatype ExclusionPackage =
    | SharedDomainAnnotation     // shared.domain.annotation, read by EntityLoggingProperties
    | CoreAnnotation             // core.annotation, read by EntityLoggingCondition
    | CoreSharedAnnotation       // core.shared.annotation, read by AbstractChangeTracker

  /** A declared field; `accessible` says whether `Field.get` succeeds on it
      without first calling `setAccessible(true)`. */
  datatype JField = JField(name: string, annotations: set<Annotation>, accessible: bool)

  datatype JClass = JClass(simpleName: string, annotations: set<Annotation>, fields: seq<JField>, superclass: Option<JClass>)

  /** An entity instance: its runtime class and its field values by name; a
      field without an entry holds null. */
  datatype Entity = Entity(cls: JClass, values: map<string, Obj>)

  /** The value `field.get(entity)` reads once the field is accessible. */
  function ReadField(e: Entity, f: JField): Obj {
    if f.name in e.values then e.values[f.name] else Null
  }

  /** The entity a change is described by where both sides are given
      (`oldEntity != null ? oldEntity : newEntity`): the old one when there
      is one. */
  function Subject(oldEntity: Option<Entity>, newEntity: Option<Entity>): Option<Entity> {
    if oldEntity.Some? then oldEntity else newEntity
  }
}
