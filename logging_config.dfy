/** The two ways the logger is configured: the bound `entity-logging`
    properties of the current pipeline, and the static condition of the
    legacy one.  Both decide per entity class whether its changes are
    logged. */
module LoggingConfig {
  import opened JavaLang
  import opened Entities

  /** `EntityLoggingProperties.Strategy` */
  datatype Strategy = Strategy(queueSize: int, threadPoolSize: int, flushInterval: int)

  /** `EntityLoggingProperties`; the storage and process type names are
      only read by the wiring and are not modelled. */
  datatype EntityLoggingProperties = EntityLoggingProperties(
    enabled: bool, excludedEntities: set<string>, strategy: Strategy, jpaBatchSize: int)

  const DefaultQueueSize: int := 100000
  const DefaultThreadPoolSize: int := 5
  const DefaultFlushInterval: int := 5000

  /** The properties as constructed, before binding: logging on, nothing
      excluded, the default strategy, and the batch size the JDBC property
      injects. */
  function Defaults(jpaBatchSize: int): (p: EntityLoggingProperties)
    ensures p.enabled && p.excludedEntities == {} && p.jpaBatchSize == jpaBatchSize
    ensures p.strategy == Strategy(DefaultQueueSize, DefaultThreadPoolSize, DefaultFlushInterval)
  {
    EntityLoggingProperties(true, {}, Strategy(DefaultQueueSize, DefaultThreadPoolSize, DefaultFlushInterval), jpaBatchSize)
  }

  /** `validate`: four `Assert.isTrue` checks in order; the first that fails
      throws `IllegalArgumentException` with its message. */
  function Validate(p: EntityLoggingProperties): (r: Outcome)
    ensures r == Done <==>
      p.strategy.queueSize > 0 && p.strategy.threadPoolSize > 0 && p.strategy.flushInterval > 0 && p.jpaBatchSize > 0
    ensures p.strategy.queueSize <= 0 ==> r == Thrown(IllegalArgumentException("Queue size must be positive"))
    ensures p.strategy.queueSize > 0 && p.strategy.threadPoolSize <= 0 ==>
      r == Thrown(IllegalArgumentException("Thread pool size must be positive"))
    ensures p.strategy.queueSize > 0 && p.strategy.threadPoolSize > 0 && p.strategy.flushInterval <= 0 ==>
      r == Thrown(IllegalArgumentException("Flush interval must be positive"))
    ensures r.Thrown? ==> r.error.IllegalArgumentException?
  {
    if p.strategy.queueSize <= 0 then Thrown(IllegalArgumentException("Queue size must be positive"))
    else if p.strategy.threadPoolSize <= 0 then Thrown(IllegalArgumentException("Thread pool size must be positive"))
    else if p.strategy.flushInterval <= 0 then Thrown(IllegalArgumentException("Flush interval must be positive"))
    else if p.jpaBatchSize <= 0 then Thrown(IllegalArgumentException("JPA batch size must be specified or must be positive"))
    else Done
  }

  /** The defaults pass every strategy check, so the defaults are valid
      exactly when the injected batch size is positive. */
  lemma DefaultsValidIffBatchSizePositive(jpaBatchSize: int)
    ensures Validate(Defaults(jpaBatchSize)) == Done <==> jpaBatchSize > 0
    ensures jpaBatchSize <= 0 ==>
      Validate(Defaults(jpaBatchSize)) == Thrown(IllegalArgumentException("JPA batch size must be specified or must be positive"))
  {
  }

  /** The decision both configurations make: off, excluded by simple name,
      or carrying the exclusion annotation that configuration reads. */
  predicate Decide(enabled: bool, excluded: set<string>, cls: JClass, annotation: Annotation) {
    enabled && cls.simpleName !in excluded && annotation !in cls.annotations
  }

  /** `EntityLoggingProperties.shouldLogChanges`, on the entity's runtime
      class; it reads the shared-domain `@ExcludeFromLogging`. */
  function ShouldLogChanges(p: EntityLoggingProperties, cls: JClass): (b: bool)
    ensures !p.enabled ==> !b
    ensures p.enabled && cls.simpleName in p.excludedEntities ==> !b
    ensures p.enabled && cls.simpleName !in p.excludedEntities ==> (b <==> Excluded(SharedDomainAnnotation) !in cls.annotations)
  {
    Decide(p.enabled, p.excludedEntities, cls, Excluded(SharedDomainAnnotation))
  }

  /** Only the shared-domain annotation counts: a class marked with one of
      the other two `@ExcludeFromLogging` types is still logged. */
  lemma OtherExclusionAnnotationsIgnored(p: EntityLoggingProperties, cls: JClass)
    ensures ShouldLogChanges(p, cls.(annotations := cls.annotations + {Excluded(CoreAnnotation), Excluded(CoreSharedAnnotation)}))
            == ShouldLogChanges(p, cls)
  {
  }

  /** The static fields of `EntityLoggingCondition`, shared by every
      instance. */
  class ConditionStatics {
    var enableGlobalLogging: bool
    var excludedEntities: set<string>

    /** The class initialiser: logging on, nothing excluded. */
    constructor ()
      ensures enableGlobalLogging && excludedEntities == {}
    {
      enableGlobalLogging := true;
      excludedEntities := {};
    }
  }

  /** `EntityLoggingCondition`: an instance holds no state of its own; its
      setters and its decision go through the statics. */
  class EntityLoggingCondition {
    const statics: ConditionStatics

    constructor (statics: ConditionStatics)
      ensures this.statics == statics
    {
      this.statics := statics;
    }

    /** `setEnableGlobalLogging`: overwrites the static flag. */
    method SetEnableGlobalLogging(value: bool)
      modifies statics
      ensures statics.enableGlobalLogging == value && statics.excludedEntities == old(statics.excludedEntities)
    {
      statics.enableGlobalLogging := value;
    }

    /** `setExcludedEntities`: replaces the static set. */
    method SetExcludedEntities(entities: set<string>)
      modifies statics
      ensures statics.excludedEntities == entities && statics.enableGlobalLogging == old(statics.enableGlobalLogging)
    {
      statics.excludedEntities := entities;
    }

    /** `shouldLogChanges`, reading the core `@ExcludeFromLogging`. */
    predicate ShouldLogChanges(cls: JClass)
      reads statics
      ensures ShouldLogChanges(cls) ==> statics.enableGlobalLogging
      ensures statics.enableGlobalLogging && cls.simpleName in statics.excludedEntities ==> !ShouldLogChanges(cls)
      ensures statics.enableGlobalLogging && cls.simpleName !in statics.excludedEntities ==>
        (ShouldLogChanges(cls) <==> Excluded(CoreAnnotation) !in cls.annotations)
    {
      Decide(statics.enableGlobalLogging, statics.excludedEntities, cls, Excluded(CoreAnnotation))
    }
  }

  /** A setter called on one instance changes the decision of every other
      instance: excluding a class name through `a` excludes it for `b`. */
  method ExcludeThroughOne(a: EntityLoggingCondition, b: EntityLoggingCondition, cls: JClass)
    requires a.statics == b.statics
    modifies a.statics
    ensures !b.ShouldLogChanges(cls)
    ensures b.statics.excludedEntities == {cls.simpleName}
  {
    a.SetExcludedEntities({cls.simpleName});
  }

  /** Switching logging off through `a` silences `b` for every class. */
  method DisableThroughOne(a: EntityLoggingCondition, b: EntityLoggingCondition)
    requires a.statics == b.statics
    modifies a.statics
    ensures forall cls :: !b.ShouldLogChanges(cls)
  {
    a.SetEnableGlobalLogging(false);
  }

  /** The two configurations decide alike when they agree on the switch and
      the excluded names, and the class carries both or neither of the
      annotations they read. */
  lemma ConfigurationsAgree(p: EntityLoggingProperties, enableGlobalLogging: bool, excluded: set<string>, cls: JClass)
    requires p.enabled == enableGlobalLogging && p.excludedEntities == excluded
    requires (Excluded(SharedDomainAnnotation) in cls.annotations) == (Excluded(CoreAnnotation) in cls.annotations)
    ensures ShouldLogChanges(p, cls) == Decide(enableGlobalLogging, excluded, cls, Excluded(CoreAnnotation))
  {
  }
}
