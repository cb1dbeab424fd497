/** The mapper object: `XMapper<TSource, TTarget>` with its basis, its
    catalog (`_propertyInfos`) and its action list (`_includeActions`). The
    configuration methods change the catalog and the action list in place;
    `Map` runs the bulk copy loop and then the actions, and is proved to do
    exactly what `Executor.Execute` describes.
 */
module Mapper {
  import opened Types
  import opened Executor
  import opened Catalog
  import Properties

  const UseTargetMessage: string := "Use 'IgnoreTargetProperty' if PropertyList is Target."
  const UseSourceMessage: string := "Use 'IgnoreSourceProperty' if PropertyList is Source."

  class XMapper {
    const basis: PropertyList
    const sourceType: TypeInfo
    const targetType: TypeInfo
    var catalog: seq<Descriptor>
    var actions: seq<Action>

    /** The type whose members the catalog lists. */
    function BasisType(): TypeInfo
    {
      if basis == Source then sourceType else targetType
    }

    /** The catalog only ever holds members of the basis type. */
    ghost predicate Valid()
      reads this
    {
      forall d :: d in catalog ==> d in BasisType().members
    }

    /** The mapper's current configuration, as `Execute` takes it. */
    function Config(): Config
      reads this
    {
      Executor.Config(basis, sourceType, targetType, catalog, actions)
    }

    /** `new XMapper<TSource, TTarget>(initialPropertyList)`: the catalog is the
        whole member list of the chosen type, and there are no actions yet. */
    constructor (initialPropertyList: PropertyList, s: TypeInfo, t: TypeInfo)
      ensures basis == initialPropertyList && sourceType == s && targetType == t
      ensures catalog == if initialPropertyList == Source then s.members else t.members
      ensures actions == []
      ensures Valid()
    {
      basis := initialPropertyList;
      sourceType := s;
      targetType := t;
      catalog := if initialPropertyList == Source then s.members else t.members;
      actions := [];
    }

    /** Under the Source basis, drops the source member `name` from the
        catalog and returns this mapper; under the Target basis, refuses and
        changes nothing. */
    method IgnoreSourceProperty(name: string) returns (r: Result<XMapper>)
      requires Valid()
      modifies this`catalog
      ensures Valid()
      ensures basis == Target ==> r == Err(Thrown(UseTargetMessage)) && catalog == old(catalog)
      ensures basis == Source ==> r == Ok(this) && catalog == RemoveFirst(old(catalog), name)
    {
      if basis == Target {
        return Err(Thrown(UseTargetMessage));
      }
      RemoveFirstShrinks(catalog, name);
      catalog := RemoveFirst(catalog, name);
      return Ok(this);
    }

    /** Under the Target basis, drops the target member `name` from the
        catalog and returns this mapper; under the Source basis, refuses and
        changes nothing. */
    method IgnoreTargetProperty(name: string) returns (r: Result<XMapper>)
      requires Valid()
      modifies this`catalog
      ensures Valid()
      ensures basis == Source ==> r == Err(Thrown(UseSourceMessage)) && catalog == old(catalog)
      ensures basis == Target ==> r == Ok(this) && catalog == RemoveFirst(old(catalog), name)
    {
      if basis == Source {
        return Err(Thrown(UseSourceMessage));
      }
      RemoveFirstShrinks(catalog, name);
      catalog := RemoveFirst(catalog, name);
      return Ok(this);
    }

    /** Appends one action, to run after the ones registered before it. */
    method IncludeAction(a: Action) returns (r: XMapper)
      requires Valid()
      modifies this`actions
      ensures Valid()
      ensures actions == old(actions) + [a]
      ensures r == this
    {
      actions := actions + [a];
      return this;
    }

    /** `SourceListMap`: for each catalog (source) member in order, find the
        target member of the same name and copy the value across. */
    method SourceListMap(source: Obj, target: Obj) returns (r: Run)
      ensures r == CopyAll(Source, sourceType, targetType, catalog, source, target)
    {
      var current := target;
      var i := 0;
      while i < |catalog|
        invariant 0 <= i <= |catalog|
        invariant CopyAll(Source, sourceType, targetType, catalog[i..], source, current)
                  == CopyAll(Source, sourceType, targetType, catalog, source, target)
      {
        assert catalog[i..][0] == catalog[i] && catalog[i..][1..] == catalog[i + 1..];
        var sourceProperty := catalog[i];
        var found := Lookup(targetType, sourceProperty.name);
        if found.None? {
          return Run(current, Some(Thrown(NotFoundMessage(sourceProperty.name, "target", targetType))));
        }
        var step := MapPropertyValue(sourceType, targetType, sourceProperty, found.value, source, current);
        if step.failure.Some? {
          return step;
        }
        current := step.target;
        i := i + 1;
      }
      return Run(current, None);
    }

    /** `TargetListMap`: for each catalog (target) member in order, find the
        source member of the same name and copy the value across. */
    method TargetListMap(source: Obj, target: Obj) returns (r: Run)
      ensures r == CopyAll(Target, sourceType, targetType, catalog, source, target)
    {
      var current := target;
      var i := 0;
      while i < |catalog|
        invariant 0 <= i <= |catalog|
        invariant CopyAll(Target, sourceType, targetType, catalog[i..], source, current)
                  == CopyAll(Target, sourceType, targetType, catalog, source, target)
      {
        assert catalog[i..][0] == catalog[i] && catalog[i..][1..] == catalog[i + 1..];
        var targetProperty := catalog[i];
        var found := Lookup(sourceType, targetProperty.name);
        if found.None? {
          return Run(current, Some(Thrown(NotFoundMessage(targetProperty.name, "source", sourceType))));
        }
        var step := MapPropertyValue(sourceType, targetType, found.value, targetProperty, source, current);
        if step.failure.Some? {
          return step;
        }
        current := step.target;
        i := i + 1;
      }
      return Run(current, None);
    }

    /** `Map(source, target)`: refuse a null target, then a null source;
        copy the catalog members by name; then run every action in
        registration order. Returns the target's state afterwards, which on
        a failure keeps the writes made before it. */
    method Map(source: Option<Obj>, target: Option<Obj>) returns (outcome: Outcome)
      ensures outcome == Execute(Config(), source, target)
      ensures target.None? ==>
                outcome == Outcome(None, Some(Thrown(ArgumentNullMessage("target", sourceType, targetType))))
      ensures target.Some? && source.None? ==>
                outcome == Outcome(target, Some(Thrown(ArgumentNullMessage("source", sourceType, targetType))))
    {
      if target.None? {
        return Outcome(None, Some(Thrown(ArgumentNullMessage("target", sourceType, targetType))));
      } else if source.None? {
        return Outcome(target, Some(Thrown(ArgumentNullMessage("source", sourceType, targetType))));
      }
      var copied: Run;
      if basis == Source {
        copied := SourceListMap(source.value, target.value);
      } else {
        copied := TargetListMap(source.value, target.value);
      }
      if copied.failure.Some? {
        return Outcome(Some(copied.target), copied.failure);
      }
      var current := copied.target;
      var i := 0;
      while i < |actions|
        invariant 0 <= i <= |actions|
        invariant RunActions(actions[i..], source.value, current) == RunActions(actions, source.value, copied.target)
      {
        assert actions[i..][0] == actions[i] && actions[i..][1..] == actions[i + 1..];
        var r := RunAction(actions[i], source.value, current);
        if r.failure.Some? {
          return Outcome(Some(r.target), r.failure);
        }
        current := r.target;
        i := i + 1;
      }
      return Outcome(Some(current), None);
    }

    /** `Map(source)`: maps into a new default target object and returns it. */
    method MapNew(source: Option<Obj>) returns (r: Result<Obj>)
      ensures var o := Execute(Config(), source, Some(targetType.initial));
              r == if o.failure.Some? then Err(o.failure.value) else Ok(o.target.value)
      ensures source.None? ==> r == Err(Thrown(ArgumentNullMessage("source", sourceType, targetType)))
    {
      var outcome := Map(source, Some(targetType.initial));
      if outcome.failure.Some? {
        return Err(outcome.failure.value);
      }
      return Ok(outcome.target.value);
    }
  }

  /** A valid mapper's bulk copy writes only members the target type has, so
      an object of the target type stays one. */
  lemma BulkCopyKeepsShape(m: XMapper, source: Obj, target: Obj)
    requires m.Valid()
    requires Conforms(target, m.targetType)
    ensures Conforms(CopyAll(m.basis, m.sourceType, m.targetType, m.catalog, source, target).target, m.targetType)
  {
    Properties.CopyAllKeepsShape(m.basis, m.sourceType, m.targetType, m.catalog, source, target);
  }
}
