/** What one call of `Map` does, as functions of the mapper's configuration
    and the two objects: the argument checks, the by-name bulk copy over the
    catalog (`SourceListMap` / `TargetListMap` and `MapPropertyValue`), and the
    post-copy actions run in registration order. The class in module Mapper
    runs the same steps with loops and is proved equal to `Execute`.
 */
module Executor {
  import opened Types

  /** Sample post-copy callbacks, standing in for arbitrary
      `Action<TSource, TTarget>` closures:
      - Assign: `target.q = v`;
      - FillIfNull: `if (target.q == null) target.q = source.p`;
      - MapNested: the nested-mapper idiom, `if (source.p == null) target.q = null;
        else sub.Map(source.p, target.q ??= new())`. */
  datatype Action =
    | Assign(member: string, value: Option<Value>)
    | FillIfNull(from: string, to: string)
    | MapNested(from: string, to: string, sub: Config)

  /** A mapper's state: its basis, the two types, the catalog and the actions. */
  datatype Config = Config(basis: PropertyList, sourceType: TypeInfo, targetType: TypeInfo,
                           catalog: seq<Descriptor>, actions: seq<Action>)

  /** The target after some steps, and the failure that stopped them, if any.
      On a failure the target keeps every write made before it. */
  datatype Run = Run(target: Obj, failure: Option<Failure>)

  /** The result of `Map(source, target)`: the state of the target argument
      afterwards (None when it was null) and the failure, if any. */
  datatype Outcome = Outcome(target: Option<Obj>, failure: Option<Failure>)

  function ArgumentNullMessage(argument: string, s: TypeInfo, t: TypeInfo): string
  {
    "Argument '" + argument + "' in 'XMapper<" + s.name + ", " + t.name + ">.Map(...)' should not be null."
  }

  function NotFoundMessage(member: string, side: string, owner: TypeInfo): string
  {
    "Property '" + member + "' was not found on " + side + " '" + owner.name + "'."
  }

  function NotNullableMessage(s: TypeInfo, sp: Descriptor, t: TypeInfo, tp: Descriptor): string
  {
    "'" + s.name + "." + sp.name + "' was null, but '" + t.name + "." + tp.name + "' is not nullable."
  }

  /** The type whose members are looked up for the catalog's names, and its
      role in the not-found message. */
  function OtherType(basis: PropertyList, s: TypeInfo, t: TypeInfo): TypeInfo
  {
    if basis == Source then t else s
  }

  function OtherSide(basis: PropertyList): string
  {
    if basis == Source then "target" else "source"
  }

  /** A value may be stored in member `tp`: a null only where the member
      accepts null, anything else only when its runtime type is the member's
      declared type. */
  predicate Assignable(v: Option<Value>, tp: Descriptor)
  {
    match v
    case None => !RejectsNull(tp)
    case Some(x) => TypeOf(x) == tp.typeName
  }

  /** `MapPropertyValue`: read `sp` from the source; refuse a null for a member
      that rejects it; otherwise assign the value to `tp`, where the runtime
      refuses a value of another type. */
  function MapPropertyValue(s: TypeInfo, t: TypeInfo, sp: Descriptor, tp: Descriptor, source: Obj, target: Obj): (r: Run)
    ensures r.failure.None? <==> Assignable(Get(source, sp.name), tp)
    ensures r.failure.None? ==> r.target.Keys == target.Keys + {tp.name}
    ensures r.failure.None? ==> Get(r.target, tp.name) == Get(source, sp.name)
    ensures r.failure.None? ==> forall k :: k != tp.name ==> Get(r.target, k) == Get(target, k)
    ensures r.failure.Some? ==> r.target == target
    ensures Get(source, sp.name).None? && RejectsNull(tp) ==>
              r.failure == Some(Thrown(NotNullableMessage(s, sp, t, tp)))
  {
    var value := Get(source, sp.name);
    if value.None? && RejectsNull(tp) then
      Run(target, Some(Thrown(NotNullableMessage(s, sp, t, tp))))
    else if value.Some? && TypeOf(value.value) != tp.typeName then
      Run(target, Some(Conversion(TypeOf(value.value), tp.typeName)))
    else
      Run(target[tp.name := value], None)
  }

  /** One iteration of `SourceListMap` (basis Source) or `TargetListMap`
      (basis Target) for catalog member `d`. */
  function CopyMember(basis: PropertyList, s: TypeInfo, t: TypeInfo, d: Descriptor, source: Obj, target: Obj): Run
  {
    if basis == Source then
      match Lookup(t, d.name)
      case None => Run(target, Some(Thrown(NotFoundMessage(d.name, "target", t))))
      case Some(tp) => MapPropertyValue(s, t, d, tp, source, target)
    else
      match Lookup(s, d.name)
      case None => Run(target, Some(Thrown(NotFoundMessage(d.name, "source", s))))
      case Some(sp) => MapPropertyValue(s, t, sp, d, source, target)
  }

  /** The loop of `SourceListMap` / `TargetListMap` over the catalog, stopping
      at the first member that fails. */
  function CopyAll(basis: PropertyList, s: TypeInfo, t: TypeInfo, catalog: seq<Descriptor>, source: Obj, target: Obj): Run
  {
    if catalog == [] then Run(target, None)
    else
      var step := CopyMember(basis, s, t, catalog[0], source, target);
      if step.failure.Some? then step
      else CopyAll(basis, s, t, catalog[1..], source, step.target)
  }

  /** One action, run on the source and the target as the bulk copy (and the
      earlier actions) left it. */
  function RunAction(a: Action, source: Obj, target: Obj): Run
    decreases a
  {
    match a
    case Assign(q, v) => Run(target[q := v], None)
    case FillIfNull(p, q) =>
      if Get(target, q).None? then Run(target[q := Get(source, p)], None) else Run(target, None)
    case MapNested(p, q, sub) =>
      match Get(source, p)
      case None => Run(target[q := None], None)
      case Some(Instance(_, inner)) =>
        (match Get(target, q)
         case None =>
           var o := Execute(sub, Some(inner), Some(sub.targetType.initial));
           Run(target[q := Some(Instance(sub.targetType.name, o.target.value))], o.failure)
         case Some(Instance(tag, existing)) =>
           var o := Execute(sub, Some(inner), Some(existing));
           Run(target[q := Some(Instance(tag, o.target.value))], o.failure)
         case Some(other) => Run(target, Some(Conversion(TypeOf(other), sub.targetType.name))))
      case Some(other) => Run(target, Some(Conversion(TypeOf(other), sub.sourceType.name)))
  }

  /** `_includeActions.ForEach(...)`: every action in registration order; an
      action that fails stops the rest. */
  function RunActions(actions: seq<Action>, source: Obj, target: Obj): Run
    decreases actions
  {
    if actions == [] then Run(target, None)
    else
      var r := RunAction(actions[0], source, target);
      if r.failure.Some? then r else RunActions(actions[1..], source, r.target)
  }

  /** `Map(source, target)`: the null checks (target first), the bulk copy
      chosen by the basis, then the actions. */
  function Execute(cfg: Config, source: Option<Obj>, target: Option<Obj>): (r: Outcome)
    decreases cfg
    ensures r.target.Some? <==> target.Some?
  {
    if target.None? then
      Outcome(None, Some(Thrown(ArgumentNullMessage("target", cfg.sourceType, cfg.targetType))))
    else if source.None? then
      Outcome(target, Some(Thrown(ArgumentNullMessage("source", cfg.sourceType, cfg.targetType))))
    else
      var copied := CopyAll(cfg.basis, cfg.sourceType, cfg.targetType, cfg.catalog, source.value, target.value);
      if copied.failure.Some? then Outcome(Some(copied.target), copied.failure)
      else
        var done := RunActions(cfg.actions, source.value, copied.target);
        Outcome(Some(done.target), done.failure)
  }
}
