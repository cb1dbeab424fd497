/** What a call of `Map` promises, stated independently of how the executor
    loops: which catalog member fails first and why, which target members end
    up with the source's values, which are left alone, in which order the
    actions run, and how the nested-mapper action treats null and existing
    instances.
 */
module Properties {
  import opened Types
  import opened Executor

  /** Why catalog member `d` cannot be copied from `source`, if it cannot:
      the other side has no member of that name, or the source value is a
      null the destination refuses, or it is of another type than the
      destination declares. Either way the value read is the source's member
      of the same name, and the member written is the target's. */
  function MemberFailure(basis: PropertyList, s: TypeInfo, t: TypeInfo, d: Descriptor, source: Obj): Option<Failure>
  {
    var other := OtherType(basis, s, t);
    if d.name !in NameSet(other.members) then
      Some(Thrown(NotFoundMessage(d.name, OtherSide(basis), other)))
    else
      var c := Lookup(other, d.name).value;
      var sp := if basis == Source then d else c;
      var tp := if basis == Source then c else d;
      var v := Get(source, d.name);
      if Assignable(v, tp) then None
      else if v.None? then Some(Thrown(NotNullableMessage(s, sp, t, tp)))
      else Some(Conversion(TypeOf(v.value), tp.typeName))
  }

  /** The position of the first catalog member that cannot be copied, or the
      catalog's length when every member can. */
  function FirstFailing(basis: PropertyList, s: TypeInfo, t: TypeInfo, catalog: seq<Descriptor>, source: Obj): (i: nat)
    ensures i <= |catalog|
    ensures forall j :: 0 <= j < i ==> MemberFailure(basis, s, t, catalog[j], source).None?
    ensures i < |catalog| ==> MemberFailure(basis, s, t, catalog[i], source).Some?
  {
    if catalog == [] then 0
    else if MemberFailure(basis, s, t, catalog[0], source).Some? then 0
    else 1 + FirstFailing(basis, s, t, catalog[1..], source)
  }

  /** `target` with every member named in `names` set to the source's member
      of the same name, and every other member left as it was. */
  function Overlay(target: Obj, source: Obj, names: set<string>): (r: Obj)
    ensures r.Keys == target.Keys + names
    ensures forall k :: k in names ==> Get(r, k) == Get(source, k)
    ensures forall k :: k !in names ==> Get(r, k) == Get(target, k)
  {
    map k | k in target.Keys + names :: if k in names then Get(source, k) else target[k]
  }

  /** One catalog member: either it fails with `MemberFailure` and the target
      is untouched, or the target's member of the same name receives exactly
      the source's value, whichever the basis. */
  lemma CopyMemberSpec(basis: PropertyList, s: TypeInfo, t: TypeInfo, d: Descriptor, source: Obj, target: Obj)
    ensures var f := MemberFailure(basis, s, t, d, source);
            CopyMember(basis, s, t, d, source, target) ==
              if f.Some? then Run(target, f) else Run(target[d.name := Get(source, d.name)], None)
  {
  }

  lemma OverlayAdd(target: Obj, source: Obj, n: string, names: set<string>)
    ensures Overlay(target[n := Get(source, n)], source, names) == Overlay(target, source, {n} + names)
  {
    var a := Overlay(target[n := Get(source, n)], source, names);
    var b := Overlay(target, source, {n} + names);
    assert a.Keys == b.Keys;
    forall k | k in a.Keys ensures a[k] == b[k] {
      assert Get(a, k) == Get(b, k);
    }
  }

  /** The bulk copy's first step, in terms of `MemberFailure`. */
  lemma CopyAllStep(basis: PropertyList, s: TypeInfo, t: TypeInfo, catalog: seq<Descriptor>, source: Obj, target: Obj)
    requires catalog != []
    ensures var f := MemberFailure(basis, s, t, catalog[0], source);
            CopyAll(basis, s, t, catalog, source, target) ==
              if f.Some? then Run(target, f)
              else CopyAll(basis, s, t, catalog[1..], source, target[catalog[0].name := Get(source, catalog[0].name)])
  {
    CopyMemberSpec(basis, s, t, catalog[0], source, target);
  }

  /** What the bulk copy does to `target`: the members before the first
      failing one are copied, with nothing rolled back, and the first failing
      member's failure is the one reported. */
  ghost predicate CopyMeets(basis: PropertyList, s: TypeInfo, t: TypeInfo, catalog: seq<Descriptor>, source: Obj, target: Obj)
  {
    var i := FirstFailing(basis, s, t, catalog, source);
    CopyAll(basis, s, t, catalog, source, target) ==
      Run(Overlay(target, source, NameSet(catalog[..i])),
          if i < |catalog| then MemberFailure(basis, s, t, catalog[i], source) else None)
  }

  /** The bulk copy, as a whole: the members before the first failing one are
      copied, in catalog order, with nothing rolled back; the first failing
      member's failure is the one reported; when none fails, every catalog
      member is copied. Members outside the catalog are never written. */
  lemma {:induction false} CopyAllSpec(basis: PropertyList, s: TypeInfo, t: TypeInfo, catalog: seq<Descriptor>, source: Obj, target: Obj)
    ensures var i := FirstFailing(basis, s, t, catalog, source);
            CopyAll(basis, s, t, catalog, source, target) ==
              Run(Overlay(target, source, NameSet(catalog[..i])),
                  if i < |catalog| then MemberFailure(basis, s, t, catalog[i], source) else None)
  {
    if catalog == [] {
      assert Overlay(target, source, {}) == target;
    } else if MemberFailure(basis, s, t, catalog[0], source).Some? {
      CopyAllHeadFails(basis, s, t, catalog, source, target);
    } else {
      var next := target[catalog[0].name := Get(source, catalog[0].name)];
      CopyAllSpec(basis, s, t, catalog[1..], source, next);
      CopyAllHeadCopied(basis, s, t, catalog, source, target);
    }
  }

  lemma CopyAllHeadFails(basis: PropertyList, s: TypeInfo, t: TypeInfo, catalog: seq<Descriptor>, source: Obj, target: Obj)
    requires catalog != [] && MemberFailure(basis, s, t, catalog[0], source).Some?
    ensures CopyMeets(basis, s, t, catalog, source, target)
  {
    assert catalog[..0] == [];
    assert Overlay(target, source, {}) == target;
    CopyAllStep(basis, s, t, catalog, source, target);
  }

  lemma CopyAllHeadCopied(basis: PropertyList, s: TypeInfo, t: TypeInfo, catalog: seq<Descriptor>, source: Obj, target: Obj)
    requires catalog != [] && MemberFailure(basis, s, t, catalog[0], source).None?
    requires CopyMeets(basis, s, t, catalog[1..], source, target[catalog[0].name := Get(source, catalog[0].name)])
    ensures CopyMeets(basis, s, t, catalog, source, target)
  {
    var i := FirstFailing(basis, s, t, catalog, source);
    assert i == 1 + FirstFailing(basis, s, t, catalog[1..], source);
    var next := target[catalog[0].name := Get(source, catalog[0].name)];
    CopyAllStep(basis, s, t, catalog, source, target);
    assert CopyAll(basis, s, t, catalog, source, target) == CopyAll(basis, s, t, catalog[1..], source, next);
    OverlayPrefix(target, source, catalog, i - 1);
    assert i < |catalog| ==> catalog[i] == catalog[1..][i - 1];
  }

  lemma OverlayPrefix(target: Obj, source: Obj, catalog: seq<Descriptor>, k: nat)
    requires k < |catalog|
    ensures Overlay(target[catalog[0].name := Get(source, catalog[0].name)], source, NameSet(catalog[1..][..k]))
            == Overlay(target, source, NameSet(catalog[..k + 1]))
  {
    assert catalog[..k + 1] == [catalog[0]] + catalog[1..][..k];
    NameSetCons(catalog[0], catalog[1..][..k]);
    OverlayAdd(target, source, catalog[0].name, NameSet(catalog[1..][..k]));
  }

  /** A catalog member whose name the other type lacks always makes the bulk
      copy fail: if no earlier member fails, that one does. */
  lemma {:induction false} CopyAllFailsOnMissing(basis: PropertyList, s: TypeInfo, t: TypeInfo, catalog: seq<Descriptor>,
                                                 source: Obj, target: Obj, d: Descriptor)
    requires d in catalog && d.name !in NameSet(OtherType(basis, s, t).members)
    ensures CopyAll(basis, s, t, catalog, source, target).failure.Some?
  {
    CopyAllStep(basis, s, t, catalog, source, target);
    if d != catalog[0] && MemberFailure(basis, s, t, catalog[0], source).None? {
      assert d in catalog[1..];
      CopyAllFailsOnMissing(basis, s, t, catalog[1..], source, target[catalog[0].name := Get(source, catalog[0].name)], d);
    }
  }

  /** Mapping the same source into a target twice gives what mapping it once
      gives, on success and on failure alike (the bulk copy only). */
  lemma CopyAllIdempotent(basis: PropertyList, s: TypeInfo, t: TypeInfo, catalog: seq<Descriptor>, source: Obj, target: Obj)
    ensures var once := CopyAll(basis, s, t, catalog, source, target);
            CopyAll(basis, s, t, catalog, source, once.target) == once
  {
    var once := CopyAll(basis, s, t, catalog, source, target);
    CopyAllSpec(basis, s, t, catalog, source, target);
    CopyAllSpec(basis, s, t, catalog, source, once.target);
    var names := NameSet(catalog[..FirstFailing(basis, s, t, catalog, source)]);
    var twice := Overlay(once.target, source, names);
    assert twice.Keys == once.target.Keys;
    forall k | k in twice.Keys ensures twice[k] == once.target[k] {
      assert Get(twice, k) == Get(once.target, k);
    }
  }

  /** An object of the target type keeps exactly the target type's members:
      every member the copy writes exists on the target type. */
  lemma {:induction false} CopyAllKeepsShape(basis: PropertyList, s: TypeInfo, t: TypeInfo, catalog: seq<Descriptor>, source: Obj, target: Obj)
    requires Conforms(target, t)
    requires basis == Target ==> forall d :: d in catalog ==> d in t.members
    ensures Conforms(CopyAll(basis, s, t, catalog, source, target).target, t)
  {
    CopyAllSpec(basis, s, t, catalog, source, target);
    var i := FirstFailing(basis, s, t, catalog, source);
    forall n | n in NameSet(catalog[..i]) ensures n in NameSet(t.members) {
      var d :| d in catalog[..i] && d.name == n;
      var j :| 0 <= j < i && catalog[..i][j] == d;
      assert MemberFailure(basis, s, t, catalog[j], source).None?;
      if basis == Target {
        assert d in catalog;
      }
    }
  }

  /** `Map(source, target)` with both arguments present: the bulk copy as
      `CopyAllSpec` describes it; on a copy failure no action runs; otherwise
      the actions run, in order, on the copied target. */
  lemma ExecuteSpec(cfg: Config, source: Obj, target: Obj)
    ensures var i := FirstFailing(cfg.basis, cfg.sourceType, cfg.targetType, cfg.catalog, source);
            var copied := Overlay(target, source, NameSet(cfg.catalog[..i]));
            Execute(cfg, Some(source), Some(target)) ==
              if i < |cfg.catalog| then
                Outcome(Some(copied), MemberFailure(cfg.basis, cfg.sourceType, cfg.targetType, cfg.catalog[i], source))
              else
                var done := RunActions(cfg.actions, source, copied);
                Outcome(Some(done.target), done.failure)
  {
    CopyAllSpec(cfg.basis, cfg.sourceType, cfg.targetType, cfg.catalog, source, target);
  }

  /** Without actions, calling `Map` twice with the same source leaves the
      target as one call does, whatever the arguments. */
  lemma ExecuteIdempotent(cfg: Config, source: Option<Obj>, target: Option<Obj>)
    requires cfg.actions == []
    ensures var once := Execute(cfg, source, target);
            Execute(cfg, source, once.target) == once
  {
    if source.Some? && target.Some? {
      CopyAllIdempotent(cfg.basis, cfg.sourceType, cfg.targetType, cfg.catalog, source.value, target.value);
    }
  }

  /** Running two lists of actions one after the other is running their
      concatenation: actions run strictly in registration order. */
  lemma {:induction false} RunActionsAppend(xs: seq<Action>, ys: seq<Action>, source: Obj, target: Obj)
    ensures var r := RunActions(xs, source, target);
            RunActions(xs + ys, source, target) ==
              if r.failure.Some? then r else RunActions(ys, source, r.target)
  {
    if xs != [] {
      assert (xs + ys)[0] == xs[0];
      assert (xs + ys)[1..] == xs[1..] + ys;
      var r := RunAction(xs[0], source, target);
      if r.failure.None? {
        RunActionsAppend(xs[1..], ys, source, r.target);
      }
    } else {
      assert xs + ys == ys;
    }
  }

  /** Registering one more action makes `Map` do what it did before and then,
      only if that succeeded, run the new action on the resulting target. */
  lemma ExecuteAfterInclude(cfg: Config, a: Action, source: Option<Obj>, target: Option<Obj>)
    ensures var before := Execute(cfg, source, target);
            Execute(cfg.(actions := cfg.actions + [a]), source, target) ==
              if before.failure.Some? then before
              else
                var r := RunAction(a, source.value, before.target.value);
                Outcome(Some(r.target), r.failure)
  {
    if source.Some? && target.Some? {
      var copied := CopyAll(cfg.basis, cfg.sourceType, cfg.targetType, cfg.catalog, source.value, target.value);
      if copied.failure.None? {
        RunActionsAppend(cfg.actions, [a], source.value, copied.target);
        assert [a][1..] == [];
      }
    }
  }

  /** An action registered last observes the bulk copy and overrides it: after
      a successful `Map`, the member it assigns holds its value. */
  lemma AssignOverridesCopy(cfg: Config, q: string, v: Option<Value>, source: Obj, target: Obj)
    requires Execute(cfg, Some(source), Some(target)).failure.None?
    ensures var after := Execute(cfg.(actions := cfg.actions + [Assign(q, v)]), Some(source), Some(target));
            after.failure.None? && Get(after.target.value, q) == v
  {
    ExecuteAfterInclude(cfg, Assign(q, v), Some(source), Some(target));
  }

  /** The fill-if-null sample action, registered after the bulk copy: a
      member the copy left null takes the source's value, a member that holds
      a value keeps it, and no other member changes. */
  lemma FillIfNullAfterCopy(cfg: Config, p: string, q: string, source: Obj, target: Obj)
    requires Execute(cfg, Some(source), Some(target)).failure.None?
    ensures var copied := Execute(cfg, Some(source), Some(target)).target.value;
            var after := Execute(cfg.(actions := cfg.actions + [FillIfNull(p, q)]), Some(source), Some(target));
            after.failure.None? &&
            Get(after.target.value, q) == (if Get(copied, q).None? then Get(source, p) else Get(copied, q)) &&
            forall k :: k != q ==> Get(after.target.value, k) == Get(copied, k)
  {
    ExecuteAfterInclude(cfg, FillIfNull(p, q), Some(source), Some(target));
  }

  /** The nested-mapper action propagates null: a null source member makes
      the target member null, whatever it held before. */
  lemma NestedNullClears(p: string, q: string, sub: Config, source: Obj, target: Obj)
    requires Get(source, p).None?
    ensures var r := RunAction(MapNested(p, q, sub), source, target);
            r.failure.None? && Get(r.target, q).None? &&
            forall k :: k != q ==> Get(r.target, k) == Get(target, k)
  {
  }

  /** The nested-mapper action reuses an existing target instance: it keeps
      its type, and the members the sub-mapper's catalog does not name keep
      their values; only the catalog's members receive the source's. */
  lemma NestedReusesInstance(p: string, q: string, sub: Config, source: Obj, target: Obj,
                             srcTag: string, inner: Obj, tag: string, existing: Obj)
    requires Get(source, p) == Some(Instance(srcTag, inner))
    requires Get(target, q) == Some(Instance(tag, existing))
    requires sub.actions == []
    requires FirstFailing(sub.basis, sub.sourceType, sub.targetType, sub.catalog, inner) == |sub.catalog|
    ensures RunAction(MapNested(p, q, sub), source, target) ==
              Run(target[q := Some(Instance(tag, Overlay(existing, inner, NameSet(sub.catalog))))], None)
  {
    ExecuteSpec(sub, inner, existing);
    assert sub.catalog[..|sub.catalog|] == sub.catalog;
  }

  /** When the target member is null, the nested-mapper action maps into a
      fresh instance of the sub-mapper's target type. */
  lemma NestedCreatesInstance(p: string, q: string, sub: Config, source: Obj, target: Obj, srcTag: string, inner: Obj)
    requires Get(source, p) == Some(Instance(srcTag, inner))
    requires Get(target, q).None?
    requires sub.actions == []
    requires FirstFailing(sub.basis, sub.sourceType, sub.targetType, sub.catalog, inner) == |sub.catalog|
    ensures RunAction(MapNested(p, q, sub), source, target) ==
              Run(target[q := Some(Instance(sub.targetType.name,
                                            Overlay(sub.targetType.initial, inner, NameSet(sub.catalog))))], None)
  {
    ExecuteSpec(sub, inner, sub.targetType.initial);
    assert sub.catalog[..|sub.catalog|] == sub.catalog;
  }
}
