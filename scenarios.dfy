/** Concrete mappings taken from the repository's tests, worked out against
    the model: the exact error messages, and the catalogs the ignore calls
    leave behind.
 */
module Scenarios {
  import opened Types
  import opened Executor
  import opened Catalog
  import opened Mapper
  import Properties

  function StringMember(name: string, state: NullabilityState): Descriptor
  {
    Descriptor(name, "String", ReferenceType, state)
  }

  /** Two types whose second members have different names. */
  function MismatchA(): TypeInfo
  {
    TypeInfo("DummyA", [StringMember("XString1", NotNull), StringMember("XStringA2", NotNull)],
             map["XString1" := Some(Text("")), "XStringA2" := Some(Text(""))])
  }

  function MismatchB(): TypeInfo
  {
    TypeInfo("DummyB", [StringMember("XString1", NotNull), StringMember("XStringB2", NotNull)],
             map["XString1" := Some(Text("")), "XStringB2" := Some(Text(""))])
  }

  lemma NotFoundOnTargetText()
    ensures NotFoundMessage("XStringA2", "target", MismatchB())
            == "Property 'XStringA2' was not found on target 'DummyB'."
  {
    var x := NotFoundMessage("XStringA2", "target", MismatchB());
    var y := "Property 'XStringA2' was not found on target 'DummyB'.";
    assert |x| == |y| && forall i :: 0 <= i < |x| ==> x[i] == y[i];
  }

  lemma NotFoundOnSourceText()
    ensures NotFoundMessage("XStringB2", "source", MismatchA())
            == "Property 'XStringB2' was not found on source 'DummyA'."
  {
    var x := NotFoundMessage("XStringB2", "source", MismatchA());
    var y := "Property 'XStringB2' was not found on source 'DummyA'.";
    assert |x| == |y| && forall i :: 0 <= i < |x| ==> x[i] == y[i];
  }

  /** Under the Source basis the first source member without a counterpart
      is reported as missing on the target. */
  lemma MemberNameMismatchSource()
    ensures Execute(Config(Source, MismatchA(), MismatchB(), MismatchA().members, []),
                    Some(MismatchA().initial), Some(MismatchB().initial)).failure
            == Some(Thrown("Property 'XStringA2' was not found on target 'DummyB'."))
  {
    var a, b := MismatchA(), MismatchB();
    assert Lookup(b, "XString1") == Some(b.members[0]);
    assert Lookup(b, "XStringA2") == None by {
      assert FindByName(b.members[1..][1..], "XStringA2") == None;
    }
    var first := CopyMember(Source, a, b, a.members[0], a.initial, b.initial);
    assert first.failure == None;
    assert CopyAll(Source, a, b, a.members, a.initial, b.initial)
           == CopyAll(Source, a, b, a.members[1..], a.initial, first.target);
    assert CopyAll(Source, a, b, a.members[1..], a.initial, first.target).failure
           == Some(Thrown(NotFoundMessage("XStringA2", "target", b)));
    NotFoundOnTargetText();
  }

  /** Under the Target basis the first target member without a counterpart
      is reported as missing on the source. */
  lemma MemberNameMismatchTarget()
    ensures Execute(Config(Target, MismatchA(), MismatchB(), MismatchB().members, []),
                    Some(MismatchA().initial), Some(MismatchB().initial)).failure
            == Some(Thrown("Property 'XStringB2' was not found on source 'DummyA'."))
  {
    var a, b := MismatchA(), MismatchB();
    assert Lookup(a, "XString1") == Some(a.members[0]);
    assert Lookup(a, "XStringB2") == None by {
      assert FindByName(a.members[1..][1..], "XStringB2") == None;
    }
    var first := CopyMember(Target, a, b, b.members[0], a.initial, b.initial);
    assert first.failure == None;
    assert CopyAll(Target, a, b, b.members, a.initial, b.initial)
           == CopyAll(Target, a, b, b.members[1..], a.initial, first.target);
    assert CopyAll(Target, a, b, b.members[1..], a.initial, first.target).failure
           == Some(Thrown(NotFoundMessage("XStringB2", "source", a)));
    NotFoundOnSourceText();
  }

  /** `int? XInt` (null by default) on the source, `int XInt = 2` on the target. */
  function NullableIntA(): TypeInfo
  {
    TypeInfo("DummyA", [Descriptor("XInt", "Int32", NullableValueType, Nullable)], map["XInt" := None])
  }

  function PlainIntB(): TypeInfo
  {
    TypeInfo("DummyB", [Descriptor("XInt", "Int32", ValueType, NotNull)], map["XInt" := Some(Scalar("Int32", 2))])
  }

  /** A null source value bound for a non-nullable value type fails with a
      message naming both members, whichever the basis, and the target keeps
      its value. */
  lemma AssignNullToNotNullable(basis: PropertyList)
    ensures var cfg := Config(basis, NullableIntA(), PlainIntB(),
                              if basis == Source then NullableIntA().members else PlainIntB().members, []);
            Execute(cfg, Some(NullableIntA().initial), Some(PlainIntB().initial))
            == Outcome(Some(PlainIntB().initial),
                       Some(Thrown(NotNullableMessage(NullableIntA(), NullableIntA().members[0],
                                                      PlainIntB(), PlainIntB().members[0]))))
  {
    var a, b := NullableIntA(), PlainIntB();
    assert Lookup(a, "XInt") == Some(a.members[0]);
    assert Lookup(b, "XInt") == Some(b.members[0]);
    var catalog := if basis == Source then a.members else b.members;
    assert CopyAll(basis, a, b, catalog, a.initial, b.initial)
           == CopyMember(basis, a, b, catalog[0], a.initial, b.initial);
  }

  /** The shared test types `Dummy1` and `Dummy2`. */
  function Dummy1(): TypeInfo
  {
    TypeInfo("Dummy1",
      [ StringMember("XString", NotNull), StringMember("XNullableString", Nullable),
        Descriptor("XInt", "Int32", ValueType, NotNull), Descriptor("XNullableInt", "Int32", NullableValueType, Nullable),
        Descriptor("XEnum", "DummyEnum", ValueType, NotNull), Descriptor("XNullableEnum", "DummyEnum", NullableValueType, Nullable),
        Descriptor("XType", "Type", ReferenceType, Nullable), Descriptor("Multiple", "IEnumerable`1", ReferenceType, NotNull) ],
      map["XString" := Some(Text("")), "XNullableString" := None, "XInt" := Some(Scalar("Int32", 0)),
          "XNullableInt" := None, "XEnum" := Some(Scalar("DummyEnum", 0)), "XNullableEnum" := None,
          "XType" := None, "Multiple" := Some(Instance("EmptyPartition`1", map[]))])
  }

  function Dummy2(): TypeInfo
  {
    TypeInfo("Dummy2",
      [ StringMember("XString", NotNull), StringMember("XNullableString", Nullable),
        StringMember("XNullableString2", Nullable),
        Descriptor("XInt", "Int32", ValueType, NotNull), Descriptor("XNullableInt", "Int32", NullableValueType, Nullable),
        Descriptor("XEnum", "DummyEnum", ValueType, NotNull), Descriptor("XNullableEnum", "DummyEnum", NullableValueType, Nullable) ],
      map["XString" := Some(Text("")), "XNullableString" := None, "XNullableString2" := None,
          "XInt" := Some(Scalar("Int32", 0)), "XNullableInt" := None, "XEnum" := Some(Scalar("DummyEnum", 0)),
          "XNullableEnum" := None])
  }

  /** The catalog steps of `IgnoreTargetProperties`. */
  lemma IgnoreTargetSteps()
    ensures var t := Dummy2().members;
            RemoveFirst(RemoveFirst(RemoveFirst(RemoveFirst(t, "XNullableInt"), "XString"), "XEnum"), "XNullableEnum")
            == [t[1], t[2], t[3]]
  {
    var t := Dummy2().members;
    RemoveFirstAt(t, 4);
    var c1 := [t[0], t[1], t[2], t[3], t[5], t[6]];
    assert RemoveFirst(t, "XNullableInt") == c1;
    RemoveFirstAt(c1, 0);
    var c2 := [t[1], t[2], t[3], t[5], t[6]];
    assert RemoveFirst(c1, "XString") == c2;
    RemoveFirstAt(c2, 3);
    var c3 := [t[1], t[2], t[3], t[6]];
    assert RemoveFirst(c2, "XEnum") == c3;
    RemoveFirstAt(c3, 3);
    assert RemoveFirst(c3, "XNullableEnum") == [t[1], t[2], t[3]];
  }

  /** Ignoring four target members under the Target basis leaves the other
      three, in catalog order. */
  method IgnoreTargetProperties() returns (catalog: seq<Descriptor>)
    ensures var t := Dummy2().members; catalog == [t[1], t[2], t[3]]
  {
    var m := new XMapper(Target, Dummy1(), Dummy2());
    var r := m.IgnoreTargetProperty("XNullableInt");
    r := m.IgnoreTargetProperty("XString");
    r := m.IgnoreTargetProperty("XEnum");
    r := m.IgnoreTargetProperty("XNullableEnum");
    IgnoreTargetSteps();
    catalog := m.catalog;
  }

  /** The first two catalog steps of `IgnoreSourceProperties`. */
  lemma IgnoreSourceFirstSteps()
    ensures var s := Dummy1().members;
            RemoveFirst(RemoveFirst(s, "XNullableInt"), "XString") == [s[1], s[2], s[4], s[5], s[6], s[7]]
  {
    var s := Dummy1().members;
    RemoveFirstAt(s, 3);
    var c1 := [s[0], s[1], s[2], s[4], s[5], s[6], s[7]];
    assert s[..3] + s[4..] == c1;
    RemoveFirstAt(c1, 0);
  }

  /** The last two catalog steps of `IgnoreSourceProperties`. */
  lemma IgnoreSourceLastSteps()
    ensures var s := Dummy1().members;
            RemoveFirst(RemoveFirst([s[1], s[2], s[4], s[5], s[6], s[7]], "XEnum"), "XNullableEnum")
            == [s[1], s[2], s[6], s[7]]
  {
    var s := Dummy1().members;
    var c2 := [s[1], s[2], s[4], s[5], s[6], s[7]];
    RemoveFirstAt(c2, 2);
    var c3 := [s[1], s[2], s[5], s[6], s[7]];
    assert c2[..2] + c2[3..] == c3;
    RemoveFirstAt(c3, 2);
    assert c3[..2] + c3[3..] == [s[1], s[2], s[6], s[7]];
  }

  /** Ignoring the same four source members under the Source basis leaves
      every other member of `Dummy1`, the reference-typed `XType` and
      `Multiple` included. */
  method IgnoreSourceProperties() returns (catalog: seq<Descriptor>)
    ensures var s := Dummy1().members; catalog == [s[1], s[2], s[6], s[7]]
  {
    var m := new XMapper(Source, Dummy1(), Dummy2());
    var r := m.IgnoreSourceProperty("XNullableInt");
    r := m.IgnoreSourceProperty("XString");
    r := m.IgnoreSourceProperty("XEnum");
    r := m.IgnoreSourceProperty("XNullableEnum");
    IgnoreSourceFirstSteps();
    IgnoreSourceLastSteps();
    catalog := m.catalog;
  }

  /** The catalog of a Source-basis `XMapper<Dummy1, Dummy2>` after ignoring
      `XNullableEnum`. */
  lemma IgnoreNullableEnumStep()
    ensures var s := Dummy1().members;
            RemoveFirst(s, "XNullableEnum") == [s[0], s[1], s[2], s[3], s[4], s[6], s[7]]
  {
    var s := Dummy1().members;
    RemoveFirstAt(s, 5);
    assert s[..5] + s[6..] == [s[0], s[1], s[2], s[3], s[4], s[6], s[7]];
  }

  /** The custom-action mapping: `Dummy1` with XNullableEnum, XNullableInt and
      XString set, mapped into a `Dummy2` with XNullableInt set. */
  function ActionSource(): Obj
  {
    Dummy1().initial["XNullableEnum" := Some(Scalar("DummyEnum", 1))]
                    ["XNullableInt" := Some(Scalar("Int32", 2))]
                    ["XString" := Some(Text("Map me!"))]
  }

  function ActionTarget(): Obj
  {
    Dummy2().initial["XNullableInt" := Some(Scalar("Int32", 1))]
  }

  function ActionConfig(): Config
  {
    Config(Source, Dummy1(), Dummy2(), RemoveFirst(Dummy1().members, "XNullableEnum"),
           [FillIfNull("XNullableEnum", "XNullableEnum")])
  }

  /** `Dummy2` has no member `XType`. */
  lemma Dummy2LacksXType()
    ensures "XType" !in NameSet(Dummy2().members)
  {
    var ds := Dummy2().members;
    forall d | d in ds ensures d.name != "XType" {
      var k :| 0 <= k < |ds| && ds[k] == d;
    }
  }

  /** Under the Source basis the catalog of `Dummy1` still lists `XType`,
      which `Dummy2` does not have, so `Map` fails in the bulk copy and the
      registered action has no effect: the outcome is the one the mapper
      would give without it. */
  lemma IncludedActionNotReached()
    ensures var o := Execute(ActionConfig(), Some(ActionSource()), Some(ActionTarget()));
            o.failure.Some? &&
            o == Execute(ActionConfig().(actions := []), Some(ActionSource()), Some(ActionTarget()))
  {
    var a := Dummy1().members;
    IgnoreNullableEnumStep();
    assert a[6] in ActionConfig().catalog && a[6].name == "XType";
    Dummy2LacksXType();
    Properties.CopyAllFailsOnMissing(Source, Dummy1(), Dummy2(), ActionConfig().catalog,
                                     ActionSource(), ActionTarget(), a[6]);
  }

  /** Calling the ignore method of the other basis is refused with a message
      naming the right one, and leaves the catalog as it was. */
  method IgnoreForWrongPropertyList() returns (first: Result<XMapper>, second: Result<XMapper>)
    ensures first == Err(Thrown("Use 'IgnoreTargetProperty' if PropertyList is Target."))
    ensures second == Err(Thrown("Use 'IgnoreSourceProperty' if PropertyList is Source."))
  {
    var s := TypeInfo("DummyA", [StringMember("XStringA", NotNull)], map["XStringA" := Some(Text(""))]);
    var t := TypeInfo("DummyB", [StringMember("XStringA", NotNull)], map["XStringA" := Some(Text(""))]);
    var byTarget := new XMapper(Target, s, t);
    first := byTarget.IgnoreSourceProperty("XStringA");
    assert byTarget.catalog == t.members;
    var bySource := new XMapper(Source, s, t);
    second := bySource.IgnoreTargetProperty("XStringA");
    assert bySource.catalog == s.members;
  }
}
