/** Descriptions of the two object types a mapper works between, and the
    values and objects it copies. Reflection over real .NET types is
    replaced by an explicit list of member descriptors per type; an object is
    a map from member name to a possibly-null value.
 */
module Types {

  datatype Option<T> = None | Some(value: T)

  /** A failure of a mapper operation: either an exception the library throws
      with a fixed message, or the conversion error raised by the runtime when
      a value is assigned to a member of another type. */
  datatype Failure =
    | Thrown(message: string)
    | Conversion(valueType: string, memberType: string)

  datatype Result<T> = Ok(value: T) | Err(failure: Failure)

  /** Which type's member list drives the by-name matching (the `PropertyList` enum). */
  datatype PropertyList = Source | Target

  /** The write state the runtime reports for a member's declared nullability. */
  datatype NullabilityState = Unknown | NotNull | Nullable

  /** ValueType: a value type that is not `Nullable<T>` (such as `int`);
      NullableValueType: `Nullable<T>` (such as `int?`); ReferenceType: a class. */
  datatype Kind = ValueType | NullableValueType | ReferenceType

  /** One member (property) of a type: its name, declared type and nullability. */
  datatype Descriptor = Descriptor(name: string, typeName: string, kind: Kind, writeState: NullabilityState)

  /** A non-null runtime value: a primitive or enum, a string, or an instance of
      a class, whose own members are again a name-to-value map. */
  datatype Value =
    | Scalar(typeName: string, data: int)
    | Text(text: string)
    | Instance(typeName: string, members: map<string, Option<Value>>)

  type Obj = map<string, Option<Value>>

  /** A type: its short name (as `typeof(T).Name` gives it), its members in
      the order `GetProperties` returns them, and the object its
      parameterless constructor builds. */
  datatype TypeInfo = TypeInfo(name: string, members: seq<Descriptor>, initial: Obj)

  /** The runtime type name of a value. */
  function TypeOf(v: Value): string
  {
    match v
    case Scalar(t, _) => t
    case Text(_) => "String"
    case Instance(t, _) => t
  }

  /** The value of member `name` of an object; a member the object does not hold reads as null. */
  function Get(o: Obj, name: string): (r: Option<Value>)
    ensures name !in o ==> r == None
    ensures name in o ==> r == o[name]
  {
    if name in o then o[name] else None
  }

  function NameSet(ds: seq<Descriptor>): set<string>
  {
    set d | d in ds :: d.name
  }

  /** `Type.GetProperty(name)`: the member of `t` with that name, if there is one. */
  function Lookup(t: TypeInfo, name: string): (r: Option<Descriptor>)
    ensures r.Some? ==> r.value in t.members && r.value.name == name
    ensures r.None? <==> name !in NameSet(t.members)
  {
    FindByName(t.members, name)
  }

  function FindByName(ds: seq<Descriptor>, name: string): (r: Option<Descriptor>)
    ensures r.Some? ==> r.value in ds && r.value.name == name
    ensures r.None? <==> name !in NameSet(ds)
  {
    if ds == [] then None
    else if ds[0].name == name then Some(ds[0])
    else
      var r := FindByName(ds[1..], name);
      assert NameSet(ds) == {ds[0].name} + NameSet(ds[1..]) by {
        assert ds == [ds[0]] + ds[1..];
      }
      r
  }

  /** The null check of `MapPropertyValue`: the destination member refuses a
      null value when it is a non-nullable value type, or when its declared
      write state is anything but Nullable. */
  predicate RejectsNull(d: Descriptor)
  {
    (d.kind == ValueType) || d.writeState != Nullable
  }

  /** An object of type `t` holds exactly the members `t` declares. */
  ghost predicate Conforms(o: Obj, t: TypeInfo)
  {
    o.Keys == NameSet(t.members)
  }

  /** Member names are unique within a type, as the C# compiler guarantees for
      the properties one class declares. */
  ghost predicate UniqueNames(ds: seq<Descriptor>)
  {
    forall i, j :: 0 <= i < j < |ds| ==> ds[i].name != ds[j].name
  }

  /** The names of a catalog with one more member in front. */
  lemma NameSetCons(d: Descriptor, r: seq<Descriptor>)
    ensures NameSet([d] + r) == {d.name} + NameSet(r)
  {
    forall n | n in NameSet([d] + r) ensures n in {d.name} + NameSet(r) {
      var e :| e in [d] + r && e.name == n;
      if e != d { assert e in r; }
    }
    forall n | n in {d.name} + NameSet(r) ensures n in NameSet([d] + r) {
      if n != d.name {
        var e :| e in r && e.name == n;
        assert e in [d] + r;
      }
    }
  }

  /** Names stay unique with a member in front exactly when its name is new. */
  lemma UniqueCons(d: Descriptor, r: seq<Descriptor>)
    ensures UniqueNames([d] + r) <==> d.name !in NameSet(r) && UniqueNames(r)
  {
    var s := [d] + r;
    if UniqueNames(s) {
      forall i, j | 0 <= i < j < |r| ensures r[i].name != r[j].name {
        assert r[i] == s[i + 1] && r[j] == s[j + 1];
      }
      forall e | e in r ensures e.name != d.name {
        var k :| 0 <= k < |r| && r[k] == e;
        assert s[k + 1] == e && s[0] == d;
      }
    }
    if d.name !in NameSet(r) && UniqueNames(r) {
      forall i, j | 0 <= i < j < |s| ensures s[i].name != s[j].name {
        if i == 0 {
          assert s[j] == r[j - 1] && s[j] in r;
          assert s[j].name in NameSet(r);
        } else {
          assert s[i] == r[i - 1] && s[j] == r[j - 1];
        }
      }
    }
  }
}
