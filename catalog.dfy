/** The member catalog and the ignore registry's removal from it.
    `IgnoreSourceProperty` and `IgnoreTargetProperty` both end in
    `List<PropertyInfo>.Remove`, which drops the first equal entry and keeps
    the others in their order. For properties declared on the type itself,
    the selected property and the catalog entry of the same name are equal,
    so removal is by name; types are modelled without inheritance.
 */
module Catalog {
  import opened Types

  /** The catalog with the first member called `name` removed; unchanged when there is none. */
  function RemoveFirst(catalog: seq<Descriptor>, name: string): seq<Descriptor>
  {
    if catalog == [] then []
    else if catalog[0].name == name then catalog[1..]
    else [catalog[0]] + RemoveFirst(catalog[1..], name)
  }

  /** The position of the first member called `name`. */
  function FirstIndex(catalog: seq<Descriptor>, name: string): (i: nat)
    requires name in NameSet(catalog)
    ensures i < |catalog| && catalog[i].name == name
    ensures forall j :: 0 <= j < i ==> catalog[j].name != name
  {
    if catalog[0].name == name then 0
    else
      assert name in NameSet(catalog[1..]) by {
        var d :| d in catalog && d.name == name;
        var k :| 0 <= k < |catalog| && catalog[k] == d;
        assert k != 0 && catalog[1..][k - 1] == d;
      }
      1 + FirstIndex(catalog[1..], name)
  }

  /** Ignoring a member in the catalog removes exactly its first entry and
      keeps the members before and after it in their order. */
  lemma {:induction false} RemoveFirstFound(catalog: seq<Descriptor>, name: string)
    requires name in NameSet(catalog)
    ensures var i := FirstIndex(catalog, name);
            RemoveFirst(catalog, name) == catalog[..i] + catalog[i + 1..]
  {
    if catalog[0].name != name {
      assert name in NameSet(catalog[1..]) by {
        var d :| d in catalog && d.name == name;
        var k :| 0 <= k < |catalog| && catalog[k] == d;
        assert k != 0 && catalog[1..][k - 1] == d;
      }
      RemoveFirstFound(catalog[1..], name);
      var i := FirstIndex(catalog[1..], name);
      assert catalog[..i + 1] == [catalog[0]] + catalog[1..][..i];
      assert catalog[i + 2..] == catalog[1..][i + 1..];
    }
  }

  /** The entry at `i` is the one removed when no entry before it has its name. */
  lemma RemoveFirstAt(catalog: seq<Descriptor>, i: nat)
    requires i < |catalog|
    requires forall j :: 0 <= j < i ==> catalog[j].name != catalog[i].name
    ensures RemoveFirst(catalog, catalog[i].name) == catalog[..i] + catalog[i + 1..]
  {
    assert catalog[i] in catalog;
    RemoveFirstFound(catalog, catalog[i].name);
  }

  /** Ignoring a member that is not in the catalog (for one, a member already
      ignored) changes nothing. */
  lemma {:induction false} RemoveFirstAbsent(catalog: seq<Descriptor>, name: string)
    requires name !in NameSet(catalog)
    ensures RemoveFirst(catalog, name) == catalog
  {
    if catalog != [] {
      assert catalog[0] in catalog;
      assert NameSet(catalog[1..]) <= NameSet(catalog);
      RemoveFirstAbsent(catalog[1..], name);
    }
  }

  /** Removal only ever drops members: what is left was in the catalog, one
      entry shorter exactly when the name was present. */
  lemma {:induction false} RemoveFirstShrinks(catalog: seq<Descriptor>, name: string)
    ensures forall d :: d in RemoveFirst(catalog, name) ==> d in catalog
    ensures |RemoveFirst(catalog, name)| == |catalog| - (if name in NameSet(catalog) then 1 else 0)
  {
    if catalog != [] {
      RemoveFirstShrinks(catalog[1..], name);
      assert NameSet(catalog) == {catalog[0].name} + NameSet(catalog[1..]) by {
        assert catalog == [catalog[0]] + catalog[1..];
      }
    }
  }

  /** With unique names, ignoring takes exactly that name out of the catalog
      and the remaining names stay unique. */
  lemma {:induction false} RemoveFirstUnique(catalog: seq<Descriptor>, name: string)
    requires UniqueNames(catalog)
    ensures UniqueNames(RemoveFirst(catalog, name))
    ensures NameSet(RemoveFirst(catalog, name)) == NameSet(catalog) - {name}
  {
    if catalog != [] {
      var rest := catalog[1..];
      assert catalog == [catalog[0]] + rest;
      NameSetCons(catalog[0], rest);
      UniqueCons(catalog[0], rest);
      RemoveFirstUnique(rest, name);
      if catalog[0].name != name {
        NameSetCons(catalog[0], RemoveFirst(rest, name));
        UniqueCons(catalog[0], RemoveFirst(rest, name));
      }
    }
  }

  /** With unique names, ignoring the same member twice is the same as
      ignoring it once. */
  lemma RemoveFirstTwice(catalog: seq<Descriptor>, name: string)
    requires UniqueNames(catalog)
    ensures RemoveFirst(RemoveFirst(catalog, name), name) == RemoveFirst(catalog, name)
  {
    RemoveFirstUnique(catalog, name);
    RemoveFirstAbsent(RemoveFirst(catalog, name), name);
  }

  /** The order in which two members are ignored does not matter. */
  lemma {:induction false} RemoveFirstCommutes(catalog: seq<Descriptor>, a: string, b: string)
    ensures RemoveFirst(RemoveFirst(catalog, a), b) == RemoveFirst(RemoveFirst(catalog, b), a)
  {
    if catalog != [] && a != b {
      var rest := catalog[1..];
      if catalog[0].name == a {
        assert ([catalog[0]] + RemoveFirst(rest, b))[1..] == RemoveFirst(rest, b);
      } else if catalog[0].name == b {
        assert ([catalog[0]] + RemoveFirst(rest, a))[1..] == RemoveFirst(rest, a);
      } else {
        RemoveFirstCommutes(rest, a, b);
        assert ([catalog[0]] + RemoveFirst(rest, a))[1..] == RemoveFirst(rest, a);
        assert ([catalog[0]] + RemoveFirst(rest, b))[1..] == RemoveFirst(rest, b);
      }
    }
  }
}
