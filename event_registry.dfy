/**
 * `DomainEventRegistryImpl`: two dictionaries between event classes and their
 * `__name__`. Generic over the class type `C`; `nameOf` plays `__name__`.
 * The ghost `registered` records every `_register` call in order, and the two
 * dictionaries are always the ones that sequence of calls produces.
 */
module EventRegistry {
  import opened Wrappers
  import opened Errors

  /** `_name_to_cls` after registering `classes` in order: later entries overwrite earlier ones. */
  function NameIndex<C>(classes: seq<C>, nameOf: C -> string): map<string, C> {
    if classes == [] then map[]
    else
      var last := classes[|classes| - 1];
      NameIndex(classes[..|classes| - 1], nameOf)[nameOf(last) := last]
  }

  /** `_cls_to_name` after registering `classes` in order. */
  function ClassIndex<C(==)>(classes: seq<C>, nameOf: C -> string): map<C, string> {
    if classes == [] then map[]
    else
      var last := classes[|classes| - 1];
      ClassIndex(classes[..|classes| - 1], nameOf)[last := nameOf(last)]
  }

  /** A name is known exactly when some registered class carries it. */
  lemma {:induction false} NameIndexDomain<C>(classes: seq<C>, nameOf: C -> string, name: string)
    ensures name in NameIndex(classes, nameOf) <==> exists i :: 0 <= i < |classes| && nameOf(classes[i]) == name
    ensures name in NameIndex(classes, nameOf) ==> nameOf(NameIndex(classes, nameOf)[name]) == name
  {
    if classes != [] {
      var init := classes[..|classes| - 1];
      NameIndexDomain(init, nameOf, name);
      if exists i :: 0 <= i < |init| && nameOf(init[i]) == name {
        var i :| 0 <= i < |init| && nameOf(init[i]) == name;
        assert classes[i] == init[i];
      }
      if exists i :: 0 <= i < |classes| && nameOf(classes[i]) == name {
        var i :| 0 <= i < |classes| && nameOf(classes[i]) == name;
        if i < |init| {
          assert init[i] == classes[i];
        }
      }
    }
  }

  /** The class index knows exactly the registered classes, each under its own name. */
  lemma {:induction false} ClassIndexContents<C>(classes: seq<C>, nameOf: C -> string, c: C)
    ensures c in ClassIndex(classes, nameOf) <==> c in classes
    ensures c in ClassIndex(classes, nameOf) ==> ClassIndex(classes, nameOf)[c] == nameOf(c)
  {
    if classes != [] {
      var init := classes[..|classes| - 1];
      ClassIndexContents(init, nameOf, c);
      assert classes == init + [classes[|classes| - 1]];
    }
  }

  /**
   * A registered class whose name no later registration of another class
   * reuses is what its name resolves to.
   */
  lemma {:induction false} NameResolvesToLastRegistration<C>(classes: seq<C>, nameOf: C -> string, i: nat)
    requires i < |classes|
    requires forall j :: i < j < |classes| && nameOf(classes[j]) == nameOf(classes[i]) ==> classes[j] == classes[i]
    ensures nameOf(classes[i]) in NameIndex(classes, nameOf)
    ensures NameIndex(classes, nameOf)[nameOf(classes[i])] == classes[i]
  {
    if i < |classes| - 1 {
      var init := classes[..|classes| - 1];
      assert forall j :: i < j < |init| ==> init[j] == classes[j];
      NameResolvesToLastRegistration(init, nameOf, i);
    }
  }

  /** `get_class(get_name(C)) == C` when no other registered class shares `C`'s name. */
  lemma RoundTrip<C>(classes: seq<C>, nameOf: C -> string, c: C)
    requires c in classes
    requires forall d :: d in classes && nameOf(d) == nameOf(c) ==> d == c
    ensures nameOf(c) in NameIndex(classes, nameOf)
    ensures NameIndex(classes, nameOf)[nameOf(c)] == c
  {
    var i :| 0 <= i < |classes| && classes[i] == c;
    NameResolvesToLastRegistration(classes, nameOf, i);
  }

  /** Registering a class again changes neither dictionary. */
  lemma ReRegisterIsIdempotent<C>(classes: seq<C>, nameOf: C -> string, c: C)
    ensures NameIndex(classes + [c, c], nameOf) == NameIndex(classes + [c], nameOf)
    ensures ClassIndex(classes + [c, c], nameOf) == ClassIndex(classes + [c], nameOf)
  {
    assert (classes + [c, c])[..|classes| + 1] == classes + [c];
  }

  /** Of two classes sharing a name, the one registered last wins. */
  lemma SameNameLastWins<C>(classes: seq<C>, nameOf: C -> string, a: C, b: C)
    requires nameOf(a) == nameOf(b)
    ensures NameIndex(classes + [a, b], nameOf)[nameOf(a)] == b
  {
    assert (classes + [a, b])[..|classes| + 1] == classes + [a];
  }

  class DomainEventRegistry<C(==)> {
    /** The class's `__name__`. */
    const nameOf: C -> string
    var nameToClass: map<string, C>
    var classToName: map<C, string>
    ghost var registered: seq<C>

    ghost predicate Valid()
      reads this
    {
      nameToClass == NameIndex(registered, nameOf) && classToName == ClassIndex(registered, nameOf)
    }

    /** `__init__(events)`: registers the list in order; `None` and `[]` give an empty registry. */
    constructor (events: Option<seq<C>>, nameOf: C -> string)
      ensures Valid() && this.nameOf == nameOf
      ensures registered == (if events.Some? then events.value else [])
    {
      this.nameOf := nameOf;
      nameToClass := map[];
      classToName := map[];
      registered := [];
      new;
      if events.Some? && events.value != [] {
        var i := 0;
        while i < |events.value|
          invariant 0 <= i <= |events.value|
          invariant Valid() && this.nameOf == nameOf
          invariant registered == events.value[..i]
        {
          Register(events.value[i]);
          i := i + 1;
        }
      }
    }

    /** `_register`: the name maps to the class and the class to its name. */
    method Register(c: C)
      requires Valid()
      modifies this
      ensures Valid() && registered == old(registered) + [c]
      ensures nameToClass == old(nameToClass)[nameOf(c) := c]
      ensures classToName == old(classToName)[c := nameOf(c)]
    {
      var name := nameOf(c);
      nameToClass := nameToClass[name := c];
      classToName := classToName[c := name];
      registered := registered + [c];
      assert registered[..|registered| - 1] == old(registered);
    }

    /** `get_class`: the class registered under `name`, or `EventReconstructionException`. */
    function GetClass(name: string): (r: Result<C, Error>)
      reads this
      requires Valid()
      ensures r.Success? <==> exists i :: 0 <= i < |registered| && nameOf(registered[i]) == name
      ensures r.Success? ==> nameOf(r.value) == name
      ensures r.Failure? ==> r.error == EventReconstruction(name)
    {
      NameIndexDomain(registered, nameOf, name);
      if name !in nameToClass then Failure(EventReconstruction(name)) else Success(nameToClass[name])
    }

    /** `get_name`: never fails; the recorded name, else the class's own `__name__`. */
    function GetName(c: C): (r: string)
      reads this
      requires Valid()
      ensures r == nameOf(c)
    {
      ClassIndexContents(registered, nameOf, c);
      if c in classToName then classToName[c] else nameOf(c)
    }
  }

  /** `get_class(get_name(C)) == C` for a registered class with a unique name, on the object. */
  lemma GetClassOfGetName<C>(r: DomainEventRegistry<C>, c: C)
    requires r.Valid()
    requires c in r.registered
    requires forall d :: d in r.registered && r.nameOf(d) == r.nameOf(c) ==> d == c
    ensures r.GetClass(r.GetName(c)) == Success(c)
  {
    RoundTrip(r.registered, r.nameOf, c);
  }
}
