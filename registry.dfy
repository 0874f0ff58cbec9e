/**
 * The registry of test systems: a table from a test-system type name to
 * the factory that builds a test system of that type.  Lookup lower-cases
 * the requested type; registration stores the name as given.
 */
module TestSystemRegistry {
  import opened Wrappers
  import Text

  /**
   * The factories, as opaque tags: the four built-in kinds (remote and
   * in-process Slim, remote and in-process Fit) and any factory a plugin
   * registers.
   */
  datatype FactoryKind =
    | HtmlSlim
    | InProcessHtmlSlim
    | Fit
    | InProcessFit
    | Custom(id: nat)

  /** The part of a test-system descriptor the registry and the factories read. */
  datatype Descriptor = Descriptor(testSystemType: string, testSystemName: string)

  /** The test system a factory produced, identified by the factory and the name it was given. */
  datatype TestSystem = TestSystem(builtBy: FactoryKind, name: string)

  datatype CreateError =
    | UnknownTestSystemType(key: string)  // nothing is registered under the lower-cased type
    | ConstructionFailed(reason: string)  // the selected factory threw

  type Table = map<string, FactoryKind>

  /** The table right after construction. */
  function DefaultFactories(): (t: Table)
    ensures t.Keys == {"slim", "slim^inprocess", "fit", "fit^inprocess"}
    ensures t["slim"] == HtmlSlim && t["slim^inprocess"] == InProcessHtmlSlim
    ensures t["fit"] == Fit && t["fit^inprocess"] == InProcessFit
  {
    map["slim" := HtmlSlim, "slim^inprocess" := InProcessHtmlSlim,
        "fit" := Fit, "fit^inprocess" := InProcessFit]
  }

  /** The factory `create` selects for a requested type: the entry under its lower-case form. */
  function Lookup(t: Table, testSystemType: string): (f: Option<FactoryKind>)
    ensures f.Some? <==> Text.ToLower(testSystemType) in t
    ensures f.Some? ==> f.value == t[Text.ToLower(testSystemType)]
  {
    var key := Text.ToLower(testSystemType);
    if key in t then Some(t[key]) else None
  }

  /** Requested types that differ only in letter case select the same factory. */
  lemma LookupIgnoresCase(t: Table, testSystemType: string)
    ensures Lookup(t, Text.ToLower(testSystemType)) == Lookup(t, testSystemType)
  {
    Text.ToLowerIdempotent(testSystemType);
  }

  /** "FIT", "Fit" and "fit" select the same factory. */
  lemma FitSpellings(t: Table)
    ensures Lookup(t, "FIT") == Lookup(t, "Fit") == Lookup(t, "fit")
  {
    assert Text.ToLower("FIT") == "fit";
    assert Text.ToLower("Fit") == "fit";
    assert Text.ToLower("fit") == "fit";
  }

  /** Each built-in kind is selected exactly by the spellings of its own name. */
  lemma DefaultLookup(testSystemType: string)
    ensures Lookup(DefaultFactories(), testSystemType) == Some(Fit) <==> Text.ToLower(testSystemType) == "fit"
    ensures Lookup(DefaultFactories(), testSystemType) == Some(InProcessFit) <==> Text.ToLower(testSystemType) == "fit^inprocess"
    ensures Lookup(DefaultFactories(), testSystemType) == Some(HtmlSlim) <==> Text.ToLower(testSystemType) == "slim"
    ensures Lookup(DefaultFactories(), testSystemType) == Some(InProcessHtmlSlim) <==> Text.ToLower(testSystemType) == "slim^inprocess"
    ensures (forall id :: Lookup(DefaultFactories(), testSystemType) != Some(Custom(id)))
  {
  }

  /** Registering a name without upper-case letters makes every spelling of it select the new factory. */
  lemma RegisteredLowerCaseNameIsSelected(t: Table, name: string, f: FactoryKind, testSystemType: string)
    requires !Text.HasUpper(name)
    requires Text.ToLower(testSystemType) == Text.ToLower(name)
    ensures Lookup(t[name := f], testSystemType) == Some(f)
  {
    Text.ToLowerOfLower(name);
  }

  /**
   * Registration does not lower-case: a name with an upper-case letter is
   * stored, yet no requested type can select it, so registering it changes
   * no lookup at all.
   */
  lemma UpperCaseRegistrationIsUnreachable(t: Table, name: string, f: FactoryKind, testSystemType: string)
    requires Text.HasUpper(name)
    ensures name in t[name := f]
    ensures Lookup(t[name := f], testSystemType) == Lookup(t, testSystemType)
  {
    Text.NotALowerCaseForm(name, testSystemType);
  }

  /** What `create` yields once a factory was selected: the factory's own result (its exception wrapped). */
  function Delegated(produced: Result<TestSystem, string>): (r: Result<TestSystem, CreateError>)
    ensures r.Success? <==> produced.Success?
    ensures r.Success? ==> r.value == produced.value
    ensures r.Failure? ==> r.error == ConstructionFailed(produced.error)
  {
    match produced
    case Success(system) => Success(system)
    case Failure(reason) => Failure(ConstructionFailed(reason))
  }

  class MultipleTestSystemFactory {
    var testSystemFactories: Table

    /** Registers the four built-in factories. */
    constructor ()
      ensures testSystemFactories == DefaultFactories()
    {
      testSystemFactories := map[];
      new;
      RegisterTestSystemFactory("slim", HtmlSlim);
      RegisterTestSystemFactory("slim^inprocess", InProcessHtmlSlim);
      RegisterTestSystemFactory("fit", Fit);
      RegisterTestSystemFactory("fit^inprocess", InProcessFit);
    }

    /** Inserts or overwrites the entry for name, verbatim; the last registration wins. */
    method RegisterTestSystemFactory(name: string, factory: FactoryKind)
      modifies this
      ensures testSystemFactories == old(testSystemFactories)[name := factory]
    {
      testSystemFactories := testSystemFactories[name := factory];
    }

    /**
     * Looks up the lower-cased type and delegates to the factory found there;
     * `invoke` stands for that factory's own create.  The table is only read.
     */
    method Create(descriptor: Descriptor, invoke: (FactoryKind, Descriptor) -> Result<TestSystem, string>)
      returns (r: Result<TestSystem, CreateError>)
      ensures r.Failure? && r.error.UnknownTestSystemType? <==> Lookup(testSystemFactories, descriptor.testSystemType).None?
      ensures r.Failure? && r.error.UnknownTestSystemType? ==> r.error.key == Text.ToLower(descriptor.testSystemType)
      ensures Lookup(testSystemFactories, descriptor.testSystemType).Some? ==>
        r == Delegated(invoke(Lookup(testSystemFactories, descriptor.testSystemType).value, descriptor))
    {
      var key := Text.ToLower(descriptor.testSystemType);
      if key !in testSystemFactories {
        return Failure(UnknownTestSystemType(key));
      }
      var factory := testSystemFactories[key];
      var produced := invoke(factory, descriptor);
      r := Delegated(produced);
    }
  }

  /** After construction, registering a name with an upper-case letter leaves every lookup as it was. */
  method RegisterUpperCaseExample() returns (selected: Option<FactoryKind>)
    ensures selected == Some(Fit)
  {
    var registry := new MultipleTestSystemFactory();
    registry.RegisterTestSystemFactory("FIT", Custom(7));
    assert Text.IsUpper("FIT"[0]);
    UpperCaseRegistrationIsUnreachable(DefaultFactories(), "FIT", Custom(7), "FIT");
    selected := Lookup(registry.testSystemFactories, "FIT");
    DefaultLookup("FIT");
    assert Text.ToLower("FIT") == "fit";
  }
}
