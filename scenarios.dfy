/** Client programs of the registry, written against the contracts alone:
    the group-switching test run one call after the other, a nested
    wrapper, a lookup that fails inside a wrapper, and the configuration
    that builds `default` three times. */
module Scenarios {
  import opened Refs
  import opened Scope
  import opened Sqeezz

  /** The kinds of value the scenarios bind. */
  datatype Ref = Str(s: string) | Num(n: int) | Module(moduleName: string)

  /** The test setup: `group_a` binds `value` to "A" and `multiplier` to 2,
      `group_b` binds them to "B" and 3, and `default` is active. */
  method TwoGroups() returns (registry: Registry<Ref>)
    ensures fresh(registry)
    ensures registry.groupName == DefaultGroup
    ensures registry.refs.Keys == {"group_a", "group_b"}
    ensures registry.refs["group_a"] == map["value" := Str("A"), "multiplier" := Num(2)]
    ensures registry.refs["group_b"] == map["value" := Str("B"), "multiplier" := Num(3)]
  {
    registry := new Registry<Ref>();
    var a := NewBuilder(registry, "group_a");
    a := a.AddNamedRef("value", Str("A"));
    a := a.AddNamedRef("multiplier", Num(2));
    var b := NewBuilder(registry, "group_b");
    b := b.AddNamedRef("value", Str("B"));
    b := b.AddNamedRef("multiplier", Num(3));
  }

  /** The same body wrapped for each group sees only that group's bindings
      ("A" twice, "B" three times), and `default` is active again afterwards. */
  method SameBodyTwoGroups() returns (fromA: Outcome<Ref>, fromB: Outcome<Ref>, after: string)
    ensures fromA == Returned([Str("A"), Num(2)])
    ensures fromB == Returned([Str("B"), Num(3)])
    ensures after == DefaultGroup
  {
    var registry := TwoGroups();
    var body := [Use("value"), Use("multiplier")];
    RunFlatResolves(registry.refs, "group_a", body);
    fromA := registry.Invoke(Wrapper("group_a", body));
    RunFlatResolves(registry.refs, "group_b", body);
    fromB := registry.Invoke(Wrapper("group_b", body));
    after := registry.groupName;
  }

  /** A wrapper for `group_a` that calls one for `group_b` sees `group_b`
      inside the inner call and `group_a` again after it returns. */
  method NestedGroups() returns (nested: Outcome<Ref>, after: string)
    ensures nested == Returned([Str("A"), Str("B"), Num(2)])
    ensures after == DefaultGroup
  {
    var registry := TwoGroups();
    var refs := registry.refs;
    var inner := Wrapper("group_b", [Use("value")]);
    RunFlatResolves(refs, "group_b", inner.body);
    NestedRestoresOuter(refs, "group_a", inner, [Use("multiplier")]);
    RunFlatResolves(refs, "group_a", [Use("multiplier")]);
    var outer := [Use("value"), Invoke(inner), Use("multiplier")];
    RunStepUse(refs, "group_a", outer, 0);
    assert outer[1..] == [Invoke(inner)] + [Use("multiplier")];
    nested := registry.Invoke(Wrapper("group_a", outer));
    after := registry.groupName;
  }

  /** A lookup of an unbound name inside a wrapper raises, and because the
      wrapper restores only after a normal return, its group stays active. */
  method FailureKeepsGroup() returns (outcome: Outcome<Ref>, after: string)
    ensures outcome == Raised(UnknownReference("group_a", "missing"))
    ensures after == "group_a"
  {
    var registry := new Registry<Ref>();
    var a := NewBuilder(registry, "group_a");
    a := a.AddNamedRef("value", Str("A"));
    var w := Wrapper("group_a", [Use("missing"), Use("value")]);
    RunStepUse(registry.refs, "group_a", w.body, 0);
    outcome := registry.Invoke(w);
    after := registry.groupName;
  }

  /** Three builders of `default`, as the configuration makes them, merge
      into one group: every name bound by any of them resolves, an unbound
      name fails on the name, and a group never built fails on the group. */
  method RebuildDefault() returns (os: Result<Ref>, logger: Result<Ref>, db: Result<Ref>,
                                   unbound: Result<Ref>, elsewhere: Result<Ref>)
    ensures os == Success(Module("os"))
    ensures logger == Success(Str("custom_logger"))
    ensures db == Success(Str("mock_database"))
    ensures unbound == Failure(UnknownReference(DefaultGroup, "cache"))
    ensures elsewhere == Failure(UnknownGroup("production"))
  {
    var registry := new Registry<Ref>();
    var modules := NewBuilder(registry);
    var imported := modules.LazyAddRef("os", (id: string) => Some(Module(id)));
    var functions := NewBuilder(registry);
    var added := functions.AddRef(Str("custom_logger"), (v: Ref) => if v.Str? then Some(v.s) else None);
    var mocks := NewBuilder(registry);
    mocks := mocks.AddNamedRef("db", Str("mock_database"));
    os := registry.Using("os");
    logger := registry.Using("custom_logger");
    db := registry.Using("db");
    unbound := registry.Using("cache");
    registry.groupName := "production";
    elsewhere := registry.Using("db");
  }
}
