/** The module state of sqeezz and the operations that change it in place:
    the registry `_refs`, the active group `_group_name`, the builders that
    all write into the one registry, `using`, and the wrapper that `group`
    returns. */
module Sqeezz {
  import opened Refs
  import opened Scope

  /** The module's two globals: `_refs` and `_group_name`. */
  class Registry<V> {
    var refs: Table<V>
    var groupName: string

    /** The state at import time: no groups, and `default` active. */
    constructor ()
      ensures refs == map[] && groupName == DefaultGroup
    {
      refs := map[];
      groupName := DefaultGroup;
    }

    /** `using(name)`: the value bound to `name` in the active group. It
        fails when the active group was never built, or when the group has
        no such name; it reads the state and changes nothing. */
    function Using(name: string): (r: Result<V>)
      reads this
      ensures r.Success? <==> groupName in refs && name in refs[groupName]
      ensures r.Success? ==> r.value == refs[groupName][name]
      ensures groupName !in refs ==> r == Failure(UnknownGroup(groupName))
      ensures groupName in refs && name !in refs[groupName] ==> r == Failure(UnknownReference(groupName, name))
    {
      Lookup(refs, groupName, name)
    }

    /** A call of the callable `group(w.group, w.body)` returns: save the
        active group, switch to `w.group`, run the body, then restore the
        saved group, but only if the body returned. */
    method Invoke(w: Wrapper) returns (outcome: Outcome<V>)
      modifies this`groupName
      decreases w
      ensures refs == old(refs)
      ensures Exec(outcome, groupName) == Wrapped(refs, old(groupName), w)
    {
      var original := groupName;
      groupName := w.group;
      outcome := RunBody(w.body);
      if outcome.Returned? {
        groupName := original;
      }
    }

    /** Runs a wrapped body step by step against the live state; an
        exception raised by a step ends the body where it stands. */
    method RunBody(steps: seq<Step>) returns (outcome: Outcome<V>)
      modifies this`groupName
      decreases steps
      ensures refs == old(refs)
      ensures Exec(outcome, groupName) == Run(refs, old(groupName), steps)
    {
      var resolved: seq<V> := [];
      var i := 0;
      while i < |steps|
        invariant 0 <= i <= |steps|
        invariant refs == old(refs)
        invariant Run(refs, old(groupName), steps) == Prepend(resolved, Run(refs, groupName, steps[i..]))
      {
        assert steps decreases to steps[i];
        var o := Perform(steps, i);
        if o.Raised? {
          return o;
        }
        PrependTwice(resolved, o.values, Run(refs, groupName, steps[i + 1..]));
        resolved := resolved + o.values;
        i := i + 1;
      }
      assert steps[i..] == [];
      outcome := Returned(resolved);
    }

    /** Performs step `i` of a body against the live state: a `using`, a
        `raise`, or a call of another wrapper. */
    method Perform(steps: seq<Step>, i: nat) returns (outcome: Outcome<V>)
      requires i < |steps|
      modifies this`groupName
      decreases steps[i]
      ensures refs == old(refs)
      ensures outcome.Raised? ==> Run(refs, old(groupName), steps[i..]) == Exec(outcome, groupName)
      ensures outcome.Returned? ==> groupName == old(groupName)
      ensures outcome.Returned? ==>
        Run(refs, old(groupName), steps[i..]) == Prepend(outcome.values, Run(refs, groupName, steps[i + 1..]))
    {
      match steps[i] {
        case Use(name) =>
          RunStepUse(refs, groupName, steps, i);
          var r := Using(name);
          if r.Failure? {
            outcome := Raised(r.error);
          } else {
            outcome := Returned([r.value]);
          }
        case Raise(message) =>
          RunStepRaise(refs, groupName, steps, i);
          outcome := Raised(BodyException(message));
        case Invoke(w) =>
          RunStepInvoke(refs, groupName, steps, i);
          outcome := Invoke(w);
      }
    }
  }

  /** `_Builder`: every builder holds the one shared registry, so building
      a group name again merges into that group. */
  class Builder<V> {
    const name: string
    const registry: Registry<V>

    constructor (registry: Registry<V>, name: string)
      ensures this.name == name && this.registry == registry
    {
      this.name := name;
      this.registry := registry;
    }

    /** `add_named_ref`: bind `ref` under `refName` in this builder's group
        (created empty if missing); returns this builder for chaining. */
    method AddNamedRef(refName: string, ref: V) returns (self: Builder<V>)
      modifies registry`refs
      ensures self == this
      ensures registry.refs == Bind(old(registry.refs), name, refName, ref)
    {
      registry.refs := Bind(registry.refs, name, refName, ref);
      self := this;
    }

    /** `add_ref`: bind `ref` under its own name, `nameOf(ref)` standing for
        `ref.__name__`; a value without one raises before anything changes. */
    method AddRef(ref: V, nameOf: V -> Option<string>) returns (r: Result<Builder<V>>)
      modifies registry`refs
      ensures r.Success? <==> nameOf(ref).Some?
      ensures r.Success? ==> r.value == this
      ensures r.Success? ==> registry.refs == Bind(old(registry.refs), name, nameOf(ref).value, ref)
      ensures r.Failure? ==> r.error == NoIntrinsicName && registry.refs == old(registry.refs)
    {
      match nameOf(ref)
      case None =>
        r := Failure(NoIntrinsicName);
      case Some(refName) =>
        var self := AddNamedRef(refName, ref);
        r := Success(self);
    }

    /** `lazy_add_ref`: import the module named `refName` (the foreign
        `importModule`) and bind it under that same identifier; a failed
        import raises before anything changes. */
    method LazyAddRef(refName: string, importModule: string -> Option<V>) returns (r: Result<Builder<V>>)
      modifies registry`refs
      ensures r.Success? <==> importModule(refName).Some?
      ensures r.Success? ==> r.value == this
      ensures r.Success? ==> registry.refs == Bind(old(registry.refs), name, refName, importModule(refName).value)
      ensures r.Failure? ==> r.error == ModuleNotFound(refName) && registry.refs == old(registry.refs)
    {
      match importModule(refName)
      case None =>
        r := Failure(ModuleNotFound(refName));
      case Some(imported) =>
        var self := AddNamedRef(refName, imported);
        r := Success(self);
    }
  }

  /** `builder(name='default')`: a new builder over the shared registry. */
  method NewBuilder<V>(registry: Registry<V>, name: string := DefaultGroup) returns (b: Builder<V>)
    ensures fresh(b)
    ensures b.registry == registry && b.name == name
  {
    b := new Builder(registry, name);
  }
}
