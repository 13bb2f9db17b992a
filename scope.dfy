/** What a call through `group(group_name, func)` does to the active group,
    as a function of the registry, the group active before the call and the
    wrapped body. The body is opaque in the source; here it is a sequence of
    steps, each a `using(name)`, a call of another wrapper, or a `raise` of
    an exception of its own, and it returns the values it resolved, in order. */
module Scope {
  import opened Refs

  /** One thing a wrapped body does. */
  datatype Step = Use(name: string) | Invoke(wrapper: Wrapper) | Raise(message: string)

  /** The callable that `group(group, func)` returns: `func` is `body`. */
  datatype Wrapper = Wrapper(group: string, body: seq<Step>)

  /** How a body ends: it returns, or an exception propagates out of it. */
  datatype Outcome<V> = Returned(values: seq<V>) | Raised(error: Error)

  /** The outcome together with the active group left behind. */
  datatype Exec<V> = Exec(outcome: Outcome<V>, active: string)

  /** Puts values resolved earlier in front of a later run's results; an exception passes through. */
  function Prepend<V>(values: seq<V>, e: Exec<V>): (r: Exec<V>)
    ensures r.active == e.active
    ensures e.outcome.Raised? ==> r == e
    ensures e.outcome.Returned? ==> r.outcome.Returned? && |r.outcome.values| == |values| + |e.outcome.values|
    ensures e.outcome.Returned? ==> r.outcome.values[..|values|] == values
    ensures e.outcome.Returned? ==> r.outcome.values[|values|..] == e.outcome.values
  {
    if e.outcome.Returned? then Exec(Returned(values + e.outcome.values), e.active) else e
  }

  /** Runs a body's steps with `active` as the active group. A failing
      `using` or a `raise` ends the body at once and leaves the active group
      as it is. */
  function Run<V>(refs: Table<V>, active: string, steps: seq<Step>): (e: Exec<V>)
    decreases steps
    ensures e.outcome.Returned? ==> e.active == active
    ensures e.outcome.Raised? && (e.outcome.error.UnknownGroup? || e.outcome.error.UnknownReference?) ==>
      e.active == e.outcome.error.group
    ensures e.outcome.Raised? ==>
      e.outcome.error.UnknownGroup? || e.outcome.error.UnknownReference? || e.outcome.error.BodyException?
  {
    if steps == [] then Exec(Returned([]), active)
    else match steps[0]
      case Use(name) =>
        (match Lookup(refs, active, name)
         case Failure(err) => Exec(Raised(err), active)
         case Success(v) => Prepend([v], Run(refs, active, steps[1..])))
      case Raise(message) => Exec(Raised(BodyException(message)), active)
      case Invoke(w) =>
        assert steps decreases to steps[0];
        var inner := Wrapped(refs, active, w);
        if inner.outcome.Raised? then inner
        else Prepend(inner.outcome.values, Run(refs, inner.active, steps[1..]))
  }

  /** `inner`: save the active group, switch to the wrapper's group, run the
      body, restore the saved group and return the body's value. The restore
      is skipped when the body raises (there is no try/finally). */
  function Wrapped<V>(refs: Table<V>, active: string, w: Wrapper): (e: Exec<V>)
    decreases w
    ensures e.outcome == Run(refs, w.group, w.body).outcome
    ensures e.outcome.Returned? ==> e.active == active
    ensures e.outcome.Raised? ==> e.active == Run(refs, w.group, w.body).active
  {
    var original := active;
    var r := Run(refs, w.group, w.body);
    if r.outcome.Raised? then r else Exec(r.outcome, original)
  }

  /** A body that only calls `using`. */
  predicate Flat(steps: seq<Step>) {
    forall i :: 0 <= i < |steps| ==> steps[i].Use?
  }

  /** Every `using` in a body without nested calls resolves against the
      group active while it runs: the body returns exactly the values bound
      to those names in that group. */
  lemma {:induction false} RunFlatResolves<V>(refs: Table<V>, group: string, steps: seq<Step>)
    requires Flat(steps)
    requires group in refs
    requires forall i :: 0 <= i < |steps| ==> steps[i].name in refs[group]
    ensures Run(refs, group, steps).outcome.Returned?
    ensures |Run(refs, group, steps).outcome.values| == |steps|
    ensures forall i :: 0 <= i < |steps| ==>
      Run(refs, group, steps).outcome.values[i] == refs[group][steps[i].name]
  {
    if steps != [] {
      RunFlatResolves(refs, group, steps[1..]);
    }
  }

  /** Without nested calls, a body never changes the active group, whether it returns or raises. */
  lemma {:induction false} RunFlatKeepsGroup<V>(refs: Table<V>, group: string, steps: seq<Step>)
    requires Flat(steps)
    ensures Run(refs, group, steps).active == group
  {
    if steps != [] {
      RunFlatKeepsGroup(refs, group, steps[1..]);
    }
  }

  /** The exception path: when a body without nested calls raises, the
      wrapper's group stays active after the call instead of the saved one. */
  lemma FlatFailureLeavesGroupSwitched<V>(refs: Table<V>, active: string, w: Wrapper)
    requires Flat(w.body)
    requires Run(refs, w.group, w.body).outcome.Raised?
    ensures Wrapped(refs, active, w).outcome.Raised?
    ensures Wrapped(refs, active, w).active == w.group
  {
    RunFlatKeepsGroup(refs, w.group, w.body);
  }

  /** A wrapped body starting with `using(name)` resolves it in the wrapper's
      group; on failure the exception carries that group and the group stays active. */
  lemma WrappedUsesItsGroup<V>(refs: Table<V>, active: string, g: string, name: string, rest: seq<Step>)
    ensures Lookup(refs, g, name).Failure? ==>
      Wrapped(refs, active, Wrapper(g, [Use(name)] + rest)) == Exec(Raised(Lookup(refs, g, name).error), g)
    ensures Lookup(refs, g, name).Success? && Wrapped(refs, active, Wrapper(g, [Use(name)] + rest)).outcome.Returned? ==>
      Wrapped(refs, active, Wrapper(g, [Use(name)] + rest)).outcome.values[0] == refs[g][name]
  {
    assert ([Use(name)] + rest)[0] == Use(name);
    assert ([Use(name)] + rest)[1..] == rest;
  }

  /** Nesting: once an inner wrapper returns, the rest of the outer body
      runs under the outer group again, and the inner result is kept in front. */
  lemma NestedRestoresOuter<V>(refs: Table<V>, active: string, w: Wrapper, rest: seq<Step>)
    requires Run(refs, w.group, w.body).outcome.Returned?
    ensures Run(refs, active, [Invoke(w)] + rest)
         == Prepend(Run(refs, w.group, w.body).outcome.values, Run(refs, active, rest))
  {
    assert ([Invoke(w)] + rest)[0] == Invoke(w);
    assert ([Invoke(w)] + rest)[1..] == rest;
  }

  /** Running two pieces of a body one after the other: once the first piece
      returns, whatever wrappers it called, the second runs under the same
      active group; an exception in the first piece skips the second. */
  lemma {:induction false} RunAppend<V>(refs: Table<V>, active: string, first: seq<Step>, second: seq<Step>)
    decreases first
    ensures Run(refs, active, first + second) ==
      (var e := Run(refs, active, first);
       if e.outcome.Raised? then e else Prepend(e.outcome.values, Run(refs, active, second)))
  {
    if first == [] {
      assert first + second == second;
    } else {
      var whole := first + second;
      assert whole[0] == first[0];
      assert whole[1..] == first[1..] + second;
      match first[0]
      case Use(name) =>
        RunAppend(refs, active, first[1..], second);
        if Lookup(refs, active, name).Success? && Run(refs, active, first[1..]).outcome.Returned? {
          var v := Lookup(refs, active, name).value;
          PrependTwice([v], Run(refs, active, first[1..]).outcome.values, Run(refs, active, second));
        }
      case Raise(message) =>
      case Invoke(w) =>
        var inner := Wrapped(refs, active, w);
        RunAppend(refs, active, first[1..], second);
        if inner.outcome.Returned? && Run(refs, active, first[1..]).outcome.Returned? {
          PrependTwice(inner.outcome.values, Run(refs, active, first[1..]).outcome.values, Run(refs, active, second));
        }
    }
  }

  /** An exception out of a nested wrapper passes through the outer body
      unrestored: the outer body raises the same exception, and the group the
      inner body left active stays active, skipping the rest of the outer body. */
  lemma NestedFailurePropagates<V>(refs: Table<V>, active: string, w: Wrapper, rest: seq<Step>)
    requires Run(refs, w.group, w.body).outcome.Raised?
    ensures Run(refs, active, [Invoke(w)] + rest) == Run(refs, w.group, w.body)
  {
    assert ([Invoke(w)] + rest)[0] == Invoke(w);
  }

  /** A callable that raises its own exception inside a wrapper for `inner`,
      itself called from a wrapper for `outer`, leaves `inner` active after
      both calls, whatever group was active before them. */
  lemma RaiseInNestedWrapperLeavesInnerGroup<V>(refs: Table<V>, active: string, outer: string, inner: string,
                                                message: string, rest: seq<Step>)
    ensures Wrapped(refs, active, Wrapper(outer, [Invoke(Wrapper(inner, [Raise(message)]))] + rest))
         == Exec(Raised(BodyException(message)), inner)
  {
    NestedFailurePropagates(refs, outer, Wrapper(inner, [Raise(message)]), rest);
  }

  /** A wrapped call that returns normally leaves the active group exactly
      as it found it, and returns the body's own values. */
  lemma WrappedRestores<V>(refs: Table<V>, active: string, w: Wrapper)
    requires Run(refs, w.group, w.body).outcome.Returned?
    ensures Wrapped(refs, active, w) == Exec(Run(refs, w.group, w.body).outcome, active)
  {
  }

  /** Prepending twice is prepending the concatenation. */
  lemma PrependTwice<V>(first: seq<V>, second: seq<V>, e: Exec<V>)
    ensures Prepend(first, Prepend(second, e)) == Prepend(first + second, e)
  {
    if e.outcome.Returned? {
      assert first + (second + e.outcome.values) == (first + second) + e.outcome.values;
    }
  }

  /** Running the remaining steps from index `i`, when step `i` is a `using`, unfolds by that step. */
  lemma RunStepUse<V>(refs: Table<V>, active: string, steps: seq<Step>, i: nat)
    requires i < |steps| && steps[i].Use?
    ensures Run(refs, active, steps[i..]) ==
      match Lookup(refs, active, steps[i].name)
      case Failure(err) => Exec(Raised(err), active)
      case Success(v) => Prepend([v], Run(refs, active, steps[i + 1..]))
  {
    assert steps[i..][0] == steps[i];
    assert steps[i..][1..] == steps[i + 1..];
  }

  /** Running the remaining steps from index `i`, when step `i` is a `raise`, raises at once. */
  lemma RunStepRaise<V>(refs: Table<V>, active: string, steps: seq<Step>, i: nat)
    requires i < |steps| && steps[i].Raise?
    ensures Run(refs, active, steps[i..]) == Exec(Raised(BodyException(steps[i].message)), active)
  {
    assert steps[i..][0] == steps[i];
  }

  /** Running the remaining steps from index `i`, when step `i` calls a wrapper, unfolds by that call. */
  lemma RunStepInvoke<V>(refs: Table<V>, active: string, steps: seq<Step>, i: nat)
    requires i < |steps| && steps[i].Invoke?
    ensures Run(refs, active, steps[i..]) ==
      var inner := Wrapped(refs, active, steps[i].wrapper);
      if inner.outcome.Raised? then inner
      else Prepend(inner.outcome.values, Run(refs, inner.active, steps[i + 1..]))
  {
    assert steps[i..][0] == steps[i];
    assert steps[i..][1..] == steps[i + 1..];
  }
}
