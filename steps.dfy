/** The shape shared by the drivers of the model: a list of steps run in
    order, each of which may call out to another system and may fail, and
    the first failure ends the run with its error. */
module Steps {
  import opened Wrappers

  /** One step of a driver: the call it makes on another system, if any,
      and the error it ends with, if it fails. A failing step's call has
      been made before the failure shows. */
  datatype Step<T> = Step(call: Option<T>, error: Option<string>)

  /** What a driver returns: its error, if any, and the calls it made. */
  datatype Outcome<T> = Outcome(err: Option<string>, effects: seq<T>)

  /** The call of one step, as a list of zero or one calls. */
  function Made<T>(s: Step<T>): seq<T> {
    if s.call.Some? then [s.call.value] else []
  }

  /** Every call of the steps, in order. */
  function Calls<T>(steps: seq<Step<T>>): seq<T> {
    if steps == [] then [] else Made(steps[0]) + Calls(steps[1..])
  }

  predicate AllSucceed<T>(steps: seq<Step<T>>) {
    forall i :: 0 <= i < |steps| ==> steps[i].error.None?
  }

  /** Running `first`, then `next` when `first` did not fail. */
  function Then<T>(first: Outcome<T>, next: Outcome<T>): Outcome<T> {
    if first.err.Some? then first else Outcome(next.err, first.effects + next.effects)
  }

  /** Running the steps in order until the first that fails. */
  function Execute<T>(steps: seq<Step<T>>): Outcome<T> {
    if steps == [] then Outcome(None, [])
    else Then(Outcome(steps[0].error, Made(steps[0])), Execute(steps[1..]))
  }

  /** Steps that each make one call: the i-th call fails with `errors[i]`. */
  function CallSteps<T>(calls: seq<T>, errors: seq<Option<string>>): (r: seq<Step<T>>)
    requires |calls| == |errors|
    ensures |r| == |calls|
    ensures forall i :: 0 <= i < |r| ==> r[i] == Step(Some(calls[i]), errors[i])
  {
    seq(|calls|, i requires 0 <= i < |calls| => Step(Some(calls[i]), errors[i]))
  }

  /** A step with no call that fails with `error`, if any. */
  function Check<T>(error: Option<string>): Step<T> {
    Step(None, error)
  }

  /** The error of a Go `(T, error)` result, if any. */
  function ErrorOf<T>(r: Result<T>): (e: Option<string>)
    ensures e.None? <==> r.Ok?
    ensures r.Err? ==> e == Some(r.error)
  {
    if r.Err? then Some(r.error) else None
  }

  /** `errors.Annotate` of an error, if any. */
  function AnnotateError(msg: string, e: Option<string>): (r: Option<string>)
    ensures r.None? <==> e.None?
    ensures e.Some? ==> r == Some(Annotate(msg, e.value))
  {
    if e.Some? then Some(Annotate(msg, e.value)) else None
  }

  /** A run succeeds exactly when every step does, and then it has made
      every call. */
  lemma {:induction false} ExecuteSucceeds<T>(steps: seq<Step<T>>)
    ensures Execute(steps).err.None? <==> AllSucceed(steps)
    ensures AllSucceed(steps) ==> Execute(steps).effects == Calls(steps)
  {
    if steps != [] {
      ExecuteSucceeds(steps[1..]);
      if AllSucceed(steps[1..]) && steps[0].error.None? {
        forall i | 0 <= i < |steps|
          ensures steps[i].error.None?
        {
          if i > 0 {
            assert steps[i] == steps[1..][i - 1];
          }
        }
      }
      if AllSucceed(steps) {
        forall i | 0 <= i < |steps[1..]|
          ensures steps[1..][i].error.None?
        {
          assert steps[1..][i] == steps[i + 1];
        }
      }
    }
  }

  /** The first failing step ends the run: its error is the run's error,
      and the calls made are those of the steps up to and including it. */
  lemma {:induction false} ExecuteStopsAtFirstFailure<T>(steps: seq<Step<T>>, k: nat)
    requires k < |steps| && steps[k].error.Some? && AllSucceed(steps[..k])
    ensures Execute(steps) == Outcome(steps[k].error, Calls(steps[..k + 1]))
  {
    assert steps[..k + 1][0] == steps[0];
    if k == 0 {
      assert steps[..1][1..] == [];
    } else {
      assert steps[..k][0] == steps[0];
      assert steps[1..][..k - 1] == steps[..k][1..];
      assert steps[1..][..k] == steps[..k + 1][1..];
      ExecuteStopsAtFirstFailure(steps[1..], k - 1);
    }
  }

  /** The calls made are always a prefix of all the calls. */
  lemma {:induction false} ExecutePrefix<T>(steps: seq<Step<T>>)
    ensures Execute(steps).effects <= Calls(steps)
  {
    if steps != [] {
      ExecutePrefix(steps[1..]);
      PrefixExtend(Made(steps[0]), Execute(steps[1..]).effects, Calls(steps[1..]));
    }
  }

  lemma PrefixExtend<T>(a: seq<T>, e: seq<T>, c: seq<T>)
    requires e <= c
    ensures a <= a + c && a + e <= a + c
  {
    assert (a + c)[..|a|] == a;
    assert (a + c)[..|a| + |e|] == a + e;
  }

  /** Running two lists of steps one after the other is running their
      concatenation. */
  lemma {:induction false} ExecuteAppend<T>(a: seq<Step<T>>, b: seq<Step<T>>)
    ensures Execute(a + b) == Then(Execute(a), Execute(b))
  {
    if a == [] {
      assert a + b == b;
    } else {
      assert (a + b)[0] == a[0];
      assert (a + b)[1..] == a[1..] + b;
      ExecuteAppend(a[1..], b);
      ThenAssociative(Outcome(a[0].error, Made(a[0])), Execute(a[1..]), Execute(b));
    }
  }

  lemma ThenAssociative<T>(x: Outcome<T>, y: Outcome<T>, z: Outcome<T>)
    ensures Then(Then(x, y), z) == Then(x, Then(y, z))
  {
    if x.err.None? && y.err.None? {
      assert x.effects + y.effects + z.effects == x.effects + (y.effects + z.effects);
    }
  }

  /** Nothing done and nothing failed: running something after it is
      running that something alone; and running nothing after something
      changes nothing. */
  lemma ThenNothing<T>(o: Outcome<T>)
    ensures Then(Outcome(None, []), o) == o
    ensures Then(o, Outcome(None, [])) == o
  {
    assert [] + o.effects == o.effects;
    assert o.effects + [] == o.effects;
  }

  /** A step in front of others. */
  lemma ExecuteCons<T>(s: Step<T>, rest: seq<Step<T>>)
    ensures Execute([s] + rest) == Then(Outcome(s.error, Made(s)), Execute(rest))
  {
    assert ([s] + rest)[0] == s;
    assert ([s] + rest)[1..] == rest;
  }

  /** Running steps from the i-th on, once `done` has been made without a
      failure: the i-th step either fails after its call, or adds its call
      and the run goes on with the next step. */
  lemma ExecuteFrom<T>(steps: seq<Step<T>>, i: nat, done: seq<T>)
    requires i < |steps|
    ensures Then(Outcome(None, done), Execute(steps[i..])) ==
      if steps[i].error.Some? then Outcome(steps[i].error, done + Made(steps[i]))
      else Then(Outcome(None, done + Made(steps[i])), Execute(steps[i + 1..]))
  {
    assert steps[i..] == [steps[i]] + steps[i + 1..];
    ExecuteCons(steps[i], steps[i + 1..]);
    AppendAssociative(done, Made(steps[i]), Execute(steps[i + 1..]).effects);
  }

  /** Before any step and after the last one. */
  lemma ExecuteBounds<T>(steps: seq<Step<T>>, done: seq<T>)
    ensures Execute(steps) == Then(Outcome(None, []), Execute(steps[0..]))
    ensures Then(Outcome(None, done), Execute(steps[|steps|..])) == Outcome(None, done)
  {
    assert steps[0..] == steps;
    ThenNothing(Execute(steps));
    assert steps[|steps|..] == [];
    assert done + [] == done;
  }

  /** The steps with every error annotated with `msg`. */
  function Annotated<T>(steps: seq<Step<T>>, msg: string): (r: seq<Step<T>>)
    ensures |r| == |steps|
    ensures forall i :: 0 <= i < |steps| ==> r[i] == Step(steps[i].call, AnnotateError(msg, steps[i].error))
  {
    seq(|steps|, i requires 0 <= i < |steps| => Step(steps[i].call, AnnotateError(msg, steps[i].error)))
  }

  /** Annotating every step's error annotates the run's error and leaves
      its calls alone. */
  lemma {:induction false} ExecuteAnnotated<T>(steps: seq<Step<T>>, msg: string)
    ensures Execute(Annotated(steps, msg)) == Outcome(AnnotateError(msg, Execute(steps).err), Execute(steps).effects)
    ensures Calls(Annotated(steps, msg)) == Calls(steps)
  {
    if steps != [] {
      assert Annotated(steps, msg)[1..] == Annotated(steps[1..], msg);
      ExecuteAnnotated(steps[1..], msg);
    }
  }

  /** The calls of concatenated steps are concatenated. */
  lemma {:induction false} CallsAppend<T>(a: seq<Step<T>>, b: seq<Step<T>>)
    ensures Calls(a + b) == Calls(a) + Calls(b)
  {
    if a == [] {
      assert a + b == b;
    } else {
      assert (a + b)[0] == a[0];
      assert (a + b)[1..] == a[1..] + b;
      CallsAppend(a[1..], b);
      assert Made(a[0]) + (Calls(a[1..]) + Calls(b)) == Made(a[0]) + Calls(a[1..]) + Calls(b);
    }
  }

  /** One step on its own. */
  lemma ExecuteOne<T>(s: Step<T>)
    ensures Execute([s]) == Outcome(s.error, Made(s))
    ensures Calls([s]) == Made(s)
  {
    assert [s][1..] == [];
    assert Made(s) + [] == Made(s);
  }

  /** The calls of two steps. */
  lemma CallsTwo<T>(s: Step<T>, t: Step<T>)
    ensures Calls([s, t]) == Made(s) + Made(t)
  {
    assert [s, t][1..] == [t];
    ExecuteOne(t);
  }

  /** Two steps. */
  lemma ExecuteTwo<T>(s: Step<T>, t: Step<T>)
    ensures Execute([s, t]) == Then(Outcome(s.error, Made(s)), Outcome(t.error, Made(t)))
  {
    assert [s, t][1..] == [t];
    ExecuteOne(t);
  }

  /** Three steps that each make one call: the first failure ends them. */
  lemma ExecuteThreeCalls<T>(calls: seq<T>, errors: seq<Option<string>>)
    requires |calls| == 3 && |errors| == 3
    ensures Execute(CallSteps(calls, errors)) ==
      if errors[0].Some? then Outcome(errors[0], [calls[0]])
      else if errors[1].Some? then Outcome(errors[1], [calls[0], calls[1]])
      else Outcome(errors[2], calls)
  {
    var s := CallSteps(calls, errors);
    assert s == [s[0]] + [s[1], s[2]];
    ExecuteAppend([s[0]], [s[1], s[2]]);
    ExecuteOne(s[0]);
    ExecuteTwo(s[1], s[2]);
    assert calls == [calls[0]] + ([calls[1]] + [calls[2]]);
  }

  /** Steps that each make one call make exactly those calls. */
  lemma {:induction false} CallsOfCallSteps<T>(calls: seq<T>, errors: seq<Option<string>>)
    requires |calls| == |errors|
    ensures Calls(CallSteps(calls, errors)) == calls
  {
    if calls != [] {
      assert CallSteps(calls, errors)[1..] == CallSteps(calls[1..], errors[1..]);
      CallsOfCallSteps(calls[1..], errors[1..]);
      assert calls == [calls[0]] + calls[1..];
    }
  }
}
