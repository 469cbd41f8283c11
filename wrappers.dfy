/** Failure-carrying values shared by every module of the model. */
module Wrappers {

  /** A value that may be absent: a Go pointer or interface that may be nil. */
  datatype Option<+T> = None | Some(value: T)

  /** A Go `(T, error)` pair: either a value or the error's message. */
  datatype Result<+T> = Ok(value: T) | Err(error: string) {

    predicate IsFailure() {
      Err?
    }

    function PropagateFailure<U>(): Result<U>
      requires Err?
    {
      Err(error)
    }

    function Extract(): T
      requires Ok?
    {
      value
    }

    /** The value, or `default` for an error. */
    function GetOr(default: T): T {
      if Ok? then value else default
    }
  }

  /** `errors.Annotate(cause, msg)`: the message names the step, the cause follows. */
  function Annotate(msg: string, cause: string): string {
    msg + ": " + cause
  }

  /** A prefix one element longer, stated once so that loops need not
      prove it by extensionality. */
  lemma TakeOneMore<T>(s: seq<T>, i: nat)
    requires i < |s|
    ensures s[..i + 1] == s[..i] + [s[i]]
  {
  }

  lemma AppendAssociative<T>(a: seq<T>, b: seq<T>, c: seq<T>)
    ensures a + b + c == a + (b + c)
  {
  }

  lemma EmptyHead<T>(head: seq<T>, tail: seq<T>)
    requires head == []
    ensures head + tail == tail
  {
  }

  lemma EmptyTail<T>(head: seq<T>, tail: seq<T>)
    requires tail == []
    ensures head + tail == head
  {
  }

  /** Past one-element heads, the indices of two concatenations of equal
      length fall in their tails. */
  lemma ConsIndexPair<T, U>(head: seq<T>, tail: seq<T>, head2: seq<U>, tail2: seq<U>, k: nat)
    requires |head| == 1 && |head2| == 1 && |tail| == |tail2| && 1 <= k < |head + tail|
    ensures (head + tail)[k] == tail[k - 1] && (head2 + tail2)[k] == tail2[k - 1]
  {
  }

  lemma PrefixAfter<T>(a: seq<T>, e: seq<T>, c: seq<T>)
    requires e <= c
    ensures a + e <= a + c
  {
    assert (a + c)[..|a| + |e|] == a + e;
  }

  /** The values of a sequence of results, or the first error among them. */
  function AllOk<T>(rs: seq<Result<T>>): (r: Result<seq<T>>)
    ensures r.Ok? <==> forall i :: 0 <= i < |rs| ==> rs[i].Ok?
    ensures r.Ok? ==> |r.value| == |rs|
    ensures r.Ok? ==> forall i :: 0 <= i < |rs| ==> r.value[i] == rs[i].value
  {
    if rs == [] then Ok([])
    else
      match rs[0]
      case Err(e) => Err(e)
      case Ok(v) =>
        match AllOk(rs[1..])
        case Err(e) => Err(e)
        case Ok(rest) => Ok([v] + rest)
  }

  /** One more result: its value is appended, or its error is the one reported. */
  lemma {:induction false} AllOkSnoc<T>(rs: seq<Result<T>>, x: Result<T>)
    requires AllOk(rs).Ok?
    ensures AllOk(rs + [x]) == if x.Ok? then Ok(AllOk(rs).value + [x.value]) else Err(x.error)
  {
    if rs == [] {
      assert [] + [x] == [x];
      assert [x][1..] == [];
      if x.Ok? {
        assert [x.value] + [] == [] + [x.value];
      }
    } else {
      assert (rs + [x])[1..] == rs[1..] + [x];
      AllOkSnoc(rs[1..], x);
      if x.Ok? {
        assert [rs[0].value] + (AllOk(rs[1..]).value + [x.value]) == AllOk(rs).value + [x.value];
      }
    }
  }

  /** Once a prefix fails, the results after it are never looked at. */
  lemma {:induction false} AllOkErrPrefix<T>(rs: seq<Result<T>>, j: nat)
    requires j <= |rs| && AllOk(rs[..j]).Err?
    ensures AllOk(rs) == AllOk(rs[..j])
  {
    assert rs[..j][0] == rs[0];
    if rs[0].Ok? {
      assert rs[..j][1..] == rs[1..][..j - 1];
      AllOkErrPrefix(rs[1..], j - 1);
    }
  }
}
