/** The pattern the four client-side caches share: every mutation awaits the
    gateway first and patches the cached list only once the call succeeds;
    a failure records its message, leaves the list alone and is rethrown.
    `norm` is the normalisation a cache applies to every record it receives. */
module Cache {
  import opened Wrappers
  import Seqs
  import opened Gateway

  /** What a cache holds: the records and the last error message. */
  datatype State<T> = State(items: seq<T>, error: Option<string>)

  /** How an awaited mutation settles for its caller. */
  datatype Settled<R> = Returned(value: R) | Rethrown(thrown: Thrown)

  datatype Step<T, R> = Step(state: State<T>, settled: Settled<R>)

  /** The failure path of a mutation: list untouched, message recorded, error rethrown. */
  ghost predicate FailedWith<T, R>(s: State<T>, r: Step<T, R>, t: Thrown, fallback: string) {
    && r.state.items == s.items
    && r.state.error == Some(Message(t, fallback))
    && r.settled == Rethrown(t)
  }

  /** `r` is `xs` with one more element, `v`, at the end. */
  ghost predicate Appended<T>(xs: seq<T>, r: seq<T>, v: T) {
    |r| == |xs| + 1 && r[..|xs|] == xs && r[|xs|] == v
  }

  /** Load: replace the list by the normalised fetched list; a failure is recorded, not rethrown. */
  function Load<T>(s: State<T>, reply: Reply<seq<T>>, norm: T -> T, fallback: string): (r: State<T>)
    ensures reply.Ok? ==>
              && r.error == None
              && |r.items| == |reply.value|
              && forall i :: 0 <= i < |r.items| ==> r.items[i] == norm(reply.value[i])
    ensures reply.Threw? ==> r.items == s.items && r.error == Some(Message(reply.thrown, fallback))
  {
    match reply
    case Ok(xs) => State(seq(|xs|, i requires 0 <= i < |xs| => norm(xs[i])), None)
    case Threw(t) => s.(error := Some(Message(t, fallback)))
  }

  /** Add: on success the normalised record goes at the end and is returned. */
  function Add<T>(s: State<T>, reply: Reply<T>, norm: T -> T, fallback: string): (r: Step<T, T>)
    ensures reply.Ok? ==>
              && Appended(s.items, r.state.items, norm(reply.value))
              && r.state.error == None
              && r.settled == Returned(norm(reply.value))
    ensures reply.Threw? ==> FailedWith(s, r, reply.thrown, fallback)
  {
    match reply
    case Ok(v) =>
      var n := norm(v);
      assert (s.items + [n])[..|s.items|] == s.items;
      Step(State(s.items + [n], None), Returned(n))
    case Threw(t) => Step(s.(error := Some(Message(t, fallback))), Rethrown(t))
  }

  /** Update: on success every record whose key is `k` becomes the normalised reply. */
  function Update<T>(s: State<T>, key: T -> string, k: string, reply: Reply<T>, norm: T -> T,
                     fallback: string): (r: Step<T, T>)
    ensures reply.Ok? ==>
              && |r.state.items| == |s.items|
              && (forall i :: 0 <= i < |s.items| ==>
                    r.state.items[i] == if key(s.items[i]) == k then norm(reply.value) else s.items[i])
              && r.state.error == None
              && r.settled == Returned(norm(reply.value))
    ensures reply.Threw? ==> FailedWith(s, r, reply.thrown, fallback)
  {
    match reply
    case Ok(v) =>
      var n := norm(v);
      Step(State(Seqs.ReplaceKey(s.items, key, k, n), None), Returned(n))
    case Threw(t) => Step(s.(error := Some(Message(t, fallback))), Rethrown(t))
  }

  /** Delete: on success the records whose key is `k` leave the list, the rest keep their order. */
  function Delete<T(==)>(s: State<T>, key: T -> string, k: string, reply: Reply<()>,
                         fallback: string): (r: Step<T, ()>)
    ensures reply.Ok? ==>
              && (forall i :: 0 <= i < |r.state.items| ==> key(r.state.items[i]) != k)
              && (forall i :: 0 <= i < |s.items| && key(s.items[i]) != k ==> s.items[i] in r.state.items)
              && Seqs.IsSubseq(r.state.items, s.items)
              && |r.state.items| == |s.items| - Seqs.CountKey(s.items, key, k)
              && r.state.error == None
              && r.settled == Returned(())
    ensures reply.Threw? ==> FailedWith(s, r, reply.thrown, fallback)
  {
    match reply
    case Ok(_) =>
      Seqs.RemoveKeyLength(s.items, key, k);
      Step(State(Seqs.RemoveKey(s.items, key, k), None), Returned(()))
    case Threw(t) => Step(s.(error := Some(Message(t, fallback))), Rethrown(t))
  }
}
