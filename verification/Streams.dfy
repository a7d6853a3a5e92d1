/**
 * `stream::join` and the merges nested in the scanner, one poll at a time.
 *
 * A source is the list of answers it gives to successive polls; after its last answer it has
 * ended. Nothing is assumed of when a source is ready, so a list stands for every schedule. The
 * merge is the documented round robin of `futures` `select`: a turn bit that flips on each poll
 * while both sides are live, one finished flag per side, and no further poll of a finished side.
 */
module Streams {
  import opened Wrappers

  /** An answer: not ready, an item, or (from a future) an outcome that is not an item. */
  datatype Answer<T> = Pending | Item(value: T) | Skip

  datatype Side = Left | Right

  datatype Stream<T> =
    | Source(script: seq<Answer<T>>)
    | Select(left: Stream<T>, right: Stream<T>, turn: Side, leftDone: bool, rightDone: bool)
    | FilterSome(inner: Stream<T>)

  /** What a poll of a stream returns; `End` may be returned again and again. */
  datatype Poll<T> = NotReady | Ready(value: T) | ReadySkip | End

  /** Polls left in all sources, plus nodes: what every poll but the last uses up. */
  function Size<T>(s: Stream<T>): nat {
    match s
    case Source(script) => |script|
    case Select(left, right, _, _, _) => 1 + Size(left) + Size(right)
    case FilterSome(inner) => 1 + Size(inner)
  }

  predicate IsItem<T>(p: Poll<T>) { p.Ready? || p.ReadySkip? }

  function PollNext<T>(s: Stream<T>): (r: (Stream<T>, Poll<T>))
    ensures if r.1.End? then Size(r.0) <= Size(s) else Size(r.0) < Size(s)
    decreases Size(s), s
  {
    match s
    case Source(script) =>
      if script == [] then (s, End)
      else
        (Source(script[1..]),
         match script[0] case Pending => NotReady case Item(v) => Ready(v) case Skip => ReadySkip)
    case Select(left, right, turn, leftDone, rightDone) =>
      if leftDone && rightDone then (s, End)
      else if leftDone then
        var (right', p) := PollNext(right);
        (s.(right := right', rightDone := p.End?), p)
      else if rightDone then
        var (left', p) := PollNext(left);
        (s.(left := left', leftDone := p.End?), p)
      else if turn.Left? then
        var (left', p) := PollNext(left);
        if IsItem(p) then (s.(left := left', turn := Right), p)
        else
          var (right', q) := PollNext(right);
          (Select(left', right', Right, p.End?, q.End?), if q.End? then p else q)
      else
        var (right', p) := PollNext(right);
        if IsItem(p) then (s.(right := right', turn := Left), p)
        else
          var (left', q) := PollNext(left);
          (Select(left', right', Left, q.End?, p.End?), if q.End? then p else q)
    case FilterSome(inner) =>
      var (inner', p) := PollNext(inner);
      if p.ReadySkip? then PollNext(FilterSome(inner')) else (FilterSome(inner'), p)
  }

  /** The stream after `n` polls, whatever they returned. */
  function After<T>(s: Stream<T>, n: nat): Stream<T>
  {
    if n == 0 then s else PollNext(After(s, n - 1)).0
  }

  function Value<T>(p: Poll<T>): seq<T> {
    if p.Ready? then [p.value] else []
  }

  /** The items returned by the first `n` polls. */
  function Emitted<T>(s: Stream<T>, n: nat): seq<T> {
    if n == 0 then [] else Emitted(s, n - 1) + Value(PollNext(After(s, n - 1)).1)
  }

  // ---------------------------------------------------------------- shuffles

  function Items<T>(script: seq<Answer<T>>): seq<T> {
    if script == [] then []
    else (if script[0].Item? then [script[0].value] else []) + Items(script[1..])
  }

  ghost predicate IsShuffle<T>(out: seq<T>, a: seq<T>, b: seq<T>) {
    if out == [] then a == [] && b == []
    else
      || (a != [] && a[0] == out[0] && IsShuffle(out[1..], a[1..], b))
      || (b != [] && b[0] == out[0] && IsShuffle(out[1..], a, b[1..]))
  }

  /** `out` keeps the items of every source, each source's in order, and nothing else. */
  ghost predicate Interleaves<T(!new)>(s: Stream<T>, out: seq<T>) {
    match s
    case Source(script) => out == Items(script)
    case Select(left, right, _, _, _) =>
      exists a, b :: Interleaves(left, a) && Interleaves(right, b) && IsShuffle(out, a, b)
    case FilterSome(inner) => Interleaves(inner, out)
  }

  /** Every source has given its last answer. */
  predicate Exhausted<T>(s: Stream<T>) {
    match s
    case Source(script) => script == []
    case Select(left, right, _, _, _) => Exhausted(left) && Exhausted(right)
    case FilterSome(inner) => Exhausted(inner)
  }

  /** Finished flags are set only on ended sides, and skips stay below a filter. */
  predicate Valid<T>(s: Stream<T>) {
    match s
    case Source(_) => true
    case Select(left, right, _, leftDone, rightDone) =>
      Valid(left) && Valid(right) && (leftDone ==> Exhausted(left)) && (rightDone ==> Exhausted(right))
    case FilterSome(inner) => Valid(inner)
  }

  /** What a poll owes its caller. */
  predicate KeepsValid<T>(s: Stream<T>) {
    var (s', p) := PollNext(s);
    Valid(s') && (p.End? ==> Exhausted(s')) && (Exhausted(s) ==> p.End?)
  }

  lemma SelectKeepsValid<T>(s: Stream<T>)
    requires s.Select? && Valid(s) && KeepsValid(s.left) && KeepsValid(s.right)
    ensures KeepsValid(s)
  {}

  lemma {:induction false} PollKeepsValid<T>(s: Stream<T>)
    requires Valid(s)
    ensures KeepsValid(s)
    decreases Size(s), s
  {
    match s
    case Source(_) =>
    case Select(left, right, _, _, _) =>
      PollKeepsValid(left);
      PollKeepsValid(right);
      hide PollNext, KeepsValid;
      SelectKeepsValid(s);
    case FilterSome(inner) =>
      PollKeepsValid(inner);
      var (inner', p) := PollNext(inner);
      if p.ReadySkip? {
        PollKeepsValid(FilterSome(inner'));
      }
  }

  lemma {:induction false} ExhaustedInterleaves<T(!new)>(s: Stream<T>, out: seq<T>)
    requires Exhausted(s)
    ensures Interleaves(s, out) <==> out == []
  {
    match s
    case Source(_) =>
    case Select(left, right, _, _, _) =>
      ExhaustedInterleaves(left, []);
      ExhaustedInterleaves(right, []);
      assert IsShuffle<T>([], [], []);
      if Interleaves(s, out) {
        var a, b :| Interleaves(left, a) && Interleaves(right, b) && IsShuffle(out, a, b);
        ExhaustedInterleaves(left, a);
        ExhaustedInterleaves(right, b);
      }
    case FilterSome(inner) =>
      ExhaustedInterleaves(inner, out);
  }

  /** A side before and after a poll of the merge: left alone, or polled and returning `v`. */
  ghost predicate SideStep<T>(before: Stream<T>, after: Stream<T>, v: seq<T>) {
    || (after == before && v == [])
    || (after == PollNext(before).0 && v == Value(PollNext(before).1))
  }

  /** A poll of a merge returns what one side returned. */
  lemma SelectTakesOne<T>(s: Stream<T>) returns (va: seq<T>, vb: seq<T>)
    requires s.Select?
    ensures PollNext(s).0.Select?
    ensures SideStep(s.left, PollNext(s).0.left, va) && SideStep(s.right, PollNext(s).0.right, vb)
    ensures Value(PollNext(s).1) == va + vb && (va == [] || vb == [])
  {
    var (s', p) := PollNext(s);
    var leftFirst := !s.leftDone && (s.rightDone || s.turn.Left?);
    var fromLeft := if leftFirst then s.rightDone || IsItem(PollNext(s.left).1)
                    else !s.leftDone && !s.rightDone && !IsItem(PollNext(s.right).1);
    va := if fromLeft then Value(p) else [];
    vb := if fromLeft then [] else Value(p);
  }

  lemma ShuffleOne<T>(a: seq<T>, b: seq<T>, rest: seq<T>, va: seq<T>, vb: seq<T>)
    requires IsShuffle(rest, a, b) && |va| + |vb| <= 1
    ensures IsShuffle(va + vb + rest, va + a, vb + b)
  {
    assert [] + a == a && [] + b == b && [] + rest == rest;
    if va != [] {
      assert va + [] == va;
      assert (va + rest)[1..] == rest && (va + a)[1..] == a;
    } else if vb != [] {
      assert [] + vb == vb;
      assert (vb + rest)[1..] == rest && (vb + b)[1..] == b;
    }
  }

  /** What a poll returned, put before any outcome of what is left, is an outcome of the whole. */
  lemma {:induction false} PollInterleaves<T(!new)>(s: Stream<T>, rest: seq<T>)
    requires Valid(s) && Interleaves(PollNext(s).0, rest)
    ensures Interleaves(s, Value(PollNext(s).1) + rest)
    decreases Size(s), s, 0
  {
    match s
    case Source(script) =>
    case Select(left, right, _, _, _) =>
      var s' := PollNext(s).0;
      var va, vb := SelectTakesOne(s);
      var a, b :| Interleaves(s'.left, a) && Interleaves(s'.right, b) && IsShuffle(rest, a, b);
      SideInterleaves(left, s'.left, va, a);
      SideInterleaves(right, s'.right, vb, b);
      ShuffleOne(a, b, rest, va, vb);
    case FilterSome(inner) =>
      var (inner', p) := PollNext(inner);
      PollKeepsValid(inner);
      if p.ReadySkip? {
        PollInterleaves(FilterSome(inner'), rest);
        var later := Value(PollNext(FilterSome(inner')).1) + rest;
        PollInterleaves(inner, later);
        assert [] + later == later;
      } else {
        PollInterleaves(inner, rest);
      }
  }

  lemma {:induction false} SideInterleaves<T(!new)>(before: Stream<T>, after: Stream<T>, v: seq<T>, rest: seq<T>)
    requires SideStep(before, after, v) && Valid(before) && Interleaves(after, rest)
    ensures Interleaves(before, v + rest)
    decreases Size(before), before, 1
  {
    hide PollNext, Interleaves, Valid;
    assert [] + rest == rest;
    if !(after == before && v == []) {
      PollInterleaves(before, rest);
    }
  }

  lemma {:induction false} PollsKeepValid<T>(s: Stream<T>, n: nat)
    requires Valid(s)
    ensures Valid(After(s, n))
  {
    if n > 0 {
      PollsKeepValid(s, n - 1);
      PollKeepsValid(After(s, n - 1));
    }
  }

  /** A stream that reports its end has nothing left. */
  lemma EndHasNothing<T(!new)>(s: Stream<T>, n: nat)
    requires Valid(s) && PollNext(After(s, n)).1.End?
    ensures Interleaves(After(s, n), [])
  {
    PollsKeepValid(s, n);
    PollKeepsValid(After(s, n));
    ExhaustedInterleaves(After(s, n + 1), []);
    PollInterleaves(After(s, n), []);
    assert Value(PollNext(After(s, n)).1) + [] == [];
  }

  /** A stream that reports its end has emitted an interleaving of all its sources. */
  lemma EndInterleaves<T(!new)>(s: Stream<T>, n: nat)
    requires Valid(s) && PollNext(After(s, n)).1.End?
    ensures Interleaves(s, Emitted(s, n))
  {
    hide PollNext, Interleaves, Valid, Emitted, After;
    EndHasNothing(s, n);
    PollsInterleave(s, n, []);
    assert Emitted(s, n) + [] == Emitted(s, n);
  }

  /** The end is reached within as many polls as there are answers and nodes. */
  lemma {:induction false} EndIsReached<T>(s: Stream<T>) returns (n: nat)
    requires Valid(s)
    ensures n <= Size(s) && PollNext(After(s, n)).1.End?
    decreases Size(s)
  {
    hide PollNext, Valid;
    var (s', p) := PollNext(s);
    if p.End? {
      n := 0;
    } else {
      PollKeepsValid(s);
      var m := EndIsReached(s');
      AfterOne(s, m);
      n := m + 1;
    }
  }

  lemma {:induction false} AfterOne<T>(s: Stream<T>, n: nat)
    ensures After(PollNext(s).0, n) == After(s, n + 1)
  {
    hide PollNext;
    if n > 0 {
      AfterOne(s, n - 1);
    }
  }

  /** A shuffle keeps every item as often as it comes. */
  lemma {:induction false} ShuffleConserves<T>(out: seq<T>, a: seq<T>, b: seq<T>)
    requires IsShuffle(out, a, b)
    ensures multiset(out) == multiset(a) + multiset(b)
  {
    if out != [] {
      assert out == [out[0]] + out[1..];
      if a != [] && a[0] == out[0] && IsShuffle(out[1..], a[1..], b) {
        assert a == [a[0]] + a[1..];
        ShuffleConserves(out[1..], a[1..], b);
      } else {
        assert b == [b[0]] + b[1..];
        ShuffleConserves(out[1..], a, b[1..]);
      }
    }
  }

  /** What came first of a shuffle is a shuffle of what came first of both parts. */
  lemma {:induction false} ShuffleStarts<T>(out: seq<T>, rest: seq<T>, a: seq<T>, b: seq<T>)
    returns (a': seq<T>, b': seq<T>)
    requires IsShuffle(out + rest, a, b)
    ensures a' <= a && b' <= b && IsShuffle(out, a', b')
    decreases |out|
  {
    if out == [] {
      a', b' := [], [];
    } else {
      assert (out + rest)[1..] == out[1..] + rest;
      if a != [] && a[0] == out[0] && IsShuffle(out[1..] + rest, a[1..], b) {
        a', b' := ShuffleStarts(out[1..], rest, a[1..], b);
        a' := [a[0]] + a';
      } else {
        a', b' := ShuffleStarts(out[1..], rest, a, b[1..]);
        b' := [b[0]] + b';
      }
    }
  }

  /** One side after the other is a shuffle too. */
  lemma {:induction false} ConcatIsShuffle<T>(a: seq<T>, b: seq<T>)
    ensures IsShuffle(a + b, a, b)
    decreases |a| + |b|
  {
    if a != [] {
      ConcatIsShuffle(a[1..], b);
      assert (a + b)[1..] == a[1..] + b;
    } else if b != [] {
      ConcatIsShuffle(a, b[1..]);
      assert (a + b)[1..] == a + b[1..];
    }
  }

  /** Whatever state a merge is in, there is something it may still give. */
  lemma {:induction false} HasOutcome<T(!new)>(s: Stream<T>) returns (rest: seq<T>)
    ensures Interleaves(s, rest)
  {
    match s
    case Source(script) => rest := Items(script);
    case Select(left, right, _, _, _) =>
      var a := HasOutcome(left);
      var b := HasOutcome(right);
      ConcatIsShuffle(a, b);
      rest := a + b;
    case FilterSome(inner) => rest := HasOutcome(inner);
  }

  lemma {:induction false} AfterAfter<T>(s: Stream<T>, n: nat, m: nat)
    ensures After(After(s, n), m) == After(s, n + m)
  {
    hide PollNext;
    if m > 0 {
      AfterAfter(s, n, m - 1);
    }
  }

  // ---------------------------------------------------------------- join

  function NewSelect<T>(left: Stream<T>, right: Stream<T>): Stream<T> {
    Select(left, right, Left, false, false)
  }

  /** `stream::join`: the stream is the left side, and the future's success is filtered out. */
  function Join<T>(future: Stream<T>, stream: Stream<T>): Stream<T> {
    FilterSome(NewSelect(stream, future))
  }

  /** A future as a stream: pending for a while, then one outcome, of which only an error is an item. */
  function Future<V, E>(pending: nat, outcome: Result<(), E>): Stream<Result<V, E>> {
    Source(seq(pending, _ => Pending) + [if outcome.Ok? then Skip else Item(Err(outcome.error))])
  }

  lemma {:induction false} FutureItems<V, E>(pending: nat, outcome: Result<(), E>)
    ensures var future: Stream<Result<V, E>> := Future(pending, outcome);
            Items(future.script) == if outcome.Ok? then [] else [Err(outcome.error)]
  {
    var last: Answer<Result<V, E>> := if outcome.Ok? then Skip else Item(Err(outcome.error));
    var future: Stream<Result<V, E>> := Future(pending, outcome);
    if pending == 0 {
      assert future.script == [last];
      assert Items<Result<V, E>>([last][1..]) == [];
    } else {
      var later: Stream<Result<V, E>> := Future(pending - 1, outcome);
      assert future.script[1..] == later.script;
      FutureItems<V, E>(pending - 1, outcome);
    }
  }

  lemma SizeOfMerges<T>(left: Stream<T>, right: Stream<T>)
    ensures Size(NewSelect(left, right)) == Size(left) + Size(right) + 1
    ensures Size(Join(left, right)) == Size(left) + Size(right) + 2
  {}

  lemma JoinInterleaves<T(!new)>(future: Stream<T>, stream: Stream<T>, out: seq<T>) returns (a: seq<T>, b: seq<T>)
    requires Interleaves(Join(future, stream), out)
    ensures Interleaves(stream, a) && Interleaves(future, b) && IsShuffle(out, a, b)
  {
    a, b := SelectInterleaves(stream, future, out);
  }

  lemma SelectInterleaves<T(!new)>(left: Stream<T>, right: Stream<T>, out: seq<T>) returns (a: seq<T>, b: seq<T>)
    requires Interleaves(NewSelect(left, right), out)
    ensures Interleaves(left, a) && Interleaves(right, b) && IsShuffle(out, a, b)
  {
    a, b :| Interleaves(left, a) && Interleaves(right, b) && IsShuffle(out, a, b);
  }

  /**
   * Whatever the schedule, `join` ends, and by then it has emitted the stream's items in order
   * with the future's error somewhere among them if it failed, and nothing else: success emits
   * nothing, no item is lost or repeated, and an error does not cut off the items after it.
   */
  lemma JoinIsShuffle<V(!new), E(!new)>(pending: nat, outcome: Result<(), E>, script: seq<Answer<Result<V, E>>>)
    returns (n: nat)
    ensures var join := Join(Future(pending, outcome), Source(script));
            && n <= Size(join) && PollNext(After(join, n)).1.End?
            && IsShuffle(Emitted(join, n), Items(script), if outcome.Ok? then [] else [Err(outcome.error)])
  {
    var future: Stream<Result<V, E>> := Future(pending, outcome);
    var join := Join(future, Source(script));
    JoinAt(future, Source(script), []);
    n := EndIsReached(join);
    EndInterleaves(join, n);
    FutureItems<V, E>(pending, outcome);
    var a, b := JoinInterleaves(future, Source(script), Emitted(join, n));
  }

  /** Once every source has ended, polls report the end and nothing else. */
  lemma {:induction false} EndIsFinal<T>(s: Stream<T>, n: nat)
    requires Valid(s) && Exhausted(s)
    ensures PollNext(After(s, n)).1.End? && Emitted(s, n) == []
  {
    PollsKeepValid(s, n);
    ExhaustedStays(s, n);
    PollKeepsValid(After(s, n));
    if n > 0 {
      EndIsFinal(s, n - 1);
    }
  }

  lemma {:induction false} ExhaustedStays<T>(s: Stream<T>, n: nat)
    requires Valid(s) && Exhausted(s)
    ensures Exhausted(After(s, n))
  {
    if n > 0 {
      ExhaustedStays(s, n - 1);
      PollsKeepValid(s, n - 1);
      PollKeepsValid(After(s, n - 1));
    }
  }

  // ---------------------------------------------------------------- fairness

  /** Which side to take at each merge on the way to a source. */
  type Path = seq<Side>

  function Child<T>(s: Stream<T>, side: Side): Stream<T>
    requires s.Select?
  {
    if side.Left? then s.left else s.right
  }

  function At<T>(s: Stream<T>, path: Path): Option<seq<Answer<T>>> {
    match s
    case Source(script) => if path == [] then Some(script) else None
    case Select(_, _, _, _, _) => if path == [] then None else At(Child(s, path[0]), path[1..])
    case FilterSome(inner) => At(inner, path)
  }

  /** The source at the end of the path has an item to give at its next poll. */
  predicate HasItem<T>(s: Stream<T>, path: Path) {
    match At(s, path)
    case Some(script) => script != [] && script[0].Item?
    case None => false
  }

  /** How many polls of the whole it takes at most until that item comes out. */
  function Wait<T>(s: Stream<T>, path: Path): (w: nat)
    requires At(s, path).Some?
    ensures 1 <= w <= Power2(|path|)
  {
    match s
    case Source(_) => 1
    case Select(_, _, turn, leftDone, rightDone) =>
      var inside := Wait(Child(s, path[0]), path[1..]);
      if (if path[0].Left? then rightDone else leftDone) then inside
      else if turn == path[0] then 2 * inside - 1
      else 2 * inside
    case FilterSome(inner) => Wait(inner, path)
  }

  lemma JoinAt<T>(future: Stream<T>, stream: Stream<T>, path: Path)
    ensures At(Join(future, stream), [Left] + path) == At(stream, path)
    ensures At(Join(future, stream), [Right] + path) == At(future, path)
    ensures Valid(Join(future, stream)) <==> Valid(future) && Valid(stream)
  {
    SelectAt(stream, future, path);
  }

  lemma SelectAt<T>(left: Stream<T>, right: Stream<T>, path: Path)
    ensures At(NewSelect(left, right), [Left] + path) == At(left, path)
    ensures At(NewSelect(left, right), [Right] + path) == At(right, path)
    ensures Valid(NewSelect(left, right)) <==> Valid(left) && Valid(right)
  {
    assert ([Left] + path)[1..] == path == ([Right] + path)[1..];
  }

  function Power2(n: nat): (p: nat)
    ensures p >= 1
  {
    if n == 0 then 1 else 2 * Power2(n - 1)
  }

  /** A poll returns the waiting item, or returns another one and shortens the wait. */
  ghost predicate Fair<T>(s: Stream<T>, path: Path)
    requires HasItem(s, path)
  {
    var (s', p) := PollNext(s);
    var script := At(s, path).value;
    && IsItem(p)
    && (|| (p == Ready(script[0].value) && At(s', path) == Some(script[1..]))
        || (At(s', path) == Some(script) && Wait(s', path) < Wait(s, path)))
  }

  lemma SelectIsFair<T>(s: Stream<T>, path: Path)
    requires s.Select? && Valid(s) && HasItem(s, path) && !Exhausted(Child(s, path[0]))
    requires Fair(Child(s, path[0]), path[1..])
    ensures Fair(s, path)
  {
  }

  lemma {:induction false} FairPoll<T>(s: Stream<T>, path: Path)
    requires Valid(s) && HasItem(s, path)
    ensures Fair(s, path)
    decreases Size(s), s
  {
    match s
    case Source(_) =>
    case Select(left, right, _, _, _) =>
      ReadyIsNotExhausted(Child(s, path[0]), path[1..]);
      FairPoll(Child(s, path[0]), path[1..]);
      hide PollNext, Fair;
      SelectIsFair(s, path);
    case FilterSome(inner) =>
      FairPoll(inner, path);
      PollKeepsValid(inner);
      var (inner', p) := PollNext(inner);
      if p.ReadySkip? {
        FairPoll(FilterSome(inner'), path);
      }
  }

  lemma {:induction false} ReadyIsNotExhausted<T>(s: Stream<T>, path: Path)
    requires HasItem(s, path)
    ensures !Exhausted(s)
  {
    match s
    case Source(_) =>
    case Select(_, _, _, _, _) => ReadyIsNotExhausted(Child(s, path[0]), path[1..]);
    case FilterSome(inner) => ReadyIsNotExhausted(inner, path);
  }

  /**
   * No starvation: an item ready at a source under `|path|` merges comes out within 2^|path|
   * polls, whatever the other sources do.
   */
  lemma {:induction false} NoStarvation<T>(s: Stream<T>, path: Path) returns (n: nat)
    requires Valid(s) && HasItem(s, path)
    ensures 1 <= n <= Wait(s, path) <= Power2(|path|)
    ensures var script := At(s, path).value;
            && At(After(s, n - 1), path) == Some(script)
            && PollNext(After(s, n - 1)).1 == Ready(script[0].value)
            && At(After(s, n), path) == Some(script[1..])
    decreases Wait(s, path)
  {
    hide PollNext, Wait, At, Valid;
    FairPoll(s, path);
    PollKeepsValid(s);
    var (s', p) := PollNext(s);
    assert After(s, 1) == PollNext(After(s, 0)).0;
    if At(s', path) == At(s, path) {
      var m := NoStarvation(s', path);
      AfterOne(s, m);
      AfterOne(s, m - 1);
      n := m + 1;
    } else {
      n := 1;
    }
  }

  /** The same from any time on. */
  lemma NoStarvationLater<T>(s: Stream<T>, polls: nat, path: Path) returns (n: nat)
    requires Valid(s) && HasItem(After(s, polls), path)
    ensures 1 <= n <= Power2(|path|)
    ensures PollNext(After(s, polls + n - 1)).1 == Ready(At(After(s, polls), path).value[0].value)
  {
    hide PollNext, HasItem, At, Valid, Wait, Power2;
    PollsKeepValid(s, polls);
    n := NoStarvation(After(s, polls), path);
    AfterAfter(s, polls, n - 1);
  }

  // ---------------------------------------------------------------- who goes first

  /** The first poll of a merge asks the left side first, and the other only when that is not ready. */
  lemma SelectAsksLeftFirst<T>(left: Stream<T>, right: Stream<T>)
    ensures var first, second, got := PollNext(left).1, PollNext(right).1, PollNext(NewSelect(left, right)).1;
            && (IsItem(first) ==> got == first)
            && (first.NotReady? && !second.End? ==> got == second)
  {}

  /** The first poll of `join` asks the stream first, and the future only when that is not ready. */
  lemma JoinAsksStreamFirst<T>(future: Stream<T>, stream: Stream<T>)
    ensures var first, second, got := PollNext(stream).1, PollNext(future).1, PollNext(Join(future, stream)).1;
            && (first.Ready? ==> got == first)
            && (first.NotReady? && (second.Ready? || second.NotReady?) ==> got == second)
  {
    SelectAsksLeftFirst(stream, future);
    var merged := NewSelect(stream, future);
    var r := PollNext(merged);
    hide NewSelect;
    assert !r.1.ReadySkip? ==> PollNext(FilterSome(merged)) == (FilterSome(r.0), r.1);
  }

  // ---------------------------------------------------------------- who is asked

  /** A live side is asked when the other has ended, when it is its turn, or when the other has no item. */
  predicate IsAsked<T>(done: bool, otherDone: bool, itsTurn: bool, other: Poll<T>) {
    !done && (otherDone || itsTurn || !IsItem(other))
  }

  /**
   * A poll of a merge asks each side at most once, flags a side that reports its end, and never
   * asks a flagged side again.
   */
  lemma EndedSideIsLeftAlone<T>(s: Stream<T>)
    requires s.Select?
    ensures var s' := PollNext(s).0;
            var p, q := PollNext(s.left), PollNext(s.right);
            var askLeft := IsAsked(s.leftDone, s.rightDone, s.turn.Left?, q.1);
            var askRight := IsAsked(s.rightDone, s.leftDone, s.turn.Right?, p.1);
            && s'.Select?
            && s'.left == (if askLeft then p.0 else s.left) && s'.right == (if askRight then q.0 else s.right)
            && s'.leftDone == (s.leftDone || (askLeft && p.1.End?))
            && s'.rightDone == (s.rightDone || (askRight && q.1.End?))
  {}

  // ---------------------------------------------------------------- at every moment

  /** The first `n` polls followed by any outcome of what they leave is an outcome of the whole. */
  lemma {:induction false} PollsInterleave<T(!new)>(s: Stream<T>, n: nat, rest: seq<T>)
    requires Valid(s) && Interleaves(After(s, n), rest)
    ensures Valid(After(s, n)) && Interleaves(s, Emitted(s, n) + rest)
    decreases n
  {
    hide PollNext, Interleaves, Valid;
    PollsKeepValid(s, n);
    if n == 0 {
      assert [] + rest == rest;
    } else {
      var before := After(s, n - 1);
      PollsKeepValid(s, n - 1);
      PollInterleaves(before, rest);
      PollsInterleave(s, n - 1, Value(PollNext(before).1) + rest);
      assert Emitted(s, n) + rest == Emitted(s, n - 1) + (Value(PollNext(before).1) + rest);
    }
  }
}
