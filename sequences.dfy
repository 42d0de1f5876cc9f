/** Generic sequence helpers: flattening a sequence of groups, Python's
    `xs[:n]` slice with its treatment of negative and oversized bounds,
    splitting into runs of equal keys, and the loop that appends the
    elements a step accepts. */
module Sequences {
  import opened Wrappers

  /** All groups concatenated in order. */
  function Concat<T>(groups: seq<seq<T>>): seq<T> {
    if groups == [] then [] else Concat(groups[..|groups| - 1]) + groups[|groups| - 1]
  }

  lemma ConcatSnoc<T>(groups: seq<seq<T>>, g: seq<T>)
    ensures Concat(groups + [g]) == Concat(groups) + g
  {
    assert (groups + [g])[..|groups|] == groups;
  }

  /** `xs[:n]`: a non-negative `n` keeps at most `n` elements, a negative
      `n` drops the last `-n` elements (and everything if there are fewer). */
  function Take<T>(xs: seq<T>, n: int): (r: seq<T>)
    ensures r <= xs
    ensures n >= 0 ==> |r| == if n < |xs| then n else |xs|
    ensures n < 0 ==> |r| == if -n < |xs| then |xs| + n else 0
  {
    if n >= 0 then
      if n < |xs| then xs[..n] else xs
    else
      if -n < |xs| then xs[..|xs| + n] else []
  }

  // ---------------------------------------------------------------------
  // Runs of equal keys

  /** All elements of a run share a key. */
  predicate SameKey<T>(run: seq<T>, key: T -> string) {
    forall a :: 0 <= a < |run| ==> key(run[a]) == key(run[0])
  }

  /** Splitting into runs of consecutive elements with equal keys, one
      element at a time: `closed` holds the finished runs and `open` the run
      being filled.  The next element joins the open run when its key equals
      the open run's key; otherwise the open run, if any, is closed and the
      element opens a new run. */
  function RunsFrom<T>(rest: seq<T>, key: T -> string, closed: seq<seq<T>>, open: seq<T>): seq<seq<T>>
    decreases |rest|
  {
    if rest == [] then
      if open == [] then closed else closed + [open]
    else if open != [] && key(open[0]) == key(rest[0]) then
      RunsFrom(rest[1..], key, closed, open + [rest[0]])
    else
      RunsFrom(rest[1..], key, if open == [] then closed else closed + [open], [rest[0]])
  }


  /** Runs that are non-empty, each of one key, with neighbours of
      different keys. */
  predicate MaximalRuns<T>(runs: seq<seq<T>>, key: T -> string) {
    (forall k :: 0 <= k < |runs| ==> runs[k] != [] && SameKey(runs[k], key)) &&
    (forall k :: 0 < k < |runs| ==> key(runs[k - 1][0]) != key(runs[k][0]))
  }

  /** What holds of the finished runs and the open run between two steps. */
  predicate RunsSoFar<T>(key: T -> string, closed: seq<seq<T>>, open: seq<T>) {
    MaximalRuns(closed, key) && SameKey(open, key) &&
    (closed != [] ==> open != [] && key(closed[|closed| - 1][0]) != key(open[0]))
  }

  lemma {:induction false} RunsFromConcat<T>(rest: seq<T>, key: T -> string, closed: seq<seq<T>>, open: seq<T>)
    ensures Concat(RunsFrom(rest, key, closed, open)) == Concat(closed) + open + rest
    decreases |rest|
  {
    if rest == [] {
      if open != [] {
        ConcatSnoc(closed, open);
      }
    } else {
      var x := rest[0];
      assert rest == [x] + rest[1..];
      if open != [] && key(open[0]) == key(x) {
        RunsFromConcat(rest[1..], key, closed, open + [x]);
      } else if open == [] {
        RunsFromConcat(rest[1..], key, closed, [x]);
      } else {
        ConcatSnoc(closed, open);
        RunsFromConcat(rest[1..], key, closed + [open], [x]);
      }
    }
  }

  lemma CloseRun<T>(key: T -> string, closed: seq<seq<T>>, open: seq<T>)
    requires RunsSoFar(key, closed, open) && open != []
    ensures MaximalRuns(closed + [open], key)
  {
    var runs := closed + [open];
    forall k | 0 < k < |runs| ensures key(runs[k - 1][0]) != key(runs[k][0]) {
      if k < |closed| {
        assert runs[k - 1] == closed[k - 1] && runs[k] == closed[k];
      }
    }
  }

  lemma {:induction false} RunsFromMaximal<T>(rest: seq<T>, key: T -> string, closed: seq<seq<T>>, open: seq<T>)
    requires RunsSoFar(key, closed, open)
    ensures MaximalRuns(RunsFrom(rest, key, closed, open), key)
    decreases |rest|
  {
    if rest == [] {
      if open != [] {
        CloseRun(key, closed, open);
      }
    } else {
      var x := rest[0];
      if open != [] && key(open[0]) == key(x) {
        assert SameKey(open + [x], key);
        RunsFromMaximal(rest[1..], key, closed, open + [x]);
      } else if open == [] {
        RunsFromMaximal(rest[1..], key, closed, [x]);
      } else {
        CloseRun(key, closed, open);
        RunsFromMaximal(rest[1..], key, closed + [open], [x]);
      }
    }
  }

  /** One step of `RunsFrom` on the elements from position `i` on. */
  lemma RunsFromStep<T>(items: seq<T>, i: int, key: T -> string, closed: seq<seq<T>>, open: seq<T>)
    requires 0 <= i < |items|
    ensures open != [] && key(open[0]) == key(items[i]) ==>
      RunsFrom(items[i..], key, closed, open) == RunsFrom(items[i + 1..], key, closed, open + [items[i]])
    ensures !(open != [] && key(open[0]) == key(items[i])) ==>
      RunsFrom(items[i..], key, closed, open) ==
      RunsFrom(items[i + 1..], key, if open == [] then closed else closed + [open], [items[i]])
  {
    assert items[i..][0] == items[i] && items[i..][1..] == items[i + 1..];
  }

  /** The runs of `items`.  They partition the elements: read in order they
      give back the elements, each is a non-empty run of one key, and
      neighbouring runs have different keys, so no run could be extended. */
  function Runs<T>(items: seq<T>, key: T -> string): (runs: seq<seq<T>>)
    ensures Concat(runs) == items
    ensures MaximalRuns(runs, key)
  {
    RunsFromConcat(items, key, [], []);
    RunsFromMaximal(items, key, [], []);
    assert Concat<T>([]) + [] + items == items;
    RunsFrom(items, key, [], [])
  }

  // ---------------------------------------------------------------------
  // Keeping what a step accepts

  /** The values `f` gives, in order, skipping the elements it rejects. */
  function FilterMap<A, B>(xs: seq<A>, f: A -> Option<B>): seq<B> {
    if xs == [] then []
    else
      var rest := FilterMap(xs[..|xs| - 1], f);
      match f(xs[|xs| - 1])
      case Some(y) => rest + [y]
      case None => rest
  }

  lemma FilterMapSnoc<A, B>(xs: seq<A>, i: int, f: A -> Option<B>)
    requires 0 <= i < |xs|
    ensures FilterMap(xs[..i + 1], f) ==
      FilterMap(xs[..i], f) + (if f(xs[i]).Some? then [f(xs[i]).value] else [])
  {
    assert xs[..i + 1][..i] == xs[..i];
  }

  lemma {:induction false} FilterMapAppend<A, B>(xs: seq<A>, ys: seq<A>, f: A -> Option<B>)
    ensures FilterMap(xs + ys, f) == FilterMap(xs, f) + FilterMap(ys, f)
    decreases |ys|
  {
    if ys == [] {
      assert xs + ys == xs;
    } else {
      var n := |ys| - 1;
      assert (xs + ys)[..|xs + ys| - 1] == xs + ys[..n];
      assert (xs + ys)[|xs + ys| - 1] == ys[n];
      FilterMapAppend(xs, ys[..n], f);
    }
  }

  /** A rejected element is skipped and changes nothing else. */
  lemma FilterMapSkip<A, B>(xs: seq<A>, x: A, ys: seq<A>, f: A -> Option<B>)
    requires f(x).None?
    ensures FilterMap(xs + [x] + ys, f) == FilterMap(xs + ys, f)
  {
    FilterMapAppend(xs + [x], ys, f);
    FilterMapAppend(xs, [x], f);
    FilterMapAppend(xs, ys, f);
    assert FilterMap([x], f) == [] by {
      assert [x][..0] == [];
    }
  }

  /** Exactly the accepted values appear. */
  lemma {:induction false} FilterMapMembers<A, B>(xs: seq<A>, f: A -> Option<B>, y: B)
    ensures y in FilterMap(xs, f) <==> exists i :: 0 <= i < |xs| && f(xs[i]) == Some(y)
    decreases |xs|
  {
    if xs != [] {
      var n := |xs| - 1;
      FilterMapMembers(xs[..n], f, y);
      if exists i :: 0 <= i < |xs| && f(xs[i]) == Some(y) {
        var i :| 0 <= i < |xs| && f(xs[i]) == Some(y);
        if i < n {
          assert xs[..n][i] == xs[i];
        }
      }
      if y in FilterMap(xs[..n], f) {
        var i :| 0 <= i < n && f(xs[..n][i]) == Some(y);
        assert xs[i] == xs[..n][i];
      }
    }
  }

  /** Every value in the result is one `f` accepted. */
  lemma FilterMapAccepted<A, B>(xs: seq<A>, f: A -> Option<B>, P: B -> bool)
    requires forall x :: f(x).Some? ==> P(f(x).value)
    ensures forall k :: 0 <= k < |FilterMap(xs, f)| ==> P(FilterMap(xs, f)[k])
  {
    forall k | 0 <= k < |FilterMap(xs, f)| ensures P(FilterMap(xs, f)[k]) {
      var y := FilterMap(xs, f)[k];
      FilterMapMembers(xs, f, y);
    }
  }
}
