/** The builder's two filters (command.go): transformArgs and filterArgPairs as functions of the
    argument list, and the class whose methods overwrite the array they are reading. */
module ArgumentFilters {
  import opened CommandBuilding

  // ---------------------------------------------------------------- transformArgs

  /** What transformArgs leaves: which positions, as what, and the state of the callback. */
  datatype Outcome<S> = Outcome(state: S, kept: seq<nat>, values: seq<string>)

  /** The callback sees the arguments in order and may keep state; an empty answer drops one. */
  ghost function Transformed<S>(transform: (S, BuilderArg) -> (S, string), start: S, args: seq<BuilderArg>): (r: Outcome<S>)
    ensures Positions(r.kept, |args|) && |r.values| == |r.kept|
    ensures forall k :: 0 <= k < |r.values| ==> r.values[k] != ""
    decreases |args|
  {
    if args == [] then Outcome(start, [], [])
    else
      var last := |args| - 1;
      var r := Transformed(transform, start, args[..last]);
      var (state, value) := transform(r.state, args[last]);
      if value == "" then r.(state := state) else Outcome(state, r.kept + [last], r.values + [value])
  }

  /** What the callback answers for argument i. */
  ghost function Answer<S>(transform: (S, BuilderArg) -> (S, string), start: S, args: seq<BuilderArg>, i: nat): string
    requires i < |args|
  {
    transform(Transformed(transform, start, args[..i]).state, args[i]).1
  }

  /** An argument is kept if and only if the callback answers something for it, and that is its new
      value. */
  lemma {:induction false} TransformedExactly<S>(
    transform: (S, BuilderArg) -> (S, string), start: S, args: seq<BuilderArg>, i: nat)
    requires i < |args|
    ensures var r := Transformed(transform, start, args);
            && (i in r.kept <==> Answer(transform, start, args, i) != "")
            && (forall k :: 0 <= k < |r.kept| && r.kept[k] == i ==> r.values[k] == Answer(transform, start, args, i))
    decreases |args|
  {
    var last := |args| - 1;
    if i < last {
      TransformedExactly(transform, start, args[..last], i);
      assert args[..last][..i] == args[..i];
    }
  }

  // ---------------------------------------------------------------- filterArgPairs

  /** Left-to-right pair removal, from position i on: what is left. */
  ghost function KeptPairs(keepPair: (BuilderArg, BuilderArg) -> bool, args: seq<BuilderArg>, i: nat): (kept: seq<nat>)
    requires i <= |args|
    ensures forall k :: 0 <= k < |kept| ==> i <= kept[k] < |args|
    ensures Positions(kept, |args|)
    decreases |args| - i
  {
    if i == |args| then []
    else if i == |args| - 1 || keepPair(args[i], args[i + 1]) then [i] + KeptPairs(keepPair, args, i + 1)
    else KeptPairs(keepPair, args, i + 2)
  }

  /** A pair to be removed starts at i: the two are not to be kept, and i is not the second half of
      an earlier pair. */
  ghost predicate PairAt(keepPair: (BuilderArg, BuilderArg) -> bool, args: seq<BuilderArg>, i: int)
    decreases i
  {
    && 0 <= i < |args| - 1 && !keepPair(args[i], args[i + 1]) && !PairAt(keepPair, args, i - 1)
  }

  /** Exactly the arguments in no such pair are left. */
  lemma {:induction false} KeptPairsExactly(
    keepPair: (BuilderArg, BuilderArg) -> bool, args: seq<BuilderArg>, i: nat, j: nat)
    requires i <= j < |args| && !PairAt(keepPair, args, i - 1)
    ensures j in KeptPairs(keepPair, args, i) <==> !PairAt(keepPair, args, j) && !PairAt(keepPair, args, j - 1)
    decreases |args| - i
  {
    if PairAt(keepPair, args, i) {
      if j > i + 1 {
        KeptPairsExactly(keepPair, args, i + 2, j);
      }
    } else if j > i {
      KeptPairsExactly(keepPair, args, i + 1, j);
    }
  }

  function ValuesAt(args: seq<BuilderArg>, kept: seq<nat>): (r: seq<string>)
    requires forall k :: 0 <= k < |kept| ==> kept[k] < |args|
    ensures |r| == |kept|
    ensures forall k :: 0 <= k < |r| ==> r[k] == args[kept[k]].value
  {
    seq(|kept|, k requires 0 <= k < |kept| => args[kept[k]].value)
  }

  /** Removing a pair can bring a new one together, which stays. */
  lemma PairExposed()
    ensures var z, defs := BuilderArg("-Wl,-z", true), BuilderArg("-Wl,defs", true);
            var keepPair := (a: BuilderArg, b: BuilderArg) => !(a.value == "-Wl,-z" && b.value == "-Wl,defs");
            KeptPairs(keepPair, [z, z, defs, defs], 0) == [0, 3] && !keepPair(z, defs)
  {
    var z, defs := BuilderArg("-Wl,-z", true), BuilderArg("-Wl,defs", true);
    var keepPair := (a: BuilderArg, b: BuilderArg) => !(a.value == "-Wl,-z" && b.value == "-Wl,defs");
    var args := [z, z, defs, defs];
    assert KeptPairs(keepPair, args, 4) == [];
    assert KeptPairs(keepPair, args, 3) == [3];
    assert KeptPairs(keepPair, args, 1) == [3];
  }

  // ---------------------------------------------------------------- the builder

  /** Go's append: in place while the array has room, else into a larger copy. */
  method Append(buf: array<BuilderArg>, len: nat, more: seq<BuilderArg>) returns (buf': array<BuilderArg>)
    requires len <= buf.Length
    modifies buf
    ensures buf' == buf || fresh(buf')
    ensures len + |more| <= buf'.Length && buf'[..len + |more|] == old(buf[..len]) + more
  {
    buf' := buf;
    if len + |more| > buf.Length {
      buf' := new BuilderArg[2 * (len + |more|)](_ => BuilderArg("", false));
      forall k | 0 <= k < len {
        buf'[k] := buf[k];
      }
    }
    forall k | 0 <= k < |more| {
      buf'[len + k] := more[k];
    }
  }

  lemma FirstUserIs(args: seq<BuilderArg>, p: nat)
    requires p <= |args| && forall k :: 0 <= k < p ==> !args[k].fromUser
    requires p < |args| ==> args[p].fromUser
    ensures FirstUser(args) == p
  {
  }

  lemma PreUserArgs(b: Builder, args: seq<string>, p: nat)
    requires Tagged(b) && p == FirstUser(b.args)
    ensures var b' := Apply(b, Call.AddPreUserArgs(args));
            && Tagged(b') && b'.path == b.path && |b'.origins| == |b'.args|
            && b'.args == b.args[..p] + (CreateBuilderArgs(false, args) + b.args[p..])
            && AddedBefore(b, b', args)
  {
    TagsKept(b, Call.AddPreUserArgs(args));
    CallPlaces(b, Call.AddPreUserArgs(args));
    hide AddedBefore;
  }

  class CommandBuilder {
    var path: string
    var buf: array<BuilderArg>
    var len: nat
    ghost var origins: seq<Origin>

    ghost predicate Valid()
      reads this, buf
    {
      len <= buf.Length && |origins| == len && Tagged(Builder(path, buf[..len], origins))
    }

    ghost function State(): (b: Builder)
      reads this, buf
      requires Valid()
      ensures Tagged(b)
    {
      Builder(path, buf[..len], origins)
    }

    constructor (path: string, args: seq<string>)
      ensures Valid() && fresh(buf) && State() == NewBuilder(path, args)
    {
      this.path, len, origins := path, |args|, NewBuilder(path, args).origins;
      var userArgs := CreateBuilderArgs(true, args);
      buf := new BuilderArg[|args|](i requires 0 <= i < |args| => userArgs[i]);
      new;
      assert buf[..len] == CreateBuilderArgs(true, args);
    }

    method WrapPath(path: string, extraFlags: seq<string>)
      requires Valid()
      modifies this, buf
      ensures Valid() && fresh(buf)
      ensures State() == Apply(old(State()), Call.WrapPath(path, extraFlags))
      ensures Wrapped(old(State()), State(), path, extraFlags)
    {
      ghost var call := Call.WrapPath(path, extraFlags);
      ghost var was := State();
      TagsKept(was, call);
      CallPlaces(was, call);
      hide Wrapped;
      var newArgs := CreateBuilderArgs(false, extraFlags) + [BuilderArg(this.path, false)];
      assert newArgs == CreateBuilderArgs(false, extraFlags + [this.path]);
      var front := new BuilderArg[|newArgs|](i requires 0 <= i < |newArgs| => newArgs[i]);
      assert front[..|newArgs|] == newArgs;
      var args := buf[..len];
      var all := Append(front, |newArgs|, args);
      buf, len, this.path, origins := all, |newArgs| + |args|, path, Apply(was, call).origins;
    }

    method FirstUserIndex() returns (index: nat)
      requires Valid()
      ensures index == FirstUser(State().args)
    {
      index := 0;
      while index < len && !buf[index].fromUser
        invariant index <= len && forall k :: 0 <= k < index ==> !buf[k].fromUser
      {
        index := index + 1;
      }
      FirstUserIs(State().args, index);
    }

    method AddPreUserArgs(args: seq<string>)
      requires Valid()
      modifies this, buf
      ensures Valid() && (buf == old(buf) || fresh(buf))
      ensures State() == Apply(old(State()), Call.AddPreUserArgs(args))
      ensures AddedBefore(old(State()), State(), args)
    {
      hide AddedBefore, Tagged, CreateBuilderArgs;
      var index := FirstUserIndex();
      ghost var after := Apply(State(), Call.AddPreUserArgs(args));
      PreUserArgs(State(), args, index);
      hide Apply, FirstUser;
      InsertAt(index, args, after);
    }

    /** Puts wrapper arguments at that index. */
    method InsertAt(index: nat, args: seq<string>, ghost after: Builder)
      requires Valid() && index <= len && Tagged(after) && after.path == path
      requires var all := State().args;
               after.args == all[..index] + (CreateBuilderArgs(false, args) + all[index..])
      modifies this, buf
      ensures Valid() && (buf == old(buf) || fresh(buf)) && State() == after
    {
      hide Tagged, CreateBuilderArgs;
      var all := buf[..len];
      var more := CreateBuilderArgs(false, args) + all[index..];
      assert buf[..index] == all[..index];
      buf := Append(buf, index, more);
      Become(after, index + |more|);
    }

    /** Takes the length, and the record of origins, of what the array now holds. */
    method Become(ghost b: Builder, n: nat)
      requires Tagged(b) && path == b.path && n <= buf.Length && buf[..n] == b.args
      modifies this`len, this`origins
      ensures Valid() && State() == b
    {
      len, origins := n, b.origins;
    }

    method AddPostUserArgs(args: seq<string>)
      requires Valid()
      modifies this, buf
      ensures Valid() && (buf == old(buf) || fresh(buf))
      ensures State() == Apply(old(State()), Call.AddPostUserArgs(args))
      ensures AddedBehind(old(State()), State(), args)
    {
      ghost var call := Call.AddPostUserArgs(args);
      ghost var was := State();
      TagsKept(was, call);
      CallPlaces(was, call);
      hide AddedBehind;
      buf := Append(buf, len, CreateBuilderArgs(false, args));
      len, origins := len + |args|, Apply(was, call).origins;
    }

    /** Part way through a filter: `kept` of the first `at` arguments are written to the front, the
        rest of the array is as it was. */
    ghost predicate Filtering(was: Builder, at: nat, kept: seq<nat>, values: seq<string>)
      reads this, buf
    {
      && Tagged(was) && path == was.path && origins == was.origins
      && len == |was.args| <= buf.Length && at <= len
      && Positions(kept, at) && |values| == |kept| <= at
      && (forall k :: 0 <= k < |kept| ==> buf[k] == BuilderArg(values[k], was.args[kept[k]].fromUser))
      && (forall k :: |kept| <= k < len ==> buf[k] == was.args[k])
    }

    /** Puts a kept argument behind those kept before, over one already read. */
    method Overwrite(ghost was: Builder, ghost at: nat, ghost kept: seq<nat>, ghost values: seq<string>, w: nat, arg: BuilderArg)
      requires Filtering(was, at, kept, values) && at < |was.args| && w == |kept|
      requires arg.fromUser == was.args[at].fromUser
      modifies buf
      ensures Filtering(was, at + 1, kept + [at], values + [arg.value])
    {
      buf[w] := arg;
    }

    /** Cuts the list down to what was kept. */
    method Shrink(ghost was: Builder, w: nat, ghost kept: seq<nat>, ghost values: seq<string>)
      requires Filtering(was, |was.args|, kept, values) && w == |kept|
      modifies this`len, this`origins
      ensures Valid() && State() == Apply(was, Keep(kept, values)) && OnlyKept(was, State(), kept, values)
    {
      TagsKept(was, Keep(kept, values));
      origins := KeptOrigins(origins, kept);
      len := w;
      assert buf[..len] == Kept(was.args, kept, values);
    }

    method TransformArgs<S>(transform: (S, BuilderArg) -> (S, string), start: S) returns (state: S)
      requires Valid()
      modifies this, buf
      ensures Valid() && buf == old(buf)
      ensures var r := Transformed(transform, start, old(State().args));
              && state == r.state && State() == Apply(old(State()), Keep(r.kept, r.values))
              && OnlyKept(old(State()), State(), r.kept, r.values)
    {
      ghost var was := State();
      ghost var kept: seq<nat>, values: seq<string> := [], [];
      NothingFiltered();
      state := start;
      var w := 0;
      for i := 0 to len
        invariant buf == old(buf) && len == |was.args| && w == |kept| && Filtering(was, i, kept, values)
        invariant Outcome(state, kept, values) == Transformed(transform, start, was.args[..i])
      {
        TransformedMore(transform, start, was.args, i);
        hide Transformed;
        state, w, kept, values := TransformTurn(transform, state, was, i, w, kept, values);
      }
      assert was.args[..len] == was.args;
      hide Transformed, Filtering;
      Shrink(was, w, kept, values);
    }

    /** A turn of the loop: an argument is kept as what the callback answers, or dropped. */
    method TransformTurn<S>(
      transform: (S, BuilderArg) -> (S, string), state: S, ghost was: Builder, i: nat, w: nat,
      ghost kept: seq<nat>, ghost values: seq<string>)
      returns (state': S, w': nat, ghost kept': seq<nat>, ghost values': seq<string>)
      requires i < len && Filtering(was, i, kept, values) && w == |kept|
      modifies buf
      ensures Filtering(was, i + 1, kept', values') && w' == |kept'|
      ensures var (s, value) := transform(state, was.args[i]);
              state' == s
              && (if value == "" then kept' == kept && values' == values
                  else kept' == kept + [i] && values' == values + [value])
    {
      hide Tagged;
      var fromUser := buf[i].fromUser;
      var (s, value) := transform(state, buf[i]);
      state', w', kept', values' := s, w, kept, values;
      if value != "" {
        Overwrite(was, i, kept, values, w, BuilderArg(value, fromUser));
        w', kept', values' := w + 1, kept + [i], values + [value];
      }
    }

    lemma NothingFiltered()
      requires Valid()
      ensures Filtering(State(), 0, [], [])
    {
    }

    method FilterArgPairs(keepPair: (BuilderArg, BuilderArg) -> bool)
      requires Valid()
      modifies this, buf
      ensures Valid() && buf == old(buf)
      ensures var args := old(State().args);
              var kept := KeptPairs(keepPair, args, 0);
              && State() == Apply(old(State()), Keep(kept, ValuesAt(args, kept)))
              && OnlyKept(old(State()), State(), kept, ValuesAt(args, kept))
    {
      hide KeptSoFar, KeptPairs, Filtering, OnlyKept;
      ghost var was := State();
      ghost var kept: seq<nat>, values: seq<string> := [], [];
      NothingFiltered();
      NothingKept(keepPair, was.args);
      var w, i := 0, 0;
      while i < len
        invariant buf == old(buf) && w == |kept| && i <= |was.args| == len && Filtering(was, i, kept, values)
        invariant KeptSoFar(keepPair, was.args, i, kept, values)
      {
        i, w, kept, values := FilterTurn(keepPair, was, i, w, kept, values);
      }
      AllKept(keepPair, was.args, kept, values);
      Shrink(was, w, kept, values);
    }

    /** A turn of the loop: keep an argument, or skip a pair. */
    method FilterTurn(
      keepPair: (BuilderArg, BuilderArg) -> bool, ghost was: Builder, i: nat, w: nat, ghost kept: seq<nat>, ghost values: seq<string>)
      returns (i': nat, w': nat, ghost kept': seq<nat>, ghost values': seq<string>)
      requires i < len && Filtering(was, i, kept, values) && w == |kept|
      requires KeptSoFar(keepPair, was.args, i, kept, values)
      modifies buf
      ensures i < i' <= len && Filtering(was, i', kept', values') && w' == |kept'|
      ensures KeptSoFar(keepPair, was.args, i', kept', values')
    {
      hide KeptSoFar, KeptPairs, Tagged;
      if i == len - 1 || keepPair(buf[i], buf[i + 1]) {
        KeepOne(keepPair, was.args, i, kept, values);
        w', kept', values' := w + 1, kept + [i], values + [was.args[i].value];
        Overwrite(was, i, kept, values, w, buf[i]);
        i' := i + 1;
      } else {
        DropPair(keepPair, was.args, i, kept, values);
        i', w', kept', values' := i + 2, w, kept, values;
      }
    }
  }

  lemma TransformedMore<S>(transform: (S, BuilderArg) -> (S, string), start: S, args: seq<BuilderArg>, i: nat)
    requires i < |args|
    ensures var r, r' := Transformed(transform, start, args[..i]), Transformed(transform, start, args[..i + 1]);
            var (state, value) := transform(r.state, args[i]);
            r' == if value == "" then r.(state := state) else Outcome(state, r.kept + [i], r.values + [value])
  {
    assert args[..i + 1][..i] == args[..i];
  }

  /** What is kept of the first i arguments, and as what; the rest of the list is still to come. */
  ghost predicate KeptSoFar(
    keepPair: (BuilderArg, BuilderArg) -> bool, args: seq<BuilderArg>, i: nat, kept: seq<nat>, values: seq<string>)
    requires i <= |args|
  {
    && Positions(kept, i) && values == ValuesAt(args, kept)
    && kept + KeptPairs(keepPair, args, i) == KeptPairs(keepPair, args, 0)
  }

  lemma KeepOne(
    keepPair: (BuilderArg, BuilderArg) -> bool, args: seq<BuilderArg>, i: nat, kept: seq<nat>, values: seq<string>)
    requires i < |args| && KeptSoFar(keepPair, args, i, kept, values)
    requires i == |args| - 1 || keepPair(args[i], args[i + 1])
    ensures KeptSoFar(keepPair, args, i + 1, kept + [i], values + [args[i].value])
  {
    assert kept + [i] + KeptPairs(keepPair, args, i + 1) == kept + KeptPairs(keepPair, args, i);
  }

  lemma DropPair(
    keepPair: (BuilderArg, BuilderArg) -> bool, args: seq<BuilderArg>, i: nat, kept: seq<nat>, values: seq<string>)
    requires i < |args| - 1 && KeptSoFar(keepPair, args, i, kept, values) && !keepPair(args[i], args[i + 1])
    ensures KeptSoFar(keepPair, args, i + 2, kept, values)
  {
  }

  lemma NothingKept(keepPair: (BuilderArg, BuilderArg) -> bool, args: seq<BuilderArg>)
    ensures KeptSoFar(keepPair, args, 0, [], [])
  {
  }

  lemma AllKept(
    keepPair: (BuilderArg, BuilderArg) -> bool, args: seq<BuilderArg>, kept: seq<nat>, values: seq<string>)
    requires KeptSoFar(keepPair, args, |args|, kept, values)
    ensures kept == KeptPairs(keepPair, args, 0) && values == ValuesAt(args, kept)
  {
  }
}
