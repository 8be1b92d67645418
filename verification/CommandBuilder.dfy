/** The compiler wrapper's command builder (command.go): argument lists edited in place, and the
    order of wrapper and user arguments that every sequence of edits keeps. */
module CommandBuilding {

  datatype BuilderArg = BuilderArg(value: string, fromUser: bool)

  /** Where an argument comes from: put before the user's, the i-th of the user's, or put after
      them. The builder itself only records whether an argument is the user's. */
  datatype Origin = Before | User(i: nat) | After

  datatype Builder = Builder(path: string, args: seq<BuilderArg>, origins: seq<Origin>)

  datatype Call =
    | WrapPath(path: string, extraFlags: seq<string>)
    | AddPreUserArgs(args: seq<string>)
    | AddPostUserArgs(args: seq<string>)
    | Keep(kept: seq<nat>, values: seq<string>)  // transformArgs and filterArgPairs: what they leave, and as what

  function CreateBuilderArgs(fromUser: bool, args: seq<string>): (r: seq<BuilderArg>)
    ensures |r| == |args|
    ensures forall i :: 0 <= i < |r| ==> r[i].value == args[i] && r[i].fromUser == fromUser
  {
    seq(|args|, i requires 0 <= i < |args| => BuilderArg(args[i], fromUser))
  }

  function All(origin: Origin, n: nat): seq<Origin> {
    seq(n, i => origin)
  }

  /** The position of the first user argument, or the end. */
  function FirstUser(args: seq<BuilderArg>): (p: nat)
    ensures p <= |args|
    ensures forall i :: 0 <= i < p ==> !args[i].fromUser
    ensures p < |args| ==> args[p].fromUser
  {
    if args == [] || args[0].fromUser then 0 else 1 + FirstUser(args[1..])
  }

  function Insert<T>(s: seq<T>, p: nat, xs: seq<T>): seq<T>
    requires p <= |s|
  {
    s[..p] + xs + s[p..]
  }

  /** Positions of a list of length n, in order. */
  ghost predicate Positions(kept: seq<nat>, n: nat) {
    && (forall k :: 0 <= k < |kept| ==> kept[k] < n)
    && (forall j, k :: 0 <= j < k < |kept| ==> kept[j] < kept[k])
  }

  ghost predicate CanCall(b: Builder, c: Call) {
    && |b.origins| == |b.args|
    && (c.Keep? ==> Positions(c.kept, |b.args|) && |c.values| == |c.kept|)
  }

  function Kept(args: seq<BuilderArg>, kept: seq<nat>, values: seq<string>): (r: seq<BuilderArg>)
    requires |values| == |kept| && forall k :: 0 <= k < |kept| ==> kept[k] < |args|
    ensures |r| == |kept|
    ensures forall k :: 0 <= k < |r| ==> r[k] == BuilderArg(values[k], args[kept[k]].fromUser)
  {
    seq(|kept|, k requires 0 <= k < |kept| => BuilderArg(values[k], args[kept[k]].fromUser))
  }

  function KeptOrigins(origins: seq<Origin>, kept: seq<nat>): (r: seq<Origin>)
    requires forall k :: 0 <= k < |kept| ==> kept[k] < |origins|
    ensures |r| == |kept|
    ensures forall k :: 0 <= k < |r| ==> r[k] == origins[kept[k]]
  {
    seq(|kept|, k requires 0 <= k < |kept| => origins[kept[k]])
  }

  /** What a call makes of a builder. */
  ghost function Apply(b: Builder, c: Call): Builder
    requires CanCall(b, c)
  {
    match c
    case WrapPath(path, extraFlags) =>
      Builder(path, CreateBuilderArgs(false, extraFlags + [b.path]) + b.args, All(Before, |extraFlags| + 1) + b.origins)
    case AddPreUserArgs(args) =>
      var p := FirstUser(b.args);
      b.(args := Insert(b.args, p, CreateBuilderArgs(false, args)), origins := Insert(b.origins, p, All(Before, |args|)))
    case AddPostUserArgs(args) =>
      b.(args := b.args + CreateBuilderArgs(false, args), origins := b.origins + All(After, |args|))
    case Keep(kept, values) =>
      b.(args := Kept(b.args, kept, values), origins := KeptOrigins(b.origins, kept))
  }

  // ---------------------------------------------------------------- position by position

  /** The arguments from position p on are these, and none is the user's. */
  ghost predicate Added(args: seq<BuilderArg>, p: nat, values: seq<string>) {
    p + |values| <= |args| && forall i :: 0 <= i < |values| ==> args[p + i] == BuilderArg(values[i], false)
  }

  /** The arguments stay, those from position p on moved back by n. */
  ghost predicate Moved(args: seq<BuilderArg>, args': seq<BuilderArg>, p: nat, n: nat) {
    && p <= |args| && |args'| == |args| + n
    && (forall i :: 0 <= i < p ==> args'[i] == args[i])
    && (forall i :: p <= i < |args| ==> args'[i + n] == args[i])
  }

  /** The extra flags, then the old path, then all arguments there were. */
  ghost predicate Wrapped(b: Builder, b': Builder, path: string, extraFlags: seq<string>) {
    && b'.path == path && Moved(b.args, b'.args, 0, |extraFlags| + 1)
    && Added(b'.args, 0, extraFlags) && b'.args[|extraFlags|] == BuilderArg(b.path, false)
  }

  /** The new arguments stand right before the first of the user's, or last if there is none. */
  ghost predicate AddedBefore(b: Builder, b': Builder, values: seq<string>) {
    && b'.path == b.path
    && exists p: nat ::
         && Moved(b.args, b'.args, p, |values|) && Added(b'.args, p, values)
         && (forall i :: 0 <= i < p ==> !b.args[i].fromUser) && (p < |b.args| ==> b.args[p].fromUser)
  }

  ghost predicate AddedBehind(b: Builder, b': Builder, values: seq<string>) {
    b'.path == b.path && Moved(b.args, b'.args, |b.args|, |values|) && Added(b'.args, |b.args|, values)
  }

  /** The arguments at those positions, in their order and under new values. */
  ghost predicate OnlyKept(b: Builder, b': Builder, kept: seq<nat>, values: seq<string>)
    requires Positions(kept, |b.args|) && |values| == |kept|
  {
    && b'.path == b.path && |b'.args| == |kept|
    && forall k :: 0 <= k < |kept| ==> b'.args[k] == BuilderArg(values[k], b.args[kept[k]].fromUser)
  }

  /** Where a call puts which value. */
  lemma CallPlaces(b: Builder, c: Call)
    requires CanCall(b, c)
    ensures match c
            case WrapPath(path, extraFlags) => Wrapped(b, Apply(b, c), path, extraFlags)
            case AddPreUserArgs(args) => AddedBefore(b, Apply(b, c), args)
            case AddPostUserArgs(args) => AddedBehind(b, Apply(b, c), args)
            case Keep(kept, values) => OnlyKept(b, Apply(b, c), kept, values)
  {
    match c
    case WrapPath(path, extraFlags) => WrapPlaces(b, path, extraFlags);
    case AddPreUserArgs(args) => PrePlaces(b, args);
    case AddPostUserArgs(args) => PostPlaces(b, args);
    case Keep(kept, values) =>
  }

  lemma WrapPlaces(b: Builder, path: string, extraFlags: seq<string>)
    requires |b.origins| == |b.args|
    ensures Wrapped(b, Apply(b, WrapPath(path, extraFlags)), path, extraFlags)
  {
  }

  lemma PrePlaces(b: Builder, args: seq<string>)
    requires |b.origins| == |b.args|
    ensures AddedBefore(b, Apply(b, AddPreUserArgs(args)), args)
  {
    var b', p := Apply(b, AddPreUserArgs(args)), FirstUser(b.args);
    InsertPlaces(b.args, p, args);
    assert b'.args == Insert(b.args, p, CreateBuilderArgs(false, args));
    hide Insert, FirstUser, Moved, Added, CreateBuilderArgs;
  }

  lemma InsertPlaces(args: seq<BuilderArg>, p: nat, values: seq<string>)
    requires p <= |args|
    ensures var args' := Insert(args, p, CreateBuilderArgs(false, values));
            Moved(args, args', p, |values|) && Added(args', p, values)
  {
  }

  lemma PostPlaces(b: Builder, args: seq<string>)
    requires |b.origins| == |b.args|
    ensures AddedBehind(b, Apply(b, AddPostUserArgs(args)), args)
  {
  }

  // ---------------------------------------------------------------- three blocks

  function Block(o: Origin): nat {
    match o
    case Before => 0
    case User(_) => 1
    case After => 2
  }

  ghost predicate InOrder(o: Origin, o': Origin) {
    Block(o) <= Block(o') && (o.User? && o'.User? ==> o.i < o'.i)
  }

  /** Wrapper arguments put before the user's, then the user's in their original order, then wrapper
      arguments put after the user's. */
  ghost predicate Ordered(origins: seq<Origin>) {
    forall j, k :: 0 <= j < k < |origins| ==> InOrder(origins[j], origins[k])
  }

  ghost predicate Tagged(b: Builder) {
    |b.origins| == |b.args| && forall i :: 0 <= i < |b.args| ==> (b.args[i].fromUser <==> b.origins[i].User?)
  }

  ghost predicate HasUser(b: Builder) {
    exists i :: 0 <= i < |b.args| && b.args[i].fromUser
  }

  ghost predicate HasAfter(b: Builder) {
    exists i :: 0 <= i < |b.origins| && b.origins[i].After?
  }

  /** The one call that can break the order: arguments meant to go before the user's, when none of
      the user's is left and there are arguments meant to go after them. */
  ghost predicate Misplaces(b: Builder, c: Call) {
    c.AddPreUserArgs? && c.args != [] && !HasUser(b) && HasAfter(b)
  }

  lemma TagsKept(b: Builder, c: Call)
    requires CanCall(b, c) && Tagged(b)
    ensures Tagged(Apply(b, c))
  {
  }

  lemma PreOrder(b: Builder, args: seq<string>)
    requires Tagged(b) && Ordered(b.origins)
    ensures Ordered(Apply(b, AddPreUserArgs(args)).origins) <==> !Misplaces(b, AddPreUserArgs(args))
  {
    var p := FirstUser(b.args);
    var origins := Apply(b, AddPreUserArgs(args)).origins;
    if Misplaces(b, AddPreUserArgs(args)) {
      var i :| 0 <= i < |b.origins| && b.origins[i].After?;
      assert origins[i] == After && origins[p] == Before;
      assert !InOrder(origins[i], origins[p]);
    } else if args == [] {
      assert origins == b.origins;
    } else {
      assert HasUser(b) ==> b.args[p].fromUser;
      forall i | 0 <= i < p ensures b.origins[i] == Before {
        if p < |b.args| {
          assert InOrder(b.origins[i], b.origins[p]);
        }
      }
    }
  }

  /** A call keeps the order if and only if it is not that one. */
  lemma OrderKept(b: Builder, c: Call)
    requires CanCall(b, c) && Tagged(b) && Ordered(b.origins)
    ensures Ordered(Apply(b, c).origins) <==> !Misplaces(b, c)
  {
    match c
    case AddPreUserArgs(args) => PreOrder(b, args); hide Apply, Ordered;
    case Keep(kept, values) => hide FirstUser, HasUser, HasAfter, InOrder; KeepOrder(b, kept, values);
    case _ => hide FirstUser, HasUser, HasAfter;
  }

  lemma KeepOrder(b: Builder, kept: seq<nat>, values: seq<string>)
    requires CanCall(b, Keep(kept, values)) && Ordered(b.origins)
    ensures Ordered(Apply(b, Keep(kept, values)).origins)
  {
    hide InOrder;
  }

  /** The user's arguments are among the n original ones. */
  ghost predicate OfUser(origins: seq<Origin>, n: nat) {
    forall i :: 0 <= i < |origins| && origins[i].User? ==> origins[i].i < n
  }

  lemma OfUserKept(b: Builder, c: Call, n: nat)
    requires CanCall(b, c) && OfUser(b.origins, n)
    ensures OfUser(Apply(b, c).origins, n)
  {
  }

  ghost function CallAll(b: Builder, calls: seq<Call>): (b': Builder)
    requires Tagged(b)
    ensures Tagged(b')
    decreases |calls|
  {
    if calls == [] then b
    else
      var prev := CallAll(b, calls[..|calls| - 1]);
      var c := calls[|calls| - 1];
      if CanCall(prev, c) then
        TagsKept(prev, c);
        Apply(prev, c)
      else prev
  }

  /** No call on the way misplaces anything. */
  ghost predicate NoneMisplaced(b: Builder, calls: seq<Call>)
    requires Tagged(b)
    decreases |calls|
  {
    calls != [] ==>
      NoneMisplaced(b, calls[..|calls| - 1]) && !Misplaces(CallAll(b, calls[..|calls| - 1]), calls[|calls| - 1])
  }

  /** A new builder: the user's arguments and nothing else. */
  function NewBuilder(path: string, args: seq<string>): (b: Builder)
    ensures Tagged(b) && b.path == path && |b.args| == |args|
    ensures forall i :: 0 <= i < |args| ==> b.args[i] == BuilderArg(args[i], true) && b.origins[i] == User(i)
  {
    Builder(path, CreateBuilderArgs(true, args), seq(|args|, i requires 0 <= i < |args| => User(i)))
  }

  // ---------------------------------------------------------------- which arguments stay, and as what

  /** A filter keeps the i-th user argument; nothing else takes any out. */
  ghost predicate KeepsUser(b: Builder, c: Call, i: nat) {
    CanCall(b, c) && c.Keep? ==> exists k :: 0 <= k < |c.kept| && b.origins[c.kept[k]] == User(i)
  }

  /** A filter does not change the value of the i-th user argument. */
  ghost predicate LeavesValue(b: Builder, c: Call, i: nat) {
    CanCall(b, c) && c.Keep? ==>
      forall k :: 0 <= k < |c.kept| && b.origins[c.kept[k]] == User(i) ==> c.values[k] == b.args[c.kept[k]].value
  }

  ghost predicate AlwaysKept(b: Builder, calls: seq<Call>, i: nat)
    requires Tagged(b)
    decreases |calls|
  {
    calls != [] ==>
      var n := |calls| - 1;
      AlwaysKept(b, calls[..n], i) && KeepsUser(CallAll(b, calls[..n]), calls[n], i)
  }

  ghost predicate NeverEdited(b: Builder, calls: seq<Call>, i: nat)
    requires Tagged(b)
    decreases |calls|
  {
    calls != [] ==>
      var n := |calls| - 1;
      NeverEdited(b, calls[..n], i) && LeavesValue(CallAll(b, calls[..n]), calls[n], i)
  }

  /** Wherever the i-th user argument stands it has this value. */
  ghost predicate HasValue(b: Builder, i: nat, value: string)
    requires Tagged(b)
  {
    forall j :: 0 <= j < |b.args| && b.origins[j] == User(i) ==> b.args[j].value == value
  }

  lemma KeptByCall(b: Builder, c: Call, i: nat)
    requires CanCall(b, c)
    ensures User(i) in Apply(b, c).origins <==> User(i) in b.origins && KeepsUser(b, c, i)
  {
    hide FirstUser;
    match c
    case AddPreUserArgs(args) =>
      var p := FirstUser(b.args);
      assert b.origins == b.origins[..p] + b.origins[p..];
    case Keep(kept, _) =>
      assert forall k :: 0 <= k < |kept| ==> b.origins[kept[k]] in b.origins;
    case _ =>
  }

  lemma ValueByCall(b: Builder, c: Call, i: nat, value: string)
    requires CanCall(b, c) && Tagged(b) && HasValue(b, i, value) && LeavesValue(b, c, i)
    ensures Tagged(Apply(b, c)) && HasValue(Apply(b, c), i, value)
  {
    TagsKept(b, c);
    hide FirstUser, Positions, Tagged;
  }

  /** A user argument is there after any calls if and only if it was and every filter has kept it. */
  lemma {:induction false} LeftExactly(b: Builder, calls: seq<Call>, i: nat)
    requires Tagged(b)
    ensures User(i) in CallAll(b, calls).origins <==> User(i) in b.origins && AlwaysKept(b, calls, i)
    decreases |calls|
  {
    hide Tagged, Apply, CanCall;
    if calls == [] {
    } else {
      LeftExactly(b, calls[..|calls| - 1], i);
      var prev, c := CallAll(b, calls[..|calls| - 1]), calls[|calls| - 1];
      if CanCall(prev, c) {
        KeptByCall(prev, c, i);
      }
    }
  }

  lemma {:induction false} ValueStays(b: Builder, calls: seq<Call>, i: nat, value: string)
    requires Tagged(b) && HasValue(b, i, value) && NeverEdited(b, calls, i)
    ensures HasValue(CallAll(b, calls), i, value)
    decreases |calls|
  {
    hide Tagged, Apply, CanCall, HasValue, LeavesValue;
    if calls == [] {
    } else {
      ValueStays(b, calls[..|calls| - 1], i, value);
      var prev, c := CallAll(b, calls[..|calls| - 1]), calls[|calls| - 1];
      if CanCall(prev, c) {
        ValueByCall(prev, c, i, value);
      }
    }
  }

  // ---------------------------------------------------------------- the order after any calls

  /** Wrapper arguments up to p, the user's up to q in their original order, wrapper arguments. */
  ghost predicate ThreeBlocks(b: Builder, n: nat, p: nat, q: nat) {
    && p <= q <= |b.args| == |b.origins|
    && (forall i :: 0 <= i < p ==> b.origins[i].Before? && !b.args[i].fromUser)
    && (forall i :: p <= i < q ==> b.origins[i].User? && b.args[i].fromUser && b.origins[i].i < n)
    && (forall i :: q <= i < |b.args| ==> b.origins[i].After? && !b.args[i].fromUser)
    && (forall i, j :: p <= i < j < q ==> b.origins[i].i < b.origins[j].i)
  }

  /** Any sequence of builder calls leaves three blocks: wrapper arguments, user arguments in a
      contiguous stretch and in their original order, wrapper arguments. The user arguments left are
      those no filter has dropped, and those no filter has edited read as they were given. */
  lemma {:induction false} BlocksKept(path: string, args: seq<string>, calls: seq<Call>) returns (p: nat, q: nat)
    requires NoneMisplaced(NewBuilder(path, args), calls)
    ensures var start := NewBuilder(path, args);
            var b := CallAll(start, calls);
            && Ordered(b.origins) && ThreeBlocks(b, |args|, p, q)
            && (forall i :: 0 <= i < |args| ==> (User(i) in b.origins <==> AlwaysKept(start, calls, i)))
            && (forall j :: p <= j < q && NeverEdited(start, calls, b.origins[j].i) ==>
                  b.args[j].value == args[b.origins[j].i])
  {
    var start := NewBuilder(path, args);
    var b := CallAll(start, calls);
    OrderOfCalls(start, calls, |args|);
    p, q := Boundaries(b, |args|);
    hide CallAll, Ordered, OfUser, Tagged, AlwaysKept, NeverEdited, NoneMisplaced;
    forall i | 0 <= i < |args| ensures User(i) in b.origins <==> AlwaysKept(start, calls, i) {
      LeftExactly(start, calls, i);
      assert start.origins[i] == User(i);
    }
    forall j | p <= j < q && NeverEdited(start, calls, b.origins[j].i)
      ensures b.args[j].value == args[b.origins[j].i]
    {
      ValueStays(start, calls, b.origins[j].i, args[b.origins[j].i]);
    }
  }

  lemma {:induction false} OrderOfCalls(b: Builder, calls: seq<Call>, n: nat)
    requires Tagged(b) && Ordered(b.origins) && NoneMisplaced(b, calls) && OfUser(b.origins, n)
    ensures Ordered(CallAll(b, calls).origins) && OfUser(CallAll(b, calls).origins, n)
    decreases |calls|
  {
    if calls == [] {
    } else {
      OrderOfCalls(b, calls[..|calls| - 1], n);
      var prev, c := CallAll(b, calls[..|calls| - 1]), calls[|calls| - 1];
      if CanCall(prev, c) {
        OrderKept(prev, c);
        OfUserKept(prev, c, n);
      }
      hide OfUser, Ordered, Misplaces, Apply, Tagged, CanCall;
    }
  }

  lemma Boundaries(b: Builder, n: nat) returns (p: nat, q: nat)
    requires Tagged(b) && Ordered(b.origins) && OfUser(b.origins, n)
    ensures ThreeBlocks(b, n, p, q)
  {
    p := 0;
    while p < |b.origins| && b.origins[p].Before?
      invariant p <= |b.origins| && forall i :: 0 <= i < p ==> b.origins[i].Before?
    {
      p := p + 1;
    }
    q := p;
    while q < |b.origins| && b.origins[q].User?
      invariant p <= q <= |b.origins| && forall i :: p <= i < q ==> b.origins[i].User?
    {
      q := q + 1;
    }
    forall i | q <= i < |b.args| ensures b.origins[i].After? {
      if q < i {
        assert InOrder(b.origins[q], b.origins[i]);
      }
      if p < q {
        assert InOrder(b.origins[p], b.origins[q]);
      }
    }
    forall i, j | p <= i < j < q ensures b.origins[i].i < b.origins[j].i {
      assert InOrder(b.origins[i], b.origins[j]);
    }
  }

  /** Without a user argument left, an argument meant to go first ends up last. */
  lemma PreAfterPost()
    ensures var calls := [AddPostUserArgs(["-lm"]), Keep([1], ["-lm"]), AddPreUserArgs(["-static"])];
            var b := CallAll(NewBuilder("gcc", ["main.c"]), calls);
            && b.args == [BuilderArg("-lm", false), BuilderArg("-static", false)]
            && b.origins == [After, Before]
  {
    var b0 := NewBuilder("gcc", ["main.c"]);
    var c1, c2, c3 := AddPostUserArgs(["-lm"]), Keep([1], ["-lm"]), AddPreUserArgs(["-static"]);
    var b1 := Apply(b0, c1);
    var b2 := Apply(b1, c2);
    assert b1.args == [BuilderArg("main.c", true), BuilderArg("-lm", false)] && b1.origins == [User(0), After];
    assert b2.args == [BuilderArg("-lm", false)] && b2.origins == [After];
    assert Apply(b2, c3).args == [BuilderArg("-lm", false), BuilderArg("-static", false)];
    assert Apply(b2, c3).origins == [After, Before];
    assert [c1, c2, c3][..2] == [c1, c2] && [c1, c2][..1] == [c1] && [c1][..0] == [];
    assert CallAll(b0, [c1]) == b1;
    assert CallAll(b0, [c1, c2]) == b2;
  }
}
