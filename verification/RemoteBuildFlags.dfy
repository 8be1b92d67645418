/** Removing one `--flag value` or `--flag=value` from the user's arguments
    (remote_build_flags.go): the search the callback of transformArgs makes, against what is found. */
module RemoteBuildFlags {
  import opened CommandBuilding
  import opened ArgumentFilters

  datatype SearchState = SearchingForFlag | SearchingForValue | SearchComplete

  datatype Search = Search(state: SearchState, flagValue: string, failed: bool)

  datatype Removal = Removed(value: string) | NoSuchCmdlineArg | RequiresAValue

  const START := Search(SearchingForFlag, "", false)

  predicate IsPrefix(prefix: string, s: string) {
    |prefix| <= |s| && s[..|prefix|] == prefix
  }

  /** What the callback makes of one argument. */
  function Look(flagName: string, s: Search, arg: BuilderArg): (Search, string) {
    if s.failed then (s, arg.value)
    else
      match s.state
      case SearchingForFlag =>
        if !arg.fromUser then (s, arg.value)
        else if arg.value == flagName then (s.(state := SearchingForValue), "")
        else if IsPrefix(flagName, arg.value) && arg.value[|flagName|] == '=' then
          (s.(state := SearchComplete, flagValue := arg.value[|flagName| + 1..]), "")
        else (s, arg.value)
      case SearchingForValue =>
        if !arg.fromUser then (s.(failed := true), arg.value)
        else (s.(state := SearchComplete, flagValue := arg.value), "")
      case SearchComplete => (s, arg.value)
  }

  function Looking(flagName: string): (Search, BuilderArg) -> (Search, string) {
    (s: Search, arg: BuilderArg) => Look(flagName, s, arg)
  }

  // ---------------------------------------------------------------- what there is to find

  /** A user argument that is the flag, with its value in it or not. */
  predicate Names(flagName: string, arg: BuilderArg) {
    arg.fromUser && (arg.value == flagName || IsPrefix(flagName + "=", arg.value))
  }

  /** The position of the first such argument, or the end. */
  function FirstNamed(flagName: string, args: seq<BuilderArg>): (m: nat)
    ensures m <= |args|
    ensures m < |args| ==> Names(flagName, args[m])
    ensures forall j :: 0 <= j < m ==> !Names(flagName, args[j])
    decreases |args|
  {
    if args == [] then 0
    else
      var m := FirstNamed(flagName, args[..|args| - 1]);
      if m < |args| - 1 || Names(flagName, args[|args| - 1]) then m else |args|
  }

  /** The flag's value: behind its `=`, or the next argument if that is the user's. */
  function Found(flagName: string, args: seq<BuilderArg>): Removal {
    var m := FirstNamed(flagName, args);
    if m == |args| then NoSuchCmdlineArg
    else if args[m].value != flagName then Removed(args[m].value[|flagName| + 1..])
    else if m + 1 < |args| && args[m + 1].fromUser then Removed(args[m + 1].value)
    else RequiresAValue
  }

  /** The positions the removal takes out. */
  function Taken(flagName: string, args: seq<BuilderArg>): set<nat> {
    var m := FirstNamed(flagName, args);
    if m == |args| then {}
    else if Found(flagName, args).Removed? && args[m].value == flagName then {m, m + 1}
    else {m}
  }

  /** All positions but those taken out, and but those of empty arguments. */
  function Rest(args: seq<BuilderArg>, taken: set<nat>): (kept: seq<nat>)
    ensures Positions(kept, |args|)
    ensures forall i :: i in kept <==> 0 <= i < |args| && i !in taken && args[i].value != ""
    decreases |args|
  {
    if args == [] then []
    else
      var last := |args| - 1;
      var kept := Rest(args[..last], taken);
      if last in taken || args[last].value == "" then kept else kept + [last]
  }

  // ---------------------------------------------------------------- the search finds it

  /** Where the search stands after all of the arguments. */
  function Standing(flagName: string, args: seq<BuilderArg>): Search {
    var m := FirstNamed(flagName, args);
    if m == |args| then START
    else
      match Found(flagName, args)
      case Removed(value) => Search(SearchComplete, value, false)
      case _ => Search(SearchingForValue, "", m + 1 < |args|)
  }

  lemma LookNames(flagName: string, arg: BuilderArg)
    ensures Names(flagName, arg) <==> Look(flagName, START, arg).0 != START
    ensures !Names(flagName, arg) ==> Look(flagName, START, arg) == (START, arg.value)
    ensures Names(flagName, arg) && arg.value != flagName ==>
              Look(flagName, START, arg) == (Search(SearchComplete, arg.value[|flagName| + 1..], false), "")
  {
    if |arg.value| > |flagName| {
      assert arg.value[..|flagName| + 1] == arg.value[..|flagName|] + [arg.value[|flagName|]];
      assert (flagName + "=")[..|flagName|] == flagName;
    }
  }

  /** One more argument: the search takes it out exactly if it is part of what is to be found. */
  lemma StandingMore(flagName: string, args: seq<BuilderArg>)
    requires args != []
    ensures var last := |args| - 1;
            && Look(flagName, Standing(flagName, args[..last]), args[last])
               == (Standing(flagName, args), if last in Taken(flagName, args) then "" else args[last].value)
            && forall i :: 0 <= i < last ==> (i in Taken(flagName, args) <==> i in Taken(flagName, args[..last]))
  {
    var last := |args| - 1;
    var m := FirstNamed(flagName, args[..last]);
    LookNames(flagName, args[last]);
    assert m < last ==> FirstNamed(flagName, args) == m && args[..last][m] == args[m];
    assert m + 1 < last ==> args[..last][m + 1] == args[m + 1];
    hide Names, IsPrefix;
  }

  lemma {:induction false} SearchFinds(flagName: string, args: seq<BuilderArg>)
    ensures var r := Transformed(Looking(flagName), START, args);
            && r.state == Standing(flagName, args)
            && r.kept == Rest(args, Taken(flagName, args)) && r.values == ValuesAt(args, r.kept)
    decreases |args|
  {
    hide Standing, Taken, Look;
    if args == [] {
      NothingToFind(flagName);
    } else {
      var last := |args| - 1;
      SearchFinds(flagName, args[..last]);
      StandingMore(flagName, args);
      SameRest(args[..last], Taken(flagName, args), Taken(flagName, args[..last]));
    }
  }

  lemma NothingToFind(flagName: string)
    ensures Standing(flagName, []) == START
  {
  }

  lemma {:induction false} SameRest(args: seq<BuilderArg>, taken: set<nat>, taken': set<nat>)
    requires forall i :: 0 <= i < |args| ==> (i in taken <==> i in taken')
    ensures Rest(args, taken) == Rest(args, taken')
    decreases |args|
  {
    if args == [] {
    } else {
      SameRest(args[..|args| - 1], taken, taken');
    }
  }

  // ---------------------------------------------------------------- what is left of the command line

  function NonEmpty(args: seq<BuilderArg>): seq<BuilderArg>
    decreases |args|
  {
    if args == [] then [] else NonEmpty(args[..|args| - 1]) + UnlessEmpty(args[|args| - 1])
  }

  function UnlessEmpty(arg: BuilderArg): seq<BuilderArg> {
    if arg.value == "" then [] else [arg]
  }

  /** The first user argument that names the flag stands at m, and the removal takes it out: with its
      value if that is in it, and with the next argument if that is the user's, and so the value. */
  ghost predicate TakenAt(flagName: string, args: seq<BuilderArg>, m: nat, n: nat, r: Removal) {
    && m <= n <= |args| && (forall j :: 0 <= j < m ==> !Names(flagName, args[j]))
    && match r
       case NoSuchCmdlineArg => m == n == |args|
       case Removed(value) =>
         && m < n && args[m].fromUser
         && (if args[m].value == flagName then n == m + 2 && args[m + 1] == BuilderArg(value, true)
             else n == m + 1 && args[m].value == flagName + "=" + value)
       case RequiresAValue =>
         && n == m + 1 && args[m] == BuilderArg(flagName, true)
         && (n < |args| ==> !args[n].fromUser)
  }

  /** A removal takes out just that, and all empty arguments. */
  ghost predicate TakesOut(flagName: string, b: Builder, b': Builder, r: Removal) {
    && b'.path == b.path
    && exists m: nat, n: nat :: TakenAt(flagName, b.args, m, n, r) && b'.args == NonEmpty(b.args[..m]) + NonEmpty(b.args[n..])
  }

  /** The builder a removal leaves. */
  ghost function Without(flagName: string, b: Builder): Builder
    requires Tagged(b)
  {
    var rest := Rest(b.args, Taken(flagName, b.args));
    Apply(b, Keep(rest, ValuesAt(b.args, rest)))
  }

  /** What the filter leaves when it takes those positions out. */
  function Left(args: seq<BuilderArg>, taken: set<nat>): seq<BuilderArg> {
    var rest := Rest(args, taken);
    Kept(args, rest, ValuesAt(args, rest))
  }

  lemma LeftMore(args: seq<BuilderArg>, taken: set<nat>)
    requires args != []
    ensures var last := |args| - 1;
            Left(args, taken) == Left(args[..last], taken) + if last in taken then [] else UnlessEmpty(args[last])
  {
    var last := |args| - 1;
    var before := args[..last];
    var kept := Rest(before, taken);
    assert Kept(args, kept, ValuesAt(args, kept)) == Left(before, taken);
    if Rest(args, taken) == kept + [last] {
      KeptOneMore(args, kept, last);
    }
  }

  lemma KeptOneMore(args: seq<BuilderArg>, kept: seq<nat>, i: nat)
    requires i < |args| && forall k :: 0 <= k < |kept| ==> kept[k] < |args|
    ensures Kept(args, kept + [i], ValuesAt(args, kept + [i])) == Kept(args, kept, ValuesAt(args, kept)) + [args[i]]
  {
  }

  lemma NonEmptyMore(args: seq<BuilderArg>, n: nat)
    requires n < |args|
    ensures var last := |args| - 1; NonEmpty(args[n..]) == NonEmpty(args[n..last]) + UnlessEmpty(args[last])
  {
    hide UnlessEmpty;
    assert args[n..][..|args| - 1 - n] == args[n..|args| - 1];
  }

  lemma {:induction false} NoneTakenOut(args: seq<BuilderArg>, taken: set<nat>)
    requires forall i: nat :: i < |args| ==> i !in taken
    ensures Left(args, taken) == NonEmpty(args)
    decreases |args|
  {
    if args == [] {
    } else {
      hide Left, UnlessEmpty;
      LeftMore(args, taken);
      NoneTakenOut(args[..|args| - 1], taken);
    }
  }

  /** It leaves the arguments outside a stretch. */
  lemma {:induction false} LeftOutside(args: seq<BuilderArg>, taken: set<nat>, m: nat, n: nat)
    requires m <= n <= |args| && forall i: nat :: i < |args| ==> (i in taken <==> m <= i < n)
    ensures Left(args, taken) == NonEmpty(args[..m]) + NonEmpty(args[n..])
    decreases |args|
  {
    if m == n == |args| {
      hide Left;
      NoneTakenOut(args, taken);
      assert args[..m] == args && args[n..] == [];
    } else {
      hide Left, NonEmpty, UnlessEmpty;
      var last := |args| - 1;
      var before := args[..last];
      LeftMore(args, taken);
      if last in taken {
        LeftOutside(before, taken, m, last);
        assert before[..m] == args[..m] && before[last..] == args[n..] == [];
        assert Left(before, taken) + [] == Left(before, taken);
      } else {
        LeftOutside(before, taken, m, n);
        assert before[..m] == args[..m] && before[n..] == args[n..last];
        NonEmptyMore(args, n);
        Grouped(NonEmpty(args[..m]), NonEmpty(before[n..]), UnlessEmpty(args[last]));
      }
    }
  }

  lemma Grouped(a: seq<BuilderArg>, b: seq<BuilderArg>, c: seq<BuilderArg>)
    ensures a + b + c == a + (b + c)
  {
  }

  lemma TakesOutExactly(flagName: string, b: Builder)
    requires Tagged(b)
    ensures TakesOut(flagName, b, Without(flagName, b), Found(flagName, b.args))
  {
    var args, m := b.args, FirstNamed(flagName, b.args);
    var n := TakenStretch(flagName, args);
    assert Without(flagName, b).args == Left(args, Taken(flagName, args));
    hide Found, Left, TakenAt, FirstNamed;
    LeftOutside(args, Taken(flagName, args), m, n);
  }

  lemma TakenStretch(flagName: string, args: seq<BuilderArg>) returns (n: nat)
    ensures var m := FirstNamed(flagName, args);
            && m <= n <= |args| && TakenAt(flagName, args, m, n, Found(flagName, args))
            && forall i: nat :: i < |args| ==> (i in Taken(flagName, args) <==> m <= i < n)
  {
    var m, r := FirstNamed(flagName, args), Found(flagName, args);
    n := if m == |args| then m else if r.Removed? && args[m].value == flagName then m + 2 else m + 1;
    if m < |args| && args[m].value != flagName {
      var value := args[m].value;
      assert value[..|flagName| + 1] == flagName + "=" && value == value[..|flagName| + 1] + value[|flagName| + 1..];
    }
  }

  method RemoveOneUserCmdlineFlagWithValue(builder: CommandBuilder, flagName: string) returns (r: Removal)
    requires builder.Valid()
    modifies builder, builder.buf
    ensures builder.Valid() && builder.buf == old(builder.buf)
    ensures r == Found(flagName, old(builder.State().args))
    ensures builder.State() == Without(flagName, old(builder.State()))
    ensures TakesOut(flagName, old(builder.State()), builder.State(), r)
  {
    SearchFinds(flagName, builder.State().args);
    TakesOutExactly(flagName, builder.State());
    hide TakesOut, Look, Names, OnlyKept, Apply;
    var search := builder.TransformArgs(Looking(flagName), START);
    if search.failed {
      return RequiresAValue;
    }
    match search.state
    case SearchingForFlag => r := NoSuchCmdlineArg;
    case SearchingForValue => r := RequiresAValue;
    case SearchComplete => r := Removed(search.flagValue);
  }

  // ---------------------------------------------------------------- "unmodified" if there is none

  lemma {:induction false} NothingTaken(args: seq<BuilderArg>)
    ensures (forall i :: 0 <= i < |args| ==> args[i].value != "") <==> |Rest(args, {})| == |args|
    ensures |Rest(args, {})| == |args| ==> forall k :: 0 <= k < |args| ==> Rest(args, {})[k] == k
    ensures |Rest(args, {})| <= |args|
    decreases |args|
  {
    if args == [] {
    } else {
      NothingTaken(args[..|args| - 1]);
    }
  }

  /** When there is no such flag the builder is unmodified if and only if no argument is empty: the
      filter drops empty arguments whatever the callback does. */
  lemma UnmodifiedWithoutFlag(flagName: string, b: Builder)
    requires Tagged(b) && Found(flagName, b.args).NoSuchCmdlineArg?
    ensures Without(flagName, b) == b <==> forall i :: 0 <= i < |b.args| ==> b.args[i].value != ""
  {
    hide Rest, FirstNamed;
    NothingTaken(b.args);
    var rest := Rest(b.args, {});
    var b' := Without(flagName, b);
    assert |b'.args| == |rest|;
    if |rest| == |b.args| {
      assert b'.args == b.args && b'.origins == b.origins;
    }
  }

  /** A command line without the flag that is not left alone. */
  lemma EmptyArgumentDropped()
    ensures var b := NewBuilder("clang", ["-c", "", "main.c"]);
            Found("--gomacc-path", b.args) == NoSuchCmdlineArg && Without("--gomacc-path", b) != b
  {
    var b := NewBuilder("clang", ["-c", "", "main.c"]);
    assert b.args == [BuilderArg("-c", true), BuilderArg("", true), BuilderArg("main.c", true)];
    forall i | 0 <= i < 3 ensures !Names("--gomacc-path", b.args[i]) {
    }
    assert FirstNamed("--gomacc-path", b.args) == 3;
    hide Names, FirstNamed, Rest;
    UnmodifiedWithoutFlag("--gomacc-path", b);
    assert b.args[1].value == "";
  }
}
