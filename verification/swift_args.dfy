/** How the executor reads Swift object-store URLs (`swift://container/path`)
    and sorts a job's arguments into input paths, the output path, plain
    parameters and the container. */
module SwiftArgs {
  import opened Exceptions
  import opened PyStrings

  const Scheme := "swift://"

  predicate EndsWith(s: string, suffix: string) {
    |suffix| <= |s| && s[|s| - |suffix|..] == suffix
  }

  /** `_get_swift_path`: the `/`-separated segments from index 3 on, joined
      again with `/`; indexing segment 3 raises when there are fewer than four. */
  function SwiftPath(arg: string): (r: Result<string>)
    ensures r.Ok? <==> |Split(arg, '/')| >= 4
    ensures r.Raise? ==> r.exception == IndexError
  {
    var parts := Split(arg, '/');
    if |parts| < 4 then Raise(IndexError)
    else Ok(Join(parts[3..], '/'))
  }

  /** The path is a proper suffix of the argument. */
  lemma SwiftPathSuffix(arg: string)
    requires SwiftPath(arg).Ok?
    ensures EndsWith(arg, SwiftPath(arg).value) && |SwiftPath(arg).value| < |arg|
  {
    var parts := Split(arg, '/');
    JoinSplit(arg, '/');
    JoinAppend(parts[..3], parts[3..], '/');
    assert parts[..3] + parts[3..] == parts;
  }

  /** `_get_swift_container`: segment 2 of the `/`-split argument. */
  function SwiftContainer(arg: string): (r: Result<string>)
    ensures r.Ok? <==> |Split(arg, '/')| >= 3
    ensures r.Raise? ==> r.exception == IndexError
    ensures r.Ok? ==> '/' !in r.value
  {
    var parts := Split(arg, '/');
    if |parts| < 3 then Raise(IndexError)
    else
      SplitPieces(arg, '/');
      Ok(parts[2])
  }

  /** `_get_swift_path` as the source writes it: index segment 3, then append
      `'/' + segment` for each later segment. */
  method GetSwiftPath(arg: string) returns (r: Result<string>)
    ensures r == SwiftPath(arg)
  {
    var splitted := Split(arg, '/');
    if |splitted| < 4 {
      return Raise(IndexError);
    }
    var swiftPath := splitted[3];
    var i := 0;
    while i < |splitted| - 4
      invariant 0 <= i <= |splitted| - 4
      invariant swiftPath == Join(splitted[3..4 + i], '/')
    {
      assert splitted[3..5 + i] == splitted[3..4 + i] + [splitted[i + 4]];
      JoinSnoc(splitted[3..4 + i], splitted[i + 4], '/');
      swiftPath := swiftPath + "/" + splitted[i + 4];
      i := i + 1;
    }
    assert splitted[3..4 + i] == splitted[3..];
    return Ok(swiftPath);
  }

  /** A Swift URL with at least four segments is its container and its path
      put back together. */
  lemma SwiftUrlRoundTrip(arg: string)
    requires StartsWith(arg, Scheme) && |Split(arg, '/')| >= 4
    ensures SwiftContainer(arg).Ok? && SwiftPath(arg).Ok?
    ensures Scheme + SwiftContainer(arg).value + "/" + SwiftPath(arg).value == arg
  {
    var rest := arg[|Scheme|..];
    assert arg == Scheme + rest;
    var parts := Split(rest, '/');
    SchemeSplit(rest);
    SchemeParts(rest);
    assert |parts| >= 2;
    JoinSplit(rest, '/');
    var path := Join(parts[1..], '/');
    calc {
      Scheme + parts[0] + "/" + path;
      Scheme + (parts[0] + "/" + path);
      Scheme + Join(parts, '/');
      arg;
    }
  }

  /** The scheme contributes the segments "swift:" and "" to a split. */
  lemma SchemeSplit(rest: string)
    ensures Split(Scheme + rest, '/') == ["swift:", ""] + Split(rest, '/')
  {
    var head := "swift:";
    assert Scheme + rest == head + ['/'] + ([] + ['/'] + rest);
    SplitPrefix(head, [] + ['/'] + rest, '/');
    SplitPrefix([], rest, '/');
  }

  /** After the scheme, the first segment is the container and the others
      make up the path. */
  lemma SchemeParts(rest: string)
    ensures var parts := Split(rest, '/');
      && SwiftContainer(Scheme + rest) == Ok(parts[0])
      && (|parts| >= 2 ==> SwiftPath(Scheme + rest) == Ok(Join(parts[1..], '/')))
      && (|parts| < 2 ==> SwiftPath(Scheme + rest) == Raise(IndexError))
  {
    var parts := Split(rest, '/');
    SchemeSplit(rest);
    var all := Split(Scheme + rest, '/');
    assert all[2] == parts[0] && all[3..] == parts[1..];
  }

  /** Parsing the URL built from a container without `/` and any path gives
      both back. */
  lemma SwiftUrlParse(container: string, path: string)
    requires '/' !in container
    ensures SwiftContainer(Scheme + container + "/" + path) == Ok(container)
    ensures SwiftPath(Scheme + container + "/" + path) == Ok(path)
  {
    var rest := container + ['/'] + path;
    assert Scheme + container + "/" + path == Scheme + rest;
    SplitPrefix(container, path, '/');
    var parts := Split(path, '/');
    assert Split(rest, '/') == [container] + parts;
    assert Split(rest, '/')[1..] == parts;
    SchemeParts(rest);
    JoinSplit(path, '/');
  }

  /** The URL `swift://c/input/a.txt`: container `c`, path `input/a.txt`. */
  lemma SwiftPathExample()
    ensures SwiftPath("swift://c/input/a.txt") == Ok("input/a.txt")
    ensures SwiftContainer("swift://c/input/a.txt") == Ok("c")
  {
    SwiftUrlParse("c", "input/a.txt");
    assert Scheme + "c" + "/" + "input/a.txt" == "swift://c/input/a.txt";
  }

  // ---------------------------------------------------------------------------
  // Job arguments

  /** What `_get_job_params` returns: `(in_paths, out_path, others, container)`. */
  datatype JobParams = JobParams(inPaths: seq<string>, outPath: string, others: seq<string>, container: string)

  predicate IsSwift(arg: string) { StartsWith(arg, Scheme) }
  predicate IsPlain(arg: string) { !IsSwift(arg) }
  /** The substring tests look at the whole URL, container included. */
  predicate IsInputArg(arg: string) { IsSwift(arg) && Contains(arg, "input") }
  predicate IsOutputArg(arg: string) { IsSwift(arg) && Contains(arg, "output") }
  /** An argument whose path `_get_job_params` takes, and on which it raises. */
  predicate BadPathArg(arg: string) { (IsInputArg(arg) || IsOutputArg(arg)) && SwiftPath(arg).Raise? }

  /** Every argument whose path is taken has one. */
  predicate PathsOk(args: seq<string>) {
    forall a :: a in args ==> !BadPathArg(a)
  }

  /** `in_paths` after a pass over `args`: the path of each input argument, in order. */
  function InPathsOf(args: seq<string>): seq<string>
    requires PathsOk(args)
  {
    if args == [] then []
    else
      var arg := args[|args| - 1];
      assert arg in args;
      InPathsOf(args[..|args| - 1]) + (if IsInputArg(arg) then [SwiftPath(arg).value] else [])
  }

  /** `out_path` after a pass over `args`: bound by each output argument in turn. */
  function OutPathOf(args: seq<string>): Option<string>
    requires PathsOk(args)
  {
    if args == [] then None
    else
      var arg := args[|args| - 1];
      assert arg in args;
      if IsOutputArg(arg) then Some(SwiftPath(arg).value) else OutPathOf(args[..|args| - 1])
  }

  /** `_get_job_params`, stated declaratively: every argument whose path is
      taken must have one, the container comes from `args[0]` whatever it is,
      and `out_path` is bound only if some Swift argument contains "output". */
  function JobParamsOf(args: seq<string>): Result<JobParams>
  {
    if !PathsOk(args) || args == [] then Raise(IndexError)
    else match SwiftContainer(args[0])
      case Raise(e) => Raise(e)
      case Ok(container) =>
        match OutPathOf(args)
        case None => Raise(UnboundLocalError("out_path"))
        case Some(outPath) => Ok(JobParams(InPathsOf(args), outPath, Filter(IsPlain, args), container))
  }

  /** What one more argument without a path failure adds to each result. */
  lemma ScanStep(args: seq<string>, i: nat)
    requires i < |args| && PathsOk(args[..i]) && !BadPathArg(args[i])
    ensures PathsOk(args[..i + 1])
    ensures IsInputArg(args[i]) ==> SwiftPath(args[i]).Ok?
    ensures IsOutputArg(args[i]) ==> SwiftPath(args[i]).Ok?
    ensures InPathsOf(args[..i + 1])
         == InPathsOf(args[..i]) + (if IsInputArg(args[i]) then [SwiftPath(args[i]).value] else [])
    ensures OutPathOf(args[..i + 1])
         == if IsOutputArg(args[i]) then Some(SwiftPath(args[i]).value) else OutPathOf(args[..i])
    ensures Filter(IsPlain, args[..i + 1]) == Filter(IsPlain, args[..i]) + (if IsPlain(args[i]) then [args[i]] else [])
  {
    assert args[..i + 1][..i] == args[..i];
  }

  /** `_get_job_params` as the source writes it: one pass over `args` that
      appends to `in_paths` and `others` and rebinds `out_path`. */
  method GetJobParams(args: seq<string>) returns (r: Result<JobParams>)
    ensures r == JobParamsOf(args)
  {
    var inPaths: seq<string> := [];
    var others: seq<string> := [];
    var outPath: Option<string> := None;
    var i := 0;
    while i < |args|
      invariant 0 <= i <= |args| && PathsOk(args[..i])
      invariant inPaths == InPathsOf(args[..i])
      invariant others == Filter(IsPlain, args[..i])
      invariant outPath == OutPathOf(args[..i])
    {
      var arg := args[i];
      ghost var inPaths0, outPath0, others0 := inPaths, outPath, others;
      if StartsWith(arg, Scheme) {
        if Contains(arg, "input") {
          var p := GetSwiftPath(arg);
          if p.Raise? {
            assert !PathsOk(args) by { assert arg in args; }
            return Raise(p.exception);
          }
          inPaths := inPaths + [p.value];
        }
        if Contains(arg, "output") {
          var p := GetSwiftPath(arg);
          if p.Raise? {
            assert !PathsOk(args) by { assert arg in args; }
            return Raise(p.exception);
          }
          outPath := Some(p.value);
        }
      } else {
        others := others + [arg];
      }
      ScanStep(args, i);
      i := i + 1;
    }
    assert args[..i] == args;
    if |args| == 0 {
      return Raise(IndexError);
    }
    var container := SwiftContainer(args[0]);
    if container.Raise? {
      return Raise(container.exception);
    }
    if outPath.None? {
      return Raise(UnboundLocalError("out_path"));
    }
    return Ok(JobParams(inPaths, outPath.value, others, container.value));
  }

  // ---------------------------------------------------------------------------
  // Properties of the argument classification

  /** Every argument goes either to the plain parameters or is a Swift URL:
      none is lost and none is duplicated. */
  lemma {:induction false} PlainSwiftPartition(args: seq<string>)
    ensures multiset(Filter(IsPlain, args)) + multiset(Filter(IsSwift, args)) == multiset(args)
  {
    if args != [] {
      var init, last := args[..|args| - 1], args[|args| - 1];
      PlainSwiftPartition(init);
      assert args == init + [last];
    }
  }

  /** `in_paths` holds the path of each input argument, in the order of the
      arguments. */
  lemma {:induction false} InPathsFiltered(args: seq<string>)
    requires PathsOk(args)
    ensures var ins := Filter(IsInputArg, args);
      && |InPathsOf(args)| == |ins|
      && forall k :: 0 <= k < |ins| ==> SwiftPath(ins[k]) == Ok(InPathsOf(args)[k])
  {
    if args != [] {
      var init, last := args[..|args| - 1], args[|args| - 1];
      InPathsFiltered(init);
      assert args == init + [last];
      assert last in args;
      FilterSnoc(IsInputArg, init, last);
      var ins, ins' := Filter(IsInputArg, init), Filter(IsInputArg, args);
      var e := if IsInputArg(last) then [SwiftPath(last).value] else [];
      assert InPathsOf(args) == InPathsOf(init) + e;
      forall k | 0 <= k < |ins'| ensures SwiftPath(ins'[k]) == Ok(InPathsOf(args)[k]) {
        if k < |ins| {
          assert ins'[k] == ins[k] && InPathsOf(args)[k] == InPathsOf(init)[k];
        }
      }
    }
  }

  /** `out_path` is the path of the LAST argument that contains "output", and
      stays unbound when there is none. */
  lemma {:induction false} OutPathIsLast(args: seq<string>)
    requires PathsOk(args)
    ensures OutPathOf(args).None? <==> forall a :: a in args ==> !IsOutputArg(a)
    ensures OutPathOf(args).Some? ==>
      exists k :: 0 <= k < |args| && IsOutputArg(args[k]) && SwiftPath(args[k]) == Ok(OutPathOf(args).value)
                  && forall j :: k < j < |args| ==> !IsOutputArg(args[j])
  {
    if args != [] {
      var init, last := args[..|args| - 1], args[|args| - 1];
      OutPathIsLast(init);
      assert args == init + [last];
      assert last in args;
      if IsOutputArg(last) {
        assert IsOutputArg(args[|args| - 1]);
      } else if OutPathOf(init).Some? {
        var k :| 0 <= k < |init| && IsOutputArg(init[k]) && SwiftPath(init[k]) == Ok(OutPathOf(init).value)
                 && forall j :: k < j < |init| ==> !IsOutputArg(init[j]);
        assert args[k] == init[k];
      }
    }
  }

  /** `others` holds exactly the arguments that do not start with `swift://`. */
  lemma OthersArePlain(args: seq<string>)
    requires JobParamsOf(args).Ok?
    ensures JobParamsOf(args).value.others == Filter(IsPlain, args)
    ensures forall x :: x in JobParamsOf(args).value.others <==> x in args && !StartsWith(x, Scheme)
  {
    FilterMembers(IsPlain, args);
  }

  /** A successful call: one path per input argument, in order; `out_path`
      from the last output argument; the container from the first argument. */
  lemma ClassifiedPaths(args: seq<string>)
    requires JobParamsOf(args).Ok?
    ensures var p := JobParamsOf(args).value;
      && var ins := Filter(IsInputArg, args);
      && |p.inPaths| == |ins|
      && (forall k :: 0 <= k < |ins| ==> ins[k] in args && SwiftPath(ins[k]) == Ok(p.inPaths[k]))
      && (exists k :: 0 <= k < |args| && IsOutputArg(args[k]) && SwiftPath(args[k]) == Ok(p.outPath)
                      && forall j :: k < j < |args| ==> !IsOutputArg(args[j]))
      && SwiftContainer(args[0]) == Ok(p.container)
  {
    InPathsFiltered(args);
    OutPathIsLast(args);
    FilterMembers(IsInputArg, args);
    var ins := Filter(IsInputArg, args);
    assert forall k :: 0 <= k < |ins| ==> ins[k] in ins;
  }

  /** The ways `_get_job_params` fails. */
  lemma JobParamsFailures(args: seq<string>)
    ensures args == [] ==> JobParamsOf(args) == Raise(IndexError)
    ensures (exists a :: a in args && BadPathArg(a)) ==> JobParamsOf(args) == Raise(IndexError)
    ensures args != [] && PathsOk(args) && |Split(args[0], '/')| < 3 ==> JobParamsOf(args) == Raise(IndexError)
    ensures args != [] && PathsOk(args) && SwiftContainer(args[0]).Ok? && (forall a :: a in args ==> !IsOutputArg(a))
            ==> JobParamsOf(args) == Raise(UnboundLocalError("out_path"))
    ensures JobParamsOf(args).Ok? ==> args != [] && exists a :: a in args && IsOutputArg(a)
  {
    if PathsOk(args) {
      OutPathIsLast(args);
    }
  }

  /** Removing an argument that is neither an input nor an output. */
  lemma {:induction false} InPathsSkip(pre: seq<string>, a: string, post: seq<string>)
    requires PathsOk(pre + [a] + post) && PathsOk(pre + post) && !IsInputArg(a)
    ensures InPathsOf(pre + [a] + post) == InPathsOf(pre + post)
  {
    if post == [] {
      assert pre + [a] + post == pre + [a] && pre + post == pre;
      assert (pre + [a])[..|pre|] == pre;
    } else {
      var post', x := post[..|post| - 1], post[|post| - 1];
      assert (pre + [a] + post)[..|pre + [a] + post| - 1] == pre + [a] + post';
      assert (pre + post)[..|pre + post| - 1] == pre + post';
      InPathsSkip(pre, a, post');
    }
  }

  lemma {:induction false} OutPathSkip(pre: seq<string>, a: string, post: seq<string>)
    requires PathsOk(pre + [a] + post) && PathsOk(pre + post) && !IsOutputArg(a)
    ensures OutPathOf(pre + [a] + post) == OutPathOf(pre + post)
  {
    if post == [] {
      assert pre + [a] + post == pre + [a] && pre + post == pre;
      assert (pre + [a])[..|pre|] == pre;
    } else {
      var post', x := post[..|post| - 1], post[|post| - 1];
      assert (pre + [a] + post)[..|pre + [a] + post| - 1] == pre + [a] + post';
      assert (pre + post)[..|pre + post| - 1] == pre + post';
      OutPathSkip(pre, a, post');
    }
  }

  /** A Swift argument that contains neither "input" nor "output" is dropped:
      removing it (anywhere but first) changes nothing. */
  lemma UnclassifiedSwiftArgDropped(pre: seq<string>, a: string, post: seq<string>)
    requires pre != [] && IsSwift(a) && !Contains(a, "input") && !Contains(a, "output")
    ensures JobParamsOf(pre + [a] + post) == JobParamsOf(pre + post)
  {
    var with, without := pre + [a] + post, pre + post;
    assert with[0] == without[0] == pre[0];
    assert forall x :: x in with <==> x in without || x == a;
    assert PathsOk(with) <==> PathsOk(without);
    FilterSkip(IsPlain, pre, a, post);
    if PathsOk(with) {
      InPathsSkip(pre, a, post);
      OutPathSkip(pre, a, post);
    }
  }

  /** When several arguments contain "output", the last one gives `out_path`. */
  lemma LastOutputWins(args: seq<string>, a: string)
    requires IsOutputArg(a) && JobParamsOf(args + [a]).Ok?
    ensures SwiftPath(a).Ok? && JobParamsOf(args + [a]).value.outPath == SwiftPath(a).value
  {
    assert a in args + [a];
    assert (args + [a])[..|args|] == args;
  }

  // ---------------------------------------------------------------------------
  // Worked examples

  /** One input URL, one output URL and a plain parameter, all in one
      container: the input path, the output path, the parameter and the
      container come out in that order. */
  lemma JobParamsExample(c: string, inPath: string, outPath: string, param: string)
    requires '/' !in c
    requires IsInputArg(Scheme + c + "/" + inPath) && !IsOutputArg(Scheme + c + "/" + inPath)
    requires IsOutputArg(Scheme + c + "/" + outPath) && !IsInputArg(Scheme + c + "/" + outPath)
    requires !StartsWith(param, Scheme)
    ensures JobParamsOf([Scheme + c + "/" + inPath, Scheme + c + "/" + outPath, param])
         == Ok(JobParams([inPath], outPath, [param], c))
  {
    var a0, a1, a2 := Scheme + c + "/" + inPath, Scheme + c + "/" + outPath, param;
    var args := [a0, a1, a2];
    SwiftUrlParse(c, inPath);
    SwiftUrlParse(c, outPath);
    assert forall a :: a in args ==> a == a0 || a == a1 || a == a2;
    assert PathsOk(args);
    assert args[..2] == [a0, a1] && [a0, a1][..1] == [a0] && [a0][..0] == [];
    assert PathsOk([a0]) && PathsOk([a0, a1]);
    assert InPathsOf([a0]) == [inPath];
    assert InPathsOf([a0, a1]) == [inPath];
    assert InPathsOf(args) == [inPath];
    assert OutPathOf(args) == Some(outPath);
    assert Filter(IsPlain, [a0]) == [];
    assert Filter(IsPlain, [a0, a1]) == [];
    assert Filter(IsPlain, args) == [a2];
  }

  /** The substring tests see the container too: an input URL whose container
      name contains "output" is also taken as the output. */
  lemma ContainerNamedOutput(c: string, path: string)
    requires '/' !in c && Contains(c, "output") && Contains(path, "input")
    ensures JobParamsOf([Scheme + c + "/" + path]) == Ok(JobParams([path], path, [], c))
  {
    var a := Scheme + c + "/" + path;
    ContainsInfix(Scheme, c, "/" + path, "output");
    ContainsInfix(Scheme + c + "/", path, [], "input");
    assert Scheme + c + "/" + path + [] == a && Scheme + c + ("/" + path) == a;
    SwiftUrlParse(c, path);
    assert [a][..0] == [];
    assert PathsOk([a]);
    assert InPathsOf([a]) == [path];
    assert Filter(IsPlain, [a]) == [];
  }
}
