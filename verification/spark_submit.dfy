/** The `spark-submit` command line that the executor runs on the cluster's
    master node. */
module SparkSubmit {
  import opened PyStrings

  const SparkSubmitBin := "/opt/spark/bin/spark-submit"

  /** The `file://` URL of each listed input file, in listing order. */
  function InputFiles(inputPath: string, listing: seq<string>): seq<string> {
    if listing == [] then []
    else InputFiles(inputPath, listing[..|listing| - 1]) + ["file://" + inputPath + listing[|listing| - 1]]
  }

  /** One URL per listed file, in listing order. */
  lemma {:induction false} InputFilesAt(inputPath: string, listing: seq<string>)
    ensures |InputFiles(inputPath, listing)| == |listing|
    ensures forall k :: 0 <= k < |listing| ==> InputFiles(inputPath, listing)[k] == "file://" + inputPath + listing[k]
  {
    if listing != [] {
      InputFilesAt(inputPath, listing[..|listing| - 1]);
    }
  }

  /** The command line as a list of words separated by single spaces. The two
      empty words stand for the places where the command has two spaces in a
      row (after the input files) and a trailing space (after the
      parameters). */
  function SubmitWords(mainClass: string, binaryFile: string, inputPath: string, outputPath: string,
                       listing: seq<string>, params: seq<string>): (words: seq<string>)
  {
    [SparkSubmitBin, "--class", mainClass, binaryFile] + InputFiles(inputPath, listing)
      + ["", "file://" + outputPath] + params + [""]
  }

  /** The command line: its words joined with single spaces. */
  function SubmitCommand(mainClass: string, binaryFile: string, inputPath: string, outputPath: string,
                         listing: seq<string>, params: seq<string>): string
  {
    Join(SubmitWords(mainClass, binaryFile, inputPath, outputPath, listing, params), ' ')
  }

  /** `_submit_job` up to the remote call: one loop terminates every input
      file URL with a space, one loop terminates every parameter with a
      space, and the pieces are concatenated around the fixed words. */
  method BuildSubmitCommand(mainClass: string, binaryFile: string, inputPath: string, outputPath: string,
                            listing: seq<string>, params: seq<string>) returns (cmd: string)
    ensures cmd == SubmitCommand(mainClass, binaryFile, inputPath, outputPath, listing, params)
  {
    ghost var files := InputFiles(inputPath, listing);
    InputFilesAt(inputPath, listing);
    var inputParam := "";
    for i := 0 to |listing|
      invariant inputParam == Terminated(files[..i], ' ')
    {
      assert files[..i + 1][..i] == files[..i];
      inputParam := inputParam + "file://" + inputPath + listing[i] + " ";
    }
    assert files[..|listing|] == files;
    var others := "";
    for i := 0 to |params|
      invariant others == Terminated(params[..i], ' ')
    {
      assert params[..i + 1][..i] == params[..i];
      others := others + params[i] + " ";
    }
    assert params[..|params|] == params;
    var outputParam := "file://" + outputPath;
    cmd := SparkSubmitBin + " --class " + mainClass + " " + binaryFile + " " + inputParam + " " + outputParam + " " + others;
    SubmitCommandLayout(mainClass, binaryFile, inputPath, outputPath, listing, params);
  }

  /** The command spelled out: the fixed words, every input file URL followed
      by a space, a space, the output URL, a space, every parameter followed
      by a space. */
  lemma SubmitCommandLayout(mainClass: string, binaryFile: string, inputPath: string, outputPath: string,
                            listing: seq<string>, params: seq<string>)
    ensures SubmitCommand(mainClass, binaryFile, inputPath, outputPath, listing, params)
         == SparkSubmitBin + " --class " + mainClass + " " + binaryFile + " "
            + Terminated(InputFiles(inputPath, listing), ' ') + " " + "file://" + outputPath + " "
            + Terminated(params, ' ')
  {
    WordsLayout(mainClass, binaryFile, InputFiles(inputPath, listing), "file://" + outputPath, params);
  }

  /** The layout for any input URLs `ins` and output URL `out`. */
  lemma WordsLayout(mainClass: string, binaryFile: string, ins: seq<string>, out: string, params: seq<string>)
    ensures Join([SparkSubmitBin, "--class", mainClass, binaryFile] + ins + ["", out] + params + [""], ' ')
         == SparkSubmitBin + " --class " + mainClass + " " + binaryFile + " "
            + Terminated(ins, ' ') + " " + out + " " + Terminated(params, ' ')
  {
    var head := [SparkSubmitBin, "--class", mainClass, binaryFile];
    var rest := [""] + ([out] + (params + [""]));
    var h := SparkSubmitBin + " --class " + mainClass + " " + binaryFile + " ";
    var tIns, tParams := Terminated(ins, ' '), Terminated(params, ' ');
    assert head + ins + ["", out] + params + [""] == head + (ins + rest);
    calc {
      Join(head + (ins + rest), ' ');
      { TerminatedJoin(head, ins + rest, ' '); HeadWords(mainClass, binaryFile); }
      h + Join(ins + rest, ' ');
      { TerminatedJoin(ins, rest, ' '); }
      h + (tIns + Join(rest, ' '));
      { RestWords(out, params); }
      h + (tIns + (" " + out + " " + tParams));
      h + tIns + " " + out + " " + tParams;
    }
  }

  /** The words after the input files: an empty one, the output URL, the
      parameters and a final empty one. */
  lemma RestWords(out: string, params: seq<string>)
    ensures Join([""] + ([out] + (params + [""])), ' ') == " " + out + " " + Terminated(params, ' ')
  {
    var tail := [out] + (params + [""]);
    var rest := [""] + tail;
    assert rest[1..] == tail && tail[1..] == params + [""];
    TerminatedJoin(params, [""], ' ');
  }

  /** Adding one word at the end. */
  lemma TerminatedSnoc(words: seq<string>, w: string, sep: char)
    ensures Terminated(words + [w], sep) == Terminated(words, sep) + w + [sep]
  {
    assert (words + [w])[..|words|] == words;
  }

  /** The fixed words at the start of the command, each followed by a space. */
  lemma HeadWords(mainClass: string, binaryFile: string)
    ensures Terminated([SparkSubmitBin, "--class", mainClass, binaryFile], ' ')
         == SparkSubmitBin + " --class " + mainClass + " " + binaryFile + " "
  {
    var h1 := [SparkSubmitBin];
    var h2 := h1 + ["--class"];
    var h3 := h2 + [mainClass];
    assert h1 == [] + [SparkSubmitBin];
    assert h3 + [binaryFile] == [SparkSubmitBin, "--class", mainClass, binaryFile];
    TerminatedSnoc([], SparkSubmitBin, ' ');
    TerminatedSnoc(h1, "--class", ' ');
    TerminatedSnoc(h2, mainClass, ' ');
    TerminatedSnoc(h3, binaryFile, ' ');
    var t1 := SparkSubmitBin + " ";
    var t2 := t1 + "--class" + " ";
    assert t2 == SparkSubmitBin + " --class ";
    var t3 := t2 + mainClass + " ";
    assert Terminated(h3, ' ') == t3;
  }

  predicate SpaceFree(w: string) { ' ' !in w }
  predicate NonEmpty(w: string) { w != [] }

  /** Every element of `s` is kept. */
  lemma {:induction false} FilterAll(keep: string -> bool, s: seq<string>)
    requires forall k :: 0 <= k < |s| ==> keep(s[k])
    ensures Filter(keep, s) == s
  {
    if s != [] {
      FilterAll(keep, s[..|s| - 1]);
    }
  }

  /** With no space inside any of its parts, splitting the command on spaces
      gives its words back. */
  lemma SubmitCommandWords(mainClass: string, binaryFile: string, inputPath: string, outputPath: string,
                           listing: seq<string>, params: seq<string>)
    requires SpaceFree(mainClass) && SpaceFree(binaryFile) && SpaceFree(inputPath) && SpaceFree(outputPath)
    requires forall k :: 0 <= k < |listing| ==> SpaceFree(listing[k])
    requires forall k :: 0 <= k < |params| ==> SpaceFree(params[k])
    ensures Split(SubmitCommand(mainClass, binaryFile, inputPath, outputPath, listing, params), ' ')
         == SubmitWords(mainClass, binaryFile, inputPath, outputPath, listing, params)
  {
    var words := SubmitWords(mainClass, binaryFile, inputPath, outputPath, listing, params);
    var ins := InputFiles(inputPath, listing);
    assert ' ' !in "file://" && ' ' !in SparkSubmitBin && ' ' !in "--class";
    InputFilesAt(inputPath, listing);
    forall k | 0 <= k < |ins| ensures ' ' !in ins[k] {
      assert ins[k] == "file://" + inputPath + listing[k];
    }
    forall k | 0 <= k < |words| ensures ' ' !in words[k] {
    }
    SplitJoin(words, ' ');
  }

  /** The words a shell passes to `spark-submit` (the non-empty ones) are the
      fixed words, the input URLs, the output URL and the parameters, in that
      order. */
  lemma SubmitArguments(mainClass: string, binaryFile: string, inputPath: string, outputPath: string,
                        listing: seq<string>, params: seq<string>)
    requires NonEmpty(mainClass) && NonEmpty(binaryFile)
    requires forall k :: 0 <= k < |params| ==> NonEmpty(params[k])
    ensures Filter(NonEmpty, SubmitWords(mainClass, binaryFile, inputPath, outputPath, listing, params))
         == [SparkSubmitBin, "--class", mainClass, binaryFile] + InputFiles(inputPath, listing)
            + ["file://" + outputPath] + params
  {
    var head := [SparkSubmitBin, "--class", mainClass, binaryFile];
    var ins := InputFiles(inputPath, listing);
    var x := ["file://" + outputPath] + params;
    var a := head + ins;
    assert SubmitWords(mainClass, binaryFile, inputPath, outputPath, listing, params) == ((a + [""]) + x) + [""];
    FilterAll(NonEmpty, head);
    InputFilesAt(inputPath, listing);
    FilterAll(NonEmpty, ins);
    FilterAll(NonEmpty, x);
    calc {
      Filter(NonEmpty, ((a + [""]) + x) + [""]);
      { FilterSnoc(NonEmpty, (a + [""]) + x, ""); }
      Filter(NonEmpty, (a + [""]) + x);
      { FilterAppend(NonEmpty, a + [""], x); }
      Filter(NonEmpty, a + [""]) + Filter(NonEmpty, x);
      { FilterSnoc(NonEmpty, a, ""); }
      Filter(NonEmpty, a) + x;
      { FilterAppend(NonEmpty, head, ins); }
      head + ins + x;
    }
  }
}
