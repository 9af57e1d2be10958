/** The postStart hook that puts the HTTPS line into wp-config.php (internal/resources/deployment.go).
    A file is its list of lines. */
module PostStart {
  import opened Resources
  import opened Wrappers

  type File = seq<string>

  predicate Opens(line: string) { "<?php" <= line }

  predicate OccursAt(line: string, word: string, i: nat) {
    i + |word| <= |line| && line[i..i + |word|] == word
  }

  /** grep's test of one line. */
  ghost predicate Marked(line: string) { exists i: nat :: OccursAt(line, FORWARDED_PROTO_MARKER, i) }

  /** grep -q: some line has the marker. */
  ghost predicate HasMarker(f: File) { exists i :: 0 <= i < |f| && Marked(f[i]) }

  /** The sed command: the line of the snippet file after every line that opens PHP. */
  function Insert(f: File, snippet: string): File {
    if f == [] then [] else (if Opens(f[0]) then [f[0], snippet] else [f[0]]) + Insert(f[1..], snippet)
  }

  lemma {:induction false} InsertAppend(f: File, line: string, snippet: string)
    ensures Insert(f + [line], snippet) == Insert(f, snippet) + if Opens(line) then [line, snippet] else [line]
  {
    if f == [] {
      assert f + [line] == [line] && [line][1..] == [];
      assert Insert([line], snippet) == (if Opens(line) then [line, snippet] else [line]) + [];
    } else {
      assert (f + [line])[1..] == f[1..] + [line];
      InsertAppend(f[1..], line, snippet);
    }
  }

  /** sed reads line by line and writes the temporary file. */
  method Sed(f: File, snippet: string) returns (out: File)
    ensures out == Insert(f, snippet)
  {
    out := [];
    for i := 0 to |f|
      invariant out == Insert(f[..i], snippet)
    {
      InsertAppend(f[..i], f[i], snippet);
      assert f[..i + 1] == f[..i] + [f[i]];
      out := out + [f[i]];
      if Opens(f[i]) {
        out := out + [snippet];
      }
    }
    assert f[..|f|] == f;
  }

  /** A line the hook can recognise later and that opens nothing itself. */
  ghost predicate Proper(snippet: string) { Marked(snippet) && !Opens(snippet) }

  /** The line the operator ships is one; it ends in the marker. */
  lemma ShippedLineIsProper()
    ensures Proper(ForwardedProtoLine())
    ensures ForwardedProtoLine() == "$_SERVER['HTTP_X_FORWARDED_PROTO']" + " = 'https';" + " // " + "wpmgr-forwarded-proto"
  {
    var line := ForwardedProtoLine();
    var before := FORCE_HTTPS_SNIPPET + " // ";
    assert line == before + FORWARDED_PROTO_MARKER;
    assert line[|before|..|before| + |FORWARDED_PROTO_MARKER|] == FORWARDED_PROTO_MARKER;
    assert OccursAt(line, FORWARDED_PROTO_MARKER, |before|);
    assert line[0] == FORCE_HTTPS_SNIPPET[0] == '$';
  }

  ghost function Erase(f: File): File {
    if f == [] then [] else (if Marked(f[0]) then [] else [f[0]]) + Erase(f[1..])
  }

  lemma EraseHead(line: string, f: File)
    ensures Erase([line] + f) == if Marked(line) then Erase(f) else [line] + Erase(f)
  { }

  lemma TailUnmarked(f: File)
    requires f != [] && !HasMarker(f)
    ensures !HasMarker(f[1..]) && !Marked(f[0])
  { }

  /** Erasing the marked lines gives the original file back. */
  lemma {:induction false} EraseUndoesInsert(f: File, snippet: string)
    requires !HasMarker(f) && Proper(snippet)
    ensures Erase(Insert(f, snippet)) == f
  {
    if f != [] {
      TailUnmarked(f);
      EraseUndoesInsert(f[1..], snippet);
      var rest := Insert(f[1..], snippet);
      assert f == [f[0]] + f[1..];
      if Opens(f[0]) {
        EraseHead(snippet, rest);
        EraseHead(f[0], [snippet] + rest);
        assert Insert(f, snippet) == [f[0]] + ([snippet] + rest);
      } else {
        EraseHead(f[0], rest);
      }
    }
  }

  /** Every line that opens PHP is followed by the snippet line, and a marked line is nowhere else. */
  ghost predicate Placed(g: File, snippet: string) {
    && (forall i :: 0 <= i < |g| && "<?php" <= g[i] ==> i + 1 < |g| && g[i + 1] == snippet)
    && (forall i :: 0 <= i < |g| && Marked(g[i]) ==> g[i] == snippet && 0 < i && "<?php" <= g[i - 1])
  }

  lemma {:induction false} InsertPlaces(f: File, snippet: string)
    requires !HasMarker(f) && Proper(snippet)
    ensures Placed(Insert(f, snippet), snippet)
  {
    if f != [] {
      TailUnmarked(f);
      InsertPlaces(f[1..], snippet);
      var rest := Insert(f[1..], snippet);
      var head := if Opens(f[0]) then [f[0], snippet] else [f[0]];
      var g := Insert(f, snippet);
      assert g == head + rest;
      forall i | |head| <= i < |g| ensures g[i] == rest[i - |head|] {}
    }
  }

  // ---- Runs of the hook ----

  /** wp-config.php, once the image has generated it, and the temporary file next to it. */
  datatype Disk = Disk(config: Option<File>, temp: Option<File>)

  /** A container start: the hook runs to its end, or is cut off before the final rename with
      whatever the temporary file holds by then. */
  datatype Attempt = Complete | CutOff(temp: Option<File>)

  ghost function Hook(d: Disk, snippet: string, a: Attempt): Disk {
    if d.config.None? || HasMarker(d.config.value) then d
    else match a
         case Complete => Disk(Some(Insert(d.config.value, snippet)), None)
         case CutOff(temp) => d.(temp := temp)
  }

  ghost function Hooks(d: Disk, snippet: string, attempts: seq<Attempt>): Disk {
    if attempts == [] then d
    else Hook(Hooks(d, snippet, attempts[..|attempts| - 1]), snippet, attempts[|attempts| - 1])
  }

  ghost predicate Completed(attempts: seq<Attempt>) { exists i :: 0 <= i < |attempts| && attempts[i] == Complete }

  lemma SecondRunIsIdle(f: File, snippet: string)
    requires !HasMarker(f) && Proper(snippet)
    ensures HasMarker(Insert(f, snippet)) || Insert(f, snippet) == f
  {
    if i :| 0 <= i < |f| && Opens(f[i]) {
      TagIsMarked(f, snippet, i);
    } else {
      NoTagNoChange(f, snippet);
    }
  }

  lemma {:induction false} TagIsMarked(f: File, snippet: string, i: nat)
    requires i < |f| && Opens(f[i]) && Proper(snippet)
    ensures HasMarker(Insert(f, snippet))
  {
    var g := Insert(f, snippet);
    if i == 0 {
      assert g[1] == snippet;
    } else {
      TagIsMarked(f[1..], snippet, i - 1);
      var rest := Insert(f[1..], snippet);
      var j :| 0 <= j < |rest| && Marked(rest[j]);
      assert g[|g| - |rest| + j] == rest[j];
    }
  }

  lemma {:induction false} NoTagNoChange(f: File, snippet: string)
    requires forall i :: 0 <= i < |f| ==> !Opens(f[i])
    ensures Insert(f, snippet) == f
  {
    if f != [] {
      NoTagNoChange(f[1..], snippet);
      assert f == [f[0]] + f[1..];
    }
  }

  lemma {:induction false} HookRunsWith(f: File, snippet: string, temp: Option<File>, attempts: seq<Attempt>)
    requires !HasMarker(f) && Proper(snippet)
    ensures Hooks(Disk(Some(f), temp), snippet, attempts).config
            == Some(if Completed(attempts) then Insert(f, snippet) else f)
  {
    if attempts != [] {
      var before, a := attempts[..|attempts| - 1], attempts[|attempts| - 1];
      HookRunsWith(f, snippet, temp, before);
      SecondRunIsIdle(f, snippet);
      assert a == Complete ==> attempts[|attempts| - 1] == Complete;
      if Completed(before) {
        var i :| 0 <= i < |before| && before[i] == Complete;
        assert attempts[i] == Complete;
      } else if Completed(attempts) {
        var i :| 0 <= i < |attempts| && attempts[i] == Complete;
        assert i == |attempts| - 1 || before[i] == Complete;
      }
    }
  }

  /** Any number of container starts, however many of them were cut off: the file is untouched until
      one runs to its end; from then on it has the shipped line exactly once after each line that
      opens PHP and nowhere else, and erasing that line gives the original file back. */
  lemma HookRuns(f: File, temp: Option<File>, attempts: seq<Attempt>)
    requires !HasMarker(f)
    ensures var g := Hooks(Disk(Some(f), temp), ForwardedProtoLine(), attempts).config;
            g.Some? && (if Completed(attempts) then Placed(g.value, ForwardedProtoLine()) && Erase(g.value) == f
                        else g.value == f)
  {
    ShippedLineIsProper();
    HookRunsWith(f, ForwardedProtoLine(), temp, attempts);
    InsertPlaces(f, ForwardedProtoLine());
    EraseUndoesInsert(f, ForwardedProtoLine());
  }
}
