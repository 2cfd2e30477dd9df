/**
 * The annotation extractors of dkr.go.
 *
 * Each extractor scans the Dockerfile's lines in order and picks the lines
 * that START with its tag (`strings.HasPrefix`, so `#RUNX a` is a `#RUN`
 * line too), splits them with `strings.Fields` and keeps what follows the
 * first field. The file is given as its lines; opening and scanning it is
 * not modelled.
 */
module Recipe {
  import opened Results
  import opened Text

  const NameTag: string := "#NAME"
  const RunTag: string := "#RUN"
  const BuildTag: string := "#BUILD"
  const ExposeTag: string := "EXPOSE"
  const VolumeTag: string := "#VOLUME"
  const EnvTag: string := "#ENV"
  const IgnoreTag: string := "#IGNORE"

  /**
   * Every tag of the tool starts with a non-space character, so a line that
   * carries one has at least one field and `Fields(text)[1:]` never fails.
   */
  predicate ValidTag(tag: string) {
    tag != [] && !IsSpace(tag[0])
  }

  /** `strings.Join(strings.Fields(text)[1:], " ")`: the words after the tag. */
  function Rest(line: string): string
    requires Fields(line) != []
  {
    Join(Fields(line)[1..], " ")
  }

  /** The remainder of a line re-splits into exactly the words after its first. */
  lemma RestTokens(line: string)
    requires Fields(line) != []
    ensures Fields(Rest(line)) == Fields(line)[1..]
  {
    FieldsAreWords(line);
    FieldsOfJoinedWords(Fields(line)[1..]);
  }

  /** Positions of the lines that carry `tag`, in file order. */
  function TaggedLines(lines: seq<string>, tag: string): (idx: seq<nat>)
    ensures forall k :: 0 <= k < |idx| ==> idx[k] < |lines| && HasPrefix(lines[idx[k]], tag)
    ensures forall k, l :: 0 <= k < l < |idx| ==> idx[k] < idx[l]
    ensures forall i :: 0 <= i < |lines| && HasPrefix(lines[i], tag) ==> i in idx
    decreases |lines|
  {
    if lines == [] then []
    else
      var last := |lines| - 1;
      TaggedLines(lines[..last], tag) + (if HasPrefix(lines[last], tag) then [last] else [])
  }

  /** One entry per line carrying `tag`: that line's remainder (dockerfile_expose and its siblings). */
  function Entries(lines: seq<string>, tag: string): seq<string>
    requires ValidTag(tag)
    decreases |lines|
  {
    if lines == [] then []
    else
      var last := |lines| - 1;
      Entries(lines[..last], tag) + (if HasPrefix(lines[last], tag) then [Rest(lines[last])] else [])
  }

  /** Entry k is the remainder of the k-th tagged line, and there are no others. */
  lemma {:induction false} EntriesPerTaggedLine(lines: seq<string>, tag: string)
    requires ValidTag(tag)
    ensures |Entries(lines, tag)| == |TaggedLines(lines, tag)|
    ensures forall k :: 0 <= k < |TaggedLines(lines, tag)| ==>
      Entries(lines, tag)[k] == Rest(lines[TaggedLines(lines, tag)[k]])
    decreases |lines|
  {
    if lines != [] {
      var last := |lines| - 1;
      var front := lines[..last];
      EntriesPerTaggedLine(front, tag);
      var es, idx := Entries(front, tag), TaggedLines(front, tag);
      assert forall k :: 0 <= k < |idx| ==> front[idx[k]] == lines[idx[k]];
      if HasPrefix(lines[last], tag) {
        assert Entries(lines, tag) == es + [Rest(lines[last])];
        assert TaggedLines(lines, tag) == idx + [last];
      } else {
        assert Entries(lines, tag) == es;
        assert TaggedLines(lines, tag) == idx;
      }
    }
  }

  /** A tag alone on its line contributes an empty entry, not nothing. */
  lemma BareTagEntry(line: string)
    requires |Fields(line)| == 1
    ensures Rest(line) == ""
  {
    assert Fields(line)[1..] == [];
  }

  /** Without a tagged line there are no entries, and their join is empty. */
  lemma NoEntriesWithoutTag(lines: seq<string>, tag: string)
    requires ValidTag(tag)
    requires TaggedLines(lines, tag) == []
    ensures Entries(lines, tag) == []
    ensures Join(Entries(lines, tag), " ") == ""
  {
    EntriesPerTaggedLine(lines, tag);
  }

  /** The tag test is a text prefix: a longer word that starts with the tag still matches. */
  lemma PrefixNotToken()
    ensures HasPrefix("#RUNX a", RunTag)
    ensures HasPrefix("#NAMESPACE x", NameTag)
    ensures HasPrefix("EXPOSED 80", ExposeTag)
    ensures !HasPrefix(" #RUN a", RunTag)
  {
    assert "#RUNX a"[..4] == RunTag;
    assert "#NAMESPACE x"[..5] == NameTag;
    assert "EXPOSED 80"[..6] == ExposeTag;
    assert " #RUN a"[0] != RunTag[0];
  }

  /** Scanning one more line adds its position when it carries the tag. */
  lemma TaggedLinesSnoc(lines: seq<string>, tag: string, i: nat)
    requires i < |lines|
    ensures TaggedLines(lines[..i + 1], tag)
      == TaggedLines(lines[..i], tag) + (if HasPrefix(lines[i], tag) then [i] else [])
  {
    assert lines[..i + 1][..i] == lines[..i];
  }

  /** Scanning one more line adds its remainder when it carries the tag. */
  lemma EntriesSnoc(lines: seq<string>, tag: string, i: nat)
    requires ValidTag(tag) && i < |lines|
    ensures Entries(lines[..i + 1], tag)
      == Entries(lines[..i], tag) + (if HasPrefix(lines[i], tag) then [Rest(lines[i])] else [])
  {
    assert lines[..i + 1][..i] == lines[..i];
  }

  /** The words after the tag, over all tagged lines in file order. */
  function TaggedWords(lines: seq<string>, tag: string): seq<string>
    requires ValidTag(tag)
    decreases |lines|
  {
    if lines == [] then []
    else
      var last := |lines| - 1;
      TaggedWords(lines[..last], tag) + (if HasPrefix(lines[last], tag) then Fields(lines[last])[1..] else [])
  }

  /**
   * Joining the entries with single spaces, as dockerfile_run does, loses no
   * word and adds none: its fields are the words after the tag, in order.
   */
  lemma {:induction false} JoinedEntriesTokens(lines: seq<string>, tag: string)
    requires ValidTag(tag)
    ensures Fields(Join(Entries(lines, tag), " ")) == TaggedWords(lines, tag)
    decreases |lines|
  {
    FieldsOfJoin(Entries(lines, tag));
    EntriesWords(lines, tag);
  }

  lemma {:induction false} EntriesWords(lines: seq<string>, tag: string)
    requires ValidTag(tag)
    ensures FieldsOfEach(Entries(lines, tag)) == TaggedWords(lines, tag)
    decreases |lines|
  {
    if lines != [] {
      var last := |lines| - 1;
      EntriesWords(lines[..last], tag);
      var extra := if HasPrefix(lines[last], tag) then [Rest(lines[last])] else [];
      FieldsOfEachAppend(Entries(lines[..last], tag), extra);
      if HasPrefix(lines[last], tag) {
        RestTokens(lines[last]);
        assert FieldsOfEach(extra) == Fields(Rest(lines[last])) + FieldsOfEach([]);
      }
    }
  }

  /**
   * The value dockerfile_build returns: `" " + remainder` for every `#BUILD`
   * line, which is the space-joined entries behind one more space.
   */
  function BuildArgs(lines: seq<string>): (args: string)
    ensures args != "" ==> args[0] == ' '
  {
    var es := Entries(lines, BuildTag);
    if es == [] then "" else " " + Join(es, " ")
  }

  /** The build arguments split into the words after `#BUILD`, in file order. */
  lemma BuildArgsTokens(lines: seq<string>)
    ensures Fields(BuildArgs(lines)) == TaggedWords(lines, BuildTag)
  {
    var es := Entries(lines, BuildTag);
    JoinedEntriesTokens(lines, BuildTag);
    if es != [] {
      FieldsSkipSpace(' ', Join(es, " "));
    } else {
      assert Join(es, " ") == "";
    }
  }

  /** Each `#BUILD` line appends a space and its remainder. */
  lemma BuildArgsSnoc(lines: seq<string>, i: nat)
    requires i < |lines|
    ensures BuildArgs(lines[..i + 1])
      == BuildArgs(lines[..i]) + (if HasPrefix(lines[i], BuildTag) then " " + Rest(lines[i]) else "")
  {
    EntriesSnoc(lines, BuildTag, i);
    var before := Entries(lines[..i], BuildTag);
    if HasPrefix(lines[i], BuildTag) {
      var r := Rest(lines[i]);
      assert Entries(lines[..i + 1], BuildTag) == before + [r];
      if before != [] {
        JoinSnoc(before, r, " ");
        assert " " + Join(before + [r], " ") == (" " + Join(before, " ")) + (" " + r);
      } else {
        assert before + [r] == [r];
      }
    } else {
      assert Entries(lines[..i + 1], BuildTag) == before;
    }
  }

  /** A line that carries `tag` but has no second field: `Fields(text)[1]` would panic. */
  predicate Malformed(line: string, tag: string) {
    HasPrefix(line, tag) && |Fields(line)| < 2
  }

  predicate WellFormed(lines: seq<string>, tag: string) {
    forall i :: 0 <= i < |lines| ==> !Malformed(lines[i], tag)
  }

  /** Line `i` is where a scan reading field 1 of every `tag` line stops. */
  predicate FirstMalformed(lines: seq<string>, tag: string, i: nat) {
    i < |lines| && Malformed(lines[i], tag) && WellFormed(lines[..i], tag)
  }

  /** Checking one more line keeps a recipe well formed unless that line is malformed. */
  lemma WellFormedSnoc(lines: seq<string>, tag: string, i: nat)
    requires i < |lines|
    ensures WellFormed(lines[..i + 1], tag) <==> WellFormed(lines[..i], tag) && !Malformed(lines[i], tag)
  {
    assert lines[..i + 1][..i] == lines[..i];
    assert lines[..i + 1][i] == lines[i];
  }

  /** Only one line can be the first malformed one. */
  lemma FirstMalformedUnique(lines: seq<string>, tag: string, i: nat)
    requires FirstMalformed(lines, tag, i)
    ensures forall j: nat :: FirstMalformed(lines, tag, j) ==> j == i
  {
  }

  /**
   * The container name of a recipe without malformed `#NAME` lines: field 1
   * of the last `#NAME` line as written, else the lower-cased directory name.
   */
  function ResolvedName(lines: seq<string>, dir: string): string
    requires WellFormed(lines, NameTag)
  {
    var idx := TaggedLines(lines, NameTag);
    if idx == [] then ToLower(dir) else Fields(lines[idx[|idx| - 1]])[1]
  }

  /** Scanning one more well-formed line: a `#NAME` line replaces the name so far. */
  lemma ResolvedNameSnoc(lines: seq<string>, dir: string, i: nat)
    requires i < |lines| && WellFormed(lines[..i + 1], NameTag)
    ensures WellFormed(lines[..i], NameTag)
    ensures ResolvedName(lines[..i + 1], dir)
      == if HasPrefix(lines[i], NameTag) then Fields(lines[i])[1] else ResolvedName(lines[..i], dir)
  {
    WellFormedSnoc(lines, NameTag, i);
    TaggedLinesSnoc(lines, NameTag, i);
    assert lines[..i + 1][..i] == lines[..i];
  }

  /**
   * The resolved name is one word when it comes from a `#NAME` line, or when
   * the directory name is one word.
   */
  lemma ResolvedNameIsWord(lines: seq<string>, dir: string)
    requires WellFormed(lines, NameTag)
    requires IsWord(dir) || exists i :: 0 <= i < |lines| && HasPrefix(lines[i], NameTag)
    ensures IsWord(ResolvedName(lines, dir))
  {
    var idx := TaggedLines(lines, NameTag);
    if idx == [] {
      ToLowerKeepsWords(dir);
    } else {
      var line := lines[idx[|idx| - 1]];
      assert !Malformed(line, NameTag);
      FieldsAreWords(line);
    }
  }

  /** A directory name holding a space gives a name of two words: `My App` names `my app`. */
  lemma SpacedDirectoryName()
    ensures ResolvedName([], "My App") == "my app"
    ensures !IsWord(ResolvedName([], "My App"))
  {
  }

  /** Without a `#NAME` line the name is the directory's, lower-cased. */
  lemma NameDefault(lines: seq<string>, dir: string)
    requires WellFormed(lines, NameTag)
    requires forall i :: 0 <= i < |lines| ==> !HasPrefix(lines[i], NameTag)
    ensures ResolvedName(lines, dir) == ToLower(dir)
  {
  }

  /** The last `#NAME` line wins, and its value is not lower-cased. */
  lemma NameLastWins(lines: seq<string>, dir: string, j: nat)
    requires WellFormed(lines, NameTag)
    requires j < |lines| && HasPrefix(lines[j], NameTag)
    requires forall i :: j < i < |lines| ==> !HasPrefix(lines[i], NameTag)
    ensures ResolvedName(lines, dir) == Fields(lines[j])[1]
  {
    var idx := TaggedLines(lines, NameTag);
    assert j in idx;
    var m :| 0 <= m < |idx| && idx[m] == j;
  }

  /** Field 1 of every line carrying `tag`, in file order (the `#IGNORE` patterns). */
  function Seconds(lines: seq<string>, tag: string): seq<string>
    requires WellFormed(lines, tag)
    decreases |lines|
  {
    if lines == [] then []
    else
      var last := |lines| - 1;
      assert WellFormed(lines[..last], tag);
      Seconds(lines[..last], tag) + (if HasPrefix(lines[last], tag) then [Fields(lines[last])[1]] else [])
  }

  /** Scanning one more well-formed line adds its field 1 when it carries the tag. */
  lemma SecondsSnoc(lines: seq<string>, tag: string, i: nat)
    requires i < |lines| && WellFormed(lines[..i + 1], tag)
    ensures WellFormed(lines[..i], tag)
    ensures Seconds(lines[..i + 1], tag)
      == Seconds(lines[..i], tag) + (if HasPrefix(lines[i], tag) then [Fields(lines[i])[1]] else [])
  {
    WellFormedSnoc(lines, tag, i);
    assert lines[..i + 1][..i] == lines[..i];
  }

  /** Pattern k is field 1 of the k-th tagged line; extra words are dropped. */
  lemma {:induction false} SecondsPerTaggedLine(lines: seq<string>, tag: string)
    requires WellFormed(lines, tag)
    ensures |Seconds(lines, tag)| == |TaggedLines(lines, tag)|
    ensures forall k :: 0 <= k < |TaggedLines(lines, tag)| ==>
      Seconds(lines, tag)[k] == Fields(lines[TaggedLines(lines, tag)[k]])[1]
    decreases |lines|
  {
    if lines != [] {
      var last := |lines| - 1;
      assert WellFormed(lines[..last], tag);
      SecondsPerTaggedLine(lines[..last], tag);
      var front := lines[..last];
      assert forall i :: 0 <= i < last ==> front[i] == lines[i];
    }
  }

  /** What `build` does to `.dockerignore`. */
  datatype IgnoreUpdate =
    /** No `#IGNORE` line: the file is neither read nor written. */
    | Untouched
    /** The file is replaced by these lines. */
    | Rewrite(contents: seq<string>)

  /** The lines of `.dockerignore` as it stands, empty when there is no such file. */
  function ExistingLines(existing: Option<seq<string>>): seq<string> {
    match existing
    case None => []
    case Some(prior) => prior
  }

  /** The new `#IGNORE` patterns followed by the old file, or nothing at all. */
  function IgnoreMerge(lines: seq<string>, existing: Option<seq<string>>): IgnoreUpdate
    requires WellFormed(lines, IgnoreTag)
  {
    var patterns := Seconds(lines, IgnoreTag);
    if patterns == [] then Untouched else Rewrite(patterns + ExistingLines(existing))
  }

  /** The ignore file is left alone exactly when the recipe has no `#IGNORE` line. */
  lemma IgnoreMergeUntouched(lines: seq<string>, existing: Option<seq<string>>)
    requires WellFormed(lines, IgnoreTag)
    ensures IgnoreMerge(lines, existing) == Untouched <==> TaggedLines(lines, IgnoreTag) == []
  {
    SecondsPerTaggedLine(lines, IgnoreTag);
  }

  /** The rewritten file: the k-th pattern, then every old line in its old order. */
  lemma IgnoreMergeContents(lines: seq<string>, existing: Option<seq<string>>)
    requires WellFormed(lines, IgnoreTag)
    requires IgnoreMerge(lines, existing).Rewrite?
    ensures var idx := TaggedLines(lines, IgnoreTag);
      var contents := IgnoreMerge(lines, existing).contents;
      && |contents| == |idx| + |ExistingLines(existing)|
      && (forall k :: 0 <= k < |idx| ==> contents[k] == Fields(lines[idx[k]])[1])
      && (forall j :: 0 <= j < |ExistingLines(existing)| ==> contents[|idx| + j] == ExistingLines(existing)[j])
  {
    var idx := TaggedLines(lines, IgnoreTag);
    var patterns := Seconds(lines, IgnoreTag);
    var prior := ExistingLines(existing);
    var contents := IgnoreMerge(lines, existing).contents;
    assert contents == patterns + prior;
    SecondsPerTaggedLine(lines, IgnoreTag);
    assert contents[..|idx|] == patterns;
    assert contents[|idx|..] == prior;
    forall k | 0 <= k < |idx|
      ensures contents[k] == Fields(lines[idx[k]])[1]
    {
      assert contents[k] == contents[..|idx|][k];
    }
    forall j | 0 <= j < |prior|
      ensures contents[|idx| + j] == prior[j]
    {
      assert contents[|idx| + j] == contents[|idx|..][j];
    }
  }

  // ---------------------------------------------------------------------
  // The extractors, as the scanning loops of dkr.go.

  /** The loop shared by dockerfile_run, dockerfile_expose, dockerfile_volumes and dockerfile_env. */
  method Collect(lines: seq<string>, tag: string) returns (entries: seq<string>)
    requires ValidTag(tag)
    ensures entries == Entries(lines, tag)
  {
    entries := [];
    var i := 0;
    while i < |lines|
      invariant 0 <= i <= |lines|
      invariant entries == Entries(lines[..i], tag)
    {
      var text := lines[i];
      EntriesSnoc(lines, tag, i);
      if HasPrefix(text, tag) {
        var fields := Fields(text);
        entries := entries + [Join(fields[1..], " ")];
      }
      i := i + 1;
    }
    assert lines[..i] == lines;
  }

  /** dockerfile_run: all `#RUN` remainders joined by single spaces; a bare `#RUN` adds an empty item. */
  method DockerfileRun(lines: seq<string>) returns (args: string)
    ensures args == Join(Entries(lines, RunTag), " ")
    ensures Fields(args) == TaggedWords(lines, RunTag)
  {
    var runtime := Collect(lines, RunTag);
    args := Join(runtime, " ");
    JoinedEntriesTokens(lines, RunTag);
  }

  /** dockerfile_expose: one entry per `EXPOSE` line. */
  method DockerfileExpose(lines: seq<string>) returns (ports: seq<string>)
    ensures ports == Entries(lines, ExposeTag)
  {
    ports := Collect(lines, ExposeTag);
  }

  /** dockerfile_volumes: one entry per `#VOLUME` line. */
  method DockerfileVolumes(lines: seq<string>) returns (volumes: seq<string>)
    ensures volumes == Entries(lines, VolumeTag)
  {
    volumes := Collect(lines, VolumeTag);
  }

  /** dockerfile_env: one entry per `#ENV` line. */
  method DockerfileEnv(lines: seq<string>) returns (envs: seq<string>)
    ensures envs == Entries(lines, EnvTag)
  {
    envs := Collect(lines, EnvTag);
  }

  /** dockerfile_build: `build += " " + remainder` for every `#BUILD` line. */
  method DockerfileBuild(lines: seq<string>) returns (build: string)
    ensures build == BuildArgs(lines)
  {
    build := "";
    var i := 0;
    while i < |lines|
      invariant 0 <= i <= |lines|
      invariant build == BuildArgs(lines[..i])
    {
      var text := lines[i];
      BuildArgsSnoc(lines, i);
      if HasPrefix(text, BuildTag) {
        var fields := Fields(text);
        build := build + " " + Join(fields[1..], " ");
      }
      i := i + 1;
    }
    assert lines[..i] == lines;
  }

  /**
   * dockerfile_name: the lower-cased directory name unless some line starts
   * with `#NAME`; then field 1 of the last such line, verbatim. The scan
   * stops at the first `#NAME` line without a field 1.
   */
  method DockerfileName(lines: seq<string>, dir: string) returns (r: Result<string>)
    ensures r.Ok? <==> WellFormed(lines, NameTag)
    ensures forall i: nat :: r == Err(MalformedAnnotation(i)) <==> FirstMalformed(lines, NameTag, i)
    ensures r.Ok? ==> r.value == ResolvedName(lines, dir)
  {
    var name := ToLower(dir);
    var i := 0;
    while i < |lines|
      invariant 0 <= i <= |lines|
      invariant WellFormed(lines[..i], NameTag)
      invariant name == ResolvedName(lines[..i], dir)
    {
      var text := lines[i];
      WellFormedSnoc(lines, NameTag, i);
      if HasPrefix(text, NameTag) {
        var fields := Fields(text);
        if |fields| < 2 {
          FirstMalformedUnique(lines, NameTag, i);
          return Err(MalformedAnnotation(i));
        }
        name := fields[1];
      }
      ResolvedNameSnoc(lines, dir, i);
      i := i + 1;
    }
    assert lines[..i] == lines;
    r := Ok(name);
  }

  /**
   * The list-building half of dockerfile_ignore: field 1 of every `#IGNORE`
   * line; then, only if there was one, the lines of the existing ignore file.
   */
  method DockerfileIgnore(lines: seq<string>, existing: Option<seq<string>>) returns (r: Result<IgnoreUpdate>)
    ensures r.Ok? <==> WellFormed(lines, IgnoreTag)
    ensures forall i: nat :: r == Err(MalformedAnnotation(i)) <==> FirstMalformed(lines, IgnoreTag, i)
    ensures r.Ok? ==> r.value == IgnoreMerge(lines, existing)
  {
    var ignores := [];
    var i := 0;
    while i < |lines|
      invariant 0 <= i <= |lines|
      invariant WellFormed(lines[..i], IgnoreTag)
      invariant ignores == Seconds(lines[..i], IgnoreTag)
    {
      var text := lines[i];
      WellFormedSnoc(lines, IgnoreTag, i);
      if HasPrefix(text, IgnoreTag) {
        var fields := Fields(text);
        if |fields| < 2 {
          FirstMalformedUnique(lines, IgnoreTag, i);
          return Err(MalformedAnnotation(i));
        }
        ignores := ignores + [fields[1]];
      }
      SecondsSnoc(lines, IgnoreTag, i);
      i := i + 1;
    }
    assert lines[..i] == lines;
    if |ignores| == 0 {
      return Ok(Untouched);
    }
    ghost var patterns := ignores;
    if existing.Some? {
      var prior := existing.value;
      var j := 0;
      while j < |prior|
        invariant 0 <= j <= |prior|
        invariant ignores == patterns + prior[..j]
      {
        assert prior[..j + 1] == prior[..j] + [prior[j]];
        ignores := ignores + [prior[j]];
        j := j + 1;
      }
      assert prior[..j] == prior;
    }
    r := Ok(Rewrite(ignores));
  }
}
