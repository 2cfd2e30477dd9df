# dkr: a Dafny model of the Dockerfile annotation tool

`dkr` is a small Go command-line tool (`dkr.go`). You run it next to a
`Dockerfile` as `dkr build run connect stop delete ...`. Its settings come from
comment annotations in the recipe: `#NAME`, `#RUN`, `#BUILD`, `#VOLUME`,
`#ENV`, `#IGNORE`, and the ordinary `EXPOSE` instruction. From them it writes
`docker` command lines and hands them to the engine.

This project models the text-processing core of the tool:

- **Annotation extraction** is in module `Recipe`. Each extractor is a
  scanning loop, modelled as a `method` with a `while` loop. Each method is
  proved equal to a specification function over the whole line list.
- **The `.dockerignore` merge** (`Recipe.IgnoreMerge`, `Recipe.DockerfileIgnore`).
- **The command strings** for build, run, connect, stop and delete are in
  module `Commands`. This includes the `-p` port expansion and the three
  `+=` loops of `run_container`.
- **The listing scans `find` and `image_available`** are in module `Engine`.
  They gate run, stop and delete.

The Go standard-library functions these depend on are modelled in module
`Text`:

- `strings.Fields`
- `strings.Join`
- `strings.HasPrefix`
- `unicode.IsSpace`
- ASCII `strings.ToLower`

Every command string also has a lemma giving its `strings.Fields`
tokenisation. That is the argument list the engine receives, assuming that
`toolbox.Command` splits its argument with `strings.Fields`. The code of
`toolbox.Command` is not part of this model.

How the model reads the code:

- **Tag match.** The test is a literal prefix test, `strings.HasPrefix`
  (see `Recipe.PrefixNotToken`). So `#RUNX a` counts as a `#RUN` line, and
  `#NAMESPACE x` counts as a `#NAME` line.
- **`#NAME` value.** It is taken verbatim. Only the default, the base name
  of the directory, is lower-cased (`dkr.go:31` against `dkr.go:40`).
- **Name as one word.** The token lemmas need a name with no white space.
  A `#NAME` value always is one (`Recipe.ResolvedNameIsWord`). The directory
  default need not be: a directory `My App` gives the name `my app`
  (`Recipe.SpacedDirectoryName`), and the command then reads
  `--name my app ... my app`.
- **`find` reads field 1.** `find` compares field 1 of each container row
  with the name (`dkr.go:176`). In the engine's default listing layout that
  field is the image column, not the name column. The model reads field 1,
  as the code does.
- **`-v` and `-e` flags.** `run_container` emits one per `#VOLUME` and one
  per `#ENV` line.
- **Panics.** The tool indexes past the end of a field slice in four
  places: a `#NAME` or `#IGNORE` line without a value, and a listing row
  too short for `parts[1]` or `parts[0]`. There it panics. The model
  returns `Err` instead. It names the first line or row the Go loop would
  reach (`Results.Fault`). Two cases do not panic:
  - A `#RUN` line with no value adds an empty item (`Recipe.BareTagEntry`).
  - `image_available` tests `parts[0] == name && parts[1] == "latest"`,
    which short-circuits. A one-field row therefore panics only when its
    field is the name; a blank row always panics.
- **Many ports on one line.** `EXPOSE 80 443` is a single entry. The
  expansion wraps the whole entry around the colon. The run command then
  splits into the words `-p 80 443:80 443` (`Commands.PublishSeveralPorts`).
- **Inputs.** The recipe is given as its lines, and the existing
  `.dockerignore` as an optional list of lines. The directory base name is
  a parameter, and so is the output of each listing command, given as its
  lines.

## Model

| member | source | states |
|---|---|---|
| Text.WordLength | dkr.go:40 | the leading run it measures has no white space and stops at white space or at the end |
| Text.Fields | dkr.go:40 | a line whose first character is not white space has at least one field |
| Text.FieldsAreWords | dkr.go:40 | every field is non-empty and has no white space |
| Text.FieldsAppend | dkr.go:57 | text that starts with white space splits on its own: the fields of `a + b` are the fields of `a`, then those of `b` |
| Text.FieldsCons | dkr.go:57 | a word followed by a space is the first field, and the fields of the rest follow |
| Text.FieldsOfJoin | dkr.go:57 | the fields of a space-joined list are the fields of its items, in order |
| Text.FieldsOfJoinedWords | dkr.go:57 | `Fields` undoes `Join(_, " ")` on a list of words |
| Text.JoinSnoc | dkr.go:61 | one more item adds the separator and the item at the end of the join |
| Text.ToLower | dkr.go:31 | same length; each character lowered; no upper-case ASCII letter remains |
| Text.ToLowerKeepsWords | dkr.go:31 | lower-casing keeps a word free of white space |
| Text.ToLowerIdempotent | dkr.go:31 | lowering twice is lowering once |
| Recipe.TaggedLines | dkr.go:37-42 | returns, in increasing order, exactly the positions of the lines that start with the tag |
| Recipe.PrefixNotToken | dkr.go:39 | `#RUNX a`, `#NAMESPACE x` and `EXPOSED 80` carry the tags `#RUN`, `#NAME` and `EXPOSE`; a line with a leading space does not |
| Recipe.RestTokens | dkr.go:57 | the entry kept for a line re-splits into exactly the fields after the tag |
| Recipe.BareTagEntry | dkr.go:57 | a line holding only its tag adds the empty entry |
| Recipe.EntriesPerTaggedLine | dkr.go:64-79 | there is one entry per tagged line, in file order, and entry k is the rest of the k-th tagged line |
| Recipe.NoEntriesWithoutTag | dkr.go:47-62 | with no tagged line there are no entries, and the `#RUN` join is empty |
| Recipe.JoinedEntriesTokens | dkr.go:47-62 | the joined `#RUN` arguments split into the words after the tag of every `#RUN` line, in order, with nothing lost or added |
| Recipe.Collect | dkr.go:53-59 | the scanning loop returns the entries of the tagged lines |
| Recipe.DockerfileRun | dkr.go:47-62 | returns the space-join of the entries, whose fields are the `#RUN` words in file order |
| Recipe.DockerfileExpose | dkr.go:64-79 | returns the `EXPOSE` entries, one per line, in order |
| Recipe.DockerfileVolumes | dkr.go:81-96 | returns the `#VOLUME` entries, one per line, in order |
| Recipe.DockerfileEnv | dkr.go:98-113 | returns the `#ENV` entries, one per line, in order |
| Recipe.BuildArgs | dkr.go:115-130 | a non-empty result starts with a space |
| Recipe.BuildArgsSnoc | dkr.go:124-126 | each `#BUILD` line appends a space and its entry; other lines append nothing |
| Recipe.BuildArgsTokens | dkr.go:115-130 | the build arguments split into the words after `#BUILD` of every such line, in order |
| Recipe.DockerfileBuild | dkr.go:115-130 | the `+=` loop returns `BuildArgs(lines)` |
| Recipe.WellFormedSnoc | dkr.go:38-41 | one more line is safe to read exactly when the earlier ones were and it does not lack its value |
| Recipe.FirstMalformedUnique | dkr.go:40 | the line at which the scan fails is unique |
| Recipe.ResolvedNameIsWord | dkr.go:28-45 | the name is one word when some line carries `#NAME` or the directory name is one word |
| Recipe.SpacedDirectoryName | dkr.go:31 | the directory `My App` with no `#NAME` line gives the name `my app`, which is not one word |
| Recipe.NameDefault | dkr.go:31 | with no `#NAME` line, the name is the lower-cased directory name |
| Recipe.NameLastWins | dkr.go:38-41 | otherwise it is field 1 of the last `#NAME` line, not lower-cased |
| Recipe.DockerfileName | dkr.go:28-45 | succeeds exactly when every `#NAME` line has a value; fails at the first one that does not; on success returns the resolved name |
| Recipe.SecondsPerTaggedLine | dkr.go:137-143 | pattern k is field 1 of the k-th `#IGNORE` line, and extra words are dropped |
| Recipe.IgnoreMergeUntouched | dkr.go:145-147 | the ignore file is left alone exactly when there is no `#IGNORE` line |
| Recipe.IgnoreMergeContents | dkr.go:137-165 | the new file is the patterns in order, then every old line in its old order |
| Recipe.DockerfileIgnore | dkr.go:132-168 | succeeds exactly when every `#IGNORE` line has a value, fails at the first that does not, and on success returns the merge |
| Engine.FirstDecisive | dkr.go:174-180 | the scan stops at the first row that matches or cannot be read, and at no earlier row |
| Engine.LookupMeaning | dkr.go:170-196 | when the scan finishes, it reports true exactly when some row matches; on readable rows it always finishes; it fails only at an unreadable row with no match before it |
| Engine.Find | dkr.go:170-182 | the loop with its early return computes `Lookup` over container rows, matched on field 1 |
| Engine.ImageAvailable | dkr.go:184-196 | the loop computes `Lookup` over image rows: field 0 is the name and field 1 is `latest`, with the short-circuit |
| Commands.Publish | dkr.go:204-208 | every `-p` value holds a colon |
| Commands.PublishExamples | dkr.go:204-208 | `8080` becomes `8080:8080`, and `8080:80` stays as it is |
| Commands.PublishWords | dkr.go:204-208 | a one-word entry gives one word: the entry itself, or `entry:entry` |
| Commands.PublishSeveralPorts | dkr.go:203-209 | the entry `80 443` gives the words `-p 80 443:80 443` |
| Commands.Published | dkr.go:203-209 | one binding per exposed entry, in order |
| Commands.Options | dkr.go:211-217 | empty exactly when there are no values; otherwise it starts with a space |
| Commands.OptionsTokens | dkr.go:211-217 | each segment splits into its flag, then the words of its value |
| Commands.AppendPorts | dkr.go:203-209 | the `-p` loop appends one segment per entry |
| Commands.AppendOptions | dkr.go:211-217 | the `-v` and `-e` loops append one segment per value |
| Commands.RunCommandTokens | dkr.go:200-220 | the `strings.Fields` words of the run command are `docker container run -d --name <name>`, the `#RUN` words, `-p`, `-v` and `-e` with their words, then the name |
| Commands.RunContainer | dkr.go:198-227 | a failed image scan is an error; no `name:latest` image means exit (`Abort`); otherwise it runs the run command built from the four extractors |
| Commands.BuildCommandTokens | dkr.go:244 | the `strings.Fields` words of the build command are `docker image build --file <recipe> -t <name>`, the `#BUILD` words, then `.` |
| Commands.BuildContainer | dkr.go:239-247 | merges the ignore file first and fails where that fails; otherwise it returns the merge and the build command |
| Commands.ConnectCommandTokens | dkr.go:249-255 | the `strings.Fields` words of the connect command are `docker container exec -it <name> /bin/bash` |
| Commands.StopCommandTokens | dkr.go:233 | the `strings.Fields` words of the stop command are `docker container stop <name>` |
| Commands.StopContainer | dkr.go:230-237 | stops the container only when `docker container ps` lists it; otherwise only a notice |
| Commands.DeleteCommandTokens | dkr.go:261 | the `strings.Fields` words of the delete command are `docker container rm --force <name>` |
| Commands.DeleteContainer | dkr.go:257-267 | removes the container only when `docker container ls -a` lists it; otherwise only a notice |

## Left out

- How `toolbox.Command` tokenises its argument. The token lemmas give the `strings.Fields` split of each command string; if `toolbox.Command` hands the string to a shell instead, quoted values such as `#ENV A="x y"` stay one word and the lemmas do not describe what the engine receives.
- Running commands (`toolbox.Command`, `toolbox.CommandOutput`). An operation returns the command it would run, or `Skip` or `Abort`. The output of a listing command is a parameter, given as its lines.
- File and OS I/O: `os.Open`, `os.Create`, `toolbox.FileExists`, `os.Getwd`, `filepath.Base`. The recipe's lines, the existing `.dockerignore` (an optional list of lines) and the directory base name are parameters.
- `bufio.Scanner` line splitting and its line-length limit. Input arrives already split into lines.
- The writer in `dockerfile_ignore` is never flushed (`dkr.go:164-167`), so what reaches the disk depends on buffer size. The model gives the list the tool means to write (`dkr.go:165`), not the bytes on disk.
- `main`: flag parsing, the `Dockerfile` existence check, `usage`, `os.Exit`, and the case-insensitive dispatch of sub-commands in order (`dkr.go:269-305`).
- Colours (`ac.*`) and all printed messages.
- `Text.ToLower`: lowers ASCII letters only, not Unicode case mapping.
- `Text.Fields`: works on characters, not UTF-8 bytes. Invalid UTF-8 is not modelled.
- `connect_container` has no condition and no loop, so it gets no method of its own. The model is its command string (`Commands.ConnectCommand`) and the tokenisation of that string.
