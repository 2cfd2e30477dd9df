/**
 * The command strings dkr.go hands to the engine for build, run, connect,
 * stop and delete, and the checks that gate them.
 *
 * Running a command (`toolbox.Command`) is not modelled: an operation
 * returns the command it would run, or says that it runs none.
 */
module Commands {
  import opened Results
  import opened Text
  import opened Recipe
  import opened Engine

  /** What one sub-command of the tool does. */
  datatype Action =
    /** Run this command line through the engine. */
    | Exec(command: string)
    /** Print a notice and run nothing; the next sub-command still runs. */
    | Skip
    /** Print an error and exit with status 1; nothing further runs. */
    | Abort

  /** The `-p` value for one exposed entry: kept when it has a `:`, else `e:e`. */
  function Publish(port: string): (binding: string)
    ensures ':' in binding
  {
    if ':' in port then port else port + ":" + port
  }

  /** The `-p` values for a list of exposed entries. */
  function Published(ports: seq<string>): (bindings: seq<string>)
    ensures |bindings| == |ports|
    ensures forall k :: 0 <= k < |ports| ==> bindings[k] == Publish(ports[k])
  {
    if ports == [] then [] else Published(ports[..|ports| - 1]) + [Publish(ports[|ports| - 1])]
  }

  /** One flag and its value, as each loop of run_container appends them. */
  function Segment(flag: string, v: string): string {
    " " + flag + " " + v
  }

  /** One segment for every value, in order: the `-p`, `-v` and `-e` parts of the run command. */
  function Options(flag: string, values: seq<string>): (s: string)
    ensures values == [] <==> s == ""
    ensures s != "" ==> s[0] == ' '
  {
    if values == [] then ""
    else Options(flag, values[..|values| - 1]) + Segment(flag, values[|values| - 1])
  }

  /** The words of `Options`: the flag before the words of each value. */
  function OptionWords(flag: string, values: seq<string>): seq<string> {
    if values == [] then []
    else OptionWords(flag, values[..|values| - 1]) + [flag] + Fields(values[|values| - 1])
  }

  /** `docker container run`, as run_container assembles it. */
  function RunCommand(name: string, runArgs: string, ports: seq<string>, volumes: seq<string>, envs: seq<string>): string {
    "docker container run -d --name " + name + " " + runArgs
      + Options("-p", Published(ports)) + Options("-v", volumes) + Options("-e", envs)
      + " " + name
  }

  /** `docker image build`, as build_container assembles it. */
  function BuildCommand(dockerfile: string, name: string, buildArgs: string): string {
    "docker image build --file " + dockerfile + " -t " + name + " " + buildArgs + " ."
  }

  function ConnectCommand(name: string): string {
    "docker container exec -it " + name + " /bin/bash"
  }

  function StopCommand(name: string): string {
    "docker container stop " + name
  }

  function DeleteCommand(name: string): string {
    "docker container rm --force " + name
  }

  /** Run `command` when the listing shows the container, else only a notice. */
  function Gated(found: Result<bool>, command: string): Result<Action> {
    match found
    case Err(e) => Err(e)
    case Ok(true) => Ok(Exec(command))
    case Ok(false) => Ok(Skip)
  }

  // ---------------------------------------------------------------------
  // The words of each command under `strings.Fields`: its argument list,
  // provided that `toolbox.Command` splits its argument that way. How
  // `toolbox.Command` tokenises is not part of this model; a shell would
  // keep a quoted value such as `A="x y"` as one word.

  /** The fixed words of each command hold no white space. */
  lemma RunWords()
    ensures IsWord("docker") && IsWord("container") && IsWord("run") && IsWord("-d") && IsWord("--name")
  {
  }

  lemma BuildWords()
    ensures IsWord("docker") && IsWord("image") && IsWord("build") && IsWord("--file") && IsWord("-t") && IsWord(".")
  {
  }

  lemma ExecWords()
    ensures IsWord("docker") && IsWord("container") && IsWord("exec") && IsWord("-it") && IsWord("/bin/bash")
  {
  }

  lemma StopWords()
    ensures IsWord("docker") && IsWord("container") && IsWord("stop")
  {
  }

  lemma RemoveWords()
    ensures IsWord("docker") && IsWord("container") && IsWord("rm") && IsWord("--force")
  {
  }

  lemma FlagWords()
    ensures IsWord("-p") && IsWord("-v") && IsWord("-e")
  {
  }

  /** The fixed head of each command, one space after each word. */
  lemma RunShape(x: string)
    ensures "docker container run -d --name " + x
      == "docker" + ([' '] + ("container" + ([' '] + ("run" + ([' '] + ("-d" + ([' '] + ("--name" + ([' '] + x)))))))))
  {
  }

  lemma BuildShape(x: string)
    ensures "docker image build --file " + x
      == "docker" + ([' '] + ("image" + ([' '] + ("build" + ([' '] + ("--file" + ([' '] + x)))))))
  {
  }

  lemma ExecShape(x: string)
    ensures "docker container exec -it " + x
      == "docker" + ([' '] + ("container" + ([' '] + ("exec" + ([' '] + ("-it" + ([' '] + x)))))))
  {
  }

  lemma StopShape(x: string)
    ensures "docker container stop " + x == "docker" + ([' '] + ("container" + ([' '] + ("stop" + ([' '] + x)))))
  {
  }

  lemma RemoveShape(x: string)
    ensures "docker container rm --force " + x
      == "docker" + ([' '] + ("container" + ([' '] + ("rm" + ([' '] + ("--force" + ([' '] + x)))))))
  {
  }

  /** The words of each fixed head, followed by whatever comes after it. */
  lemma RunHeadTokens(x: string)
    ensures Fields("docker container run -d --name " + x) == ["docker", "container", "run", "-d", "--name"] + Fields(x)
  {
    RunWords();
    RunShape(x);
    FieldsCons("--name", x);
    FieldsCons4("docker", "container", "run", "-d", "--name" + ([' '] + x));
    Regroup4(["docker", "container", "run", "-d"], "--name", Fields(x));
  }

  lemma BuildHeadTokens(x: string)
    ensures Fields("docker image build --file " + x) == ["docker", "image", "build", "--file"] + Fields(x)
  {
    BuildWords();
    BuildShape(x);
    FieldsCons4("docker", "image", "build", "--file", x);
  }

  lemma ExecHeadTokens(x: string)
    ensures Fields("docker container exec -it " + x) == ["docker", "container", "exec", "-it"] + Fields(x)
  {
    ExecWords();
    ExecShape(x);
    FieldsCons4("docker", "container", "exec", "-it", x);
  }

  lemma StopHeadTokens(x: string)
    ensures Fields("docker container stop " + x) == ["docker", "container", "stop"] + Fields(x)
  {
    StopWords();
    StopShape(x);
    FieldsCons("stop", x);
    FieldsCons2("docker", "container", "stop" + ([' '] + x));
    Regroup2(["docker", "container"], "stop", Fields(x));
  }

  lemma RemoveHeadTokens(x: string)
    ensures Fields("docker container rm --force " + x) == ["docker", "container", "rm", "--force"] + Fields(x)
  {
    RemoveWords();
    RemoveShape(x);
    FieldsCons4("docker", "container", "rm", "--force", x);
  }

  /** Moving one word from the rest onto the end of a known list. */
  lemma Regroup4(ws: seq<string>, w: string, rest: seq<string>)
    requires |ws| == 4
    ensures ws + ([w] + rest) == [ws[0], ws[1], ws[2], ws[3], w] + rest
  {
  }

  lemma Regroup2(ws: seq<string>, w: string, rest: seq<string>)
    requires |ws| == 2
    ensures ws + ([w] + rest) == [ws[0], ws[1], w] + rest
  {
  }

  /** The port expansion rule: `8080` becomes `8080:8080`, `8080:80` stays. */
  lemma PublishExamples()
    ensures Publish("8080") == "8080:8080"
    ensures Publish("8080:80") == "8080:80"
  {
    assert ':' in "8080:80";
    assert ':' !in "8080";
  }

  /** A one-word entry yields one binding word, the entry itself or `entry:entry`. */
  lemma PublishWords(port: string)
    requires IsWord(port)
    ensures Fields(Publish(port)) == [Publish(port)]
    ensures ':' in port ==> Publish(port) == port
    ensures ':' !in port ==> Publish(port)[..|port|] == port && Publish(port)[|port| + 1..] == port
  {
    FieldsOfWord(Publish(port));
  }

  /** The segment for the entry `80 443`, spelled word by word. */
  lemma SeveralPortsSegment()
    ensures Publish("80 443") == "80 443:80 443"
    ensures IsWord("-p") && IsWord("80") && IsWord("443:80") && IsWord("443")
    ensures " -p " + Publish("80 443") == [' '] + ("-p" + ([' '] + ("80" + ([' '] + ("443:80" + ([' '] + "443"))))))
  {
    assert ':' !in "80 443";
  }

  /**
   * An `EXPOSE` line listing several ports is one entry, and the expansion
   * splices the whole entry around the colon: `80 443` becomes the words
   * `80`, `443:80`, `443`.
   */
  lemma PublishSeveralPorts()
    ensures Publish("80 443") == "80 443:80 443"
    ensures Fields(" -p " + Publish("80 443")) == ["-p", "80", "443:80", "443"]
  {
    SeveralPortsSegment();
    var words := "-p" + ([' '] + ("80" + ([' '] + ("443:80" + ([' '] + "443")))));
    FieldsSkipSpace(' ', words);
    FieldsOfWord("443");
    FieldsCons("443:80", "443");
    FieldsCons2("-p", "80", "443:80" + ([' '] + "443"));
  }

  lemma OptionsSnoc(flag: string, values: seq<string>, v: string)
    ensures Options(flag, values + [v]) == Options(flag, values) + Segment(flag, v)
  {
    assert (values + [v])[..|values|] == values;
  }

  /** Each segment is the flag word followed by the words of its value. */
  lemma {:induction false} OptionsTokens(flag: string, values: seq<string>)
    requires IsWord(flag)
    ensures Fields(Options(flag, values)) == OptionWords(flag, values)
    decreases |values|
  {
    if values != [] {
      var front := values[..|values| - 1];
      var v := values[|values| - 1];
      OptionsTokens(flag, front);
      SegmentTokens(flag, v);
      FieldsAppend(Options(flag, front), Segment(flag, v));
    }
  }

  /** A segment opens with a space, and splits into its flag and the words of its value. */
  lemma SegmentTokens(flag: string, v: string)
    requires IsWord(flag)
    ensures Segment(flag, v) != [] && Segment(flag, v)[0] == ' '
    ensures Fields(Segment(flag, v)) == [flag] + Fields(v)
  {
    assert Segment(flag, v) == [' '] + (flag + ([' '] + v));
    FieldsSkipSpace(' ', flag + ([' '] + v));
    FieldsCons(flag, v);
  }

  /** The `-p`, `-v` and `-e` segments and the final name split apart from each other. */
  lemma RunTailTokens(p: string, v: string, e: string, name: string)
    requires p == "" || p[0] == ' '
    requires v == "" || v[0] == ' '
    requires e == "" || e[0] == ' '
    requires IsWord(name)
    ensures p + (v + (e + ([' '] + name))) != []
    ensures (p + (v + (e + ([' '] + name))))[0] == ' '
    ensures Fields(p + (v + (e + ([' '] + name)))) == Fields(p) + (Fields(v) + (Fields(e) + [name]))
  {
    var last := [' '] + name;
    FieldsSkipSpace(' ', name);
    FieldsOfWord(name);
    FieldsAppend(e, last);
    SpaceLed(e, last);
    FieldsAppend(v, e + last);
    SpaceLed(v, e + last);
    FieldsAppend(p, v + (e + last));
    SpaceLed(p, v + (e + last));
  }

  /** Text that is empty or opens with a space, before text that opens with one. */
  lemma SpaceLed(a: string, b: string)
    requires a == "" || a[0] == ' '
    requires b != [] && b[0] == ' '
    ensures a + b != [] && (a + b)[0] == ' '
  {
    if a == "" {
      assert a + b == b;
    }
  }

  /** What follows the name in the run command, regrouped from the right. */
  function RunRest(name: string, runArgs: string, ports: seq<string>, volumes: seq<string>, envs: seq<string>): string {
    runArgs + (Options("-p", Published(ports)) + (Options("-v", volumes) + (Options("-e", envs) + ([' '] + name))))
  }

  /** The run command regrouped from the right, one piece after another. */
  lemma RunAssembly(name: string, runArgs: string, ports: seq<string>, volumes: seq<string>, envs: seq<string>)
    ensures RunCommand(name, runArgs, ports, volumes, envs)
      == "docker container run -d --name " + (name + ([' '] + RunRest(name, runArgs, ports, volumes, envs)))
  {
  }

  /** The words of the `#RUN` arguments, the three segments and the final name. */
  lemma RunRestTokens(name: string, runArgs: string, ports: seq<string>, volumes: seq<string>, envs: seq<string>)
    requires IsWord(name)
    ensures Fields(RunRest(name, runArgs, ports, volumes, envs))
      == Fields(runArgs) + (OptionWords("-p", Published(ports)) + (OptionWords("-v", volumes) + (OptionWords("-e", envs) + [name])))
  {
    var p, v, e := Options("-p", Published(ports)), Options("-v", volumes), Options("-e", envs);
    FlagWords();
    OptionsTokens("-p", Published(ports));
    OptionsTokens("-v", volumes);
    OptionsTokens("-e", envs);
    RunTailTokens(p, v, e, name);
    FieldsAppend(runArgs, p + (v + (e + ([' '] + name))));
  }

  /**
   * The run command, split by `strings.Fields`: the fixed words, the name
   * after `--name`, the `#RUN` words, one flag and its words per exposed
   * entry, volume and variable, and the name last, as the image to run.
   */
  lemma RunCommandTokens(name: string, runArgs: string, ports: seq<string>, volumes: seq<string>, envs: seq<string>)
    requires IsWord(name)
    ensures Fields(RunCommand(name, runArgs, ports, volumes, envs))
      == ["docker", "container", "run", "-d", "--name", name] + Fields(runArgs)
       + OptionWords("-p", Published(ports)) + OptionWords("-v", volumes) + OptionWords("-e", envs)
       + [name]
  {
    var rest := RunRest(name, runArgs, ports, volumes, envs);
    RunAssembly(name, runArgs, ports, volumes, envs);
    RunHeadTokens(name + ([' '] + rest));
    FieldsCons(name, rest);
    RunRestTokens(name, runArgs, ports, volumes, envs);
    RunRegroup("docker", "container", "run", "-d", "--name", name, Fields(runArgs),
      OptionWords("-p", Published(ports)), OptionWords("-v", volumes), OptionWords("-e", envs));
  }

  lemma RunRegroup(a: string, b: string, c: string, d: string, e: string, name: string,
                   r: seq<string>, p: seq<string>, v: seq<string>, x: seq<string>)
    ensures [a, b, c, d, e] + ([name] + (r + (p + (v + (x + [name])))))
      == [a, b, c, d, e, name] + r + p + v + x + [name]
  {
  }

  /** The build command regrouped from the right, one piece after another. */
  lemma BuildAssembly(dockerfile: string, name: string, args: string)
    ensures BuildCommand(dockerfile, name, args) == "docker image build --file "
      + (dockerfile + ([' '] + ("-t" + ([' '] + (name + ([' '] + (args + ([' '] + "."))))))))
  {
  }

  /** The `#BUILD` words, then the build context `.`. */
  lemma BuildTailTokens(lines: seq<string>)
    ensures Fields(BuildArgs(lines) + ([' '] + ".")) == TaggedWords(lines, BuildTag) + ["."]
  {
    BuildWords();
    BuildArgsTokens(lines);
    FieldsAppend(BuildArgs(lines), [' '] + ".");
    FieldsSkipSpace(' ', ".");
    FieldsOfWord(".");
  }

  /** The build command: recipe after `--file`, name after `-t`, the `#BUILD` words, then the context `.`. */
  lemma BuildCommandTokens(dockerfile: string, name: string, lines: seq<string>)
    requires IsWord(dockerfile) && IsWord(name)
    ensures Fields(BuildCommand(dockerfile, name, BuildArgs(lines)))
      == ["docker", "image", "build", "--file", dockerfile, "-t", name] + TaggedWords(lines, BuildTag) + ["."]
  {
    var tail := BuildArgs(lines) + ([' '] + ".");
    BuildAssembly(dockerfile, name, BuildArgs(lines));
    BuildHeadTokens(dockerfile + ([' '] + ("-t" + ([' '] + (name + ([' '] + tail))))));
    BuildMiddleTokens(dockerfile, name, tail);
    BuildTailTokens(lines);
    BuildRegroup("docker", "image", "build", "--file", dockerfile, "-t", name, TaggedWords(lines, BuildTag), ["."]);
  }

  /** The recipe path, `-t` and the name, before the rest of the build command. */
  lemma BuildMiddleTokens(dockerfile: string, name: string, tail: string)
    requires IsWord(dockerfile) && IsWord(name)
    ensures Fields(dockerfile + ([' '] + ("-t" + ([' '] + (name + ([' '] + tail))))))
      == [dockerfile, "-t", name] + Fields(tail)
  {
    BuildWords();
    FieldsCons(name, tail);
    FieldsCons2(dockerfile, "-t", name + ([' '] + tail));
  }

  lemma BuildRegroup(a: string, b: string, c: string, d: string, e: string, f: string, g: string,
                     r: seq<string>, s: seq<string>)
    ensures [a, b, c, d] + ([e, f, g] + (r + s)) == [a, b, c, d, e, f, g] + r + s
  {
  }

  /** Connect opens `/bin/bash` in the named container. */
  lemma ConnectCommandTokens(name: string)
    requires IsWord(name)
    ensures Fields(ConnectCommand(name)) == ["docker", "container", "exec", "-it", name, "/bin/bash"]
  {
    ConnectAssembly(name);
    ExecHeadTokens(name + ([' '] + "/bin/bash"));
    ShellTokens();
    FieldsCons(name, "/bin/bash");
    ConnectRegroup("docker", "container", "exec", "-it", name, "/bin/bash");
  }

  lemma ConnectAssembly(name: string)
    ensures ConnectCommand(name) == "docker container exec -it " + (name + ([' '] + "/bin/bash"))
  {
  }

  lemma ShellTokens()
    ensures Fields("/bin/bash") == ["/bin/bash"]
  {
    ExecWords();
    FieldsOfWord("/bin/bash");
  }

  lemma ConnectRegroup(a: string, b: string, c: string, d: string, name: string, shell: string)
    ensures [a, b, c, d] + ([name] + [shell]) == [a, b, c, d, name, shell]
  {
  }

  /** Stop names exactly one container. */
  lemma StopCommandTokens(name: string)
    requires IsWord(name)
    ensures Fields(StopCommand(name)) == ["docker", "container", "stop", name]
  {
    StopHeadTokens(name);
    FieldsOfWord(name);
  }

  /** Delete force-removes exactly one container. */
  lemma DeleteCommandTokens(name: string)
    requires IsWord(name)
    ensures Fields(DeleteCommand(name)) == ["docker", "container", "rm", "--force", name]
  {
    RemoveHeadTokens(name);
    FieldsOfWord(name);
  }

  // ---------------------------------------------------------------------
  // The sub-commands.

  /** What build produces: the new ignore file, then the build command. */
  datatype BuildStep = BuildStep(ignore: IgnoreUpdate, command: string)

  /**
   * build_container: merge the `#IGNORE` patterns into `.dockerignore`, then
   * build the image tagged with the name. Nothing is checked beforehand.
   */
  method BuildContainer(name: string, dockerfile: string, lines: seq<string>, existing: Option<seq<string>>)
    returns (r: Result<BuildStep>)
    ensures r.Ok? <==> WellFormed(lines, IgnoreTag)
    ensures forall i: nat :: r == Err(MalformedAnnotation(i)) <==> FirstMalformed(lines, IgnoreTag, i)
    ensures r.Ok? ==> r.value == BuildStep(IgnoreMerge(lines, existing), BuildCommand(dockerfile, name, BuildArgs(lines)))
  {
    var ignore := DockerfileIgnore(lines, existing);
    if ignore.Err? {
      return Err(ignore.error);
    }
    var build := DockerfileBuild(lines);
    var x := "docker image build --file " + dockerfile + " -t " + name + " " + build + " .";
    r := Ok(BuildStep(ignore.value, x));
  }

  /**
   * run_container: only when the image listing shows `name:latest`, run the
   * container detached with the `#RUN` arguments, one `-p` per exposed
   * entry, one `-v` per `#VOLUME`, one `-e` per `#ENV`, and the name as the
   * image. Without the image the tool exits.
   */
  method RunContainer(name: string, lines: seq<string>, images: seq<string>) returns (r: Result<Action>)
    ensures r == match Lookup(Images, images, name)
      case Err(e) => Err(e)
      case Ok(false) => Ok(Abort)
      case Ok(true) => Ok(Exec(RunCommand(name, Join(Entries(lines, RunTag), " "),
        Entries(lines, ExposeTag), Entries(lines, VolumeTag), Entries(lines, EnvTag))))
  {
    var available := ImageAvailable(images, name);
    if available.Err? {
      return Err(available.error);
    }
    if !available.value {
      return Ok(Abort);
    }
    var x := "docker container run -d --name " + name;
    var runArgs := DockerfileRun(lines);
    x := x + " " + runArgs;
    var ports := DockerfileExpose(lines);
    x := AppendPorts(x, ports);
    var volumes := DockerfileVolumes(lines);
    x := AppendOptions(x, "-v", volumes);
    var envs := DockerfileEnv(lines);
    x := AppendOptions(x, "-e", envs);
    x := x + " " + name;
    r := Ok(Exec(x));
  }

  /** The `-p` loop of run_container: one `-p` segment per exposed entry. */
  method AppendPorts(x: string, ports: seq<string>) returns (y: string)
    ensures y == x + Options("-p", Published(ports))
  {
    y := x;
    for j := 0 to |ports|
      invariant y == x + Options("-p", Published(ports[..j]))
    {
      var port := ports[j];
      PortsSnoc(ports, j);
      SegmentAppend(y, port);
      AppendAssoc(x, Options("-p", Published(ports[..j])), Segment("-p", Publish(port)));
      if ':' in port {
        y := y + (" -p " + port);
      } else {
        y := y + (" -p " + port + ":" + port);
      }
    }
    assert ports[..|ports|] == ports;
  }

  lemma AppendAssoc(a: string, b: string, c: string)
    ensures (a + b) + c == a + (b + c)
  {
  }

  /** Both spellings of a port segment append `" -p "` and the binding. */
  lemma SegmentAppend(y: string, port: string)
    ensures (if ':' in port then y + (" -p " + port) else y + (" -p " + port + ":" + port))
      == y + Segment("-p", Publish(port))
  {
    if ':' in port {
      assert " -p " + port == " " + "-p" + " " + port;
    } else {
      assert " -p " + port + ":" + port == " " + "-p" + " " + (port + ":" + port);
    }
  }

  /** One more exposed entry adds one `-p` segment with its binding. */
  lemma PortsSnoc(ports: seq<string>, j: nat)
    requires j < |ports|
    ensures Options("-p", Published(ports[..j + 1])) == Options("-p", Published(ports[..j])) + Segment("-p", Publish(ports[j]))
  {
    assert ports[..j + 1][..j] == ports[..j];
    OptionsSnoc("-p", Published(ports[..j]), Publish(ports[j]));
  }

  /** The `-v` and `-e` loops of run_container: one `flag` segment per value. */
  method AppendOptions(x: string, flag: string, values: seq<string>) returns (y: string)
    ensures y == x + Options(flag, values)
  {
    y := x;
    for j := 0 to |values|
      invariant y == x + Options(flag, values[..j])
    {
      assert values[..j + 1] == values[..j] + [values[j]];
      OptionsSnoc(flag, values[..j], values[j]);
      y := y + (" " + flag + " " + values[j]);
    }
    assert values[..|values|] == values;
  }

  /** stop_container: stop the container only when `docker container ps` lists it. */
  method StopContainer(name: string, running: seq<string>) returns (r: Result<Action>)
    ensures r == Gated(Lookup(Containers, running, name), StopCommand(name))
  {
    var found := Find(running, name);
    if found.Err? {
      return Err(found.error);
    }
    if found.value {
      r := Ok(Exec("docker container stop " + name));
    } else {
      r := Ok(Skip);
    }
  }

  /** delete_container: remove the container only when `docker container ls -a` lists it. */
  method DeleteContainer(name: string, all: seq<string>) returns (r: Result<Action>)
    ensures r == Gated(Lookup(Containers, all, name), DeleteCommand(name))
  {
    var found := Find(all, name);
    if found.Err? {
      return Err(found.error);
    }
    if found.value {
      r := Ok(Exec("docker container rm --force " + name));
    } else {
      r := Ok(Skip);
    }
  }
}
