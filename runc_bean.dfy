/**
 * RuncBean: the runc container bean's lazily allocated Xpra port (drawn from the port
 * range on first use, released on destroy only when one was drawn) and the argument
 * list prepare() builds for the `emucon-cgen` config generator. The port range, the
 * binding resolver, the config generator's run and the container runtime are foreign:
 * their answers are parameters.
 */
module Runc {
  import opened JavaLang

  /** The port value meaning "no port drawn yet". */
  const NO_PORT: int := -1
  const CGEN_FAILED: string := "Generating container's config failed!"
  const X11_SOCKET_MOUNT: string := "/tmp/.X11-unix/:/tmp/.X11-unix/:bind:rw"

  /** A container input: a binding id and the path it is mounted at in the container (may be null). */
  datatype Input = Input(binding: string, destination: Option<string>)

  datatype Process = Process(environmentVariables: Option<seq<string>>, arguments: seq<string>)

  /** The parts of an OciContainerConfiguration that prepare() reads. */
  datatype OciConfig = OciConfig(
    rootFilesystem: string,
    inputs: seq<Input>,
    outputPath: Option<string>,
    isGui: bool,
    process: Process)

  /** What prepare() is given by its environment: resolved paths and the runtime's user settings. */
  datatype PrepareContext = PrepareContext(
    workdir: string,
    rootfs: string,
    userNamespaceEnabled: bool,
    user: string,
    group: string,
    bindings: map<string, string>,
    outputDir: string)

  /** Paths.get(workdir, "config.json") for a working directory without a trailing separator. */
  function ConfigPath(workdir: string): string {
    workdir + "/config.json"
  }

  /** The mount an input yields: only when its binding resolves and it has a destination. */
  function InputMount(input: Input, bindings: map<string, string>): (r: seq<string>)
    ensures r != [] <==> input.binding in bindings && input.destination.Some?
    ensures r != [] ==> r == ["--mount", bindings[input.binding] + ":" + input.destination.value + ":bind:ro"]
  {
    if input.binding in bindings && input.destination.Some? then
      ["--mount", bindings[input.binding] + ":" + input.destination.value + ":bind:ro"]
    else []
  }

  /** The mount arguments of the inputs, in input order. */
  function InputMounts(inputs: seq<Input>, bindings: map<string, string>): seq<string> {
    if inputs == [] then []
    else InputMounts(inputs[..|inputs| - 1], bindings) + InputMount(inputs[|inputs| - 1], bindings)
  }

  /** The inputs that are mounted: those whose binding resolves and that have a destination. */
  function MountedInputs(inputs: seq<Input>, bindings: map<string, string>): (r: seq<Input>)
    ensures forall k :: 0 <= k < |r| ==> r[k] in inputs
  {
    if inputs == [] then []
    else
      var last := inputs[|inputs| - 1];
      MountedInputs(inputs[..|inputs| - 1], bindings) + (if InputMount(last, bindings) != [] then [last] else [])
  }

  /** The `--env` pairs of the process's environment variables, in order. */
  function EnvPairs(envs: seq<string>): seq<string> {
    if envs == [] then [] else EnvPairs(envs[..|envs| - 1]) + ["--env", envs[|envs| - 1]]
  }

  function UserArgs(ctx: PrepareContext): seq<string> {
    if ctx.userNamespaceEnabled then ["--user", ctx.user, "--group", ctx.group] else []
  }

  function OutputMount(config: OciConfig, ctx: PrepareContext): seq<string> {
    if config.outputPath.Some? then ["--mount", ctx.outputDir + ":" + config.outputPath.value + ":bind:rw"] else []
  }

  function GuiArgs(config: OciConfig, port: int): seq<string> {
    if config.isGui then ["--env", "DISPLAY=:" + IntToString(port), "--mount", X11_SOCKET_MOUNT] else []
  }

  function ProcessEnv(config: OciConfig): seq<string> {
    if config.process.environmentVariables.Some? then EnvPairs(config.process.environmentVariables.value) else []
  }

  /**
   * The arguments prepare() passes to emucon-cgen, in the order it adds them: rootfs and
   * output config, runtime user and group, input mounts, output mount, GUI display and
   * X11 socket, environment variables, then `--` and the process arguments.
   */
  function CgenArgs(config: OciConfig, ctx: PrepareContext, port: int): seq<string> {
    ["--rootfs", ctx.rootfs, "--output", ConfigPath(ctx.workdir)]
    + UserArgs(ctx)
    + InputMounts(config.inputs, ctx.bindings)
    + OutputMount(config, ctx)
    + GuiArgs(config, port)
    + ProcessEnv(config)
    + ["--"] + config.process.arguments
  }

  /** The argument list starts with the rootfs and output config and ends with `--` and the process arguments in order. */
  lemma CgenArgsFrame(config: OciConfig, ctx: PrepareContext, port: int)
    ensures var args := CgenArgs(config, ctx, port);
      && |args| > 4 + |config.process.arguments|
      && args[..4] == ["--rootfs", ctx.rootfs, "--output", ConfigPath(ctx.workdir)]
      && args[|args| - |config.process.arguments| - 1..] == ["--"] + config.process.arguments
  {
    var head := ["--rootfs", ctx.rootfs, "--output", ConfigPath(ctx.workdir)];
    var left := head + UserArgs(ctx) + InputMounts(config.inputs, ctx.bindings) + OutputMount(config, ctx)
                + GuiArgs(config, port) + ProcessEnv(config);
    var args := CgenArgs(config, ctx, port);
    assert args == left + ["--"] + config.process.arguments;
    DropAfterPrefix(left, ["--"], config.process.arguments);
    TakeOfPrefix(head + UserArgs(ctx) + InputMounts(config.inputs, ctx.bindings) + OutputMount(config, ctx)
                 + GuiArgs(config, port), ProcessEnv(config), 4);
    TakeOfPrefix(head + UserArgs(ctx) + InputMounts(config.inputs, ctx.bindings) + OutputMount(config, ctx),
                 GuiArgs(config, port), 4);
    TakeOfPrefix(head + UserArgs(ctx) + InputMounts(config.inputs, ctx.bindings), OutputMount(config, ctx), 4);
    TakeOfPrefix(head + UserArgs(ctx), InputMounts(config.inputs, ctx.bindings), 4);
    TakeOfPrefix(head, UserArgs(ctx), 4);
    TakeOfPrefix(left + ["--"], config.process.arguments, 4);
    TakeOfPrefix(left, ["--"], 4);
  }

  /** The first n elements of a concatenation whose left part has at least n elements come from it. */
  lemma TakeOfPrefix<T>(a: seq<T>, b: seq<T>, n: nat)
    requires n <= |a|
    ensures (a + b)[..n] == a[..n]
  {
  }

  /** What follows a prefix of a three-part concatenation is the other two parts. */
  lemma DropAfterPrefix<T>(a: seq<T>, b: seq<T>, c: seq<T>)
    ensures (a + b + c)[|a|..] == b + c
  {
  }

  /** `--user` and `--group` follow the output config exactly when user namespaces are enabled. */
  lemma UserArgsOnlyWithNamespaces(config: OciConfig, ctx: PrepareContext, port: int)
    ensures var args := CgenArgs(config, ctx, port);
      && (ctx.userNamespaceEnabled ==> args[4..8] == ["--user", ctx.user, "--group", ctx.group])
      && (!ctx.userNamespaceEnabled ==> args[4] in {"--mount", "--env", "--"})
  {
    var head := ["--rootfs", ctx.rootfs, "--output", ConfigPath(ctx.workdir)];
    var hu := head + UserArgs(ctx);
    var w := hu + InputMounts(config.inputs, ctx.bindings);
    var z := w + OutputMount(config, ctx);
    var y := z + GuiArgs(config, port);
    var x := y + ProcessEnv(config);
    var args := CgenArgs(config, ctx, port);
    assert args == x + ["--"] + config.process.arguments;
    if ctx.userNamespaceEnabled {
      assert |hu| == 8;
      TakeOfPrefix(x + ["--"], config.process.arguments, 8);
      TakeOfPrefix(x, ["--"], 8);
      TakeOfPrefix(y, ProcessEnv(config), 8);
      TakeOfPrefix(z, GuiArgs(config, port), 8);
      TakeOfPrefix(w, OutputMount(config, ctx), 8);
      TakeOfPrefix(hu, InputMounts(config.inputs, ctx.bindings), 8);
      assert args[4..8] == args[..8][4..];
    } else {
      assert hu == head;
      InputMountsPairs(config.inputs, ctx.bindings);
      EnvPairsShape(if config.process.environmentVariables.Some? then config.process.environmentVariables.value else []);
      IndexAt(x + ["--"], config.process.arguments, 4);
      IndexAt(x, ["--"], 4);
      IndexAt(y, ProcessEnv(config), 4);
      IndexAt(z, GuiArgs(config, port), 4);
      IndexAt(w, OutputMount(config, ctx), 4);
      IndexAt(hu, InputMounts(config.inputs, ctx.bindings), 4);
    }
  }

  /** An element of a concatenation comes from the left part or, past its end, from the right. */
  lemma IndexAt<T>(a: seq<T>, b: seq<T>, n: nat)
    ensures n < |a + b| ==> (a + b)[n] == if n < |a| then a[n] else b[n - |a|]
  {
  }

  /**
   * The input mounts come in pairs: `--mount` and a read-only bind `src:dst:bind:ro`, one
   * pair per mounted input (an input whose binding does not resolve or that has no
   * destination yields none).
   */
  lemma {:induction false} InputMountsPairs(inputs: seq<Input>, bindings: map<string, string>)
    ensures var m := InputMounts(inputs, bindings);
      && |m| == 2 * |MountedInputs(inputs, bindings)|
      && (forall i :: 0 <= i < |m| && i % 2 == 0 ==> m[i] == "--mount")
      && (forall i :: 0 <= i < |m| && i % 2 == 1 ==> EndsWith(m[i], ":bind:ro"))
    decreases |inputs|
  {
    if inputs != [] {
      var front := inputs[..|inputs| - 1];
      InputMountsPairs(front, bindings);
      var m0 := InputMounts(front, bindings);
      var last := InputMount(inputs[|inputs| - 1], bindings);
      assert InputMounts(inputs, bindings) == m0 + last;
      assert MountPairs(m0);
      assert MountPairs(last) by {
        if last != [] {
          assert EndsWith(last[1], ":bind:ro");
        }
      }
      MountPairsAppend(m0, last);
    }
  }

  /** Alternating `--mount` and a read-only bind, in whole pairs. */
  predicate MountPairs(m: seq<string>) {
    && |m| % 2 == 0
    && (forall i :: 0 <= i < |m| && i % 2 == 0 ==> m[i] == "--mount")
    && (forall i :: 0 <= i < |m| && i % 2 == 1 ==> EndsWith(m[i], ":bind:ro"))
  }

  lemma MountPairsAppend(a: seq<string>, b: seq<string>)
    requires MountPairs(a) && MountPairs(b)
    ensures MountPairs(a + b)
  {
    var h := |a| / 2;
    assert |a| == 2 * h;
    var ab := a + b;
    forall i | 0 <= i < |ab| && i % 2 == 0
      ensures ab[i] == "--mount"
    {
      if i < |a| {
        assert ab[i] == a[i];
      } else {
        var j := i - 2 * h;
        assert ab[i] == b[j];
        assert j % 2 == 0;
      }
    }
    forall i | 0 <= i < |ab| && i % 2 == 1
      ensures EndsWith(ab[i], ":bind:ro")
    {
      if i < |a| {
        assert ab[i] == a[i];
      } else {
        var j := i - 2 * h;
        assert ab[i] == b[j];
        assert j % 2 == 1;
      }
    }
  }

  /** The mounts of a list of inputs extended by one are the earlier mounts followed by the new input's. */
  lemma InputMountsAppend(inputs: seq<Input>, input: Input, bindings: map<string, string>)
    ensures InputMounts(inputs + [input], bindings) == InputMounts(inputs, bindings) + InputMount(input, bindings)
  {
    assert (inputs + [input])[..|inputs|] == inputs;
  }

  /** The environment pairs alternate `--env` and the variables, in order. */
  lemma {:induction false} EnvPairsShape(envs: seq<string>)
    ensures var e := EnvPairs(envs);
      && |e| == 2 * |envs|
      && (forall i :: 0 <= i < |e| && i % 2 == 0 ==> e[i] == "--env")
      && (forall i :: 0 <= i < |e| && i % 2 == 1 ==> e[i] == envs[i / 2])
    decreases |envs|
  {
    if envs != [] {
      var front := envs[..|envs| - 1];
      EnvPairsShape(front);
      var e := EnvPairs(envs);
      assert e == EnvPairs(front) + ["--env", envs[|envs| - 1]];
      forall i | 0 <= i < |e| && i % 2 == 1 ensures e[i] == envs[i / 2] {
        if i < |EnvPairs(front)| {
          assert envs[i / 2] == front[i / 2];
        }
      }
    }
  }

  /** A GUI configuration puts the display of the drawn port and the X11 socket mount in the argument list. */
  lemma GuiArgsPresent(config: OciConfig, ctx: PrepareContext, port: int)
    requires config.isGui
    ensures "DISPLAY=:" + IntToString(port) in CgenArgs(config, ctx, port)
    ensures X11_SOCKET_MOUNT in CgenArgs(config, ctx, port)
  {
    var gui := GuiArgs(config, port);
    assert gui[1] == "DISPLAY=:" + IntToString(port) && gui[3] == X11_SOCKET_MOUNT;
  }

  /** The output directory is mounted read-write exactly when the configuration has an output path. */
  lemma OutputMountReadWrite(config: OciConfig, ctx: PrepareContext)
    ensures config.outputPath.Some? <==> OutputMount(config, ctx) != []
    ensures config.outputPath.Some? ==>
      OutputMount(config, ctx)[1] == ctx.outputDir + ":" + config.outputPath.value + ":bind:rw"
      && EndsWith(OutputMount(config, ctx)[1], ":bind:rw")
  {
    if config.outputPath.Some? {
      var m := ctx.outputDir + ":" + config.outputPath.value + ":bind:rw";
      assert m[|m| - 8..] == ":bind:rw";
    }
  }

  /** The input loop of prepare(): each input's mount, when it has one, appended in input order. */
  method AddInputMounts(args: seq<string>, inputs: seq<Input>, bindings: map<string, string>)
    returns (r: seq<string>)
    ensures r == args + InputMounts(inputs, bindings)
  {
    r := args;
    for i := 0 to |inputs|
      invariant r == args + InputMounts(inputs[..i], bindings)
    {
      var input := inputs[i];
      ghost var before := InputMounts(inputs[..i], bindings);
      InputMountsAppend(inputs[..i], input, bindings);
      assert inputs[..i + 1] == inputs[..i] + [input];
      if input.binding in bindings && input.destination.Some? {
        var bind := bindings[input.binding] + ":" + input.destination.value + ":bind:ro";
        r := r + ["--mount"];
        r := r + [bind];
        assert r == args + (before + ["--mount", bind]);
      }
    }
    assert inputs[..|inputs|] == inputs;
  }

  /** The environment loop of prepare(): `--env` and each variable, in order. */
  method AddEnvPairs(args: seq<string>, envs: seq<string>) returns (r: seq<string>)
    ensures r == args + EnvPairs(envs)
  {
    r := args;
    for i := 0 to |envs|
      invariant r == args + EnvPairs(envs[..i])
    {
      assert envs[..i + 1][..i] == envs[..i];
      r := r + ["--env", envs[i]];
    }
    assert envs[..|envs|] == envs;
  }

  /** The command loop of prepare(): the process arguments appended in their order. */
  method AddArguments(args: seq<string>, arguments: seq<string>) returns (r: seq<string>)
    ensures r == args + arguments
  {
    r := args;
    for i := 0 to |arguments|
      invariant r == args + arguments[..i]
    {
      assert arguments[..i + 1] == arguments[..i] + [arguments[i]];
      r := r + [arguments[i]];
    }
    assert arguments[..|arguments|] == arguments;
  }

  /** The part of prepare() before the GUI arguments: rootfs, output config, user and group, and the mounts. */
  method AddConfigAndMounts(config: OciConfig, ctx: PrepareContext) returns (args: seq<string>)
    ensures args == ["--rootfs", ctx.rootfs, "--output", ConfigPath(ctx.workdir)] + UserArgs(ctx)
                    + InputMounts(config.inputs, ctx.bindings) + OutputMount(config, ctx)
  {
    args := ["--rootfs", ctx.rootfs, "--output", ConfigPath(ctx.workdir)];
    if ctx.userNamespaceEnabled {
      args := args + ["--user", ctx.user, "--group", ctx.group];
    }
    args := AddInputMounts(args, config.inputs, ctx.bindings);
    if config.outputPath.Some? {
      args := args + ["--mount"];
      args := args + [ctx.outputDir + ":" + config.outputPath.value + ":bind:rw"];
    }
  }

  /** The part of prepare() after the GUI arguments: the environment variables, `--` and the process arguments. */
  method AddEnvAndCommand(args: seq<string>, process: Process) returns (r: seq<string>)
    ensures r == args + (if process.environmentVariables.Some? then EnvPairs(process.environmentVariables.value) else [])
                 + ["--"] + process.arguments
  {
    r := args;
    if process.environmentVariables.Some? {
      r := AddEnvPairs(r, process.environmentVariables.value);
    }
    r := r + ["--"];
    r := AddArguments(r, process.arguments);
  }

  class RuncBean {
    /** The Xpra port, NO_PORT until one is drawn. */
    var port: int
    var isGui: bool
    /** Whether the container bean's state has been set to FAILED. */
    var failed: bool
    /** How many ports have been drawn from, and released to, the port range. */
    var portsDrawn: nat
    var portsReleased: nat
    /** The container runtime command prepare() leaves for the runner (empty before). */
    var runCommand: seq<string>

    /** A port is held exactly when one was drawn, and at most one is ever drawn. */
    ghost predicate Valid()
      reads this
    {
      (port == NO_PORT <==> portsDrawn == 0) && portsDrawn <= 1 && (port != NO_PORT ==> port >= 0)
    }

    constructor ()
      ensures Valid()
      ensures port == NO_PORT && !isGui && !failed && portsDrawn == 0 && portsReleased == 0 && runCommand == []
    {
      port := NO_PORT;
      isGui := false;
      failed := false;
      portsDrawn := 0;
      portsReleased := 0;
      runCommand := [];
    }

    /**
     * getPort(): the first call draws a port from the range (`drawn` is what the range
     * hands out, or its IOException); every later call returns the same port.
     */
    method GetPort(drawn: Result<nat>) returns (r: Result<int>)
      requires Valid()
      modifies this`port, this`portsDrawn
      ensures Valid()
      ensures old(port) != NO_PORT ==> r == Ok(old(port)) && port == old(port) && portsDrawn == old(portsDrawn)
      ensures old(port) == NO_PORT && drawn.Ok? ==> r == Ok(drawn.value) && port == drawn.value && portsDrawn == 1
      ensures old(port) == NO_PORT && drawn.Err? ==> r == Err(drawn.message) && port == NO_PORT && portsDrawn == 0
    {
      if port == NO_PORT {
        if drawn.Err? {
          return Err(drawn.message);
        }
        port := drawn.value;
        portsDrawn := portsDrawn + 1;
      }
      r := Ok(port);
    }

    /** destroy(): the port goes back to the range only when one was drawn. */
    method Destroy()
      requires Valid()
      modifies this`portsReleased
      ensures Valid()
      ensures portsReleased == old(portsReleased) + (if port != NO_PORT then 1 else 0)
    {
      if port != NO_PORT {
        portsReleased := portsReleased + 1;
      }
    }

    /**
     * prepare(): builds the emucon-cgen arguments (drawing the Xpra port first for a GUI
     * configuration) and, when the generator succeeds, the `sudo runc --debug run <cid>`
     * command. A failing generator marks the bean FAILED and raises.
     */
    method Prepare(config: OciConfig, ctx: PrepareContext, drawn: Result<nat>, cgenSucceeds: bool,
                   runc: string, cid: string)
      returns (r: Outcome, args: seq<string>)
      requires Valid()
      modifies this
      ensures Valid()
      ensures isGui == (old(isGui) || config.isGui)
      ensures config.isGui && old(port) == NO_PORT && drawn.Err? ==>
        r == Fail(drawn.message) && port == NO_PORT && failed == old(failed) && runCommand == old(runCommand)
      ensures !config.isGui ==> port == old(port) && portsDrawn == old(portsDrawn)
      ensures config.isGui && (old(port) != NO_PORT || drawn.Ok?) ==>
        port == (if old(port) != NO_PORT then old(port) else drawn.value)
      ensures r.Pass? || args != [] ==> args == CgenArgs(config, ctx, port)
      ensures args != [] && cgenSucceeds ==> r == Pass && runCommand == ["sudo", runc, "--debug", "run", cid] && failed == old(failed)
      ensures args != [] && !cgenSucceeds ==> r == Fail(CGEN_FAILED) && failed && runCommand == old(runCommand)
      ensures !config.isGui || old(port) != NO_PORT || drawn.Ok? ==> args != []
      ensures portsReleased == old(portsReleased)
    {
      args := AddConfigAndMounts(config, ctx);
      ghost var beforeGui := args;
      if config.isGui {
        isGui := true;
        var p := GetPort(drawn);
        if p.Err? {
          return Fail(p.message), [];
        }
        args := args + ["--env", "DISPLAY=:" + IntToString(p.value)];
        args := args + ["--mount"];
        args := args + [X11_SOCKET_MOUNT];
      }
      assert args == beforeGui + GuiArgs(config, port);
      args := AddEnvAndCommand(args, config.process);
      if !cgenSucceeds {
        failed := true;
        return Fail(CGEN_FAILED), args;
      }
      runCommand := ["sudo", runc, "--debug", "run", cid];
      r := Pass;
    }
  }

  /** getPort draws once: a second call, whatever the range would hand out, returns the first port. */
  method PortDrawnOnce(first: nat, second: Result<nat>) {
    var bean := new RuncBean();
    var p1 := bean.GetPort(Ok(first));
    var p2 := bean.GetPort(second);
    assert p1 == p2 == Ok(first);
    assert bean.portsDrawn == 1;
    bean.Destroy();
    assert bean.portsReleased == 1;
  }
}
