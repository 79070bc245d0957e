/** The run dialog (FEBioStudio/DlgRun.cpp): the default solver command
    line it assembles from its fields, the checks it makes before closing,
    and the list of launch configurations it offers. */
module DlgRun {
  import opened Base

  // ---------------------------------------------------------------------
  // The default command line
  // ---------------------------------------------------------------------

  const InputFragment: string := "-i $(Filename)"
  const DebugFragment: string := " -g"
  /** The config option names the placeholder, never the path itself. */
  const ConfigFragment: string := " -config $(ConfigFile)"
  const TaskOpening: string := " -task=\""

  function DebugPart(debug: bool): string
  {
    if debug then DebugFragment else ""
  }

  function ConfigPart(configFile: string): string
  {
    if configFile != "" then ConfigFragment else ""
  }

  /** The option naming a task, when a task name is given. */
  function TaskNamePart(taskName: string): string
  {
    if taskName != "" then TaskOpening + taskName + "\"" else ""
  }

  /** A space and its task-file text, when a task name is given. */
  function TaskFilePart(taskName: string, taskFile: string): string
  {
    if taskName != "" then " " + taskFile else ""
  }

  function TaskPart(taskName: string, taskFile: string): string
  {
    TaskNamePart(taskName) + TaskFilePart(taskName, taskFile)
  }

  /** `updateDefaultCommand`'s text: the input option, ` -g` when debugging,
      the config option when a config file is given, and, when a task name
      is given, the quoted task name followed by a space and its task-file text
      (which may be empty). */
  function DefaultCommand(debug: bool, configFile: string, taskName: string, taskFile: string): (r: string)
    ensures IsPrefix(InputFragment, r)
    ensures !debug && configFile == "" && taskName == "" ==> r == InputFragment
  {
    InputFragment + DebugPart(debug) + ConfigPart(configFile) + TaskNamePart(taskName)
    + TaskFilePart(taskName, taskFile)
  }

  /** What a command line says, read back fragment by fragment: whether it
      has the debug and config options, and the text after `-task="`. */
  datatype CommandParts = CommandParts(debug: bool, config: bool, task: Option<string>)

  /** Reads a command line in the fragment order -i, -g, -config, -task; a
      line that does not follow it gives `None`. */
  function ParseCommand(s: string): (r: Option<CommandParts>)
    ensures r.Some? ==> IsPrefix(InputFragment, s)
    ensures s == InputFragment ==> r == Some(CommandParts(false, false, None))
  {
    if !IsPrefix(InputFragment, s) then None else ParseDebug(s[|InputFragment|..])
  }

  function ParseDebug(r: string): Option<CommandParts>
  {
    if IsPrefix(DebugFragment, r) then ParseConfig(true, r[|DebugFragment|..]) else ParseConfig(false, r)
  }

  function ParseConfig(debug: bool, r: string): Option<CommandParts>
  {
    if IsPrefix(ConfigFragment, r) then ParseTask(debug, true, r[|ConfigFragment|..]) else ParseTask(debug, false, r)
  }

  function ParseTask(debug: bool, config: bool, r: string): Option<CommandParts>
  {
    if r == [] then Some(CommandParts(debug, config, None))
    else if IsPrefix(TaskOpening, r) then Some(CommandParts(debug, config, Some(r[|TaskOpening|..])))
    else None
  }

  lemma SplitPrefix(p: string, r: string)
    ensures IsPrefix(p, p + r) && (p + r)[|p|..] == r
  {
    assert (p + r)[..|p|] == p;
  }

  lemma AppendNothing(s: string)
    ensures s + "" == s
  {
  }

  lemma Regroup(a: string, b: string, c: string, d: string, e: string)
    ensures a + b + c + d + e == a + (b + (c + (d + e)))
  {
  }

  /** A string that differs from `p` at some position does not start with `p`. */
  lemma NotPrefixAt(p: string, s: string, k: nat)
    requires k < |p| && k < |s| && s[k] != p[k]
    ensures !IsPrefix(p, s)
  {
    if |p| <= |s| {
      assert s[..|p|][k] == s[k];
    }
  }

  lemma TaskPartParses(debug: bool, config: bool, taskName: string, taskFile: string)
    ensures ParseTask(debug, config, TaskPart(taskName, taskFile)) ==
      Some(CommandParts(debug, config, if taskName == "" then None else Some(taskName + "\" " + taskFile)))
  {
    if taskName != "" {
      var rest := taskName + "\" " + taskFile;
      assert TaskPart(taskName, taskFile) == (TaskOpening + taskName + "\"") + (" " + taskFile);
      assert TaskPart(taskName, taskFile) == TaskOpening + rest;
      SplitPrefix(TaskOpening, rest);
    }
  }

  /** A task part is empty or starts with ` -t`. */
  lemma TaskPartStart(taskName: string, taskFile: string)
    ensures var t := TaskPart(taskName, taskFile);
      t == [] || (|t| > 2 && t[2] == 't')
  {
    if taskName != "" {
      var a := TaskOpening + taskName;
      var b := a + "\"";
      assert TaskPart(taskName, taskFile) == b + (" " + taskFile);
      assert a[2] == TaskOpening[2];
      assert b[2] == a[2];
    }
  }

  lemma ConfigOnParses(debug: bool, r: string)
    ensures ParseConfig(debug, ConfigFragment + r) == ParseTask(debug, true, r)
  {
    SplitPrefix(ConfigFragment, r);
  }

  lemma ConfigOffParses(debug: bool, r: string)
    requires r == [] || (|r| > 2 && r[2] == 't')
    ensures ParseConfig(debug, r) == ParseTask(debug, false, r)
  {
    if r != [] {
      NotPrefixAt(ConfigFragment, r, 2);
    }
  }

  lemma DebugOnParses(r: string)
    ensures ParseDebug(DebugFragment + r) == ParseConfig(true, r)
  {
    SplitPrefix(DebugFragment, r);
  }

  lemma DebugOffParses(r: string)
    requires r == [] || (|r| > 2 && (r[2] == 't' || r[2] == 'c'))
    ensures ParseDebug(r) == ParseConfig(false, r)
  {
    if r != [] {
      NotPrefixAt(DebugFragment, r, 2);
    }
  }

  /** The parts of the default command: -g exactly when debugging, the
      config option exactly when a config file is given, and a task part
      exactly when a task name is given, holding the name, the closing quote,
      a space and its task-file text, which is ignored without a name. */
  lemma DefaultCommandParts(debug: bool, configFile: string, taskName: string, taskFile: string)
    ensures ParseCommand(DefaultCommand(debug, configFile, taskName, taskFile)) ==
      Some(CommandParts(debug, configFile != "",
        if taskName == "" then None else Some(taskName + "\" " + taskFile)))
  {
    var t := TaskPart(taskName, taskFile);
    var c := ConfigPart(configFile) + t;
    var r := DebugPart(debug) + c;
    Regroup(InputFragment, DebugPart(debug), ConfigPart(configFile), TaskNamePart(taskName), TaskFilePart(taskName, taskFile));
    SplitPrefix(InputFragment, r);
    TaskPartStart(taskName, taskFile);
    TaskPartParses(debug, configFile != "", taskName, taskFile);
    if configFile != "" {
      ConfigOnParses(debug, t);
      assert c == ConfigFragment + t;
    } else {
      assert c == t;
      ConfigOffParses(debug, t);
    }
    if debug {
      DebugOnParses(c);
      assert r == DebugFragment + c;
    } else {
      assert r == c;
      if configFile != "" {
        assert c[2] == 'c';
      }
      DebugOffParses(c);
    }
  }

  /** Task name and task file are not quoted apart: a name holding `" `
      gives the same command as a shorter name and a longer file. */
  lemma TaskPartAmbiguous()
    ensures DefaultCommand(false, "", "a\" b", "c") == DefaultCommand(false, "", "a", "b\" c")
  {
  }

  /** The dialog's starting text is the default command of empty fields. */
  lemma InitialCommandIsDefault()
    ensures DefaultCommand(false, "", "", "") == InputFragment
  {
  }

  // ---------------------------------------------------------------------
  // Closing the dialog
  // ---------------------------------------------------------------------

  const NoWorkingDirectory: string := "You must enter a valid working directory."
  const NoJobName: string := "You must enter valid job name."

  /** The result of `accept`: the dialog closes, or an error box shows the
      message and the dialog stays open. */
  datatype AcceptResult = Closed | Refused(message: string)

  /** `accept`: the working directory is checked first, then the job name. */
  function Accept(workingDir: string, jobName: string): (r: AcceptResult)
    ensures r.Refused? ==> r.message == NoWorkingDirectory || r.message == NoJobName
  {
    if workingDir == "" then Refused(NoWorkingDirectory)
    else if jobName == "" then Refused(NoJobName)
    else Closed
  }

  /** The dialog closes exactly when both fields are filled in; a missing
      working directory is reported whatever the job name, and a missing job
      name only when the working directory is given. */
  lemma AcceptChecks(workingDir: string, jobName: string)
    ensures Accept(workingDir, jobName) == Closed <==> workingDir != "" && jobName != ""
    ensures workingDir == "" ==> Accept(workingDir, jobName) == Refused(NoWorkingDirectory)
    ensures workingDir != "" && jobName == "" ==> Accept(workingDir, jobName) == Refused(NoJobName)
  {
  }

  // ---------------------------------------------------------------------
  // The dialog
  // ---------------------------------------------------------------------

  /** A launch configuration; only its name is shown. */
  datatype LaunchConfig = LaunchConfig(name: string)

  class RunDialog {
    var debug: bool
    var configFile: string
    var taskName: string
    var taskFile: string
    /** Whether the command field is enabled, that is, overridden. */
    var cmdEnabled: bool
    var cmd: string
    var workingDir: string
    var jobName: string
    /** The launch configurations the dialog was handed. */
    var launchConfigs: seq<LaunchConfig>
    /** The items of the launch configuration box and its current index
        (-1 when none is current). */
    var launchItems: seq<string>
    var launchIndex: int

    /** The command field starts disabled with the text `-i $(Filename)`. */
    constructor (configs: seq<LaunchConfig>)
      ensures !cmdEnabled && cmd == InputFragment && !debug
      ensures configFile == "" && taskName == "" && taskFile == ""
      ensures workingDir == "" && jobName == ""
      ensures launchConfigs == configs && launchItems == [] && launchIndex == -1
    {
      debug, cmdEnabled, cmd := false, false, InputFragment;
      configFile, taskName, taskFile := "", "", "";
      workingDir, jobName := "", "";
      launchConfigs, launchItems, launchIndex := configs, [], -1;
    }

    /** `updateDefaultCommand`: rewrites the command from the fields unless
        the command is overridden, in which case it is left as typed. */
    method UpdateDefaultCommand()
      modifies this
      ensures cmdEnabled ==> cmd == old(cmd)
      ensures !cmdEnabled ==> cmd == DefaultCommand(debug, configFile, taskName, taskFile)
      ensures debug == old(debug) && configFile == old(configFile) && taskName == old(taskName)
      ensures taskFile == old(taskFile) && cmdEnabled == old(cmdEnabled)
      ensures workingDir == old(workingDir) && jobName == old(jobName)
      ensures launchConfigs == old(launchConfigs) && launchItems == old(launchItems)
      ensures launchIndex == old(launchIndex)
    {
      if !cmdEnabled {
        var t := InputFragment;
        if debug {
          t := t + DebugFragment;
        } else {
          AppendNothing(t);
        }
        ghost var t1 := t;
        if configFile != "" {
          t := t + ConfigFragment;
        } else {
          AppendNothing(t);
        }
        ghost var t2 := t;
        if taskName != "" {
          t := t + (TaskOpening + taskName + "\"");
          t := t + (" " + taskFile);
        } else {
          AppendNothing(t);
          AppendNothing(t + "");
        }
        assert t1 == InputFragment + DebugPart(debug);
        assert t2 == t1 + ConfigPart(configFile);
        assert t == t2 + TaskNamePart(taskName) + TaskFilePart(taskName, taskFile);
        cmd := t;
      }
    }

    /** `UpdateLaunchConfigBox(index)`: the box is cleared and refilled with
        the configuration names in order; adding items to the empty box makes
        the first one current, and `index` is selected only when it names an
        item. */
    method UpdateLaunchConfigBox(index: int)
      modifies this
      ensures |launchItems| == |launchConfigs|
      ensures forall i | 0 <= i < |launchItems| :: launchItems[i] == launchConfigs[i].name
      ensures 0 <= index < |launchConfigs| ==> launchIndex == index
      ensures !(0 <= index < |launchConfigs|) ==> launchIndex == (if launchConfigs == [] then -1 else 0)
      ensures launchConfigs == old(launchConfigs) && cmd == old(cmd) && cmdEnabled == old(cmdEnabled)
      ensures debug == old(debug) && configFile == old(configFile) && taskName == old(taskName)
      ensures taskFile == old(taskFile) && workingDir == old(workingDir) && jobName == old(jobName)
    {
      launchItems, launchIndex := [], -1;
      var names: seq<string> := [];
      var i := 0;
      while i < |launchConfigs|
        invariant 0 <= i <= |launchConfigs|
        invariant |names| == i
        invariant forall k | 0 <= k < i :: names[k] == launchConfigs[k].name
      {
        names := names + [launchConfigs[i].name];
        i := i + 1;
      }
      launchItems := names;
      if names != [] {
        launchIndex := 0;
      }
      if 0 <= index < |launchItems| {
        launchIndex := index;
      }
    }
  }
}
