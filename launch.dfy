/**
 * `do_server_start`: how the launcher turns the configured server file into
 * the command it hands to the shell.
 */
module Launch {
  import opened Wrappers
  import opened Text
  import opened Configuration

  /** The file is neither a `.bat` nor a `.jar`: no command is issued. */
  datatype LaunchError = UnrecognizedServerFile

  /** `java -Xmx{N}M -Xms{N}M -jar {name} ` followed by `nogui` or nothing. */
  function JavaCommand(cfg: Config): string {
    var heap := IntToString(cfg.maxMemMb);
    "java -Xmx" + heap + "M -Xms" + heap + "M -jar " + cfg.jarName + " " + (if cfg.nogui then "nogui" else "")
  }

  /** The command chosen by the server file's suffix; `.bat` is checked first. */
  function LaunchCommand(cfg: Config): (r: Result<string, LaunchError>)
    ensures r.Ok? <==> EndsWith(cfg.jarName, ".bat") || EndsWith(cfg.jarName, ".jar")
    ensures EndsWith(cfg.jarName, ".bat") ==> r == Ok("run.bat")
    ensures !EndsWith(cfg.jarName, ".bat") && EndsWith(cfg.jarName, ".jar") ==> r == Ok(JavaCommand(cfg))
  {
    if EndsWith(cfg.jarName, ".bat") then Ok("run.bat")
    else if EndsWith(cfg.jarName, ".jar") then Ok(JavaCommand(cfg))
    else Err(UnrecognizedServerFile)
  }

  /** The string passed to `os.system`, or the error that stops the launch before it. */
  function ShellCommand(cfg: Config): (r: Result<string, LaunchError>)
    ensures r.Ok? <==> LaunchCommand(cfg).Ok?
    ensures r.Ok? ==> StartsWith(r.value, "start /wait ") && r.value[|"start /wait "|..] == LaunchCommand(cfg).value
  {
    match LaunchCommand(cfg)
    case Ok(cmd) =>
      var shell := "start /wait " + cmd;
      assert shell[..|"start /wait "|] == "start /wait ";
      Ok(shell)
    case Err(e) => Err(e)
  }

  /** Every `.bat` file launches the same fixed script, whatever its name. */
  lemma BatIgnoresName(cfg: Config, other: Config)
    requires EndsWith(cfg.jarName, ".bat") && EndsWith(other.jarName, ".bat")
    ensures ShellCommand(cfg) == ShellCommand(other) == Ok("start /wait run.bat")
  {
    assert "start /wait " + "run.bat" == "start /wait run.bat";
  }

  /** Both heap flags of the Java command carry the canonical decimal text of
      the configured heap size (see `NatToString`), which reads back as it. */
  lemma HeapFlagsMatchConfig(cfg: Config)
    ensures ParseInt(IntToString(cfg.maxMemMb)) == Some(cfg.maxMemMb)
    ensures JavaCommand(cfg)
            == "java -Xmx" + IntToString(cfg.maxMemMb) + "M -Xms" + IntToString(cfg.maxMemMb)
               + "M -jar " + cfg.jarName + " " + (if cfg.nogui then "nogui" else "")
  {
    ParseIntToString(cfg.maxMemMb);
  }

  /** The Java command ends in `nogui` exactly when the record asks for no GUI;
      otherwise it ends in the space after the file name. */
  lemma NoguiFlagIff(cfg: Config)
    ensures EndsWith(JavaCommand(cfg), "nogui") <==> cfg.nogui
    ensures !cfg.nogui ==> EndsWith(JavaCommand(cfg), cfg.jarName + " ")
  {
    var cmd := JavaCommand(cfg);
    var heap := IntToString(cfg.maxMemMb);
    var head := "java -Xmx" + heap + "M -Xms" + heap + "M -jar " + cfg.jarName + " ";
    if cfg.nogui {
      assert cmd == head + "nogui";
      assert cmd[|cmd| - 5..] == "nogui";
    } else {
      assert cmd == head;
      assert cmd[|cmd| - 1] == ' ';
      assert "nogui"[4] == 'i';
      assert cmd[|cmd| - (|cfg.jarName| + 1)..] == cfg.jarName + " ";
    }
  }

  /** Switching the GUI off only appends the `nogui` token; every other
      character of the command is the same. */
  lemma NoguiOnlyAddsFlag(cfg: Config)
    ensures JavaCommand(cfg.(nogui := true)) == JavaCommand(cfg.(nogui := false)) + "nogui"
  {
  }

  /** A server file with any other suffix, upper-case `.JAR` included, gets no command. */
  lemma OtherSuffixIsRejected(cfg: Config)
    requires !EndsWith(cfg.jarName, ".bat") && !EndsWith(cfg.jarName, ".jar")
    ensures ShellCommand(cfg) == Err(UnrecognizedServerFile)
  {
  }

  /** The record's defaults launch `server.jar` with a 2048 MB heap and no GUI. */
  lemma DefaultConfigCommand()
    ensures ShellCommand(DefaultConfig()) == Ok("start /wait " + "java -Xmx2048M -Xms2048M -jar server.jar nogui")
  {
    DefaultIsJar();
    DefaultJavaCommand();
  }

  lemma DefaultIsJar()
    ensures EndsWith(DefaultConfig().jarName, ".jar") && !EndsWith(DefaultConfig().jarName, ".bat")
  {
  }

  lemma DefaultJavaCommand()
    ensures JavaCommand(DefaultConfig()) == "java -Xmx2048M -Xms2048M -jar server.jar nogui"
  {
    assert IntToString(2048) == "2048";
  }
}
