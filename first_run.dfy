/** The wizard's record handed to the launcher, as on a first run. */
module FirstRun {
  import opened Wrappers
  import opened Text
  import opened Configuration
  import opened Properties
  import opened Wizard
  import opened Launch

  /** The launch command depends only on the heap size, the GUI choice and the server file. */
  lemma CommandDependsOnLaunchFields(cfg: Config, other: Config)
    requires cfg.maxMemMb == other.maxMemMb && cfg.nogui == other.nogui && cfg.jarName == other.jarName
    ensures ShellCommand(cfg) == ShellCommand(other)
  {
  }

  /** Empty RAM and file-name answers with "n" at the GUI prompt launch the
      default `server.jar` with a 2048 MB heap and no GUI. */
  lemma DefaultAnswersWithoutGui(props: PropertyMap, token: string)
    requires HasServerAddress(props) && ParseInt(props["server-port"]).Some?
    ensures var run := Derive(props, Answers("", "n", "", token));
            && run.outcome.Ok?
            && ShellCommand(run.outcome.value.0)
               == Ok("start /wait " + "java -Xmx2048M -Xms2048M -jar server.jar nogui")
  {
    var run := Derive(props, Answers("", "n", "", token));
    CommandDependsOnLaunchFields(run.outcome.value.0, DefaultConfig());
    DefaultConfigCommand();
  }
}
