/**
 * `setup_config`: the first-run wizard. It reads `server.properties`, insists
 * on `server-ip` and `server-port`, then asks four questions in order (RAM,
 * GUI, server file name, tunnel token) and builds a `Config` from the answers.
 * The answers are a parameter; the run records which questions were asked.
 */
module Wizard {
  import opened Wrappers
  import opened Text
  import opened Properties
  import opened Configuration

  /** What the user types at each prompt (Python's `input()` without the newline). */
  datatype Answers = Answers(ram: string, gui: string, jarName: string, token: string)

  datatype Prompt = RamPrompt | GuiPrompt | JarPrompt | TokenPrompt

  datatype WizardError =
    | NoPropertiesFile                      // the file is absent: `setup_config` returns None
    | MalformedProperties(cause: ParseError) // `data[1]` raised IndexError
    | MissingServerAddress                  // `server-ip` or `server-port` absent: the program exits
    | InvalidRam(answer: string)            // `int()` raised ValueError: `setup_config` returns None
    | InvalidPort(value: string)            // building the record raised a validation error

  /** The questions asked, in order, and either the record with the token or the reason for failing. */
  datatype Run = Run(asked: seq<Prompt>, outcome: Result<(Config, string), WizardError>)

  const AllPrompts: seq<Prompt> := [RamPrompt, GuiPrompt, JarPrompt, TokenPrompt]

  /** The RAM size used when the answer is empty. */
  const DefaultRamMb: int := 2048

  predicate HasServerAddress(props: PropertyMap) {
    "server-ip" in props && "server-port" in props
  }

  /** The answer-driven part of `setup_config`, from the required-key check on. */
  function Derive(props: PropertyMap, answers: Answers): (run: Run)
    // the required-keys check comes before any question
    ensures run.asked == [] <==> !HasServerAddress(props)
    ensures run.asked == [] ==> run.outcome == Err(MissingServerAddress)
    ensures run.asked <= AllPrompts
    // RAM: empty, an integer, or a failure right after the first question
    ensures run.outcome == Err(InvalidRam(answers.ram)) <==>
              HasServerAddress(props) && answers.ram != "" && ParseInt(answers.ram).None?
    ensures run.outcome == Err(InvalidRam(answers.ram)) ==> run.asked == [RamPrompt]
    ensures run.outcome.Ok? <==>
              HasServerAddress(props) && (answers.ram == "" || ParseInt(answers.ram).Some?)
              && ParseInt(props["server-port"]).Some?
    ensures run.outcome.Ok? ==> run.asked == AllPrompts
    // the port is converted only when the record is built, after all four questions
    ensures HasServerAddress(props) && (answers.ram == "" || ParseInt(answers.ram).Some?)
            && ParseInt(props["server-port"]).None? ==>
              run == Run(AllPrompts, Err(InvalidPort(props["server-port"])))
    ensures run.outcome.Ok? ==>
              var (cfg, token) := run.outcome.value;
              && cfg.ip == props["server-ip"]
              && ParseInt(props["server-port"]) == Some(cfg.port)
              && (answers.ram == "" ==> cfg.maxMemMb == DefaultRamMb)
              && (answers.ram != "" ==> ParseInt(answers.ram) == Some(cfg.maxMemMb))
              && (cfg.nogui <==> answers.gui == "n" || answers.gui == "N")
              && (answers.jarName != "" ==> cfg.jarName == answers.jarName)
              && (answers.jarName == "" ==> cfg.jarName == DefaultConfig().jarName)
              && token == answers.token
  {
    if !HasServerAddress(props) then Run([], Err(MissingServerAddress))
    else
      var ram := if answers.ram == "" then Some(DefaultRamMb) else ParseInt(answers.ram);
      if ram.None? then Run([RamPrompt], Err(InvalidRam(answers.ram)))
      else
        LowerIsN(answers.gui);
        var nogui := Lower(answers.gui) == "n";
        var jarName := if answers.jarName != "" then answers.jarName else "server.jar";
        match ParseInt(props["server-port"])
        case None => Run(AllPrompts, Err(InvalidPort(props["server-port"])))
        case Some(port) =>
          Run(AllPrompts, Ok((Config(props["server-ip"], port, ram.value, nogui, jarName), answers.token)))
  }

  /** The whole of `setup_config`: the properties file (absent, or its lines)
      is read by the loop, then the answers are turned into a record. */
  method SetupConfig(propertiesFile: Option<seq<string>>, answers: Answers) returns (run: Run)
    ensures propertiesFile.None? ==> run == Run([], Err(NoPropertiesFile))
    ensures propertiesFile.Some? && Parse(propertiesFile.value).Err? ==>
              run == Run([], Err(MalformedProperties(Parse(propertiesFile.value).error)))
    ensures propertiesFile.Some? && Parse(propertiesFile.value).Ok? ==>
              run == Derive(Parse(propertiesFile.value).value, answers)
    ensures run.asked != [] ==>
              propertiesFile.Some? && Parse(propertiesFile.value).Ok?
              && HasServerAddress(Parse(propertiesFile.value).value)
  {
    if propertiesFile.None? {
      return Run([], Err(NoPropertiesFile));
    }
    var props := ParseLines(propertiesFile.value);
    if props.Err? {
      return Run([], Err(MalformedProperties(props.error)));
    }
    run := Derive(props.value, answers);
  }

  /** A properties file that lacks either required key stops the wizard
      before any wizard question, whatever the answers would have been. */
  lemma MissingKeyAsksNothing(lines: seq<string>, answers: Answers, other: Answers)
    requires Parse(lines).Ok? && !HasServerAddress(Parse(lines).value)
    ensures Derive(Parse(lines).value, answers) == Derive(Parse(lines).value, other)
    ensures Derive(Parse(lines).value, answers) == Run([], Err(MissingServerAddress))
  {
  }

  /** Accepting every default (empty RAM and file name) gives the record's
      default heap size and server file; the GUI default of the prompt ("y")
      is the opposite of the record's `nogui` default. */
  lemma EmptyAnswersUseDefaults(props: PropertyMap, token: string)
    requires HasServerAddress(props) && ParseInt(props["server-port"]).Some?
    ensures var run := Derive(props, Answers("", "", "", token));
            && run.outcome.Ok?
            && run.outcome.value.0.maxMemMb == DefaultConfig().maxMemMb
            && run.outcome.value.0.jarName == DefaultConfig().jarName
            && run.outcome.value.0.nogui != DefaultConfig().nogui
  {
  }

  /** Any integer typed at the RAM prompt, zero and negative ones included,
      becomes the heap size: there is no positivity check. */
  lemma RamAnswerIsTakenAsIs(props: PropertyMap, n: int, gui: string, jarName: string, token: string)
    requires HasServerAddress(props) && ParseInt(props["server-port"]).Some?
    ensures var run := Derive(props, Answers(IntToString(n), gui, jarName, token));
            run.outcome.Ok? && run.outcome.value.0.maxMemMb == n
  {
    ParseIntToString(n);
  }
}
