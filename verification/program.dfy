/** One run of the program, start to finish: locate the data directory, make
    the start-up write, read the piped name, resolve the arguments, and either
    report the set or look the name up. Everything the run reads from the
    operating system is a parameter, and every exit is an `Exited` outcome
    carrying the message written to standard error. */
module Program {
  import opened Wrappers
  import opened Text
  import opened Paths
  import opened Resolver

  /** The three ways the start-up write (`save_text`) can fail. */
  datatype SaveFailure = CreateDirFailed | OpenFailed | WriteFailed

  /** How a run ends: an exit with status 1 and a message, a set request (the
      program only reports it), or the value a get looked up. */
  datatype Outcome =
    | Exited(message: string)
    | SetRequested(name: string, value: string)
    | GetAnswered(name: string, value: string)

  function SaveMessage(f: SaveFailure): string {
    match f
    case CreateDirFailed => "failed to create data path!"
    case OpenFailed => "failed to open data file!"
    case WriteFailed => "failed to write data file!"
  }

  function ErrorMessage(e: ResolveError): string {
    match e
    case NameMissing => "name missing!"
    case UnknownCommand => "unknown command!"
    case ValueMissing => "value missing!"
  }

  /** The message a failed lookup exits with. */
  const LookupFailed: string := "value missing!"

  /** The name read from standard input: nothing when it is a terminal,
      otherwise the first line with its surrounding white space (the line
      break included) removed. */
  function PipedName(isTerminal: bool, firstLine: string): (r: Option<string>)
    ensures r.None? <==> isTerminal
    ensures r.Some? ==> IsTrimmed(r.value) && exists i :: StripsAt(firstLine, r.value, i)
    ensures r.Some? ==> (r.value == [] <==> AllWhitespace(firstLine))
  {
    if isTerminal then None else Some(Trim(firstLine))
  }

  /** A whole run. `xdg` and `home` are the two environment values, `save` the
      failure of the start-up write if any, `isTerminal` and `firstLine`
      describe standard input, `args` the arguments after the program name,
      and `lookup` what `get_value` returned (None for its error). */
  function Run(xdg: Option<string>, home: Option<string>, save: Option<SaveFailure>,
               isTerminal: bool, firstLine: string, args: seq<string>,
               lookup: Option<string>): (o: Outcome)
    ensures DataPath(xdg, home).Failure? ==> o == Exited(HomeMissing)
    ensures DataPath(xdg, home).Success? && save.Some? ==> o == Exited(SaveMessage(save.value))
    ensures o.SetRequested? ==> o.name != [] && o.value != [] && IsTrimmed(o.value)
    ensures o.GetAnswered? ==> o.name != [] && lookup == Some(o.value)
    ensures !isTerminal && (o.SetRequested? || o.GetAnswered?) ==> o.name == Trim(firstLine)
  {
    match DataPath(xdg, home)
    case Failure(e) => Exited(e)
    case Success(_) =>
      if save.Some? then Exited(SaveMessage(save.value))
      else
        match Resolve(PipedName(isTerminal, firstLine), args)
        case Failure(e) => Exited(ErrorMessage(e))
        case Success(Set(n, v)) => SetRequested(n, v)
        case Success(Get(n)) =>
          match lookup
          case None => Exited(LookupFailed)
          case Some(v) => GetAnswered(n, v)
  }

  /** Once the environment and the start-up write are fine, the run ends the
      way resolution does: each resolution error exits with its own message,
      a set is reported as resolved, and a get answers with the looked-up value. */
  lemma RunFollowsResolution(xdg: Option<string>, home: Option<string>, isTerminal: bool,
                             firstLine: string, args: seq<string>, lookup: Option<string>)
    requires DataPath(xdg, home).Success?
    ensures var r := Resolve(PipedName(isTerminal, firstLine), args);
      var o := Run(xdg, home, None, isTerminal, firstLine, args, lookup);
      && (r.Failure? ==> o == Exited(ErrorMessage(r.error)))
      && (r.Success? && r.value.Set? ==> o == SetRequested(r.value.name, r.value.value))
      && (r.Success? && r.value.Get? && lookup.Some? ==> o == GetAnswered(r.value.name, lookup.value))
      && (r.Success? && r.value.Get? && lookup.None? ==> o == Exited(LookupFailed))
  {
  }

  /** The three resolution errors have distinct messages, but a failed lookup
      reuses the message of a missing value, so the two cannot be told apart
      from the outside. */
  lemma ExitMessages()
    ensures ErrorMessage(NameMissing) != ErrorMessage(UnknownCommand)
    ensures ErrorMessage(NameMissing) != ErrorMessage(ValueMissing)
    ensures ErrorMessage(UnknownCommand) != ErrorMessage(ValueMissing)
    ensures LookupFailed == ErrorMessage(ValueMissing)
  {
  }

  /** Run from a terminal with no arguments, the program exits with "name
      missing!" (provided the data directory and start-up write succeed). */
  lemma InteractiveWithoutArguments(xdg: Option<string>, home: Option<string>,
                                    firstLine: string, lookup: Option<string>)
    requires DataPath(xdg, home).Success?
    ensures Run(xdg, home, None, true, firstLine, [], lookup) == Exited("name missing!")
  {
  }

  /** When standard input is not a terminal but its first line is blank (an
      empty stream included), the blank name blocks every argument fallback:
      the run exits with "name missing!" unless the command is an unknown flag. */
  lemma BlankPipedLineFails(xdg: Option<string>, home: Option<string>,
                            firstLine: string, args: seq<string>, lookup: Option<string>)
    requires DataPath(xdg, home).Success?
    requires AllWhitespace(firstLine)
    ensures Run(xdg, home, None, false, firstLine, args, lookup) ==
      if |args| > 0 && ParseToken(args[0]) == UnknownFlag then Exited("unknown command!")
      else Exited("name missing!")
  {
    EmptyPipedLineFails(args);
  }
}
