/** The command-line resolution in `main`: from the first piped line (if
    standard input is not a terminal) and the arguments after the program
    name, decide whether to get or set, under which name, and with which
    value. Every `process::exit` in `main` is a `Failure` here. */
module Resolver {
  import opened Wrappers
  import opened Text

  datatype Command = SetCommand | GetCommand

  /** The command argument, classified. */
  datatype Token = Flag(command: Command) | UnknownFlag | Bare(text: string)

  /** A fully resolved request. */
  datatype Op = Get(name: string) | Set(name: string, value: string)

  /** The three ways resolution fails. */
  datatype ResolveError = NameMissing | UnknownCommand | ValueMissing

  /** The command assumed when a name was piped but no argument was given. */
  const DefaultCommand: string := "get"

  predicate StartsWithDash(s: string) {
    |s| > 0 && s[0] == '-'
  }

  /** `-s`/`--set` and `-g`/`--get` are the only flags; any other argument
      starting with a dash is unknown, and everything else is a bare token. */
  function ParseToken(s: string): (t: Token)
    ensures t.Bare? <==> !StartsWithDash(s)
    ensures t.Bare? ==> t.text == s
    ensures t == Flag(SetCommand) <==> s in {"-s", "--set"}
    ensures t == Flag(GetCommand) <==> s in {"-g", "--get"}
  {
    if s == "-s" || s == "--set" then Flag(SetCommand)
    else if s == "-g" || s == "--get" then Flag(GetCommand)
    else if StartsWithDash(s) then UnknownFlag
    else Bare(s)
  }

  /** The value of a set: the remaining arguments joined by single spaces and
      trimmed. It is empty exactly when every remaining argument is white space. */
  function SetValue(rest: seq<string>): (v: string)
    ensures IsTrimmed(v)
    ensures v == [] <==> forall k :: 0 <= k < |rest| ==> AllWhitespace(rest[k])
  {
    Trim(JoinWords(rest))
  }

  /** Resolution proper. A missing argument defaults the command to `get`
      only when a name was piped; the command token is classified before any
      name check; a bare token names the key (trimmed) only when nothing was
      piped; the next argument names it (verbatim) only when there is still no
      name; an absent or empty name fails; a set needs a non-empty value. */
  function Resolve(piped: Option<string>, args: seq<string>): (r: Result<Op, ResolveError>)
    ensures r.Success? ==> r.value.name != ""
    ensures r.Success? && piped.Some? ==> r.value.name == piped.value
    ensures r.Success? && r.value.Set? ==> r.value.value != [] && IsTrimmed(r.value.value)
    ensures r.Success? && r.value.Set? ==> |args| > 0 && ParseToken(args[0]) == Flag(SetCommand)
    ensures r == Failure(UnknownCommand) <==> |args| > 0 && ParseToken(args[0]) == UnknownFlag
  {
    if |args| == 0 && piped.None? then Failure(NameMissing)
    else
      var second := if |args| == 0 then DefaultCommand else args[0];
      var rest := if |args| == 0 then [] else args[1..];
      match ParseToken(second)
      case UnknownFlag => Failure(UnknownCommand)
      case Flag(command) => Finish(command, piped, rest)
      case Bare(s) => Finish(GetCommand, if piped.None? then Some(Trim(s)) else piped, rest)
  }

  /** The rest of resolution once the command is known: the next argument is
      taken as the name only if there is none yet, the name must be present
      and non-empty, and a set takes its value from whatever arguments remain. */
  function Finish(command: Command, name: Option<string>, rest: seq<string>): (r: Result<Op, ResolveError>)
    ensures r.Success? ==> r.value.name != ""
    ensures r.Success? && name.Some? ==> r.value.name == name.value
    ensures r.Success? && r.value.Set? ==> command == SetCommand && r.value.value != [] && IsTrimmed(r.value.value)
    ensures r.Success? && command == GetCommand ==> r.value.Get?
    ensures r != Failure(UnknownCommand)
    ensures r.Success? && r.value.Set? && name.Some? ==> r.value.value == SetValue(rest)
    ensures r.Success? && name.None? ==>
      && |rest| > 0 && r.value.name == rest[0]
      && (r.value.Set? ==> r.value.value == SetValue(rest[1..]))
  {
    var taken := name.None? && |rest| > 0;
    var name := if taken then Some(rest[0]) else name;
    var rest := if taken then rest[1..] else rest;
    if name.None? || name.value == "" then Failure(NameMissing)
    else
      match command
      case SetCommand =>
        var value := SetValue(rest);
        if value == "" then Failure(ValueMissing) else Success(Set(name.value, value))
      case GetCommand => Success(Get(name.value))
  }

  // ---------------------------------------------------------------------------
  // The resolution table: one lemma per kind of command argument. Together they
  // cover every input and state the result without reference to `Finish`.
  // ---------------------------------------------------------------------------

  /** No argument at all: a piped name is read with the default command `get`;
      without one, the name is missing. */
  lemma NoArguments(piped: Option<string>)
    ensures Resolve(piped, []) ==
      if piped.None? || piped.value == "" then Failure(NameMissing)
      else Success(Get(piped.value))
  {
    assert ParseToken(DefaultCommand) == Bare(DefaultCommand);
  }

  /** An unknown flag fails before any name is looked at, so it fails with
      "unknown command" whether or not a name was piped or follows it. */
  lemma UnknownFlagFailsFirst(piped: Option<string>, args: seq<string>)
    requires |args| > 0 && StartsWithDash(args[0])
    requires args[0] !in {"-s", "--set", "-g", "--get"}
    ensures Resolve(piped, args) == Failure(UnknownCommand)
  {
  }

  /** A bare command argument always means get. It becomes the name, trimmed,
      only when nothing was piped; a piped name is never overwritten. */
  lemma BareTokenIsGet(piped: Option<string>, args: seq<string>)
    requires |args| > 0 && !StartsWithDash(args[0])
    ensures Resolve(piped, args) ==
      var n := piped.GetOr(Trim(args[0]));
      if n == "" then Failure(NameMissing) else Success(Get(n))
  {
    var n := piped.GetOr(Trim(args[0]));
    assert ParseToken(args[0]) == Bare(args[0]);
    assert Resolve(piped, args) == Finish(GetCommand, Some(n), args[1..]);
    FinishGetNamed(n, args[1..]);
  }

  /** A get with a name already in hand takes nothing from the arguments. */
  lemma FinishGetNamed(n: string, rest: seq<string>)
    ensures Finish(GetCommand, Some(n), rest) ==
      if n == "" then Failure(NameMissing) else Success(Get(n))
  {
  }

  /** `-g`/`--get`: the piped name, else the next argument verbatim; anything
      after that is ignored. */
  lemma GetFlag(piped: Option<string>, args: seq<string>)
    requires |args| > 0 && args[0] in {"-g", "--get"}
    ensures Resolve(piped, args) ==
      var n := if piped.Some? then piped else if |args| > 1 then Some(args[1]) else None;
      if n.None? || n.value == "" then Failure(NameMissing) else Success(Get(n.value))
  {
  }

  /** What a set with name `n` and remaining arguments `rest` resolves to. */
  function SetOutcome(n: string, rest: seq<string>): Result<Op, ResolveError> {
    if n == "" then Failure(NameMissing)
    else if forall k :: 0 <= k < |rest| ==> AllWhitespace(rest[k]) then Failure(ValueMissing)
    else Success(Set(n, Trim(JoinWords(rest))))
  }

  /** `-s`/`--set`: with a piped name every later argument is part of the
      value; otherwise the next argument is the name and the ones after it
      are the value. The name is checked before the value. */
  lemma SetFlag(piped: Option<string>, args: seq<string>)
    requires |args| > 0 && args[0] in {"-s", "--set"}
    ensures Resolve(piped, args) ==
      if piped.Some? then SetOutcome(piped.value, args[1..])
      else if |args| > 1 then SetOutcome(args[1], args[2..])
      else Failure(NameMissing)
  {
    if piped.None? && |args| > 1 {
      assert args[1..][1..] == args[2..];
    }
  }

  // ---------------------------------------------------------------------------
  // Properties that cut across the table.
  // ---------------------------------------------------------------------------

  /** A piped line, even an empty one, counts as a name: it blocks both
      argument fallbacks, so an empty piped line can only fail. */
  lemma EmptyPipedLineFails(args: seq<string>)
    ensures Resolve(Some(""), args) ==
      if |args| > 0 && ParseToken(args[0]) == UnknownFlag then Failure(UnknownCommand)
      else Failure(NameMissing)
  {
  }

  /** The name taken from the argument after a flag is used verbatim. */
  lemma FlagNameIsVerbatim()
    ensures Resolve(None, ["-g", " a "]) == Success(Get(" a "))
  {
    var args := ["-g", " a "];
    assert ParseToken(args[0]) == Flag(GetCommand);
    assert args[1..] == [" a "];
    assert Finish(GetCommand, None, [" a "]) == Success(Get(" a "));
  }

  /** A bare command argument used as the name is trimmed. */
  lemma BareNameIsTrimmed()
    ensures Resolve(None, [" a "]) == Success(Get("a"))
  {
    TrimExample();
    BareTokenIsGet(None, [" a "]);
  }

  /** The trim of `" a "`, from the characterisation of trimming. */
  lemma TrimExample()
    ensures Trim(" a ") == "a"
  {
    var s := " a ";
    assert s[..1] == " " && s[1..2] == "a" && s[2..] == " ";
    assert StripsAt(s, "a", 1);
    TrimCharacterised(s, "a", 1);
  }

  /** Once a get has resolved, arguments appended after the ones it used are
      neither consumed nor inspected. */
  lemma GetIgnoresTrailingArguments(piped: Option<string>, args: seq<string>, extra: seq<string>)
    requires |args| > 0
    requires Resolve(piped, args).Success? && Resolve(piped, args).value.Get?
    ensures Resolve(piped, args + extra) == Resolve(piped, args)
  {
    var all := args + extra;
    assert all[0] == args[0];
    if |args| > 1 {
      assert all[1] == args[1];
    }
    if !StartsWithDash(args[0]) {
      BareTokenIsGet(piped, args);
      BareTokenIsGet(piped, all);
    } else {
      GetFlag(piped, args);
      GetFlag(piped, all);
    }
  }

  /** Any arguments appended after a resolved set, blank ones included, join
      its value with a single space before trimming, and the name stays. */
  lemma SetTakesTrailingArguments(piped: Option<string>, args: seq<string>, extra: seq<string>)
    requires Resolve(piped, args).Success? && Resolve(piped, args).value.Set?
    ensures Resolve(piped, args + extra).Success?
    ensures Resolve(piped, args + extra) == Success(Set(Resolve(piped, args).value.name, SetValue((if piped.Some? then args[1..] else args[2..]) + extra)))
  {
    var all := args + extra;
    assert all[0] == args[0];
    SetFlag(piped, args);
    if piped.Some? {
      assert Resolve(piped, args) == SetOutcome(piped.value, args[1..]);
      var k :| 0 <= k < |args[1..]| && !AllWhitespace(args[1..][k]);
      SetOutcomeExtends(piped.value, args[1..], extra, k);
      DropAppend(args, extra, 1);
      SetFlag(piped, all);
    } else {
      assert |args| > 1;
      assert Resolve(piped, args) == SetOutcome(args[1], args[2..]);
      var k :| 0 <= k < |args[2..]| && !AllWhitespace(args[2..][k]);
      SetOutcomeExtends(args[1], args[2..], extra, k);
      assert all[1] == args[1];
      DropAppend(args, extra, 2);
      SetFlag(piped, all);
    }
  }

  /** Dropping a prefix of the first part of a concatenation. */
  lemma DropAppend<T>(a: seq<T>, b: seq<T>, i: nat)
    requires i <= |a|
    ensures (a + b)[i..] == a[i..] + b
  {
  }

  /** A set whose remaining arguments include a non-blank one (at `k`) has a
      value whatever arguments are appended: that argument is still there. */
  lemma SetOutcomeExtends(n: string, rest: seq<string>, extra: seq<string>, k: int)
    requires n != ""
    requires 0 <= k < |rest| && !AllWhitespace(rest[k])
    ensures SetOutcome(n, rest + extra) == Success(Set(n, SetValue(rest + extra)))
  {
    assert (rest + extra)[k] == rest[k];
  }
}
