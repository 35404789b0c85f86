/** Commands of the interactive debugger (src/debugger/command.rs) and the
    parser that reads one from a line of input. */
module DebuggerCommand {

  datatype Command = Breakpoint | Continue | Step | DumpReg | DumpMem

  /** `Result<Command, ()>`: the parser reports no detail on failure. */
  datatype Parsed = Ok(command: Command) | Err

  /** The words the parser accepts for each command. */
  function Aliases(cmd: Command): (words: set<string>)
    ensures words != {}
  {
    match cmd
    case Breakpoint => {"b", "bp", "break", "breakpoint"}
    case Continue => {"c", "continue"}
    case Step => {"s", "step"}
    case DumpReg => {"r", "reg", "registers"}
    case DumpMem => {"m"}
  }

  /** Every word the parser accepts. */
  function AllAliases(): set<string> {
    Aliases(Breakpoint) + Aliases(Continue) + Aliases(Step) + Aliases(DumpReg) + Aliases(DumpMem)
  }

  /** `Command::from_str`: an exact, case-sensitive match on the whole
      string, with no trimming. A word names the command whose aliases
      hold it; any other string is an error. */
  function FromStr(s: string): (r: Parsed)
    ensures r.Ok? <==> s in AllAliases()
    ensures r.Ok? ==> s in Aliases(r.command)
  {
    match s
    case "m" => Ok(DumpMem)
    case "b" | "bp" | "break" | "breakpoint" => Ok(Breakpoint)
    case "c" | "continue" => Ok(Continue)
    case "s" | "step" => Ok(Step)
    case "r" | "reg" | "registers" => Ok(DumpReg)
    case _ => Err
  }

  /** No word is an alias of two commands. */
  lemma AliasesDisjoint(c1: Command, c2: Command)
    requires c1 != c2
    ensures Aliases(c1) * Aliases(c2) == {}
  {
  }

  /** Each alias parses to its own command, so parsing inverts `Aliases`. */
  lemma FromStrAlias(cmd: Command, s: string)
    requires s in Aliases(cmd)
    ensures FromStr(s) == Ok(cmd)
  {
  }

  /** Every command can be typed. */
  lemma EveryCommandTypeable(cmd: Command)
    ensures exists s :: FromStr(s) == Ok(cmd)
  {
    var s :| s in Aliases(cmd);
    FromStrAlias(cmd, s);
  }

  /** The parser accepts exactly twelve words. */
  lemma TwelveWords()
    ensures |AllAliases()| == 12
  {
  }

  /** Matching is exact: changing case or adding surrounding blanks is rejected. */
  lemma ExactMatch()
    ensures FromStr("S") == Err && FromStr("Step") == Err && FromStr("STEP") == Err
    ensures FromStr(" s") == Err && FromStr("s ") == Err && FromStr("step\n") == Err
    ensures FromStr("") == Err
  {
  }
}
