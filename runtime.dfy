/**
 * The untrusted or external steps of the bot, replaced by outcome values:
 * whether a library call raised, and what executing generated code did.
 */
module Runtime {
  import opened Wrappers

  /** A call that may raise: it returns normally, or raises with a message. */
  datatype Step = Ok | Raises(reason: string)

  /** What a name in the globals handed to `exec` is bound to. */
  datatype Binding =
    | AllBuiltins                    // the interpreter's own, unrestricted `__builtins__`
    | Builtins(names: set<string>)   // a builtins dictionary holding exactly these names
    | Module(name: string)           // an imported module, by its qualified name

  /** The globals dictionary passed to `exec`. */
  type Namespace = map<string, Binding>

  /**
   * What running generated code did: the files it created, as names
   * relative to the working directory it was started in, the directory
   * it changed to (if it called `os.chdir`), and the exception it raised
   * (if any).
   */
  datatype ExecOutcome = ExecOutcome(written: set<string>, chdir: Option<string>, raised: Option<string>)

  /**
   * The program handed to `exec`: the text the language model wrote, or the
   * bot's fixed fallback program (whose text is `GraphGenerator.FallbackCode()`).
   */
  datatype Code = Written(text: string) | FallbackProgram

  /** Python's `exec(code, globals)`: its outcome depends on the code and on the names it can see. */
  type Executor = (Code, Namespace) -> ExecOutcome
}
