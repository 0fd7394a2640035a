/** The external-tool error family. Every member is an
    `ExternalToolError`: the family is one datatype, and each variant is
    one of its subclasses. A `cause` is an opaque value, kept as given. */
module ExternalToolErrors {
  import opened Wrappers
  import opened Strings

  /** Whatever was passed as `cause`. */
  datatype Cause = Cause(description: string)

  datatype ToolError =
    | ExternalToolError(message: string, cause: Option<Cause>)
    | TimeoutError(command: string, timeoutMs: int, cause: Option<Cause>)
    | ProcessError(command: string, exitCode: Option<int>, stderr: string, cause: Option<Cause>)
    | NotImplementedError(message: string)
  {
    /** The `name` each class assigns. */
    function Name(): string {
      match this
      case ExternalToolError(_, _) => "ExternalToolError"
      case TimeoutError(_, _, _) => "ExternalToolTimeoutError"
      case ProcessError(_, _, _, _) => "ExternalToolProcessError"
      case NotImplementedError(_) => "ExternalToolNotImplementedError"
    }

    /** The message passed to `Error`. */
    function Message(): string {
      match this
      case ExternalToolError(m, _) => m
      case TimeoutError(c, t, _) => CommandPrefix(c) + "timed out after " + IntToString(t) + "ms"
      case ProcessError(c, code, _, _) => CommandPrefix(c) + "failed with exit code " + ExitCodeText(code)
      case NotImplementedError(m) => m
    }

    /** The stored `cause`; the not-implemented error passes none. */
    function CauseOf(): Option<Cause> {
      match this
      case NotImplementedError(_) => None
      case ExternalToolError(_, c) => c
      case TimeoutError(_, _, c) => c
      case ProcessError(_, _, _, c) => c
    }
  }

  function CommandPrefix(command: string): string {
    "External tool \"" + command + "\" "
  }

  /** `${exitCode}` of a `number | null`. */
  function ExitCodeText(code: Option<int>): string {
    match code
    case None => "null"
    case Some(c) => IntToString(c)
  }

  /** The four names are distinct: a name tells the class. */
  lemma NameIdentifiesClass(e: ToolError, f: ToolError)
    ensures e.Name() == f.Name() <==>
      (e.ExternalToolError? && f.ExternalToolError?) || (e.TimeoutError? && f.TimeoutError?) ||
      (e.ProcessError? && f.ProcessError?) || (e.NotImplementedError? && f.NotImplementedError?)
  {
    assert e.Name()[12] == f.Name()[12] ==> e.Name()[12] == f.Name()[12];
    assert "ExternalToolError"[12] == 'E' && "ExternalToolTimeoutError"[12] == 'T';
    assert "ExternalToolProcessError"[12] == 'P' && "ExternalToolNotImplementedError"[12] == 'N';
  }

  /** The cause is stored exactly as given. */
  lemma CauseIsKept(message: string, command: string, timeoutMs: int, exitCode: Option<int>, stderr: string, cause: Option<Cause>)
    ensures ExternalToolError(message, cause).CauseOf() == cause
    ensures TimeoutError(command, timeoutMs, cause).CauseOf() == cause
    ensures ProcessError(command, exitCode, stderr, cause).CauseOf() == cause
    ensures NotImplementedError(message).CauseOf().None?
  {
  }

  lemma FirstCharOfCode(c: int)
    ensures ExitCodeText(Some(c))[0] != 'n'
  {
    SignChar(c);
    if c >= 0 {
      assert IntToString(c)[0] == NatToString(c)[0];
    }
  }

  lemma ExitCodeTextInjective(a: Option<int>, b: Option<int>)
    requires ExitCodeText(a) == ExitCodeText(b)
    ensures a == b
  {
    match (a, b)
    case (Some(x), Some(y)) => IntToStringInjective(x, y);
    case (Some(x), None) => FirstCharOfCode(x);
    case (None, Some(y)) => FirstCharOfCode(y);
    case (None, None) =>
  }

  /** The timeout message names the command and the timeout: the command
      sits after the fixed prefix, and for one command the message tells
      the timeout. */
  lemma TimeoutMessageNamesBoth(command: string, t: int, u: int, cause: Option<Cause>, cause2: Option<Cause>)
    ensures var m := TimeoutError(command, t, cause).Message();
      |m| > 15 + |command| && m[15..15 + |command|] == command
    ensures TimeoutError(command, t, cause).Message() == TimeoutError(command, u, cause2).Message() ==> t == u
  {
    var p := CommandPrefix(command) + "timed out after ";
    var m := TimeoutError(command, t, cause).Message();
    assert m == p + IntToString(t) + "ms";
    assert m[15..15 + |command|] == command;
    if m == TimeoutError(command, u, cause2).Message() {
      var n := TimeoutError(command, u, cause2).Message();
      assert n == p + IntToString(u) + "ms";
      assert |IntToString(t)| == |IntToString(u)|;
      assert IntToString(t) == m[|p|..|m| - 2];
      assert IntToString(u) == n[|p|..|n| - 2];
      IntToStringInjective(t, u);
    }
  }

  /** The process message names the command and the exit code: for one
      command, the message tells the exit code, null included. */
  lemma ProcessMessageNamesExitCode(command: string, a: Option<int>, b: Option<int>, s1: string, s2: string,
                                    cause: Option<Cause>, cause2: Option<Cause>)
    ensures var m := ProcessError(command, a, s1, cause).Message();
      |m| > 15 + |command| && m[15..15 + |command|] == command
    ensures ProcessError(command, a, s1, cause).Message() == ProcessError(command, b, s2, cause2).Message() ==> a == b
  {
    var p := CommandPrefix(command) + "failed with exit code ";
    var m := ProcessError(command, a, s1, cause).Message();
    assert m == p + ExitCodeText(a);
    assert m[15..15 + |command|] == command;
    if m == ProcessError(command, b, s2, cause2).Message() {
      var n := ProcessError(command, b, s2, cause2).Message();
      assert n == p + ExitCodeText(b);
      assert ExitCodeText(a) == m[|p|..];
      assert ExitCodeText(b) == n[|p|..];
      ExitCodeTextInjective(a, b);
    }
  }
}
