/** The parts of the outside world the installer's view-model observes.
    The filesystem, the drives, the registry and the helper processes are not
    modelled as such: each question the installer asks of them is answered by a
    value of one of the datatypes below, passed in by the caller. */
module Env {

  /** System.Windows.Visibility, restricted to the two values the installer uses. */
  datatype Visibility = Visible | Collapsed

  /** A thrown .NET exception: its runtime type name and its Message. */
  datatype Exception = Exception(typeName: string, message: string) {

    /** Exception.ToString(): the type name, then ": " and the message when there
        is one. The stack trace that .NET appends is not modelled. */
    function Describe(): string {
      if message == "" then typeName else typeName + ": " + message
    }
  }

  /** The result of one call into the outside world: it returns, or it throws. */
  datatype Outcome = Pass | Fail(error: Exception)

  datatype Option<+T> = None | Some(value: T)

  /** DriveInfo.TotalFreeSpace: a byte count, or the exception reading it raised. */
  datatype FreeSpace = Bytes(n: nat) | Unreadable(error: Exception)

  /** One entry of DriveInfo.GetDrives(). */
  datatype Drive = Drive(name: string, isReady: bool, freeSpace: FreeSpace)

  /** Upper-case ASCII letters mapped to lower case, everything else unchanged. */
  function LowerChar(c: char): char {
    if 'A' <= c <= 'Z' then (c as int + 32) as char else c
  }

  /** String.ToLower() on the ASCII range. */
  function Lower(s: string): string {
    seq(|s|, i requires 0 <= i < |s| => LowerChar(s[i]))
  }
}
