/**
  The privileged write (`_write_to_sysfs`, teste.py:323-357) and the values
  the fan controls write (teste.py:165-179). Whether a path exists and what
  the launched helper does are inputs: `pathExists` stands for `os.path.exists`
  and `run` for launching a command and waiting for it.
 */
module SysfsWriter {
  import opened Wrappers
  import opened PyStr
  import opened PosixPath
  import opened Process
  import opened StatusBar

  /** The value the "Automático" button writes to the fan-mode file. */
  const AutoMode := "0"
  /** The value the "Máximo" button writes to the fan-mode file. */
  const MaxMode := "1"

  /** The value the custom-speed slider, which ranges over 0..255, writes to the fan-speed file. */
  function SliderValue(position: int): (r: string)
    requires 0 <= position <= 255
    ensures 1 <= |r| <= 3 && AllDigits(r)
    ensures r[0] == '0' ==> r == "0"
    ensures ParseDecimal(r) == position
  {
    DecimalWidth(position);
    DecimalRoundTrip(position);
    Decimal(position)
  }

  /** The command the writer launches: `pkexec tee <path>`, the value being all of its input. */
  function TeeCommand(path: string, value: string): (c: Command)
    ensures |c.argv| == 3 && c.argv[0] == "pkexec" && c.argv[1] == "tee" && c.argv[2] == path
    ensures c.input == value
  {
    Command(["pkexec", "tee", path], value)
  }

  /** What one write attempt did: the status it leaves and the command it launched, if any. */
  datatype WriteReport = WriteReport(status: Status, launched: Option<Command>)

  /** The status a finished write attempt reports, from what the helper gave back. */
  function WriteStatus(result: ProcessResult, path: string, value: string): (s: Status)
    ensures s.Written? <==> result.Exited? && result.code == 0
    ensures s.Written? ==> s.value == value && s.file == Basename(path)
    ensures s.WriteRejected? <==> result.Exited? && result.code != 0
    ensures s.WriteRejected? ==> s.diagnostic == Strip(result.stderr)
    ensures s == ToolMissing <==> result.NotFound?
    ensures s.UnexpectedError? <==> result.Raised?
    ensures s.UnexpectedError? ==> s.reason == result.reason
  {
    match result
    case Exited(code, _, stderr) =>
      if code == 0 then Written(value, Basename(path)) else WriteRejected(Strip(stderr))
    case NotFound => ToolMissing
    case Raised(reason) => UnexpectedError(reason)
  }

  /**
    One write of `value` to `path`: refused before anything is launched when
    the path is empty or does not exist; otherwise exactly the `pkexec tee`
    command is launched and its result decides the status.
   */
  function Write(path: string, value: string, pathExists: string -> bool, run: Command -> ProcessResult): (r: WriteReport)
    ensures r.launched.None? <==> path == "" || !pathExists(path)
    ensures r.launched.None? ==> r.status == InvalidPath
    ensures r.launched.Some? ==>
      r.launched.value == TeeCommand(path, value) &&
      r.status == WriteStatus(run(TeeCommand(path, value)), path, value)
  {
    if path == "" || !pathExists(path) then WriteReport(InvalidPath, None)
    else
      var command := TeeCommand(path, value);
      WriteReport(WriteStatus(run(command), path, value), Some(command))
  }

  /** A diagnostic shown after a rejected write never starts or ends with whitespace. */
  lemma RejectionIsStripped(path: string, value: string, pathExists: string -> bool, run: Command -> ProcessResult)
    requires Write(path, value, pathExists, run).status.WriteRejected?
    ensures var d := Write(path, value, pathExists, run).status.diagnostic;
      d == [] || (!IsSpace(d[0]) && !IsSpace(d[|d| - 1]))
  {
  }

  /**
    Writing to a discovered control file that the helper accepts reports the
    bare file name, since the path was built by joining it onto a directory.
   */
  lemma WriteToJoinedPathNamesFile(dir: string, name: string, value: string,
                                   pathExists: string -> bool, run: Command -> ProcessResult)
    requires name != [] && '/' !in name
    requires pathExists(Join(dir, name))
    requires run(TeeCommand(Join(dir, name), value)).Exited? && run(TeeCommand(Join(dir, name), value)).code == 0
    ensures Write(Join(dir, name), value, pathExists, run).status == Written(value, name)
  {
    BasenameOfJoin(dir, name);
  }

  /** A helper that exits 1 with "Not authorized" on a line of its own is reported with that text. */
  lemma NotAuthorizedReported(path: string, value: string, pathExists: string -> bool, run: Command -> ProcessResult)
    requires path != "" && pathExists(path)
    requires run(TeeCommand(path, value)) == Exited(1, "", "Not authorized\n")
    ensures Write(path, value, pathExists, run).status == WriteRejected("Not authorized")
  {
    StripTrailingSpace("Not authorized", "\n");
    assert "Not authorized" + "\n" == "Not authorized\n";
  }
}
