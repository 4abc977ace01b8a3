/**
  External programs, seen from the caller: the command it launches and what
  the launch gave back. The programs themselves (`pkexec`, `tee`, `lsmod`,
  `nvidia-smi`) are not modelled; their behaviour is an input.
 */
module Process {

  /** An argument vector and the whole of the text fed to standard input. */
  datatype Command = Command(argv: seq<string>, input: string)

  /**
    The result of running a command: it ran and exited with a code and its
    captured output, the executable was not found (`FileNotFoundError`), or
    launching it raised some other exception.
   */
  datatype ProcessResult =
    | Exited(code: int, stdout: string, stderr: string)
    | NotFound
    | Raised(reason: string)
}
