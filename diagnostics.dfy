/**
  The two decisions taken on the output of external tools: whether `lsmod`
  lists the `acer_wmi` module (`_check_kernel_module`, teste.py:225-237) and
  how the `nvidia-smi` line splits into its two fields (`_get_gpu_stats`,
  teste.py:291-308).
 */
module Diagnostics {
  import opened Wrappers
  import opened PyStr
  import opened Process

  const ModuleName := "acer_wmi"
  const FieldSeparator := ", "

  /** The diagnosis label of the advanced-settings tab. */
  datatype Diagnosis =
    | Pending        // before the first check
    | ModuleLoaded   // lsmod lists acer_wmi
    | ModuleMissing  // lsmod ran but does not list it
    | CheckFailed    // lsmod could not be run or exited non-zero

  /** The result of `lsmod`, run with `check=True`: any non-zero exit is an error. */
  function KernelModuleStatus(lsmod: ProcessResult): (d: Diagnosis)
    ensures d == ModuleLoaded <==> lsmod.Exited? && lsmod.code == 0 && Contains(lsmod.stdout, ModuleName)
    ensures d == ModuleMissing <==> lsmod.Exited? && lsmod.code == 0 && !Contains(lsmod.stdout, ModuleName)
    ensures d == CheckFailed <==> !(lsmod.Exited? && lsmod.code == 0)
  {
    if lsmod.Exited? && lsmod.code == 0 then
      if Contains(lsmod.stdout, ModuleName) then ModuleLoaded else ModuleMissing
    else CheckFailed
  }

  /**
    The GPU readings: the two text fields of the query's line (temperature,
    then utilization), "N/A" when the tool fails, "Erro" when its line does
    not have exactly two fields or launching it raised something else.
   */
  datatype GpuReading =
    | GpuFields(temperature: string, utilization: string)
    | GpuUnavailable
    | GpuError

  /** `result.strip().split(', ')` unpacked into two names, or `None` where the unpacking raises. */
  function GpuLine(output: string): (r: Option<(string, string)>)
    ensures r.Some? ==>
      Strip(output) == r.value.0 + FieldSeparator + r.value.1 &&
      !Contains(r.value.0, FieldSeparator) && !Contains(r.value.1, FieldSeparator)
    ensures r.None? <==> |Split(Strip(output), FieldSeparator)| != 2
  {
    var parts := Split(Strip(output), FieldSeparator);
    if |parts| == 2 then
      assert parts[1..] == [parts[1]];
      Some((parts[0], parts[1]))
    else None
  }

  /**
    The reading for one run of the shell command `nvidia-smi
    --query-gpu=temperature.gpu,utilization.gpu --format=csv,noheader,nounits`: the shell's non-zero exit (which covers a
    missing `nvidia-smi`) or a missing shell gives "N/A"; any other exception
    gives "Erro".
   */
  function GpuStats(query: ProcessResult): (r: GpuReading)
    ensures r == GpuUnavailable <==> (query.Exited? && query.code != 0) || query.NotFound?
    ensures r.GpuFields? <==> query.Exited? && query.code == 0 && GpuLine(query.stdout).Some?
    ensures r.GpuFields? ==> GpuLine(query.stdout) == Some((r.temperature, r.utilization))
  {
    match query
    case Exited(code, stdout, _) =>
      if code != 0 then GpuUnavailable
      else (match GpuLine(stdout) case Some((t, u)) => GpuFields(t, u) case None => GpuError)
    case NotFound => GpuUnavailable
    case Raised(_) => GpuError
  }

  /**
    A line made of two separator-free fields, trimmed, joined by ", " and
    followed by whitespace (the tool's newline) splits back into those two fields.
   */
  lemma {:induction false} GpuLineOfTwoFields(t: string, u: string, tail: string)
    requires t != [] && u != [] && !IsSpace(t[0]) && !IsSpace(u[|u| - 1])
    requires !Contains(t, FieldSeparator) && !Contains(u, FieldSeparator)
    requires AllSpace(tail)
    ensures GpuLine(t + FieldSeparator + u + tail) == Some((t, u))
  {
    var line := t + FieldSeparator + u;
    assert line + tail == t + FieldSeparator + u + tail;
    assert line[0] == t[0] && line[|line| - 1] == u[|u| - 1];
    StripTrailingSpace(line, tail);
    FirstSeparatorAfter(t, u);
    SplitAtFirst(line, FieldSeparator, |t|);
    assert line[..|t|] == t;
    assert line[|t| + |FieldSeparator|..] == u;
    SplitWithoutSeparator(u, FieldSeparator);
  }

  /** In `t + ", " + u` the first separator is the one after `t`, when `t` holds none. */
  lemma FirstSeparatorAfter(t: string, u: string)
    requires t != [] && !Contains(t, FieldSeparator)
    ensures IndexOf(t + FieldSeparator + u, FieldSeparator) == Some(|t|)
  {
    var line := t + FieldSeparator + u;
    ContainsCorrect(t, FieldSeparator);
    IndexOfCorrect(line, FieldSeparator);
    assert OccursAt(line, FieldSeparator, |t|) by {
      assert line[|t|..|t| + 2] == FieldSeparator;
    }
    forall k: nat | k < |t|
      ensures !OccursAt(line, FieldSeparator, k)
    {
      if k + 2 <= |t| {
        assert line[k..k + 2] == t[k..k + 2];
        assert !OccursAt(t, FieldSeparator, k);
      } else {
        assert line[k + 1] == ',';
      }
    }
  }

  /** A field of decimal digits cannot contain the separator. */
  lemma DigitsHoldNoSeparator(s: string)
    requires AllDigits(s)
    ensures !Contains(s, FieldSeparator)
  {
    ContainsCorrect(s, FieldSeparator);
    forall k: nat
      ensures !OccursAt(s, FieldSeparator, k)
    {
      if k + 2 <= |s| {
        assert s[k..k + 2][0] == s[k];
      }
    }
  }

  /**
    The query's output as the tool prints it, two whole numbers such as
    "45, 67" and a newline, gives those two numbers as temperature and
    utilization.
   */
  lemma GpuStatsOfNumbers(t: string, u: string, stderr: string)
    requires t != [] && u != [] && AllDigits(t) && AllDigits(u)
    ensures GpuStats(Exited(0, t + FieldSeparator + u + "\n", stderr)) == GpuFields(t, u)
  {
    DigitsHoldNoSeparator(t);
    DigitsHoldNoSeparator(u);
    GpuLineOfTwoFields(t, u, "\n");
  }
}
