/**
  The main window's state and the operations on it (`NitroSenseLinux`,
  teste.py:23-357): the two configured paths, the text of the two path
  entries, whether the fan controls are enabled, the status bar and the
  diagnosis label. Widgets, layout and telemetry are not modelled; the
  filesystem and the helpers are inputs to each operation.
 */
module NitroSense {
  import opened Wrappers
  import opened Process
  import opened StatusBar
  import opened Settings
  import opened Discovery
  import opened SysfsWriter
  import opened Diagnostics

  /** The fan controls are usable exactly when the fan-mode path is set and exists. */
  function FanControlAvailable(p: Paths, pathExists: string -> bool): (enabled: bool)
    ensures enabled <==> p.fanModePath != "" && pathExists(p.fanModePath)
  {
    p.fanModePath != "" && pathExists(p.fanModePath)
  }

  /** The fan-speed path plays no part in enabling the controls, the speed slider included. */
  lemma SpeedPathIgnored(p: Paths, speed: string, pathExists: string -> bool)
    ensures FanControlAvailable(p.(fanSpeedPath := speed), pathExists) == FanControlAvailable(p, pathExists)
  {
  }

  /** The status bar after enabling or disabling the fan controls. */
  function ControlStatus(enabled: bool): (s: Status)
    ensures s == FanControlOn <==> enabled
    ensures s == FanControlOff <==> !enabled
  {
    if enabled then FanControlOn else FanControlOff
  }

  /**
    The status bar after a search: the error when it aborted; otherwise
    "found" when the fan-mode file was found, "no fan_mode file" when only
    the speed file was, and "no known control file" when neither was.
   */
  function DiscoveryStatus(o: Outcome): (s: Status)
    ensures o.Aborted? ==> s == SearchError(o.reason)
    ensures o.Located? ==> (s == PathsFound <==> o.mode != "")
    ensures o.Located? ==> (s == NoModeFile <==> o.mode == "" && o.speed != "")
    ensures o.Located? ==> (s == NoControlFile <==> o.mode == "" && o.speed == "")
  {
    match o
    case Aborted(reason) => SearchError(reason)
    case Located(mode, speed, _) =>
      if mode != "" then PathsFound else if speed != "" then NoModeFile else NoControlFile
  }

  /** A search that reads a whole walk without finding anything ends with "no known control file". */
  lemma NothingFoundStatus(walk: seq<WalkEntry>)
    requires Clean(walk)
    requires forall k :: 0 <= k < |walk| ==> !Offers(walk[k], ModeFile) && !Offers(walk[k], SpeedFile)
    ensures DiscoveryStatus(Discover(walk)) == NoControlFile
  {
    NothingToFind(walk);
  }

  class NitroSenseLinux {
    var fanModePath: string
    var fanSpeedPath: string
    /** The text of the fan-mode path entry on the advanced-settings tab. */
    var modeEntry: string
    /** The text of the fan-speed path entry. */
    var speedEntry: string
    /** The state shared by the "Automático" and "Máximo" buttons and the speed slider. */
    var controlsEnabled: bool
    var status: Status
    var diagnosis: Diagnosis

    function CurrentPaths(): (p: Paths)
      reads this
    {
      Paths(fanModePath, fanSpeedPath)
    }

    /**
      Opening the window (teste.py:29-66): load the settings, show them in the
      entries, then enable or disable the fan controls. A settings file that
      makes loading raise stops the window from opening, so it is excluded.
     */
    constructor (file: ConfigFile, pathExists: string -> bool)
      requires ReadSettings(file).Some?
      ensures CurrentPaths() == ReadSettings(file).value
      ensures modeEntry == fanModePath && speedEntry == fanSpeedPath
      ensures controlsEnabled == FanControlAvailable(CurrentPaths(), pathExists)
      ensures status == ControlStatus(controlsEnabled)
      ensures diagnosis == Pending
    {
      fanModePath, fanSpeedPath := "", "";
      modeEntry, speedEntry := "", "";
      controlsEnabled := true;
      status := Ready;
      diagnosis := Pending;
      new;
      var raised := LoadSettings(file);
      modeEntry, speedEntry := fanModePath, fanSpeedPath;
      UpdateFanControlUiState(pathExists);
    }

    /** `_load_settings` (teste.py:68-77): the paths come from the file, or loading raises and nothing is set. */
    method LoadSettings(file: ConfigFile) returns (raised: bool)
      modifies this`fanModePath, this`fanSpeedPath
      ensures raised <==> ReadSettings(file).None?
      ensures !raised ==> CurrentPaths() == ReadSettings(file).value
      ensures raised ==> CurrentPaths() == old(CurrentPaths())
    {
      match ReadSettings(file)
      case None =>
        raised := true;
      case Some(p) =>
        raised := false;
        fanModePath := p.fanModePath;
        fanSpeedPath := p.fanSpeedPath;
    }

    /** `_update_fan_control_ui_state` (teste.py:95-111): the controls follow the fan-mode path alone. */
    method UpdateFanControlUiState(pathExists: string -> bool)
      modifies this`controlsEnabled, this`status
      ensures controlsEnabled == FanControlAvailable(CurrentPaths(), pathExists)
      ensures status == ControlStatus(controlsEnabled)
    {
      var isPathValid := fanModePath != "" && pathExists(fanModePath);
      controlsEnabled := isPathValid;
      if isPathValid {
        status := FanControlOn;
      } else {
        status := FanControlOff;
      }
    }

    /**
      `_save_settings` (teste.py:79-93): take the paths from the entries,
      write the document holding exactly those two paths, then re-check the
      controls. When the directory or the file cannot be written the source
      raises after the paths were taken, and nothing else changes.
     */
    method SaveSettings(pathExists: string -> bool, writable: bool) returns (written: Option<Document>)
      modifies this`fanModePath, this`fanSpeedPath, this`controlsEnabled, this`status
      ensures CurrentPaths() == Paths(old(modeEntry), old(speedEntry))
      ensures writable ==> written == Some(SettingsDocument(CurrentPaths()))
      ensures writable ==> controlsEnabled == FanControlAvailable(CurrentPaths(), pathExists)
      ensures writable ==> status == ControlStatus(controlsEnabled)
      ensures !writable ==> written.None? && controlsEnabled == old(controlsEnabled) && status == old(status)
    {
      fanModePath := modeEntry;
      fanSpeedPath := speedEntry;
      if !writable {
        return None;
      }
      written := Some(SettingsDocument(CurrentPaths()));
      status := SettingsSaved;
      UpdateFanControlUiState(pathExists);
    }

    /**
      `_auto_find_paths` (teste.py:239-274): search the walk; on an error only
      the status changes; otherwise each entry takes the path found for it
      and keeps its text when none was.
     */
    method AutoFindPaths(walk: seq<WalkEntry>)
      modifies this`modeEntry, this`speedEntry, this`status
      ensures status == DiscoveryStatus(Discover(walk))
      ensures Discover(walk).Aborted? ==> modeEntry == old(modeEntry) && speedEntry == old(speedEntry)
      ensures Discover(walk).Located? ==>
        modeEntry == (if Discover(walk).mode != "" then Discover(walk).mode else old(modeEntry))
      ensures Discover(walk).Located? ==>
        speedEntry == (if Discover(walk).speed != "" then Discover(walk).speed else old(speedEntry))
    {
      status := Searching;
      var outcome := FindControlFiles(walk);
      match outcome
      case Aborted(reason) =>
        status := SearchError(reason);
      case Located(foundMode, foundSpeed, _) =>
        if foundMode != "" {
          modeEntry := foundMode;
          status := PathsFound;
        } else {
          status := NoModeFile;
        }
        if foundSpeed != "" {
          speedEntry := foundSpeed;
        }
        if foundMode == "" && foundSpeed == "" {
          status := NoControlFile;
        }
    }

    /** `_check_kernel_module` (teste.py:225-237): the label shows what `lsmod` says about `acer_wmi`. */
    method CheckKernelModule(lsmod: ProcessResult)
      modifies this`diagnosis
      ensures diagnosis == KernelModuleStatus(lsmod)
    {
      diagnosis := KernelModuleStatus(lsmod);
    }

    /** `_write_to_sysfs` (teste.py:323-357): the status bar shows how the write went. */
    method WriteToSysfs(path: string, value: string, pathExists: string -> bool, run: Command -> ProcessResult)
      returns (launched: Option<Command>)
      modifies this`status
      ensures status == Write(path, value, pathExists, run).status
      ensures launched == Write(path, value, pathExists, run).launched
    {
      var report := Write(path, value, pathExists, run);
      status := report.status;
      launched := report.launched;
    }

    /**
      The "Automático" button (teste.py:165-166) writes "0" to the fan-mode
      file. A disabled button (teste.py:99-103) never runs its command, so a
      press then changes nothing and launches nothing.
     */
    method PressAuto(pathExists: string -> bool, run: Command -> ProcessResult) returns (launched: Option<Command>)
      modifies this`status
      ensures !controlsEnabled ==> launched.None? && status == old(status)
      ensures controlsEnabled ==> status == Write(fanModePath, AutoMode, pathExists, run).status
      ensures controlsEnabled ==> launched == Write(fanModePath, AutoMode, pathExists, run).launched
    {
      if !controlsEnabled {
        return None;
      }
      launched := WriteToSysfs(fanModePath, AutoMode, pathExists, run);
    }

    /** The "Máximo" button (teste.py:169-171) writes "1" to the fan-mode file; disabled, it does nothing. */
    method PressMax(pathExists: string -> bool, run: Command -> ProcessResult) returns (launched: Option<Command>)
      modifies this`status
      ensures !controlsEnabled ==> launched.None? && status == old(status)
      ensures controlsEnabled ==> status == Write(fanModePath, MaxMode, pathExists, run).status
      ensures controlsEnabled ==> launched == Write(fanModePath, MaxMode, pathExists, run).launched
    {
      if !controlsEnabled {
        return None;
      }
      launched := WriteToSysfs(fanModePath, MaxMode, pathExists, run);
    }

    /**
      Moving the slider (teste.py:177-179) writes the position, in decimal, to
      the fan-speed file; a disabled slider (teste.py:104-105) does nothing.
     */
    method MoveSlider(position: int, pathExists: string -> bool, run: Command -> ProcessResult)
      returns (launched: Option<Command>)
      requires 0 <= position <= 255
      modifies this`status
      ensures !controlsEnabled ==> launched.None? && status == old(status)
      ensures controlsEnabled ==> status == Write(fanSpeedPath, SliderValue(position), pathExists, run).status
      ensures controlsEnabled ==> launched == Write(fanSpeedPath, SliderValue(position), pathExists, run).launched
    {
      if !controlsEnabled {
        return None;
      }
      launched := WriteToSysfs(fanSpeedPath, SliderValue(position), pathExists, run);
    }
  }

  /**
    Saving the entries and opening the window again on the saved file shows
    the same two paths, and enables the controls the same way.
   */
  method SaveThenReopen(app: NitroSenseLinux, pathExists: string -> bool) returns (reopened: NitroSenseLinux)
    modifies app
    ensures reopened.CurrentPaths() == Paths(old(app.modeEntry), old(app.speedEntry))
    ensures reopened.controlsEnabled == app.controlsEnabled
  {
    var written := app.SaveSettings(pathExists, true);
    SaveLoadRoundTrip(app.CurrentPaths());
    reopened := new NitroSenseLinux(Decoded(written.value), pathExists);
  }
}
