/**
  What the status bar of the main window says, as an abstract kind with the
  data each message interpolates. Texts, colours and layout are presentation.
 */
module StatusBar {

  datatype Status =
    | Ready                           // "Pronto. Monitoramento iniciado."
    | FanControlOn                    // fan control enabled
    | FanControlOff                   // fan control disabled, configure the paths
    | SettingsSaved                   // settings saved, checking the paths
    | Searching                       // looking for control files
    | PathsFound                      // paths found, press save to apply
    | NoModeFile                      // no fan_mode file found
    | NoControlFile                   // no known fan control file found
    | SearchError(reason: string)     // the walk raised
    | InvalidPath                     // write refused: empty or missing path
    | Written(value: string, file: string)  // value written to the named file
    | WriteRejected(diagnostic: string)     // helper exited non-zero, its stripped stderr
    | ToolMissing                     // pkexec or tee not found
    | UnexpectedError(reason: string) // any other exception while writing
}
