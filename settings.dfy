/**
  The settings document (`_load_settings` and `_save_settings`,
  teste.py:68-90): two paths under two fixed keys of a JSON object stored at
  `~/.config/nitrosense_linux_settings.json`. JSON text itself is not
  modelled: the file is seen as already decoded, or as the reason it is not.
 */
module Settings {
  import opened Wrappers

  const ModeKey := "fan_mode_path"
  const SpeedKey := "fan_speed_path"

  /** A decoded JSON document: an object with string members, or any other JSON value. */
  datatype Document = Object(members: map<string, string>) | NonObject

  /**
    The settings file as the loader finds it: absent (`FileNotFoundError`),
    unreadable for another reason (any other exception while reading it, such
    as a permission error or bytes that are not valid text), not valid JSON
    (`JSONDecodeError`), or decoded.
   */
  datatype ConfigFile =
    | Missing
    | Unreadable(reason: string)
    | Undecodable
    | Decoded(doc: Document)

  /** The two paths the application keeps. */
  datatype Paths = Paths(fanModePath: string, fanSpeedPath: string)

  /** `members.get(key, "")`. */
  function Member(members: map<string, string>, key: string): (v: string)
    ensures key in members ==> v == members[key]
    ensures key !in members ==> v == ""
  {
    if key in members then members[key] else ""
  }

  /**
    What loading yields: both paths empty when the file is missing or not
    JSON, the two members (each defaulting to `""`) of an object, and `None`
    when loading raises, which happens for a file that cannot be read for
    another reason and for a JSON value that is not an object.
   */
  function ReadSettings(file: ConfigFile): (r: Option<Paths>)
    ensures file.Missing? || file.Undecodable? ==> r == Some(Paths("", ""))
    ensures r.None? <==> file.Unreadable? || file == Decoded(NonObject)
    ensures file.Decoded? && file.doc.Object? ==>
      r.Some? && r.value.fanModePath == Member(file.doc.members, ModeKey) &&
      r.value.fanSpeedPath == Member(file.doc.members, SpeedKey)
  {
    match file
    case Missing => Some(Paths("", ""))
    case Undecodable => Some(Paths("", ""))
    case Unreadable(_) => None
    case Decoded(NonObject) => None
    case Decoded(Object(members)) => Some(Paths(Member(members, ModeKey), Member(members, SpeedKey)))
  }

  /** The object saving writes: the two paths under their keys, and nothing else. */
  function SettingsDocument(p: Paths): (d: Document)
    ensures d.Object? && d.members.Keys == {ModeKey, SpeedKey}
    ensures d.members[ModeKey] == p.fanModePath && d.members[SpeedKey] == p.fanSpeedPath
  {
    Object(map[ModeKey := p.fanModePath, SpeedKey := p.fanSpeedPath])
  }

  /** Loading what was saved gives back the same two paths. */
  lemma SaveLoadRoundTrip(p: Paths)
    ensures ReadSettings(Decoded(SettingsDocument(p))) == Some(p)
  {
  }

  /** Saving what was loaded from an object keeps its two paths. */
  lemma LoadSaveKeepsPaths(members: map<string, string>)
    ensures ReadSettings(Decoded(Object(members))).Some?
    ensures SettingsDocument(ReadSettings(Decoded(Object(members))).value).members ==
      map[ModeKey := Member(members, ModeKey), SpeedKey := Member(members, SpeedKey)]
  {
  }
}
