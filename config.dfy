/** `read_config`: the connection settings, read from a YAML file and
    validated field by field. */
module Config {
  import opened Common

  /** The host used when the configuration does not name one. */
  const DefaultHost: string := "https://gitlab.com"

  /** One field of the configuration mapping as YAML gives it. */
  datatype Field = Absent | Text(value: string) | NotText

  /** What is on disk where the configuration file lives. */
  datatype ConfigFile =
    | NoConfigFile
    | UndecodableConfig                                     // bytes the locale's text decoding rejects
    | MalformedConfig                                  // not YAML, empty, or not a mapping with string keys
    | ConfigRecord(token: Field, host: Field, org: Field)

  /** The validated settings. */
  datatype AppConfig = AppConfig(token: string, host: string, org: string)

  /** `read_config`: fails with a ValueError when the file is missing, with a
      UnicodeDecodeError (a ValueError) when the text-mode read cannot decode
      it, with a validation error when `token` or `org` is not a string or
      `host` is present but not a string, and with a non-ValueError when the
      file is not a YAML mapping with string keys (`**` refuses any other key); otherwise gives the fields, `host`
      defaulting to https://gitlab.com. */
  function ReadConfig(file: ConfigFile): (r: Result<AppConfig>)
    ensures file.NoConfigFile? <==> r == Failure(ConfigMissing)
    ensures file.UndecodableConfig? <==> r == Failure(ConfigUndecodable)
    ensures file.MalformedConfig? <==> r == Failure(ConfigMalformed)
    ensures r == Failure(ConfigInvalid)
        <==> file.ConfigRecord? && (!file.token.Text? || !file.org.Text? || file.host.NotText?)
    ensures r.Success? <==> file.ConfigRecord? && file.token.Text? && file.org.Text? && !file.host.NotText?
    ensures r.Success? ==>
              && file.ConfigRecord?
              && r.value.token == file.token.value
              && r.value.org == file.org.value
              && r.value.host == (if file.host.Text? then file.host.value else DefaultHost)
  {
    match file
    case NoConfigFile => Failure(ConfigMissing)
    case UndecodableConfig => Failure(ConfigUndecodable)
    case MalformedConfig => Failure(ConfigMalformed)
    case ConfigRecord(token, host, org) =>
      if token.Text? && org.Text? && !host.NotText? then
        Success(AppConfig(token.value, if host.Text? then host.value else DefaultHost, org.value))
      else
        Failure(ConfigInvalid)
  }

  /** The errors `read_config` raises that `except ValueError` catches are
      exactly those of a missing file, an undecodable file or an invalid
      field: only a file that is not a YAML mapping with string keys escapes. */
  lemma ReadConfigValueErrors(file: ConfigFile)
    requires ReadConfig(file).Failure?
    ensures ReadConfig(file).error.IsConfigValueError() <==> !file.MalformedConfig?
  {
  }
}
