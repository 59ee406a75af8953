/** The plugin's configuration record and the shape of one entry of its server list. */
module Servers {
  import opened Wrappers

  /** A sub-server shown in the list: `ServerInfo` of the plugin. */
  datatype ServerInfo = ServerInfo(name: string, description: Option<string>, category: string)

  /** An item of `serverList` as configured: a bare name, or a full `ServerInfo` record. */
  datatype Entry = Bare(text: string) | Structured(info: ServerInfo)

  /** The plugin's `Config` (the JSON key of `startDay` is `start_day`). */
  datatype Config = Config(
    serverName: string,
    mainServerName: string,
    serverList: seq<Entry>,
    startDay: Option<string>)

  /** `ServerInfo.from_object`: a bare name becomes an entry with no description and no category. */
  function FromObject(e: Entry): (info: ServerInfo)
    ensures e.Bare? ==> info == ServerInfo(e.text, None, "")
    ensures e.Structured? ==> info == e.info
  {
    match e
    case Bare(s) => ServerInfo(s, None, "")
    case Structured(i) => i
  }

  /** Normalising is idempotent: a normalised entry, offered again, is returned unchanged. */
  lemma FromObjectIdempotent(e: Entry)
    ensures FromObject(Structured(FromObject(e))) == FromObject(e)
  {
  }

  /** The entries of the server list, each normalised, in list order. */
  function Normalise(entries: seq<Entry>): seq<ServerInfo>
  {
    seq(|entries|, i requires 0 <= i < |entries| => FromObject(entries[i]))
  }

  /** The values `Config` takes when the configuration file leaves them out. */
  function DefaultConfig(): Config
  {
    Config("HLCC", "HLCC", [Bare("Main"), Bare("Mirror"), Bare("Creative")], Some("2025-02-01"))
  }
}
