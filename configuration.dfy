/** The persisted configuration record and the defaults its fields carry. */
module Configuration {

  datatype Config = Config(ip: string, port: int, maxMemMb: int, nogui: bool, jarName: string)

  /** The record's field defaults. */
  function DefaultConfig(): Config {
    Config("localhost", 25565, 2048, true, "server.jar")
  }
}
