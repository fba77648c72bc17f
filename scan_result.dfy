/** The records a scan hands back to userscripts. */
module ScanResults {
  import opened Wrappers
  import opened DataItems

  /** The data item that matched: its name, and its path when it came from a file. */
  datatype DataItemResult = DataItemResult(name: string, path: Option<Path>)

  /** One match: the engine that matched, and the item it matched. */
  datatype ScanResult = ScanResult(engine: string, item: DataItemResult)
}
