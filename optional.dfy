/** The JavaScript `null` / "no value" results of the bot, as an explicit option type. */
module Optional {
  datatype Option<+T> = None | Some(value: T)
}
