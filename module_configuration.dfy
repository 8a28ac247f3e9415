/**
 * The part of a course node's ModuleConfiguration that the structure node
 * and the learning-path form read and write: a map from configuration keys
 * to values, and the configuration version. ModuleConfiguration.java itself
 * is not part of this model; the lookups below are the typed getters the
 * two controllers call, with a value of another type read as absent.
 */
module ModuleConfig {
  import opened Common

  /** The delivery options of a single-page or structure node; only whether
      the default options were installed is observed here. */
  datatype DeliveryOptions = DefaultWithGlossary | CustomOptions(id: nat)

  /** A configuration value; a date chooser without a date stores None. */
  datatype ConfigValue =
    | Text(text: string)
    | Flag(flag: bool)
    | Number(number: int)
    | Delivery(options: DeliveryOptions)
    | Date(date: Option<int>)

  /** The configuration of one node: its entries and its version. */
  datatype Configuration = Configuration(entries: map<string, ConfigValue>, version: int)

  /** getStringValue(key): the text stored under `key`, or null. */
  function StringValue(entries: map<string, ConfigValue>, key: string): (r: Option<string>)
    ensures r.Some? <==> key in entries && entries[key].Text?
    ensures r.Some? ==> entries[key] == Text(r.value)
  {
    if key in entries && entries[key].Text? then Some(entries[key].text) else None
  }

  /** getStringValue(key, default): the text stored under `key`, or
      `default` when there is none. */
  function StringValueOr(entries: map<string, ConfigValue>, key: string, default: string): (r: string)
    ensures key in entries && entries[key].Text? ==> r == entries[key].text
    ensures !(key in entries && entries[key].Text?) ==> r == default
  {
    match StringValue(entries, key)
    case Some(s) => s
    case None => default
  }

  /** getDateValue(key): the date stored under `key`, or null. */
  function DateValue(entries: map<string, ConfigValue>, key: string): (r: Option<int>)
    ensures key in entries && entries[key].Date? ==> r == entries[key].date
    ensures !(key in entries && entries[key].Date?) ==> r.None?
  {
    if key in entries && entries[key].Date? then entries[key].date else None
  }
}
