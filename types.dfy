/** Plain value types shared by several endpoints. */
module Types {
  import opened Wrappers
  import opened Decimal
  import opened Priorities

  /** How a license assignment names its user: by user key or by e-mail address. */
  datatype UserType = UserKey(key: string) | Email(address: string)

  /** A message as the open client downloads it. */
  datatype Message = Message(
    id: u32, umid: u32, title: Option<string>, message: string, app: string, aid: u32,
    icon: string, date: u32, priority: Priority, sound: Option<string>, url: Option<string>,
    urlTitle: Option<string>, acked: i8, receipt: Option<string>, html: Option<i8>)
}
