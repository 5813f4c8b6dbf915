/** One exported chat message and the two readings of its CreateTime: the
    numeric sort key of the first sort attempt, and the parsed time of
    parse_timestamp / get_date_from_timestamp. */
module Transcript {
  import opened Wrappers
  import opened Decimal

  /** The CreateTime field as JSON gives it: missing, a string, a number or null. */
  datatype CreateTime = Absent | Text(text: string) | Number(number: int) | Null

  /** The fields the composer and draw_message read. `typeName` is None when
      the record has no type_name. */
  datatype Message = Message(
    talker: string,
    createTime: CreateTime,
    typeName: Option<string>,
    text: string,
    src: string,
    id: string)

  /** msg.get("type_name", "文本"). */
  function TypeName(m: Message): string {
    if m.typeName.Some? then m.typeName.value else "文本"
  }

  /** Python truthiness of the field's value; a missing field reads as a default
      that is falsy in both places it is read ("" and 0). */
  predicate Truthy(t: CreateTime) {
    match t
    case Text(s) => s != ""
    case Number(n) => n != 0
    case _ => false
  }

  /** A parsed time: its position on the time line (for ordering) and its
      strftime("%Y-%m-%d"). */
  datatype Stamp = Stamp(instant: int, date: string)

  /** The clock: `parse` stands for the int()/fromtimestamp/strptime chain on a
      truthy value (None when no format matches), `epoch` for the position of
      datetime(1970, 1, 1). */
  datatype Clock = Clock(parse: CreateTime -> Option<Stamp>, epoch: int)

  /** parse_timestamp: falsy values are not parsed at all. */
  function ParseTimestamp(clock: Clock, t: CreateTime): (r: Option<Stamp>)
    ensures !Truthy(t) ==> r == None
  {
    if Truthy(t) then clock.parse(t) else None
  }

  /** The date a message is grouped under (the `if timestamp:` guard and
      get_date_from_timestamp), None when it is dropped. */
  function DateOf(clock: Clock, m: Message): Option<string> {
    match ParseTimestamp(clock, m.createTime)
    case Some(st) => Some(st.date)
    case None => None
  }

  /** Key of the first sort attempt: int(v) when v.isdigit() else 0, with a
      missing field read as "". None where the key function raises, because a
      number or null has no isdigit. */
  function PrimaryKey(t: CreateTime): (k: Option<int>)
    ensures k.Some? <==> t.Absent? || t.Text?
    ensures k.Some? ==> k.value >= 0
  {
    match t
    case Absent => Some(0)
    case Text(s) => Some(if IsDigits(s) then DigitsValue(s) else 0)
    case _ => None
  }

  /** Key of the fallback sort: the parsed time, or 1970-01-01 when there is
      none (a missing field reads as 0, which is falsy). */
  function FallbackKey(clock: Clock, t: CreateTime): int {
    match ParseTimestamp(clock, t)
    case Some(st) => st.instant
    case None => clock.epoch
  }
}
