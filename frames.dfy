/**
 * The Socket.IO text framing both raw-WebSocket clients read: a frame that starts with
 * "42" carries a JSON array `[event, payload]`; every other frame (handshake "0{...}",
 * namespace ack "40", ping "2", pong "3") is ignored by the message handlers.
 */
module Frames {
  import opened Wrappers
  import opened Json

  /** What a handler sees of one incoming frame. */
  datatype Frame =
    | NotEvent                            // does not start with "42": returned from at once
    | Malformed                           // json.loads, data[0] or len(data) raised
    | Event(name: Json, payload: Json)    // data[0] and (data[1] if len(data) > 1 else None)

  predicate IsEventFrame(message: string)
  {
    |message| >= 2 && message[..2] == "42"
  }

  /**
   * `data[0]` and `data[1] if len(data) > 1 else None` of the decoded body. A list and a
   * string can be indexed by 0; a dict cannot (its keys are strings), nor can a scalar.
   */
  function Envelope(data: Json): (r: Option<(Json, Json)>)
    ensures data.JArr? ==> (r.Some? <==> data.items != [])
    ensures (data.JNull? || data.JBool? || data.JNum? || data.JObj?) ==> r.None?
  {
    match data
    case JArr(items) =>
      if items == [] then None
      else Some((items[0], if |items| > 1 then items[1] else JNull))
    case JStr(s) =>
      if s == [] then None
      else Some((JStr([s[0]]), if |s| > 1 then JStr([s[1]]) else JNull))
    case _ => None
  }

  /** Decode one frame; `loads` stands for `json.loads` (None when it raises). */
  function DecodeFrame(message: string, loads: string -> Option<Json>): (f: Frame)
    ensures f.NotEvent? <==> !IsEventFrame(message)
    ensures f.Event? ==> loads(message[2..]).Some?
  {
    if !IsEventFrame(message) then NotEvent
    else
      match loads(message[2..])
      case None => Malformed
      case Some(data) =>
        match Envelope(data)
        case None => Malformed
        case Some(p) => Event(p.0, p.1)
  }

  /** An event frame whose body decodes to a list: its head is the event, its second item (or null) the payload. */
  lemma DecodeEventArray(message: string, loads: string -> Option<Json>, items: seq<Json>)
    requires IsEventFrame(message) && loads(message[2..]) == Some(JArr(items))
    ensures items == [] ==> DecodeFrame(message, loads) == Malformed
    ensures items != [] ==> DecodeFrame(message, loads) == Event(items[0], if |items| > 1 then items[1] else JNull)
    ensures |items| == 1 ==> DecodeFrame(message, loads).payload == JNull
  {
  }

  /** A string event name of more than one character never comes out of a frame whose body is not a list. */
  lemma NamedEventsComeFromArrays(message: string, loads: string -> Option<Json>, name: string)
    requires |name| > 1
    requires DecodeFrame(message, loads).Event? && DecodeFrame(message, loads).name == JStr(name)
    ensures loads(message[2..]).value.JArr?
  {
  }
}
