/** The entities every component shares: messages, commands and the rules of `Message.Validate`. */
module Domain {

  datatype Option<+T> = None | Some(value: T)

  predicate Distinct<T(==)>(s: seq<T>) {
    forall i, j :: 0 <= i < j < |s| ==> s[i] != s[j]
  }

  datatype Message = Message(
    id: string,
    clientMsgId: string,
    roomId: string,
    senderId: string,
    content: string,
    replyTo: string,  // "" when the message answers nothing
    createdAt: int)

  /** White space in the sense of Unicode's White_Space property, which is what trimming removes. */
  predicate IsSpace(c: char) {
    var n := c as int;
    9 <= n <= 13 || n == 0x20 || n == 0x85 || n == 0xA0 || n == 0x1680 || 0x2000 <= n <= 0x200A
    || n == 0x2028 || n == 0x2029 || n == 0x202F || n == 0x205F || n == 0x3000
  }

  predicate Blank(s: string) {
    forall i :: 0 <= i < |s| ==> IsSpace(s[i])
  }

  /** Length in bytes of the UTF-8 form. */
  function ByteLength(s: string): nat {
    if s == [] then 0 else
      var n := s[0] as int;
      (if n < 0x80 then 1 else if n < 0x800 then 2 else if n < 0x1_0000 then 3 else 4) + ByteLength(s[1..])
  }

  const MAX_CONTENT := 4000

  predicate ValidMessage(m: Message) {
    m.roomId != "" && m.senderId != "" && m.clientMsgId != "" && !Blank(m.content) && ByteLength(m.content) <= MAX_CONTENT
  }

  /** The room has a saved message with this id. */
  predicate HasMessage(saved: seq<Message>, room: string, id: string) {
    exists k :: 0 <= k < |saved| && saved[k].roomId == room && saved[k].id == id
  }

  /** How many rows or entries a query asks for. */
  function LimitOf(limit: int): nat { if limit <= 0 then 100 else limit }

  /** How one call to an outside service ends: it works; it fails and changed nothing; or it fails
      although the change was made (the reply was lost). */
  datatype Fault = Ok | Lost | Unacked

  /** Any outcome, or success when the service is up. */
  method Outcome(up: bool) returns (fault: Fault)
    ensures up ==> fault.Ok?
  {
    fault := Ok;
    if !up {
      fault := *;
    }
  }
}
