/** The inbound megolm sessions of src/crypto/OlmDevice.js: which session is kept when one is offered
    again, and the check of message indexes. Olm's sessions are uninterpreted. */
module MegolmModel {
  import opened Common

  type RoomId(==, !new, 0)
  type EventId(==, !new, 0)
  type SessionKey(==, !new, 0)
  type Session(==, !new, 0)
  type Ciphertext(==, !new, 0)
  type Plaintext(==, !new, 0)
  type Json(==, !new, 0)

  /** A session is stored under the sender's key and the session's id. */
  datatype Id = Id(senderKey: string, sessionId: string)

  /** What `Olm.InboundGroupSession.decrypt` returns or throws; older versions do not report an index.
      Decrypting may change the session. */
  datatype OlmResult =
    | Decrypted(plaintext: Plaintext, index: Option<nat>, session: Session)
    | UnknownMessageIndex
    | OtherError

  /** `Olm.InboundGroupSession`. A key may come as it was created, or in export format. */
  datatype Olm = Olm(
    create: (SessionKey, bool) -> Option<Session>,
    sessionId: Session -> string,
    firstKnownIndex: Session -> nat,
    decrypt: (Session, Ciphertext) -> OlmResult)

  /** The one assumption about it: decrypting does not change what a session is. */
  ghost predicate Steady(olm: Olm) {
    forall s, c :: olm.decrypt(s, c).Decrypted? ==>
      var after := olm.decrypt(s, c).session;
      olm.sessionId(after) == olm.sessionId(s) && olm.firstKnownIndex(after) == olm.firstKnownIndex(s)
  }

  datatype SessionData = SessionData(roomId: Option<RoomId>, session: Session, extra: Json)

  /** Why the sender did not share a session. */
  datatype Withheld = Withheld(roomId: RoomId, code: Option<string>, reason: Option<string>)

  const WITHHELD_MESSAGES := map[
    "m.unverified" := "The sender has disabled encrypting to unverified devices.",
    "m.blacklisted" := "The sender has blocked you.",
    "m.unauthorised" := "You are not authorised to read the message.",
    "m.no_olm" := "Unable to establish a secure channel."]

  function WithheldMessage(w: Withheld): string {
    if w.code.Some? && w.code.value in WITHHELD_MESSAGES then WITHHELD_MESSAGES[w.code.value]
    else if w.reason.Some? then w.reason.value
    else "decryption key withheld"
  }

  datatype MsgInfo = MsgInfo(eventId: EventId, timestamp: int)

  /** A successful decryption that reported a message index. */
  datatype Success = Success(id: Id, index: nat, info: MsgInfo)

  datatype State = State(
    sessions: map<Id, SessionData>,
    withheld: map<Id, Withheld>,
    indexes: map<string, MsgInfo>,      // _inboundGroupSessionMessageIndexes
    // history
    offers: map<Id, seq<nat>>,          // the first known index of each accepted offer
    successes: seq<Success>)

  const INITIAL := State(map[], map[], map[], map[], [])

  // ---------- keys of message indexes ----------

  function Digit(d: nat): char
    requires d < 10
  {
    ['0', '1', '2', '3', '4', '5', '6', '7', '8', '9'][d]
  }

  function Decimal(n: nat): string {
    if n < 10 then [Digit(n)] else Decimal(n / 10) + [Digit(n % 10)]
  }

  /** `<senderKey>|<session_id>|<message_index>` */
  function IndexKey(id: Id, index: nat): string {
    id.senderKey + "|" + id.sessionId + "|" + Decimal(index)
  }

  // ---------- operations ----------

  /** `_getInboundGroupSession` throws if a room is given and it is not the one of the session. */
  predicate RoomMatches(s: State, roomId: Option<RoomId>, id: Id) {
    id in s.sessions && roomId.Some? ==> s.sessions[id].roomId == roomId
  }

  /** An offered session that `addInboundGroupSession` accepts. */
  predicate Accepted(olm: Olm, s: State, roomId: Option<RoomId>, id: Id, offered: Option<Session>) {
    RoomMatches(s, roomId, id) && offered.Some? && olm.sessionId(offered.value) == id.sessionId
  }

  /** A session that is stored already is replaced only by one that can decrypt more. */
  predicate Stores(olm: Olm, s: State, id: Id, offered: Session) {
    id !in s.sessions || olm.firstKnownIndex(offered) < olm.firstKnownIndex(s.sessions[id].session)
  }

  function Offers(s: State, id: Id): seq<nat> {
    if id in s.offers then s.offers[id] else []
  }

  /** `addInboundGroupSession` */
  function Add(olm: Olm, s: State, roomId: Option<RoomId>, id: Id, offered: Option<Session>, extra: Json): State {
    if !Accepted(olm, s, roomId, id, offered) then s else
      var t := s.(offers := s.offers[id := Offers(s, id) + [olm.firstKnownIndex(offered.value)]]);
      if Stores(olm, s, id, offered.value)
      then t.(sessions := s.sessions[id := SessionData(roomId, offered.value, extra)]) else t
  }

  /** `NotShared` tells the user why the sender withheld the session. */
  datatype Outcome =
    | Plain(plaintext: Plaintext)
    | UnknownSession
    | NotShared(message: string)
    | WrongRoom
    | Undecryptable
    | Replay

  /** Another event was decrypted under the same message index. */
  predicate IsReplay(s: State, id: Id, index: Option<nat>, info: MsgInfo) {
    index.Some? && IndexKey(id, index.value) in s.indexes && s.indexes[IndexKey(id, index.value)] != info
  }

  /** What `decryptGroupMessage` returns or throws. */
  function DecryptOutcome(olm: Olm, s: State, roomId: Option<RoomId>, id: Id, body: Ciphertext, info: MsgInfo): Outcome {
    if id !in s.sessions then Unavailable(s, id, UnknownSession)
    else if !RoomMatches(s, roomId, id) then WrongRoom
    else
      match olm.decrypt(s.sessions[id].session, body)
      case UnknownMessageIndex => Unavailable(s, id, Undecryptable)
      case OtherError => Undecryptable
      case Decrypted(plaintext, index, _) => if IsReplay(s, id, index, info) then Replay else Plain(plaintext)
  }

  /** What the sender says about a session counts only if the message cannot be decrypted without it. */
  function Unavailable(s: State, id: Id, otherwise: Outcome): Outcome {
    if id in s.withheld then NotShared(WithheldMessage(s.withheld[id])) else otherwise
  }

  /** `decryptGroupMessage`; nothing changes unless it succeeds. */
  function Decrypt(olm: Olm, s: State, roomId: Option<RoomId>, id: Id, body: Ciphertext, info: MsgInfo): State {
    if !DecryptOutcome(olm, s, roomId, id, body, info).Plain? then s else
      var r := olm.decrypt(s.sessions[id].session, body);
      var t := s.(sessions := s.sessions[id := s.sessions[id].(session := r.session)]);
      if r.index.None? then t
      else t.(indexes := s.indexes[IndexKey(id, r.index.value) := info],
              successes := s.successes + [Success(id, r.index.value, info)])
  }

  datatype Action =
    | DoAdd(addRoom: Option<RoomId>, id: Id, key: SessionKey, exportFormat: bool, extra: Json)
    | DoWithhold(id: Id, why: Withheld)
    | DoDecrypt(room: Option<RoomId>, id: Id, body: Ciphertext, info: MsgInfo)

  function Step(olm: Olm, s: State, a: Action): State {
    match a
    case DoAdd(roomId, id, key, exportFormat, extra) => Add(olm, s, roomId, id, olm.create(key, exportFormat), extra)
    case DoWithhold(id, why) => s.(withheld := s.withheld[id := why])
    case DoDecrypt(roomId, id, body, info) => Decrypt(olm, s, roomId, id, body, info)
  }

  function Run(olm: Olm, actions: seq<Action>): State {
    if actions == [] then INITIAL
    else Step(olm, Run(olm, actions[..|actions| - 1]), actions[|actions| - 1])
  }
}
