/** The long-poll session: a server address, a session key and a cursor `ts`,
    obtained from messages.getLongPollServer; each poll sends them to the
    server, reads its `failed` code, and decodes the new-message records of
    the `updates` list. */
module LongPolling {
  import opened Wire
  import Decimal
  import Vk

  // Message flags: one bit each.
  const UNREAD := 1
  const OUTBOX := 2
  const REPLIED := 4
  const IMPORTANT := 8
  const CHAT := 16
  const FRIENDS := 32
  const SPAM := 64
  const DELETED := 128
  const FIXED := 256
  const MEDIA := 512
  const FLAGS: set<int> := {UNREAD, OUTBOX, REPLIED, IMPORTANT, CHAT, FRIENDS, SPAM, DELETED, FIXED, MEDIA}

  const WORD_MODULUS := 0x1_0000_0000_0000_0000

  /** The 64 bits of a Go int, read as an unsigned number (two's complement). */
  function Word(x: int): nat {
    x % WORD_MODULUS
  }

  /** Bitwise AND of two unsigned numbers. */
  function BitAnd(a: nat, b: nat): nat
    decreases a
  {
    if a == 0 || b == 0 then 0 else 2 * BitAnd(a / 2, b / 2) + (if a % 2 == 1 && b % 2 == 1 then 1 else 0)
  }

  lemma WordParity(x: int)
    ensures Word(x) % 2 == x % 2
  {
    // The modulus is written out as a literal (not WORD_MODULUS): with the named
    // constant this multiplication is not reliably proved on every solver seed.
    var q := x / 0x1_0000_0000_0000_0000;
    assert x == 0x1_0000_0000_0000_0000 * q + Word(x);
    ParityShift(Word(x), 0x8000_0000_0000_0000 * q);
  }

  lemma ParityShift(r: int, k: int)
    ensures (r + 2 * k) % 2 == r % 2
  {
  }

  /** The type code of a new-message record. */
  const NEW_MESSAGE := 4

  /** One incoming message. `subject` is never filled in by the decoder. */
  datatype Message = Message(
    id: int, peerId: int, timestamp: int, flags: int,
    subject: string, text: string, attachments: map<string, JValue>)
  {
    /** The membership test as written: the AND of the two words is compared
        with 1. Every even flag is therefore always reported present, and
        UNREAD is reported exactly when its bit is clear. */
    function HasFlag(flag: int): (r: bool)
      ensures Word(flag) % 2 == 0 ==> r
      ensures flag in FLAGS - {UNREAD} ==> r
      ensures flag == UNREAD ==> (r <==> flags % 2 == 0)
      // the test fails only when both words have bit 0 set
      ensures !r ==> flags % 2 == 1 && Word(flag) % 2 == 1
    {
      WordParity(flags);
      assert BitAnd(Word(flags) / 2, 0) == 0;
      BitAnd(Word(flags), Word(flag)) != 1
    }
  }

  /** What a membership test is meant to say: every bit of `flag` is set in the mask. */
  ghost predicate Carries(m: Message, flag: int) {
    BitAnd(Word(m.flags), Word(flag)) == Word(flag)
  }

  /** For UNREAD the test answers the opposite of the truth, on every mask. */
  lemma UnreadIsInverted(m: Message)
    ensures m.HasFlag(UNREAD) <==> !Carries(m, UNREAD)
  {
  }

  /** A message without any flag is reported to carry every flag. */
  lemma EmptyMaskHasEveryFlag(m: Message, flag: int)
    requires m.flags == 0 && flag in FLAGS
    ensures m.HasFlag(flag) && !Carries(m, flag)
  {
  }

  /** The mask UNREAD|CHAT: the test denies UNREAD, which is set, and affirms
      OUTBOX, which is not. */
  lemma UnreadChatMask(m: Message)
    requires m.flags == UNREAD + CHAT
    ensures Carries(m, UNREAD) && Carries(m, CHAT) && !Carries(m, OUTBOX)
    ensures !m.HasFlag(UNREAD) && m.HasFlag(CHAT) && m.HasFlag(OUTBOX)
  {
    assert BitAnd(8, 0) == 0;
    assert BitAnd(8, 1) == 0;
    assert BitAnd(4, 2) == 0;
    assert BitAnd(2, 1) == 0;
    assert BitAnd(1, 0) == 0;
  }

  // ---- Decoding of update records ----

  /** Positions 1 to 6 of a new-message record have the kinds the decoder asserts. */
  predicate WellTyped(u: seq<JValue>) {
    |u| >= 7 && u[1].JNum? && u[2].JNum? && u[3].JNum? && u[4].JNum? && u[5].JStr? && u[6].JObj?
  }

  predicate IsNewMessageRecord(u: seq<JValue>) {
    |u| > 0 && u[0] == JNum(NEW_MESSAGE)
  }

  /** A record is skipped, decoded, or malformed (which panics). */
  datatype RecordOutcome = Skip | NewMessage(message: Message) | Malformed

  /** The first seven positions of the new-message record a message comes from. */
  function EncodeRecord(m: Message): seq<JValue> {
    [JNum(NEW_MESSAGE), JNum(m.id), JNum(m.flags), JNum(m.peerId), JNum(m.timestamp), JStr(m.text), JObj(m.attachments)]
  }

  function DecodeRecord(u: seq<JValue>): (r: RecordOutcome)
    // the record is malformed when its type code is missing or not a number,
    // or when it is a new-message record with too few positions or a position of the wrong kind
    ensures r.Malformed? <==> |u| == 0 || !u[0].JNum? || (u[0].n == NEW_MESSAGE && !WellTyped(u))
    // a record of any other type is skipped
    ensures r.Skip? <==> |u| > 0 && u[0].JNum? && u[0].n != NEW_MESSAGE
    // a decoded message re-encodes to the record's first seven positions, and has no subject
    ensures r.NewMessage? ==> IsNewMessageRecord(u) && |u| >= 7 && EncodeRecord(r.message) == u[..7]
    ensures r.NewMessage? ==> r.message.subject == ""
  {
    if |u| == 0 || !u[0].JNum? then Malformed
    else if u[0].n != NEW_MESSAGE then Skip
    else if !WellTyped(u) then Malformed
    else NewMessage(Message(u[1].n, u[3].n, u[4].n, u[2].n, "", u[5].s, u[6].fields))
  }

  /** The attachments position must hold an object: the text "{}" there makes a
      new-message record malformed, and so panics the whole poll. */
  lemma AttachmentsMustBeObject(u: seq<JValue>)
    requires IsNewMessageRecord(u) && |u| >= 7 && !u[6].JObj?
    ensures DecodeRecord(u).Malformed?
    ensures DecodeRecord([JNum(4), JNum(555), JNum(0), JNum(777), JNum(1600000000), JStr("hi"), JStr("{}")]).Malformed?
  {
  }

  /** Decoding undoes encoding; positions after the seventh are ignored. */
  lemma RecordRoundTrip(m: Message, rest: seq<JValue>)
    requires m.subject == ""
    ensures DecodeRecord(EncodeRecord(m) + rest) == NewMessage(m)
  {
  }

  /** The messages of a list of records, in order, or None when one of them is malformed. */
  function DecodeAll(us: seq<seq<JValue>>): Option<seq<Message>>
    decreases |us|
  {
    if us == [] then Some([])
    else
      match DecodeAll(us[..|us| - 1])
      case None => None
      case Some(ms) =>
        match DecodeRecord(us[|us| - 1])
        case Malformed => None
        case Skip => Some(ms)
        case NewMessage(m) => Some(ms + [m])
  }

  function Join(x: Option<seq<Message>>, y: Option<seq<Message>>): Option<seq<Message>> {
    if x.Some? && y.Some? then Some(x.value + y.value) else None
  }

  /** Decoding two lists one after the other gives the messages of the first,
      then those of the second. */
  lemma {:induction false} DecodeAllAppend(a: seq<seq<JValue>>, b: seq<seq<JValue>>)
    ensures DecodeAll(a + b) == Join(DecodeAll(a), DecodeAll(b))
    decreases |b|
  {
    if b == [] {
      assert a + b == a;
      if DecodeAll(a).Some? {
        assert DecodeAll(a).value + [] == DecodeAll(a).value;
      }
    } else {
      var init := b[..|b| - 1];
      assert (a + b)[..|a + b| - 1] == a + init;
      assert (a + b)[|a + b| - 1] == b[|b| - 1];
      DecodeAllAppend(a, init);
      if DecodeAll(a).Some? && DecodeAll(init).Some? {
        var x, y := DecodeAll(a).value, DecodeAll(init).value;
        match DecodeRecord(b[|b| - 1])
        case Malformed =>
        case Skip =>
        case NewMessage(m) => assert (x + y) + [m] == x + (y + [m]);
      }
    }
  }

  /** Decoding succeeds exactly when no record is malformed. */
  lemma {:induction false} DecodeAllSucceeds(us: seq<seq<JValue>>)
    ensures DecodeAll(us).Some? <==> forall i :: 0 <= i < |us| ==> !DecodeRecord(us[i]).Malformed?
    decreases |us|
  {
    if us != [] {
      var init := us[..|us| - 1];
      DecodeAllSucceeds(init);
      assert forall i :: 0 <= i < |init| ==> init[i] == us[i];
    }
  }

  /** A record that is skipped changes nothing around it. */
  lemma SkippedRecordChangesNothing(a: seq<seq<JValue>>, u: seq<JValue>, b: seq<seq<JValue>>)
    requires DecodeRecord(u).Skip?
    ensures DecodeAll(a + [u] + b) == DecodeAll(a + b)
  {
    assert [u][..0] == [];
    assert DecodeAll([u]) == Some([]);
    DecodeAllAppend(a + [u], b);
    DecodeAllAppend(a, [u]);
    DecodeAllAppend(a, b);
  }

  /** The new-message records of a list, in their order: the reference for what is delivered. */
  function NewMessageRecords(us: seq<seq<JValue>>): seq<seq<JValue>>
    decreases |us|
  {
    if us == [] then []
    else (if IsNewMessageRecord(us[0]) then [us[0]] else []) + NewMessageRecords(us[1..])
  }

  lemma {:induction false} NewMessageRecordsAppend(a: seq<seq<JValue>>, b: seq<seq<JValue>>)
    ensures NewMessageRecords(a + b) == NewMessageRecords(a) + NewMessageRecords(b)
    decreases |a|
  {
    if a == [] {
      assert a + b == b;
    } else {
      assert (a + b)[0] == a[0];
      assert (a + b)[1..] == a[1..] + b;
      NewMessageRecordsAppend(a[1..], b);
    }
  }

  /** When decoding succeeds, it yields exactly one message per new-message
      record, decoded from that record, in the order of the records. */
  lemma {:induction false} DecodeAllSelectsNewMessages(us: seq<seq<JValue>>)
    requires DecodeAll(us).Some?
    ensures |DecodeAll(us).value| == |NewMessageRecords(us)|
    ensures forall k :: 0 <= k < |NewMessageRecords(us)| ==>
      DecodeRecord(NewMessageRecords(us)[k]) == NewMessage(DecodeAll(us).value[k])
    decreases |us|
  {
    if us != [] {
      var init, u := us[..|us| - 1], us[|us| - 1];
      assert init + [u] == us;
      DecodeAllSelectsNewMessages(init);
      NewMessageRecordsAppend(init, [u]);
      assert [u][1..] == [];
    }
  }

  function EncodeAll(ms: seq<Message>): seq<seq<JValue>> {
    seq(|ms|, i requires 0 <= i < |ms| => EncodeRecord(ms[i]))
  }

  /** A list of records encoded from messages decodes to those messages. */
  lemma {:induction false} DecodeEncodedBatch(ms: seq<Message>)
    requires forall i :: 0 <= i < |ms| ==> ms[i].subject == ""
    ensures DecodeAll(EncodeAll(ms)) == Some(ms)
    decreases |ms|
  {
    if ms != [] {
      var init := ms[..|ms| - 1];
      assert EncodeAll(ms)[..|ms| - 1] == EncodeAll(init);
      DecodeEncodedBatch(init);
      RecordRoundTrip(ms[|ms| - 1], []);
      assert EncodeRecord(ms[|ms| - 1]) + [] == EncodeRecord(ms[|ms| - 1]);
      assert init + [ms[|ms| - 1]] == ms;
    }
  }

  const MALFORMED_RECORD := "malformed update record"

  /** The decoding loop of a poll: the records in order, stopping with a panic
      at the first malformed one. */
  method DecodeUpdates(updates: seq<seq<JValue>>) returns (r: Result<seq<Message>>)
    ensures DecodeAll(updates).Some? ==> r == Ok(DecodeAll(updates).value)
    ensures DecodeAll(updates).None? ==> r == Err(Panic(MALFORMED_RECORD))
  {
    var messages: seq<Message> := [];
    for i := 0 to |updates|
      invariant DecodeAll(updates[..i]) == Some(messages)
    {
      assert updates[..i + 1][..i] == updates[..i];
      match DecodeRecord(updates[i]) {
        case Malformed =>
          assert DecodeAll(updates[..i + 1]) == None;
          DecodeAllAppend(updates[..i + 1], updates[i + 1..]);
          assert updates[..i + 1] + updates[i + 1..] == updates;
          return Err(Panic(MALFORMED_RECORD));
        case Skip =>
        case NewMessage(m) =>
          messages := messages + [m];
      }
    }
    assert updates[..|updates|] == updates;
    r := Ok(messages);
  }

  // ---- The session ----

  /** The session fields of a LongPoll. */
  datatype Session = Session(server: string, key: string, ts: int)

  /** A session after decoding into it, and the decoding error if there was one. */
  datatype Merge = Merge(session: Session, error: Option<Error>)

  const LONG_POLL_TARGET := "LongPoll"

  predicate StringMember(o: map<string, JValue>, k: string) {
    k in o && o[k].JStr?
  }

  predicate NumberMember(o: map<string, JValue>, k: string) {
    k in o && o[k].JNum?
  }

  /** A member that is neither null nor of the kind its field needs. */
  predicate Mistyped(o: map<string, JValue>, k: string, wantsString: bool) {
    k in o && o[k] != JNull && (if wantsString then !o[k].JStr? else !o[k].JNum?)
  }

  /** Decoding a JSON value into the session fields, as encoding/json does it. */
  function Overlay(s: Session, v: JValue): (r: Merge)
    // a member with a value of the right kind overwrites its field; an absent or
    // null member, or one of the wrong kind, leaves the field as it was
    ensures r.session.server == if v.JObj? && StringMember(v.fields, "server") then v.fields["server"].s else s.server
    ensures r.session.key == if v.JObj? && StringMember(v.fields, "key") then v.fields["key"].s else s.key
    ensures r.session.ts == if v.JObj? && NumberMember(v.fields, "ts") then v.fields["ts"].n else s.ts
    // an error is reported when the value is neither an object nor null, or a member has the wrong kind
    ensures r.error.Some? <==>
      !(v.JObj? || v.JNull?) ||
      (v.JObj? && (Mistyped(v.fields, "server", true) || Mistyped(v.fields, "key", true) || Mistyped(v.fields, "ts", false)))
    ensures r.error.Some? ==> r.error.value == UnmarshalType(LONG_POLL_TARGET)
  {
    match v
    case JNull => Merge(s, None)
    case JObj(o) =>
      var server := if StringMember(o, "server") then o["server"].s else s.server;
      var key := if StringMember(o, "key") then o["key"].s else s.key;
      var ts := if NumberMember(o, "ts") then o["ts"].n else s.ts;
      var bad := Mistyped(o, "server", true) || Mistyped(o, "key", true) || Mistyped(o, "ts", false);
      Merge(Session(server, key, ts), if bad then Some(UnmarshalType(LONG_POLL_TARGET)) else None)
    case _ => Merge(s, Some(UnmarshalType(LONG_POLL_TARGET)))
  }

  /** A reply that carries all three members with the right kinds replaces the
      whole session: nothing of the prior session survives. */
  lemma CompleteReplyReplacesSession(s: Session, server: string, key: string, ts: int, v: JValue)
    requires v.JObj? && "server" in v.fields && "key" in v.fields && "ts" in v.fields
    requires v.fields["server"] == JStr(server) && v.fields["key"] == JStr(key) && v.fields["ts"] == JNum(ts)
    ensures Overlay(s, v) == Merge(Session(server, key, ts), None)
  {
  }

  /** Decoding the same value twice has the effect of decoding it once. */
  lemma OverlayIdempotent(s: Session, v: JValue)
    ensures Overlay(Overlay(s, v).session, v) == Overlay(s, v)
  {
  }

  /** The refresh: one call of messages.getLongPollServer, decoded into the session. */
  const GET_LONG_POLL_SERVER := "messages.getLongPollServer"
  const REFRESH_PARAMS := map["need_pts" := "0", "lp_version" := "2"]

  function RefreshCall(client: Vk.Client): Get {
    Get(Vk.METHOD_ADDRESS + GET_LONG_POLL_SERVER, Vk.QueryFor(client.accessToken, REFRESH_PARAMS))
  }

  /** The session after a refresh whose API reply is `reply`, and its error. */
  function Refreshed(s: Session, reply: Reply<JValue>): Merge {
    match Vk.Envelope(reply)
    case Err(e) => Merge(s, Some(e))
    case Ok(v) => Overlay(s, v)
  }

  /** A refresh that fails at the API call reports that call's error and leaves
      the session alone; the poll's own reply never enters a refresh. */
  lemma FailedRefreshKeepsSession(s: Session, reply: Reply<JValue>)
    requires Vk.Envelope(reply).Err?
    ensures Refreshed(s, reply) == Merge(s, Some(Vk.Envelope(reply).error))
  {
  }

  // ---- Polling ----

  /** The decoded body of a poll reply; absent members decode to 0 and the empty list. */
  datatype PollResponse = PollResponse(failed: int, ts: int, updates: seq<seq<JValue>>)

  function PollAddress(server: string): string {
    "https://" + server
  }

  /** The query of a poll: the fixed action, version, wait and mode, the key,
      and the cursor written in decimal. */
  function PollQuery(key: string, ts: int): (q: map<string, string>)
    ensures q.Keys == {"act", "key", "ts", "version", "wait", "mode"}
    ensures q["act"] == "a_check" && q["key"] == key
    ensures q["version"] == "2" && q["wait"] == "25" && q["mode"] == "2"
    ensures Decimal.IsDecimal(q["ts"]) && Decimal.ParseDecimal(q["ts"]) == ts
  {
    map["act" := "a_check", "key" := key, "ts" := Decimal.DecimalString(ts),
        "version" := "2", "wait" := "25", "mode" := "2"]
  }

  class LongPoll {
    const client: Vk.Client
    var Server: string
    var Key: string
    var TS: int

    function State(): Session
      reads this
    {
      Session(Server, Key, TS)
    }

    constructor (client: Vk.Client)
      ensures this.client == client && State() == Session("", "", 0)
    {
      this.client := client;
      Server, Key, TS := "", "", 0;
    }

    /** Refreshes the session; `reply` is what the API answers to the call. */
    method Update(reply: Reply<JValue>) returns (call: Get, err: Option<Error>)
      modifies this
      ensures call == RefreshCall(client)
      ensures Vk.Envelope(reply).Err? ==> err == Some(Vk.Envelope(reply).error) && State() == old(State())
      ensures Vk.Envelope(reply).Ok? ==> Merge(State(), err) == Overlay(old(State()), Vk.Envelope(reply).value)
      ensures Merge(State(), err) == Refreshed(old(State()), reply)
    {
      var response;
      call, response := Vk.Request(client, GET_LONG_POLL_SERVER, REFRESH_PARAMS, reply);
      if response.Err? {
        return call, Some(response.error);
      }
      var merged := Overlay(State(), response.value);
      Server, Key, TS := merged.session.server, merged.session.key, merged.session.ts;
      err := merged.error;
    }

    /** One poll. `reply` is the long-poll server's answer and `refreshReply`
        the API's answer to the refresh, which is made only on codes 2 and 3.
        `calls` lists the requests sent, in order. */
    method Poll(reply: Reply<PollResponse>, refreshReply: Reply<JValue>) returns (calls: seq<Get>, r: Result<seq<Message>>)
      modifies this
      // exactly one poll is sent, built from the session as it was
      ensures |calls| >= 1 && calls[0] == Get(PollAddress(old(Server)), PollQuery(old(Key), old(TS)))
      // a request, read or decoding failure is returned with the session untouched
      ensures reply.Failed? ==> calls == [calls[0]] && r == Err(reply.error) && State() == old(State())
      // code 0: the messages, and the cursor from the reply; a malformed record panics before the cursor moves
      ensures reply.Received? && reply.value.failed == 0 ==>
        calls == [calls[0]] &&
        (DecodeAll(reply.value.updates).Some? ==>
           r == Ok(DecodeAll(reply.value.updates).value) && State() == old(State()).(ts := reply.value.ts)) &&
        (DecodeAll(reply.value.updates).None? ==> r == Err(Panic(MALFORMED_RECORD)) && State() == old(State()))
      // code 1: no messages, the cursor from the reply
      ensures reply.Received? && reply.value.failed == 1 ==>
        calls == [calls[0]] && r == Ok([]) && State() == old(State()).(ts := reply.value.ts)
      // codes 2 and 3: one refresh and no second poll; its error, or no messages
      ensures reply.Received? && reply.value.failed in {2, 3} ==>
        calls == [calls[0], RefreshCall(client)] &&
        State() == Refreshed(old(State()), refreshReply).session &&
        r == (match Refreshed(old(State()), refreshReply).error case Some(e) => Err(e) case None => Ok([]))
      // any other code: no messages, no error, nothing changes
      ensures reply.Received? && reply.value.failed !in {0, 1, 2, 3} ==>
        calls == [calls[0]] && r == Ok([]) && State() == old(State())
    {
      calls := [Get(PollAddress(Server), PollQuery(Key, TS))];
      if reply.Failed? {
        return calls, Err(reply.error);
      }
      var response := reply.value;
      var messages: seq<Message> := [];
      if response.failed == 0 {
        var decoded := DecodeUpdates(response.updates);
        if decoded.Err? {
          return calls, decoded;
        }
        messages := decoded.value;
        TS := response.ts;
      } else if response.failed == 1 {
        TS := response.ts;
      } else if response.failed == 2 || response.failed == 3 {
        var call, err := Update(refreshReply);
        calls := calls + [call];
        if err.Some? {
          return calls, Err(err.value);
        }
      }
      r := Ok(messages);
    }
  }

  /** Creates a session and refreshes it once; no session is handed out when
      that refresh reports an error. */
  method NewLongPoll(client: Vk.Client, reply: Reply<JValue>) returns (longPoll: LongPoll?, call: Get, err: Option<Error>)
    ensures call == RefreshCall(client)
    ensures err == Refreshed(Session("", "", 0), reply).error
    ensures longPoll == null <==> err.Some?
    ensures longPoll != null ==>
      fresh(longPoll) && longPoll.client == client && longPoll.State() == Refreshed(Session("", "", 0), reply).session
  {
    longPoll := new LongPoll(client);
    call, err := longPoll.Update(reply);
    if err.Some? {
      longPoll := null;
    }
  }

  /** A session bootstrapped at cursor 100 that then receives one new message. */
  method ExampleSession(client: Vk.Client) {
    var session := JObj(map["server" := JStr("example.com/poll"), "key" := JStr("K1"), "ts" := JNum(100)]);
    var bootstrap := Received(JObj(map["response" := session]));
    assert Vk.Envelope(bootstrap) == Ok(session);
    assert Refreshed(Session("", "", 0), bootstrap) == Merge(Session("example.com/poll", "K1", 100), None);
    var longPoll, _, err := NewLongPoll(client, bootstrap);
    assert longPoll.State() == Session("example.com/poll", "K1", 100);

    var record := [JNum(4), JNum(555), JNum(0), JNum(777), JNum(1600000000), JStr("hi"), JObj(map[])];
    var message := Message(555, 777, 1600000000, 0, "", "hi", map[]);
    assert EncodeAll([message]) == [record];
    DecodeEncodedBatch([message]);
    var calls, r := longPoll.Poll(Received(PollResponse(0, 101, [record])), Failed(Transport("unused")));
    assert calls == [Get(PollAddress("example.com/poll"), PollQuery("K1", 100))];
    assert r == Ok([message]);
    assert longPoll.State() == Session("example.com/poll", "K1", 101);
  }
}
