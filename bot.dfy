/** The per-sender handoff state machine (main.py:48-115, main.py:166-215,
    utils.py:165-234). The persistent store -- one `UserState` row per sender
    (models.py:27-31) and the `Conversation` log (models.py:19-25) -- becomes the
    fields of a `Bot`, together with the ordered log of what the bot did to the
    outside world. */
module Bot {
  import opened Json
  import opened Text
  import opened Effects
  import opened Helpdesk
  import opened Payload

  /** The reply sent when the AI provider fails (main.py:86). */
  const Apology: string := "מצטער, יש בעיה זמנית. נסו שוב מאוחר יותר."

  /** The notice sent when a handed-off ticket is resolved (main.py:201). */
  const ClosingNotice: string := "הפנייה נסגרה, אנחנו זמינים ועומדים לרשותכם"

  /** The AI's handoff phrase ("passing you to an agent") and its longer form
      ("... a human agent"), main.py:110. */
  const Marker: string := "מעביר אותך לנציג"
  const MarkerFull: string := "מעביר אותך לנציג אנושי"

  /** A conversation-log row. Ids are assigned in insertion order, so the row with
      the highest id is the one latest in the sequence. */
  datatype Row = Row(sender: string, message: string, response: string)

  /** The sender key of an inbound message: the text after the last "whatsapp:" in
      `From`, the whole of `From` when it has none, and "" (no sender) for a
      missing `From`. */
  function NormaliseSender(from: string): (n: string)
    ensures !Contains(n, Prefix)
    ensures !Contains(from, Prefix) ==> n == from
    ensures Contains(from, Prefix) ==> exists pre :: from == pre + Prefix + n
  {
    if from == "" then ""
    else
      SplitLastSpec(from, Prefix);
      SplitLast(from, Prefix)
  }

  /** The helpdesk webhook and the message webhook key the same sender: when the
      contact's source id is the gateway address `Prefix + number`, the flag the
      webhook writes is the one the next message from that address reads. */
  lemma WebhookKeysMessageSender(payload: Json, number: string)
    requires number != "" && !Contains(number, Prefix)
    requires Path(payload, ["contact_inbox", "source_id"]) == Ok(JStr(Prefix + number))
    ensures WebhookPhone(payload) == Ok(JStr(NormaliseSender(Prefix + number)))
    ensures Classify(payload).Resolved? || Classify(payload).AgentOpened? || Classify(payload).Other? ||
            Classify(payload).Failed?
    ensures !Classify(payload).Failed? ==> Classify(payload).phone == NormaliseSender(Prefix + number)
  {
    NormalisationsAgree(number);
    assert Truthy(JStr(Prefix + number));
  }

  /** The text sent back on the AI path: the completion, or the apology when the
      provider failed (`None`). */
  function ReplyText(ai: Option<string>): string {
    if ai.Some? then ai.value else Apology
  }

  /** The reply asks for a human agent (main.py:110). */
  predicate RequestsHandoff(reply: string) {
    Contains(reply, Marker) || Contains(reply, MarkerFull)
  }

  /** The second test of main.py:110 is subsumed by the first: the full phrase
      contains the short one. */
  lemma {:induction false} MarkerSubsumes(reply: string)
    ensures RequestsHandoff(reply) <==> Contains(reply, Marker)
  {
    if Contains(reply, MarkerFull) {
      var pre, post := OccurrenceOf(reply, MarkerFull);
      assert MarkerFull == Marker + " אנושי";
      assert reply == pre + Marker + (" אנושי" + post);
      InfixContained(pre, Marker, " אנושי" + post);
    }
  }

  /** The position of the sender's highest-id log row, if any. */
  function LatestRow(rows: seq<Row>, sender: string): (r: Option<nat>)
    ensures r.Some? ==> r.value < |rows| && rows[r.value].sender == sender
    ensures r.Some? ==> forall j :: r.value < j < |rows| ==> rows[j].sender != sender
    ensures r.None? <==> forall j :: 0 <= j < |rows| ==> rows[j].sender != sender
    decreases |rows|
  {
    if rows == [] then None
    else if rows[|rows| - 1].sender == sender then Some(|rows| - 1)
    else LatestRow(rows[..|rows| - 1], sender)
  }

  /** Overwriting the sender's latest row with another of theirs keeps it the
      latest; appending a row makes it the latest. */
  lemma LatestRowAfterWrite(rows: seq<Row>, n: string, row: Row)
    requires row.sender == n
    ensures LatestRow(rows, n).Some? ==>
              LatestRow(rows[LatestRow(rows, n).value := row], n) == LatestRow(rows, n)
    ensures LatestRow(rows + [row], n) == Some(|rows|)
  {
    var latest := LatestRow(rows, n);
    if latest.Some? {
      var i := latest.value;
      var after := rows[i := row];
      assert after[i].sender == n;
    }
  }

  /** `after` is `before` with `row` recorded as its sender's turn: the sender's
      highest-id row overwritten, or a new row appended when they had none. */
  predicate TurnRecorded(before: seq<Row>, after: seq<Row>, row: Row) {
    var latest := LatestRow(before, row.sender);
    if latest.None? then after == before + [row]
    else after == before[latest.value := row]
  }

  /** After a turn is recorded, the sender's latest row is that turn, and every
      row of another sender is where it was. */
  lemma TurnRecordedSpec(before: seq<Row>, after: seq<Row>, row: Row)
    requires TurnRecorded(before, after, row)
    ensures LatestRow(after, row.sender).Some? && after[LatestRow(after, row.sender).value] == row
    ensures |after| == |before| || after == before + [row]
    ensures forall j :: 0 <= j < |before| && before[j].sender != row.sender ==> after[j] == before[j]
  {
    LatestRowAfterWrite(before, row.sender, row);
  }

  /** The stored handoff flag of a sender (utils.py:187); a sender without a row
      is not in handoff. */
  function InHandoff(flags: map<string, bool>, phone: string): (b: bool)
    ensures phone !in flags ==> !b
  {
    phone in flags && flags[phone]
  }

  /** What a classified helpdesk event does to the flag table and which messages
      it sends (main.py:185-209). */
  function ApplyEvent(flags: map<string, bool>, ev: Event): (r: (map<string, bool>, seq<Effect>))
    ensures ev.Resolved? && InHandoff(flags, ev.phone) ==>
              r.0 == flags[ev.phone := false] && r.1 == [Send(ev.phone, ClosingNotice)]
    ensures ev.Resolved? && !InHandoff(flags, ev.phone) ==> r == (flags, [])
    ensures ev.AgentOpened? ==> r.0 == flags[ev.phone := true] && r.1 == []
    ensures !ev.Resolved? && !ev.AgentOpened? ==> r == (flags, [])
  {
    match ev
    case Resolved(p) =>
      if InHandoff(flags, p) then (flags[p := false], [Send(p, ClosingNotice)]) else (flags, [])
    case AgentOpened(p) => (flags[p := true], [])
    case _ => (flags, [])
  }

  /** Only the event's own sender is affected, and the only message a webhook ever
      sends is one closing notice, on a real handed-off-to-AI edge. */
  lemma ApplyEventFrame(flags: map<string, bool>, ev: Event, q: string)
    requires (ev.Resolved? || ev.AgentOpened? || ev.Other?) ==> q != ev.phone
    ensures var r := ApplyEvent(flags, ev);
            && (q in r.0 <==> q in flags)
            && (q in flags ==> r.0[q] == flags[q])
    ensures var r := ApplyEvent(flags, ev);
            r.1 != [] <==>
              ev.Resolved? && InHandoff(flags, ev.phone) && !InHandoff(r.0, ev.phone)
  {
  }

  /** Once handed off, a sender stays handed off through every helpdesk event but a
      resolution of their own conversation. */
  lemma HandoffEndsOnlyByResolution(flags: map<string, bool>, ev: Event, n: string)
    requires InHandoff(flags, n)
    ensures !InHandoff(ApplyEvent(flags, ev).0, n) <==> ev == Resolved(n)
  {
  }

  /** A sender not handed off becomes handed off through a helpdesk event only when
      an agent acts on their open conversation. */
  lemma HandoffStartsOnlyByAgent(flags: map<string, bool>, ev: Event, n: string)
    requires !InHandoff(flags, n)
    ensures InHandoff(ApplyEvent(flags, ev).0, n) <==> ev == AgentOpened(n)
  {
  }

  /** A repeated "resolved" event is a no-op: no second notice, no change. */
  lemma ResolvedIdempotent(flags: map<string, bool>, phone: string)
    ensures var once := ApplyEvent(flags, Resolved(phone));
            ApplyEvent(once.0, Resolved(phone)) == (once.0, [])
  {
  }

  /** Applying an agent-open event twice equals applying it once. */
  lemma AgentOpenedIdempotent(flags: map<string, bool>, phone: string)
    ensures var once := ApplyEvent(flags, AgentOpened(phone));
            ApplyEvent(once.0, AgentOpened(phone)) == once
  {
    var once := ApplyEvent(flags, AgentOpened(phone));
    assert once.0[phone := true] == once.0;
  }

  /** What main.py:110-113 amounts to once the AI's reply has asked for an agent:
      whether the sender is now handed off, the helpdesk requests made, and whether
      the handler got through without an exception. */
  datatype Escalation = Escalation(handedOff: bool, calls: seq<Effect>, completed: bool)

  /** The handoff (with the helpdesk answering `handoffReplies`) and, when it
      succeeded, the relay of the user's message (answered by `relayReplies`). */
  function Escalate(n: string, body: string, handoffReplies: Replies, relayReplies: Replies,
                    inbox: Option<int>): (e: Escalation)
    ensures var handoff := ReachAgent(n, handoffReplies, inbox);
            && (e.handedOff <==> handoff.result == Ok(true))
            && (handoff.result.Raise? ==> !e.completed && e.calls == handoff.calls)
            && (handoff.result == Ok(false) ==> e.completed && e.calls == handoff.calls)
    ensures AllHelpdesk(e.calls)
    ensures e.handedOff ==>
              var relay := SendUserMessageToChatwoot(n, body, relayReplies, inbox);
              && e.calls == ReachAgent(n, handoffReplies, inbox).calls + relay.calls
              && (e.completed <==> !relay.result.Raise?)
  {
    var handoff := ReachAgent(n, handoffReplies, inbox);
    if handoff.result.Raise? then Escalation(false, handoff.calls, false)
    else if !handoff.result.value then Escalation(false, handoff.calls, true)
    else
      var relay := SendUserMessageToChatwoot(n, body, relayReplies, inbox);
      Escalation(true, handoff.calls + relay.calls, !relay.result.Raise?)
  }

  /** Logging two batches of effects one after the other logs their concatenation. */
  lemma AppendAssociates<T>(log: seq<T>, first: seq<T>, second: seq<T>)
    ensures log + first + second == log + (first + second)
  {
  }

  class Bot {
    /** The `user_states` table: sender -> in_handoff. At most one row per sender. */
    var flags: map<string, bool>
    /** The `conversations` table, in id order. */
    var rows: seq<Row>
    /** Everything sent to the AI provider, the messaging gateway and the helpdesk. */
    var effects: seq<Effect>
    /** `CHATWOOT_INBOX_ID` (utils.py:16). */
    const inbox: Option<int>

    constructor (inbox: Option<int>)
      ensures flags == map[] && rows == [] && effects == [] && this.inbox == inbox
    {
      this.inbox := inbox;
      flags := map[];
      rows := [];
      effects := [];
    }

    /** `is_user_in_handoff`. */
    function IsUserInHandoff(phone: string): (b: bool)
      reads this
      ensures b == InHandoff(flags, phone)
      ensures phone !in flags ==> !b
    {
      phone in flags && flags[phone]
    }

    /** `set_handoff_flag`: an upsert of the sender's row. */
    method SetHandoffFlag(phone: string, value: bool)
      modifies this
      ensures flags == old(flags)[phone := value]
      ensures IsUserInHandoff(phone) == value
      ensures forall q :: q != phone ==> (q in flags <==> q in old(flags)) && (q in flags ==> flags[q] == old(flags)[q])
      ensures rows == old(rows) && effects == old(effects)
    {
      flags := flags[phone := value];
    }

    /** `resume_ai_mode`: an upsert of the sender's row to "not in handoff". */
    method ResumeAiMode(phone: string) returns (ok: bool)
      modifies this
      ensures ok
      ensures flags == old(flags)[phone := false] && !IsUserInHandoff(phone)
      ensures rows == old(rows) && effects == old(effects)
    {
      flags := flags[phone := false];
      ok := true;
    }

    /** `handoff_to_agent`: obtain the helpdesk contact and open conversation, ask
        for the conversation to be reopened, then set the flag. When either cannot
        be obtained the flag is left alone and the result is False. */
    method HandoffToAgent(phone: string, rs: Replies) returns (r: Py<bool>)
      modifies this
      ensures var step := ReachAgent(phone, rs, inbox);
              && r == step.result
              && effects == old(effects) + step.calls
      ensures r == Ok(true) ==> flags == old(flags)[phone := true]
      ensures r != Ok(true) ==> flags == old(flags)
      ensures rows == old(rows)
    {
      var step := ReachAgent(phone, rs, inbox);
      effects := effects + step.calls;
      r := step.result;
      if r == Ok(true) {
        SetHandoffFlag(phone, true);
      }
    }

    /** main.py:88-101: overwrite the sender's highest-id log row with the turn,
        or add a row when the sender has none. */
    method RecordTurn(n: string, body: string, reply: string)
      modifies this
      ensures TurnRecorded(old(rows), rows, Row(n, body, reply))
      ensures flags == old(flags) && effects == old(effects)
    {
      var latest := LatestRow(rows, n);
      if latest.None? {
        rows := rows + [Row(n, body, reply)];
      } else {
        rows := rows[latest.value := Row(n, body, reply)];
      }
    }

    /** `send_user_message_to_chatwoot` as the bot performs it: the requests are
        logged and nothing else changes. */
    method RelayMessage(n: string, body: string, rs: Replies) returns (r: Py<bool>)
      modifies this
      ensures var relay := SendUserMessageToChatwoot(n, body, rs, inbox);
              r == relay.result && effects == old(effects) + relay.calls
      ensures flags == old(flags) && rows == old(rows)
    {
      var relay := SendUserMessageToChatwoot(n, body, rs, inbox);
      effects := effects + relay.calls;
      r := relay.result;
    }

    /** main.py:110-113: hand the sender off and, when that succeeded, relay the
        user's message into the helpdesk conversation. */
    method HandoffAndRelay(n: string, body: string, handoffReplies: Replies, relayReplies: Replies)
      returns (completed: bool)
      modifies this
      ensures var e := Escalate(n, body, handoffReplies, relayReplies, inbox);
              && flags == (if e.handedOff then old(flags)[n := true] else old(flags))
              && effects == old(effects) + e.calls
              && completed == e.completed
      ensures rows == old(rows)
    {
      ghost var before := effects;
      var handed := HandoffToAgent(n, handoffReplies);
      completed := handed.Ok?;
      if handed == Ok(true) {
        var sent := RelayMessage(n, body, relayReplies);
        completed := !sent.Raise?;
        AppendAssociates(before, ReachAgent(n, handoffReplies, inbox).calls,
                         SendUserMessageToChatwoot(n, body, relayReplies, inbox).calls);
      }
    }

    /** main.py:66-113, the AI path: one completion request, the log row, the reply
        to the sender, and -- only after that reply, and only when it contains the
        handoff phrase -- the handoff, followed by relaying the user's message when
        the handoff succeeded. */
    method AnswerWithAi(n: string, body: string, reply: string,
                        handoffReplies: Replies, relayReplies: Replies) returns (completed: bool)
      modifies this
      ensures TurnRecorded(old(rows), rows, Row(n, body, reply))
      ensures !RequestsHandoff(reply) ==>
                && flags == old(flags)
                && effects == old(effects) + [Complete(body), Send(n, reply)]
                && completed
      ensures var e := Escalate(n, body, handoffReplies, relayReplies, inbox);
              RequestsHandoff(reply) ==>
                && flags == (if e.handedOff then old(flags)[n := true] else old(flags))
                && effects == old(effects) + [Complete(body), Send(n, reply)] + e.calls
                && completed == e.completed
    {
      ghost var before := effects;
      effects := effects + [Complete(body)];
      RecordTurn(n, body, reply);
      effects := effects + [Send(n, reply)];
      assert effects == before + [Complete(body), Send(n, reply)];
      completed := true;
      if RequestsHandoff(reply) {
        completed := HandoffAndRelay(n, body, handoffReplies, relayReplies);
      }
    }

    /** `twilio_message`: one inbound WhatsApp message. `ai` is the completion
        (None when the provider failed); `handoffReplies` and `relayReplies` are the
        helpdesk's answers during the handoff and during the relay. `completed` is
        False when an exception escaped the handler. */
    method HandleMessage(from: string, body: string, ai: Option<string>,
                         handoffReplies: Replies, relayReplies: Replies) returns (completed: bool)
      modifies this
      // No sender: nothing happens.
      ensures var n := NormaliseSender(from);
              n == "" ==> flags == old(flags) && rows == old(rows) && effects == old(effects) && completed
      // Handed off: relay once, no AI call, no reply, no log row, flag unchanged.
      ensures var n := NormaliseSender(from);
              var relay := SendUserMessageToChatwoot(n, body, relayReplies, inbox);
              n != "" && InHandoff(old(flags), n) ==>
                && flags == old(flags) && rows == old(rows)
                && effects == old(effects) + relay.calls
                && (forall k :: |old(effects)| <= k < |effects| ==> effects[k].IsHelpdesk())
                && completed == !relay.result.Raise?
      // AI active: the completion request and the reply come first, then at most
      // the handoff and relay requests; the flag changes only by a successful handoff.
      ensures var n := NormaliseSender(from);
              var reply := ReplyText(ai);
              n != "" && !InHandoff(old(flags), n) ==>
                && TurnRecorded(old(rows), rows, Row(n, body, reply))
                && |effects| >= |old(effects)| + 2
                && effects[..|old(effects)| + 2] == old(effects) + [Complete(body), Send(n, reply)]
                && (forall k :: |old(effects)| + 2 <= k < |effects| ==> effects[k].IsHelpdesk())
                && (flags == old(flags) || flags == old(flags)[n := true])
                && (!RequestsHandoff(reply) ==>
                      && flags == old(flags)
                      && effects == old(effects) + [Complete(body), Send(n, reply)]
                      && completed)
      // The reply asks for an agent: the flag is set iff the handoff succeeded, and
      // the user's message is relayed only then.
      ensures var n := NormaliseSender(from);
              var reply := ReplyText(ai);
              var e := Escalate(n, body, handoffReplies, relayReplies, inbox);
              n != "" && !InHandoff(old(flags), n) && RequestsHandoff(reply) ==>
                && flags == (if e.handedOff then old(flags)[n := true] else old(flags))
                && effects == old(effects) + [Complete(body), Send(n, reply)] + e.calls
                && completed == e.completed
    {
      var n := NormaliseSender(from);
      if n == "" {
        return true;
      }
      if IsUserInHandoff(n) {
        var sent := RelayMessage(n, body, relayReplies);
        return !sent.Raise?;
      }
      ghost var before := effects;
      ghost var reply := ReplyText(ai);
      completed := AnswerWithAi(n, body, ReplyText(ai), handoffReplies, relayReplies);
      ghost var tail := if RequestsHandoff(reply)
                        then Escalate(n, body, handoffReplies, relayReplies, inbox).calls
                        else [];
      assert AllHelpdesk(tail);
      assert effects == before + [Complete(body), Send(n, reply)] + tail;
      assert effects[..|before| + 2] == before + [Complete(body), Send(n, reply)];
    }

    /** `chatwoot_webhook`: one helpdesk status event. Answers "ignored" when no
        phone number can be read and "ok" otherwise, exceptions included. */
    method HandleWebhook(payload: Json) returns (status: string)
      modifies this
      ensures status == (if Classify(payload).Ignored? then "ignored" else "ok")
      ensures var r := ApplyEvent(old(flags), Classify(payload));
              flags == r.0 && effects == old(effects) + r.1
      ensures rows == old(rows)
    {
      var ev := Classify(payload);
      if ev.Ignored? {
        return "ignored";
      }
      if ev.Resolved? {
        if IsUserInHandoff(ev.phone) {
          flags := flags[ev.phone := false];
          effects := effects + [Send(ev.phone, ClosingNotice)];
        }
      } else if ev.AgentOpened? {
        flags := flags[ev.phone := true];
      }
      status := "ok";
    }
  }
}
