/** Reading the helpdesk's loosely shaped webhook payloads (main.py). Two sets of
    readers live side by side in the source: the helpers `_extract_conversation`,
    `_extract_phone_number` and `_is_resolution_event` (main.py:118-163), which no
    code calls, and the inline extraction the webhook handler actually performs
    (main.py:173-209), which `Classify` models. */
module Payload {
  import opened Json
  import opened Text

  // ---------------------------------------------------------------------------
  // The helpers at main.py:118-163 (typed `payload: dict`)

  /** `_extract_conversation`: the nested "conversation" object when there is one,
      else the payload itself. */
  function ExtractConversation(payload: Json): (r: Json)
    requires payload.JObj?
    ensures r.JObj?
    ensures Lookup(payload, "conversation").JObj? ==> r == Lookup(payload, "conversation")
    ensures !Lookup(payload, "conversation").JObj? ==> r == payload
  {
    var c := Lookup(payload, "conversation");
    if c.JObj? then c else payload
  }

  /** main.py:127: the phone number of the conversation's meta sender; a missing
      or falsy meta reads as an empty dict, and a meta or sender that is present but
      not a dict raises. */
  function MetaPhone(conv: Json): Py<Json>
    requires conv.JObj?
  {
    var sender :- GetOr(Or(Lookup(conv, "meta"), EmptyObj), "sender", EmptyObj);
    Get(sender, "phone_number")
  }

  /** The body of the loop at main.py:133-136: stop at a message whose sender has a
      truthy phone number. */
  function MessageProbe(m: Json): Py<Option<Json>> {
    var sender :- Get(m, "sender");
    var phone :- Get(Or(sender, EmptyObj), "phone_number");
    Ok(if Truthy(phone) then Some(phone) else None)
  }

  /** The `contact_inbox.source_id` branch: the text after the last "whatsapp:"
      when the source id is a string containing it, else None. */
  function SourceIdPhone(conv: Json): Py<Json>
    requires conv.JObj?
  {
    var sid :- Get(Or(Lookup(conv, "contact_inbox"), EmptyObj), "source_id");
    if sid.JStr? && Contains(sid.s, Prefix) then Ok(JStr(SplitLast(sid.s, Prefix))) else Ok(JNull)
  }

  /** main.py:131: the messages the loop walks, taken from the conversation, else
      from the top level of the payload, else none. */
  function Messages(payload: Json): Json
    requires payload.JObj?
  {
    var conv := ExtractConversation(payload);
    Or(Lookup(conv, "messages"), Or(Lookup(payload, "messages"), JArr([])))
  }

  /** `_extract_phone_number`: the first truthy of the meta sender's phone, the
      first message sender's phone, and the source-id suffix. */
  function ExtractPhoneNumber(payload: Json): Py<Json>
    requires payload.JObj?
  {
    var conv := ExtractConversation(payload);
    var phone :- MetaPhone(conv);
    if Truthy(phone) then Ok(phone)
    else
      var msgs := Messages(payload);
      var hit :- if msgs.JArr? then FirstMatch(msgs.items, MessageProbe) else Ok(None);
      if hit.Some? then Ok(hit.value) else SourceIdPhone(conv)
  }

  /** The source-id branch yields no "whatsapp:" in its result: it is what follows
      the last occurrence of the prefix in the source id. */
  lemma SourceIdPhoneSpec(conv: Json)
    requires conv.JObj?
    ensures SourceIdPhone(conv).Ok? ==> SourceIdPhone(conv).value == JNull || SourceIdPhone(conv).value.JStr?
    ensures SourceIdPhone(conv).Ok? && SourceIdPhone(conv).value.JStr? ==>
              var sid := Get(Or(Lookup(conv, "contact_inbox"), EmptyObj), "source_id").value;
              var phone := SourceIdPhone(conv).value.s;
              && !Contains(phone, Prefix)
              && sid.JStr? && exists pre :: sid.s == pre + Prefix + phone
  {
    var sid := Get(Or(Lookup(conv, "contact_inbox"), EmptyObj), "source_id");
    if sid.Ok? && sid.value.JStr? {
      SplitLastSpec(sid.value.s, Prefix);
    }
  }

  /** `_extract_phone_number` tries its three sources in order: a truthy meta phone
      wins; otherwise the first message with a truthy phone, provided every message
      before it was well formed; otherwise the source-id branch. */
  lemma {:induction false} ExtractPhoneNumberSpec(payload: Json)
    requires payload.JObj?
    ensures var meta := MetaPhone(ExtractConversation(payload));
            Usable(meta) ==> ExtractPhoneNumber(payload) == meta
    ensures var meta := MetaPhone(ExtractConversation(payload));
            var msgs := Messages(payload);
            meta.Ok? && !Truthy(meta.value) && msgs.JArr? ==>
              forall i :: StopsAt(msgs.items, MessageProbe, i) && MessageProbe(msgs.items[i]).Ok? ==>
                ExtractPhoneNumber(payload) == Ok(MessageProbe(msgs.items[i]).value.value)
    ensures var meta := MetaPhone(ExtractConversation(payload));
            var msgs := Messages(payload);
            meta.Ok? && !Truthy(meta.value) &&
            (msgs.JArr? ==> forall j :: 0 <= j < |msgs.items| ==> MessageProbe(msgs.items[j]) == Ok(None)) ==>
              ExtractPhoneNumber(payload) == SourceIdPhone(ExtractConversation(payload))
  {
    var msgs := Messages(payload);
    if msgs.JArr? {
      FirstMatchSpec(msgs.items, MessageProbe);
    }
  }

  /** A `changed_attributes` entry recording a status change to "resolved". */
  predicate AttrSaysResolved(attr: Json) {
    && attr.JObj?
    && "status" in attr.fields
    && attr.fields["status"].JObj?
    && Lookup(attr.fields["status"], "current_value") == JStr("resolved")
  }

  /** The body of the loop at main.py:153-157: skip entries that are not dicts or
      lack "status"; stop at one whose status moved to "resolved"; raises when the
      status is truthy but not a dict. */
  function ResolvedAttrProbe(attr: Json): (r: Py<Option<Json>>)
    ensures r.Ok? && r.value.Some? <==> AttrSaysResolved(attr)
  {
    if attr.JObj? && "status" in attr.fields then
      var cur :- Get(Or(attr.fields["status"], EmptyObj), "current_value");
      Ok(if cur == JStr("resolved") then Some(cur) else None)
    else Ok(None)
  }

  /** main.py:151: the changed attributes, taken from the top level of the
      payload, else from the conversation, else none. */
  function Changed(payload: Json): Json
    requires payload.JObj?
  {
    var conv := ExtractConversation(payload);
    Or(Lookup(payload, "changed_attributes"), Or(Lookup(conv, "changed_attributes"), JArr([])))
  }

  /** The entries the loop walks: the changed list when it is a list, else none. */
  function ChangedEntries(payload: Json): seq<Json>
    requires payload.JObj?
  {
    var changed := Changed(payload);
    if changed.JArr? then changed.items else []
  }

  /** `_is_resolution_event`. */
  function IsResolutionEvent(payload: Json): Py<bool>
    requires payload.JObj?
  {
    var conv := ExtractConversation(payload);
    if Lookup(conv, "status") == JStr("resolved") then Ok(true)
    else
      var hit :- FirstMatch(ChangedEntries(payload), ResolvedAttrProbe);
      if hit.Some? then Ok(true)
      else Ok(Or(Lookup(payload, "event"), Lookup(conv, "event")) == JStr("conversation_resolved"))
  }

  /** `_is_resolution_event` holds iff the conversation status is "resolved", or a
      changed-attributes entry moved the status to "resolved", or the event (top
      level first, then conversation level) is "conversation_resolved" -- provided no
      changed-attributes entry has a truthy status that is not a dict, the only way
      it can raise. */
  lemma {:induction false} IsResolutionEventSpec(payload: Json)
    requires payload.JObj?
    ensures var conv := ExtractConversation(payload);
            var entries := ChangedEntries(payload);
            (forall j :: 0 <= j < |entries| ==> ResolvedAttrProbe(entries[j]).Ok?) ==>
              IsResolutionEvent(payload) == Ok(
                || Lookup(conv, "status") == JStr("resolved")
                || (exists j :: 0 <= j < |entries| && AttrSaysResolved(entries[j]))
                || Or(Lookup(payload, "event"), Lookup(conv, "event")) == JStr("conversation_resolved"))
    ensures var entries := ChangedEntries(payload);
            IsResolutionEvent(payload).Raise? ==>
              exists j :: 0 <= j < |entries| && ResolvedAttrProbe(entries[j]).Raise?
  {
    var entries := ChangedEntries(payload);
    FirstMatchSpec(entries, ResolvedAttrProbe);
    if FirstMatch(entries, ResolvedAttrProbe) != Ok(None) {
      var i :| StopsAt(entries, ResolvedAttrProbe, i);
      if (forall j :: 0 <= j < |entries| ==> ResolvedAttrProbe(entries[j]).Ok?) {
        assert AttrSaysResolved(entries[i]);
      }
    } else {
      forall j | 0 <= j < |entries| ensures !AttrSaysResolved(entries[j]) {
        assert ResolvedAttrProbe(entries[j]) == Ok(None);
      }
    }
  }

  // ---------------------------------------------------------------------------
  // The webhook's inline extraction, main.py:173-209

  /** main.py:173-179: `contact_inbox.source_id` with every "whatsapp:" removed,
      else `sender.phone_number`, else `conversation.meta.sender.phone_number`;
      None when all three are falsy. `.replace` on a source id that is not a
      string raises. */
  function WebhookPhone(payload: Json): Py<Json> {
    var sid :- Path(payload, ["contact_inbox", "source_id"]);
    if Truthy(sid) then
      if sid.JStr? then Ok(JStr(RemoveAll(sid.s, Prefix))) else Raise
    else
      var direct :- Path(payload, ["sender", "phone_number"]);
      if Truthy(direct) then Ok(direct)
      else
        var nested :- Path(payload, ["conversation", "meta", "sender", "phone_number"]);
        Ok(if Truthy(nested) then nested else JNull)
  }

  /** main.py:192: the status at the top level of the payload when it is truthy,
      else the conversation's status. */
  function WebhookStatus(payload: Json): Py<Json> {
    var top :- Get(payload, "status");
    if Truthy(top) then Ok(top) else Path(payload, ["conversation", "status"])
  }

  /** main.py:204: `sender.type`, else `conversation.meta.assignee.type`. */
  function ActorType(payload: Json): Py<Json> {
    var t :- Path(payload, ["sender", "type"]);
    if Truthy(t) then Ok(t) else Path(payload, ["conversation", "meta", "assignee", "type"])
  }

  /** What a helpdesk webhook delivery asks of the flag store. */
  datatype Event =
    | Ignored                  // no phone number: answered {"status": "ignored"}
    | Failed                   // an exception, caught by the handler: nothing changes
    | Resolved(phone: string)  // status "resolved"
    | AgentOpened(phone: string)  // status "open" with an agent as actor
    | Other(phone: string)     // any other status, or "open" without an agent

  /** The handler's decision for a payload. A truthy phone number that is not a
      string cannot be used as the key of the user-state query, which fails. */
  function Classify(payload: Json): (ev: Event)
    ensures ev.Ignored? <==> WebhookPhone(payload).Ok? && !Truthy(WebhookPhone(payload).value)
    ensures ev.Resolved? || ev.AgentOpened? || ev.Other? ==>
              WebhookPhone(payload) == Ok(JStr(ev.phone)) && ev.phone != ""
    ensures ev.Resolved? <==> ev != Failed && !ev.Ignored? && WebhookStatus(payload) == Ok(JStr("resolved"))
    ensures ev.AgentOpened? <==>
              && ev != Failed && !ev.Ignored?
              && WebhookStatus(payload) == Ok(JStr("open"))
              && ActorType(payload) == Ok(JStr("agent"))
    ensures ev == Failed <==>
              || WebhookPhone(payload).Raise?
              || (&& Usable(WebhookPhone(payload))
                  && (|| !WebhookPhone(payload).value.JStr?
                      || WebhookStatus(payload).Raise?
                      || (WebhookStatus(payload) == Ok(JStr("open")) && ActorType(payload).Raise?)))
  {
    match WebhookPhone(payload)
    case Raise => Failed
    case Ok(phone) =>
      if !Truthy(phone) then Ignored
      else if !phone.JStr? then Failed
      else
        match WebhookStatus(payload)
        case Raise => Failed
        case Ok(status) =>
          if status == JStr("resolved") then Resolved(phone.s)
          else if status == JStr("open") then
            match ActorType(payload)
            case Raise => Failed
            case Ok(actor) => if actor == JStr("agent") then AgentOpened(phone.s) else Other(phone.s)
          else Other(phone.s)
  }

  /** The webhook reads the source id first and stops there even when stripping
      the prefix leaves nothing: a source id of exactly "whatsapp:" makes it ignore
      the event although `sender.phone_number` is set. */
  lemma BareSourceIdIgnored(number: string)
    requires number != ""
    ensures var payload := JObj(map[
              "contact_inbox" := JObj(map["source_id" := JStr(Prefix)]),
              "sender" := JObj(map["phone_number" := JStr(number)])]);
            Classify(payload) == Ignored
  {
    var ci := JObj(map["source_id" := JStr(Prefix)]);
    var payload := JObj(map["contact_inbox" := ci, "sender" := JObj(map["phone_number" := JStr(number)])]);
    assert GetOr(payload, "contact_inbox", EmptyObj) == Ok(ci);
    assert Path(payload, ["contact_inbox", "source_id"]) == Ok(JStr(Prefix));
    assert StartsWith(Prefix, Prefix) && Prefix[|Prefix|..] == [];
    assert RemoveAll(Prefix, Prefix) == [];
  }

  /** A meta sender resolves to its phone number. */
  lemma SenderFromMeta(number: string)
    requires number != ""
    ensures ExtractPhoneNumber(JObj(map["conversation" := JObj(map["meta" :=
              JObj(map["sender" := JObj(map["phone_number" := JStr(number)])])])])) == Ok(JStr(number))
  {
    var sender := JObj(map["phone_number" := JStr(number)]);
    var meta := JObj(map["sender" := sender]);
    var conv := JObj(map["meta" := meta]);
    var a := JObj(map["conversation" := conv]);
    assert Lookup(a, "conversation") == conv;
    assert Lookup(conv, "meta") == meta;
    assert GetOr(meta, "sender", EmptyObj) == Ok(sender);
    assert Get(sender, "phone_number") == Ok(JStr(number));
  }

  /** A payload with only a message sender resolves to that sender's number. */
  lemma SenderFromMessages(number: string)
    requires number != ""
    ensures ExtractPhoneNumber(JObj(map["messages" := JArr([
              JObj(map["sender" := JObj(map["phone_number" := JStr(number)])])])])) == Ok(JStr(number))
  {
    var sender := JObj(map["phone_number" := JStr(number)]);
    var m := JObj(map["sender" := sender]);
    var b := JObj(map["messages" := JArr([m])]);
    assert "conversation" !in b.fields;
    assert ExtractConversation(b) == b;
    assert "meta" !in b.fields;
    assert MetaPhone(b) == Ok(JNull);
    assert Messages(b) == JArr([m]);
    assert MessageProbe(m) == Ok(Some(JStr(number)));
    assert FirstMatch([m], MessageProbe) == Ok(Some(JStr(number)));
  }

  /** A payload with only a prefixed source id resolves to the bare number. */
  lemma SenderFromSourceId(number: string)
    requires !Contains(number, Prefix)
    ensures ExtractPhoneNumber(JObj(map["contact_inbox" :=
              JObj(map["source_id" := JStr(Prefix + number)])])) == Ok(JStr(number))
  {
    var ci := JObj(map["source_id" := JStr(Prefix + number)]);
    var c := JObj(map["contact_inbox" := ci]);
    assert "conversation" !in c.fields && "meta" !in c.fields && "messages" !in c.fields;
    assert ExtractConversation(c) == c;
    assert MetaPhone(c) == Ok(JNull);
    assert Messages(c) == JArr([]);
    NormalisationsAgree(number);
    assert Contains(Prefix + number, Prefix) by {
      assert StartsWith(Prefix + number, Prefix);
    }
    assert Lookup(c, "contact_inbox") == ci;
    assert SourceIdPhone(c) == Ok(JStr(number));
  }

  /** A resolved conversation whose top-level source id carries the prefix is a
      resolution for the bare number. */
  lemma ResolvedExample(number: string)
    requires number != "" && !Contains(number, Prefix)
    ensures Classify(JObj(map[
              "conversation" := JObj(map["status" := JStr("resolved")]),
              "contact_inbox" := JObj(map["source_id" := JStr(Prefix + number)])])) == Resolved(number)
  {
    var conv := JObj(map["status" := JStr("resolved")]);
    var ci := JObj(map["source_id" := JStr(Prefix + number)]);
    var payload := JObj(map["conversation" := conv, "contact_inbox" := ci]);
    NormalisationsAgree(number);
    assert "status" !in payload.fields;
    assert GetOr(payload, "contact_inbox", EmptyObj) == Ok(ci);
    assert WebhookPhone(payload) == Ok(JStr(number));
    assert Get(payload, "status") == Ok(JNull);
    assert GetOr(payload, "conversation", EmptyObj) == Ok(conv);
    assert WebhookStatus(payload) == Ok(JStr("resolved"));
  }
}
