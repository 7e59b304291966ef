/** The helpdesk (Chatwoot) client of utils.py:36-214. Every remote call is an
    oracle: its reply is a parameter, and each operation returns, next to its
    Python result, the list of requests it sent in order. The operations change no
    local state, so they are functions; the flag write of `handoff_to_agent` is in
    the Bot module. */
module Helpdesk {
  import opened Json
  import opened Effects

  /** A Python result together with the helpdesk requests made to obtain it. */
  datatype Step<+T> = Step(result: Py<T>, calls: seq<Effect>)

  /** The replies the helpdesk gives, within one operation, to each kind of request. */
  datatype Replies = Replies(
    search: HttpReply,
    createContact: HttpReply,
    conversations: HttpReply,
    createConversation: HttpReply,
    post: HttpReply)

  /** What the find-or-create helpers hand back: an exception, None, or a usable id. */
  predicate NoneOrUsable(r: Py<Json>) {
    r.Ok? ==> r.value == JNull || Truthy(r.value)
  }

  predicate AllHelpdesk(calls: seq<Effect>) {
    forall k :: 0 <= k < |calls| ==> calls[k].IsHelpdesk()
  }

  /** No message was posted and no conversation patched. */
  predicate NoPostOrPatch(calls: seq<Effect>) {
    forall k :: 0 <= k < |calls| ==> !calls[k].PostMessage? && !calls[k].PatchOpen?
  }

  // ---------------------------------------------------------------------------
  // Parsing ids out of create responses

  /** `_extract_contact_id`: None for a non-dict; otherwise the first truthy of the
      nested contact's id, the payload's id and the top-level id. */
  function ExtractContactId(resp: Json): (r: Py<Json>)
    ensures !resp.JObj? ==> r == Ok(JNull)
    ensures resp.JObj? && Path(resp, ["payload", "contact", "id"]).Ok? ==>
              r == Ok(FirstTruthy([Path(resp, ["payload", "contact", "id"]).value,
                                   Path(resp, ["payload", "id"]).value,
                                   Path(resp, ["id"]).value]))
    ensures r.Raise? <==> resp.JObj? && Path(resp, ["payload", "contact", "id"]).Raise?
  {
    if !resp.JObj? then Ok(JNull)
    else
      var a :- Path(resp, ["payload", "contact", "id"]);
      if Truthy(a) then Ok(a)
      else
        var b :- Path(resp, ["payload", "id"]);
        if Truthy(b) then Ok(b) else Path(resp, ["id"])
  }

  /** `_extract_conversation_id`: None for a non-dict; otherwise the first truthy of
      the top-level id, the payload's id and the nested conversation's id -- the
      top-level id first, the opposite priority of `ExtractContactId`. */
  function ExtractConversationId(resp: Json): (r: Py<Json>)
    ensures !resp.JObj? ==> r == Ok(JNull)
    ensures resp.JObj? && Path(resp, ["payload", "conversation", "id"]).Ok? ==>
              r == Ok(FirstTruthy([Path(resp, ["id"]).value,
                                   Path(resp, ["payload", "id"]).value,
                                   Path(resp, ["payload", "conversation", "id"]).value]))
    ensures resp.JObj? && Truthy(Lookup(resp, "id")) ==> r == Ok(Lookup(resp, "id"))
    ensures resp.JObj? && !Truthy(Lookup(resp, "id")) && Usable(Path(resp, ["payload", "id"])) ==>
              r == Path(resp, ["payload", "id"])
    ensures resp.JObj? && !Truthy(Lookup(resp, "id")) && Path(resp, ["payload", "id"]).Ok? &&
            !Truthy(Path(resp, ["payload", "id"]).value) ==>
              r == Path(resp, ["payload", "conversation", "id"])
    ensures r.Raise? <==>
              && resp.JObj? && !Truthy(Lookup(resp, "id"))
              && (|| Path(resp, ["payload", "id"]).Raise?
                  || (&& Path(resp, ["payload", "id"]).Ok?
                      && !Truthy(Path(resp, ["payload", "id"]).value)
                      && Path(resp, ["payload", "conversation", "id"]).Raise?))
  {
    if !resp.JObj? then Ok(JNull)
    else
      var a := Lookup(resp, "id");
      if Truthy(a) then Ok(a)
      else
        var b :- Path(resp, ["payload", "id"]);
        if Truthy(b) then Ok(b) else Path(resp, ["payload", "conversation", "id"])
  }

  /** On a body carrying both a top-level id and a `payload.id`, the two extractors
      pick different ids. */
  lemma ExtractorsDisagree()
    ensures var body := JObj(map["id" := JInt(1), "payload" := JObj(map["id" := JInt(2)])]);
            ExtractContactId(body) == Ok(JInt(2)) && ExtractConversationId(body) == Ok(JInt(1))
  {
    var inner := JObj(map["id" := JInt(2)]);
    var body := JObj(map["id" := JInt(1), "payload" := inner]);
    assert Lookup(body, "id") == JInt(1);
    assert Path(body, ["payload", "contact", "id"]) == Ok(JNull) by {
      assert GetOr(body, "payload", EmptyObj) == Ok(inner);
      assert GetOr(inner, "contact", EmptyObj) == Ok(EmptyObj);
    }
    assert Path(body, ["payload", "id"]) == Ok(JInt(2)) by {
      assert GetOr(body, "payload", EmptyObj) == Ok(inner);
    }
  }

  // ---------------------------------------------------------------------------
  // Contacts

  /** `find_contact_id`: the id of the first search hit; None on a non-200 status
      or no hit. */
  function FindContactId(search: HttpReply): Py<Json> {
    match search
    case NoResponse => Raise
    case Reply(status, data) =>
      if status != 200 then Ok(JNull)
      else
        var payload :- Get(data, "payload");
        if payload.JArr? && payload.items != [] then Get(payload.items[0], "id") else Ok(JNull)
  }

  /** The contact search raises only when no answer came; it gives None on a
      non-200 status or an empty hit list, and the first hit's id otherwise. */
  lemma FindContactIdSpec(search: HttpReply)
    ensures FindContactId(search).Raise? ==>
              search.NoResponse? || (search.status == 200 && !search.body.JObj?) ||
              (search.status == 200 && search.body.JObj? && Lookup(search.body, "payload").JArr? &&
               Lookup(search.body, "payload").items != [] &&
               !Lookup(search.body, "payload").items[0].JObj?)
    ensures search.Reply? && search.status != 200 ==> FindContactId(search) == Ok(JNull)
    ensures search.Reply? && search.status == 200 && search.body.JObj? ==>
              var hits := Lookup(search.body, "payload");
              && (!hits.JArr? || hits.items == [] ==> FindContactId(search) == Ok(JNull))
              && (hits.JArr? && hits.items != [] && hits.items[0].JObj? ==>
                    FindContactId(search) == Ok(Lookup(hits.items[0], "id")))
  {
  }

  /** `create_contact`: the extracted id on 200/201 when it is truthy, else None. */
  function CreateContactResult(create: HttpReply): (r: Py<Json>)
    ensures NoneOrUsable(r)
    ensures Usable(r) ==> Success(create)
    ensures create.NoResponse? ==> r.Raise?
    ensures create.Reply? && !Success(create) ==> r == Ok(JNull)
    ensures Success(create) ==>
              var cid := ExtractContactId(create.body);
              && (Usable(cid) ==> r == cid)
              && (cid.Ok? && !Truthy(cid.value) ==> r == Ok(JNull))
              && (cid.Raise? ==> r.Raise?)
  {
    match create
    case NoResponse => Raise
    case Reply(status, body) =>
      if status == 200 || status == 201 then
        var cid :- ExtractContactId(body);
        Ok(if Truthy(cid) then cid else JNull)
      else Ok(JNull)
  }

  /** `get_or_create_contact`: search first; create only when the search yields
      nothing usable. */
  function GetOrCreateContact(phone: string, search: HttpReply, create: HttpReply): (r: Step<Json>)
    ensures |r.calls| > 0 && r.calls[0] == SearchContact(phone) && AllHelpdesk(r.calls)
    ensures NoPostOrPatch(r.calls)
    ensures CreateContact(phone) in r.calls <==>
              FindContactId(search).Ok? && !Truthy(FindContactId(search).value)
    ensures Usable(FindContactId(search)) ==> r.result == FindContactId(search) && |r.calls| == 1
    ensures FindContactId(search).Raise? ==> r.result.Raise? && r.calls == [SearchContact(phone)]
    ensures FindContactId(search).Ok? && !Truthy(FindContactId(search).value) ==>
              && r.result == CreateContactResult(create)
              && r.calls == [SearchContact(phone), CreateContact(phone)]
    ensures NoneOrUsable(r.result)
  {
    var found := FindContactId(search);
    if found.Raise? then Step(Raise, [SearchContact(phone)])
    else if Truthy(found.value) then Step(found, [SearchContact(phone)])
    else Step(CreateContactResult(create), [SearchContact(phone), CreateContact(phone)])
  }

  // ---------------------------------------------------------------------------
  // Conversations

  /** The body of the loop at utils.py:129-131: stop at an open conversation with
      its id; raises on an entry that is not a dict. */
  function OpenProbe(conv: Json): Py<Option<Json>> {
    var status :- Get(conv, "status");
    if status == JStr("open") then
      var id :- Get(conv, "id");
      Ok(Some(id))
    else Ok(None)
  }

  /** `get_open_conversation_for_contact`: the id of the first listed conversation
      whose status is "open". */
  function GetOpenConversationForContact(list: HttpReply): Py<Json> {
    match list
    case NoResponse => Raise
    case Reply(status, data) =>
      if status != 200 then Ok(JNull)
      else
        var payload :- GetOr(data, "payload", JArr([]));
        if !payload.JArr? then Ok(JNull)
        else
          var hit :- FirstMatch(payload.items, OpenProbe);
          Ok(if hit.Some? then hit.value else JNull)
  }

  /** Entry `i` is the first listed conversation with status "open". */
  ghost predicate FirstOpenAt(convs: seq<Json>, i: int) {
    && 0 <= i < |convs|
    && (forall j :: 0 <= j <= i ==> convs[j].JObj?)
    && Lookup(convs[i], "status") == JStr("open")
    && forall j :: 0 <= j < i ==> Lookup(convs[j], "status") != JStr("open")
  }

  /** The conversation lookup returns None on a non-200 status or a payload that is
      not a list, the id of the first open conversation when there is one, and
      None when every listed conversation is closed. */
  lemma {:induction false} OpenConversationSpec(status: int, data: Json)
    ensures status != 200 ==> GetOpenConversationForContact(Reply(status, data)) == Ok(JNull)
    ensures status == 200 && data.JObj? && !Lookup(data, "payload").JArr? ==>
              GetOpenConversationForContact(Reply(status, data)) == Ok(JNull)
    ensures status == 200 && data.JObj? && Lookup(data, "payload").JArr? ==>
              var convs := Lookup(data, "payload").items;
              && (forall i :: FirstOpenAt(convs, i) ==>
                    GetOpenConversationForContact(Reply(status, data)) == Ok(Lookup(convs[i], "id")))
              && ((forall j :: 0 <= j < |convs| ==>
                    convs[j].JObj? && Lookup(convs[j], "status") != JStr("open")) ==>
                    GetOpenConversationForContact(Reply(status, data)) == Ok(JNull))
  {
    if status == 200 && data.JObj? && Lookup(data, "payload").JArr? {
      var convs := Lookup(data, "payload").items;
      assert GetOr(data, "payload", JArr([])) == Ok(JArr(convs));
      FirstMatchSpec(convs, OpenProbe);
      forall i | FirstOpenAt(convs, i)
        ensures GetOpenConversationForContact(Reply(status, data)) == Ok(Lookup(convs[i], "id"))
      {
        assert StopsAt(convs, OpenProbe, i);
      }
    } else if status == 200 && data.JObj? {
      if "payload" !in data.fields {
        assert GetOr(data, "payload", JArr([])) == Ok(JArr([]));
      }
    }
  }

  /** `create_conversation`: the extracted id on 200/201 when it is truthy, else None. */
  function CreateConversationResult(create: HttpReply): (r: Py<Json>)
    ensures NoneOrUsable(r)
    ensures Usable(r) ==> Success(create)
    ensures create.NoResponse? ==> r.Raise?
    ensures create.Reply? && !Success(create) ==> r == Ok(JNull)
    ensures Success(create) ==>
              var cid := ExtractConversationId(create.body);
              && (Usable(cid) ==> r == cid)
              && (cid.Ok? && !Truthy(cid.value) ==> r == Ok(JNull))
              && (cid.Raise? ==> r.Raise?)
  {
    match create
    case NoResponse => Raise
    case Reply(status, body) =>
      if status == 200 || status == 201 then
        var cid :- ExtractConversationId(body);
        Ok(if Truthy(cid) then cid else JNull)
      else Ok(JNull)
  }

  /** `CHATWOOT_INBOX_ID` is set and non-zero. */
  predicate InboxConfigured(inbox: Option<int>) {
    inbox.Some? && inbox.value != 0
  }

  /** `get_or_create_open_conversation`: reuse an open conversation; otherwise
      create one, but only when an inbox is configured. */
  function GetOrCreateOpenConversation(contact: Json, phone: string, list: HttpReply,
                                       create: HttpReply, inbox: Option<int>): (r: Step<Json>)
    ensures |r.calls| > 0 && r.calls[0] == ListConversations(contact) && AllHelpdesk(r.calls)
    ensures NoPostOrPatch(r.calls)
    ensures (exists k :: 0 <= k < |r.calls| && r.calls[k].CreateConversation?) <==>
              && GetOpenConversationForContact(list).Ok?
              && !Truthy(GetOpenConversationForContact(list).value)
              && InboxConfigured(inbox)
    ensures Usable(GetOpenConversationForContact(list)) ==>
              r.result == GetOpenConversationForContact(list) && |r.calls| == 1
    ensures !InboxConfigured(inbox) && GetOpenConversationForContact(list).Ok? ==>
              |r.calls| == 1 && (Usable(r.result) || r.result == Ok(JNull))
    ensures GetOpenConversationForContact(list).Raise? ==> r.result.Raise?
    ensures var found := GetOpenConversationForContact(list);
            found.Ok? && !Truthy(found.value) && !InboxConfigured(inbox) ==>
              r.result == Ok(JNull) && r.calls == [ListConversations(contact)]
    ensures var found := GetOpenConversationForContact(list);
            found.Ok? && !Truthy(found.value) && InboxConfigured(inbox) ==>
              && r.result == CreateConversationResult(create)
              && r.calls == [ListConversations(contact), CreateConversation(contact, inbox.value, phone)]
    ensures NoneOrUsable(r.result)
  {
    var found := GetOpenConversationForContact(list);
    var calls := [ListConversations(contact)];
    if found.Raise? then Step(Raise, calls)
    else if Truthy(found.value) then Step(found, calls)
    else if !InboxConfigured(inbox) then Step(Ok(JNull), calls)
    else Step(CreateConversationResult(create),
              calls + [CreateConversation(contact, inbox.value, phone)])
  }

  // ---------------------------------------------------------------------------
  // Relay and handoff

  /** The common first half of `send_user_message_to_chatwoot` and
      `handoff_to_agent`: get or create the contact, then, if that gave a usable id,
      get or create its open conversation. */
  function ObtainConversation(phone: string, rs: Replies, inbox: Option<int>): (r: Step<Json>)
    ensures |r.calls| > 0 && r.calls[0] == SearchContact(phone)
    ensures AllHelpdesk(r.calls) && NoPostOrPatch(r.calls)
    ensures NoneOrUsable(r.result)
    ensures var contact := GetOrCreateContact(phone, rs.search, rs.createContact).result;
            && (contact.Raise? ==> r.result.Raise?)
            && (contact.Ok? && !Usable(contact) ==> r.result == Ok(JNull))
            && (Usable(r.result) ==> Usable(contact))
    ensures var contact := GetOrCreateContact(phone, rs.search, rs.createContact);
            && (!Usable(contact.result) ==> r.calls == contact.calls)
            && (Usable(contact.result) ==>
                  var conv := GetOrCreateOpenConversation(contact.result.value, phone, rs.conversations,
                                                          rs.createConversation, inbox);
                  r.result == conv.result && r.calls == contact.calls + conv.calls)
  {
    var c := GetOrCreateContact(phone, rs.search, rs.createContact);
    if c.result.Raise? then Step(Raise, c.calls)
    else if !Truthy(c.result.value) then Step(Ok(JNull), c.calls)
    else
      var v := GetOrCreateOpenConversation(c.result.value, phone, rs.conversations,
                                           rs.createConversation, inbox);
      Step(v.result, c.calls + v.calls)
  }

  /** `send_user_message_to_chatwoot`: post the text into the user's open
      conversation. True iff the contact and the conversation were obtained and the
      post answered 200/201; the text is posted at most once, as the last request,
      and only when both were obtained. */
  function SendUserMessageToChatwoot(phone: string, text: string, rs: Replies,
                                     inbox: Option<int>): (r: Step<bool>)
    ensures AllHelpdesk(r.calls)
    ensures var o := ObtainConversation(phone, rs, inbox);
            && (r.result == Ok(true) <==> Usable(o.result) && Success(rs.post))
            && (Usable(o.result) ==> r.calls == o.calls + [PostMessage(o.result.value, text)])
            && (!Usable(o.result) ==> r.calls == o.calls && r.result != Ok(true))
            && (r.result.Raise? <==> o.result.Raise? || (Usable(o.result) && rs.post.NoResponse?))
  {
    var o := ObtainConversation(phone, rs, inbox);
    if o.result.Raise? then Step(Raise, o.calls)
    else if !Truthy(o.result.value) then Step(Ok(false), o.calls)
    else
      var calls := o.calls + [PostMessage(o.result.value, text)];
      match rs.post
      case NoResponse => Step(Raise, calls)
      case Reply(status, _) => Step(Ok(status == 200 || status == 201), calls)
  }

  /** The helpdesk part of `handoff_to_agent`: obtain the conversation and ask for
      it to be reopened. True iff both were obtained, whatever the patch answers
      (its failures are caught); nothing is posted. */
  function ReachAgent(phone: string, rs: Replies, inbox: Option<int>): (r: Step<bool>)
    ensures AllHelpdesk(r.calls)
    ensures forall k :: 0 <= k < |r.calls| ==> !r.calls[k].PostMessage?
    ensures var o := ObtainConversation(phone, rs, inbox);
            && (r.result == Ok(true) <==> Usable(o.result))
            && (r.result.Raise? <==> o.result.Raise?)
            && (Usable(o.result) ==> r.calls == o.calls + [PatchOpen(o.result.value)])
            && (!Usable(o.result) ==> r.calls == o.calls)
  {
    var o := ObtainConversation(phone, rs, inbox);
    if o.result.Raise? then Step(Raise, o.calls)
    else if !Truthy(o.result.value) then Step(Ok(false), o.calls)
    else Step(Ok(true), o.calls + [PatchOpen(o.result.value)])
  }
}
