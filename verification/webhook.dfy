/** The `/webhook` route of server.js (lines 171-245): the GET handshake and
    the POST handler that walks the body, logs each inbound message and
    dispatches a reply. */
module Webhook {
  import opened Common
  import opened Inbound
  import opened Db
  import opened Replies

  /** The query parameters `hub.mode`, `hub.verify_token` and `hub.challenge`. */
  datatype Query = Query(mode: Option<string>, verifyToken: Option<string>, challenge: Option<string>)

  datatype Request = Request(verb: string, query: Query, body: Payload)

  /** The answer to every request that is not a GET and did not stop early. */
  const Ack := Send(200, Some("EVENT_RECEIVED"))

  /** The handshake (lines 172-177): `mode && token === VERIFY_TOKEN`, where an
      unset `VERIFY_TOKEN` is `None`. */
  function Verify(q: Query, configured: Option<string>): (r: Response)
    ensures r.Send?
    ensures r.status == 200 <==> Truthy(q.mode) && q.verifyToken == configured
    ensures r.status == 200 ==> r.body == q.challenge
    ensures r.status != 200 ==> r == Send(403, Some("Verification failed"))
  {
    if Truthy(q.mode) && q.verifyToken == configured then Send(200, q.challenge)
    else Send(403, Some("Verification failed"))
  }

  /** JavaScript `===` on `undefined`: a request without `hub.verify_token`
      passes the handshake when `VERIFY_TOKEN` is unset. */
  lemma AbsentTokenMatchesUnsetSecret(mode: string, challenge: Option<string>)
    requires mode != ""
    ensures Verify(Query(Some(mode), None, challenge), None) == Send(200, challenge)
  {
  }

  /** Lines 188-205 for one qualifying Messenger event. */
  method HandleMessengerEvent(store: Store, e: Event, env: Env) returns (acts: seq<Action>, ghost c: Cred)
    requires store.Valid() && e.platform == Messenger
    modifies store`messages
    ensures LookupOk(e, c, store.pages, store.whatsapp)
    ensures acts == EventActions(e, c, env)
    ensures store.messages == old(store.messages) + EventRecords(e, c, env)
  {
    var incoming := IncomingRecord(e);
    store.InsertMessage(incoming);
    acts := [Log(incoming), Complete(Prompt(e.text))];
    var reply := Reply(env, e.text);
    var page := store.AnyPage();
    c := if page.Some? then PageCred(page.value) else NoCred;
    if page.Some? {
      var token := page.value.accessToken;
      var sent := env.messengerSend(token, e.senderId, reply);
      acts := acts + [SendMessenger(token, e.senderId, reply)];
      if sent {
        var out := MessageRecord(Messenger, e.chatId, Some(PageSender), reply, Outgoing);
        store.InsertMessage(out);
        acts := acts + [Log(out)];
      }
    }
  }

  /** Lines 217-236 for one WhatsApp message with a body. */
  method HandleWhatsappEvent(store: Store, e: Event, env: Env) returns (acts: seq<Action>, ghost c: Cred)
    requires store.Valid() && e.platform == WhatsApp
    modifies store`messages
    ensures LookupOk(e, c, store.pages, store.whatsapp)
    ensures acts == EventActions(e, c, env)
    ensures store.messages == old(store.messages) + EventRecords(e, c, env)
  {
    var incoming := IncomingRecord(e);
    store.InsertMessage(incoming);
    acts := [Log(incoming)];
    var wa := store.AnyWhatsapp();
    c := if wa.Some? then WaCred(wa.value) else NoCred;
    if wa.Some? && wa.value.token != "" && wa.value.phoneNumberId != "" {
      var row := wa.value;
      var reply := Reply(env, e.text);
      acts := acts + [Complete(Prompt(e.text))];
      var sent := env.whatsappSend(row.phoneNumberId, row.token, e.senderId, reply);
      acts := acts + [SendWhatsapp(row.phoneNumberId, row.token, e.senderId, reply)];
      if sent {
        var out := MessageRecord(WhatsApp, Some(row.phoneNumberId), Some(WhatsappSender), reply, Outgoing);
        store.InsertMessage(out);
        acts := acts + [Log(out)];
      }
    }
  }

  /** Lines 188-206 for one `messaging` item: skipped unless it carries a
      non-echo message with a text; `aborted` when it qualifies but has no
      `sender`, whose `.id` throws before anything is written. */
  method HandleMessagingItem(store: Store, entryId: Option<string>, ev: MessagingEvent, env: Env)
    returns (aborted: bool, acts: seq<Action>, ghost cs: seq<Cred>)
    requires store.Valid()
    modifies store`messages
    ensures var x := FromMessaging(entryId, ev);
      && aborted == x.aborted
      && LookupsOk(x.events, cs, store.pages, store.whatsapp)
      && acts == Dispatch(x.events, cs, env)
      && store.messages == old(store.messages) + LogOf(x.events, cs, env)
  {
    if !Qualifies(ev) {
      return false, [], [];
    }
    if ev.sender.None? {
      return true, [], [];
    }
    var e := NormaliseMessaging(entryId, ev);
    ghost var c;
    acts, c := HandleMessengerEvent(store, e, env);
    RunSingle(e, c, env, store.pages, store.whatsapp);
    aborted, cs := false, [c];
  }

  /** Lines 185-208: the `messaging` list of one entry. */
  method HandleMessaging(store: Store, entryId: Option<string>, evs: seq<MessagingEvent>, env: Env)
    returns (aborted: bool, trace: seq<Action>, ghost creds: seq<Cred>)
    requires store.Valid()
    modifies store`messages
    ensures var r := MessengerEvents(entryId, evs);
      && aborted == r.aborted
      && LookupsOk(r.events, creds, store.pages, store.whatsapp)
      && trace == Dispatch(r.events, creds, env)
      && store.messages == old(store.messages) + LogOf(r.events, creds, env)
  {
    aborted, trace, creds := false, [], [];
    ghost var events: seq<Event> := [];
    var j := 0;
    while j < |evs|
      invariant 0 <= j <= |evs|
      invariant MessengerEvents(entryId, evs[..j]) == Extracted(events, false)
      invariant LookupsOk(events, creds, store.pages, store.whatsapp)
      invariant trace == Dispatch(events, creds, env)
      invariant store.messages == old(store.messages) + LogOf(events, creds, env)
    {
      MessengerStep(entryId, evs, j);
      ghost var log1 := store.messages;
      var acts;
      ghost var cs';
      aborted, acts, cs' := HandleMessagingItem(store, entryId, evs[j], env);
      ghost var more := FromMessaging(entryId, evs[j]).events;
      RunAppend(events, creds, more, cs', env, store.pages, store.whatsapp, old(store.messages), log1, store.messages);
      creds, trace, events := creds + cs', trace + acts, events + more;
      if aborted {
        MessengerAbortedPrefix(entryId, evs, j + 1);
        return;
      }
      j := j + 1;
    }
    assert evs[..j] == evs;
  }

  /** Lines 214-238: the `value.messages` list of one change. */
  method HandleWaMessages(store: Store, chatId: string, messages: seq<WaMessage>, env: Env)
    returns (trace: seq<Action>, ghost creds: seq<Cred>)
    requires store.Valid()
    modifies store`messages
    ensures var events := WaMessagesEvents(chatId, messages);
      && LookupsOk(events, creds, store.pages, store.whatsapp)
      && trace == Dispatch(events, creds, env)
      && store.messages == old(store.messages) + LogOf(events, creds, env)
  {
    trace, creds := [], [];
    ghost var events: seq<Event> := [];
    var l := 0;
    while l < |messages|
      invariant 0 <= l <= |messages|
      invariant events == WaMessagesEvents(chatId, messages[..l])
      invariant LookupsOk(events, creds, store.pages, store.whatsapp)
      invariant trace == Dispatch(events, creds, env)
      invariant store.messages == old(store.messages) + LogOf(events, creds, env)
    {
      var msg := messages[l];
      assert messages[..l + 1][..l] == messages[..l];
      assert WaMessagesEvents(chatId, messages[..l + 1])
        == events + (if HasBody(msg) then [NormaliseWa(chatId, msg)] else []);
      if HasBody(msg) {
        var e := NormaliseWa(chatId, msg);
        var acts;
        ghost var c;
        ghost var log1 := store.messages;
        acts, c := HandleWhatsappEvent(store, e, env);
        RunStep(events, creds, e, c, env, store.pages, store.whatsapp, old(store.messages), log1, store.messages);
        creds, trace, events := creds + [c], trace + acts, events + [e];
      } else {
        assert events + [] == events;
      }
      l := l + 1;
    }
    assert messages[..l] == messages;
  }

  /** Lines 211-240: the `changes` list of one entry. */
  method HandleChanges(store: Store, cs: seq<Change>, env: Env)
    returns (trace: seq<Action>, ghost creds: seq<Cred>)
    requires store.Valid()
    modifies store`messages
    ensures var events := ChangesEvents(cs);
      && LookupsOk(events, creds, store.pages, store.whatsapp)
      && trace == Dispatch(events, creds, env)
      && store.messages == old(store.messages) + LogOf(events, creds, env)
  {
    trace, creds := [], [];
    ghost var events: seq<Event> := [];
    var k := 0;
    while k < |cs|
      invariant 0 <= k <= |cs|
      invariant events == ChangesEvents(cs[..k])
      invariant LookupsOk(events, creds, store.pages, store.whatsapp)
      invariant trace == Dispatch(events, creds, env)
      invariant store.messages == old(store.messages) + LogOf(events, creds, env)
    {
      var change := cs[k];
      assert cs[..k + 1][..k] == cs[..k];
      assert ChangesEvents(cs[..k + 1])
        == events + WaMessagesEvents(ChangeChatId(change), ChangeMessages(change));
      var acts;
      ghost var cs';
      ghost var log1 := store.messages;
      acts, cs' := HandleWaMessages(store, ChangeChatId(change), ChangeMessages(change), env);
      ghost var more := WaMessagesEvents(ChangeChatId(change), ChangeMessages(change));
      RunAppend(events, creds, more, cs', env, store.pages, store.whatsapp, old(store.messages), log1, store.messages);
      creds, trace, events := creds + cs', trace + acts, events + more;
      k := k + 1;
    }
    assert cs[..k] == cs;
  }

  /** Lines 185-240 for one entry: its Messenger items, then its WhatsApp items. */
  method HandleEntry(store: Store, entry: Entry, env: Env)
    returns (aborted: bool, trace: seq<Action>, ghost creds: seq<Cred>)
    requires store.Valid()
    modifies store`messages
    ensures var r := EntryEvents(entry);
      && aborted == r.aborted
      && LookupsOk(r.events, creds, store.pages, store.whatsapp)
      && trace == Dispatch(r.events, creds, env)
      && store.messages == old(store.messages) + LogOf(r.events, creds, env)
  {
    aborted, trace, creds := false, [], [];
    if entry.messaging.Some? {
      aborted, trace, creds := HandleMessaging(store, entry.id, entry.messaging.value, env);
      if aborted {
        return;
      }
    }
    ghost var events := if entry.messaging.Some? then MessengerEvents(entry.id, entry.messaging.value).events else [];
    if entry.changes.Some? {
      var acts;
      ghost var cs';
      ghost var log1 := store.messages;
      acts, cs' := HandleChanges(store, entry.changes.value, env);
      ghost var more := ChangesEvents(entry.changes.value);
      RunAppend(events, creds, more, cs', env, store.pages, store.whatsapp, old(store.messages), log1, store.messages);
      creds, trace := creds + cs', trace + acts;
    } else {
      assert events + [] == events;
    }
  }

  /** The POST branch (lines 180-242) up to the response: walks `entry[]` in
      order. `aborted` is set when a qualifying Messenger event has no
      `sender`, whose `.id` throws. `creds` are the rows the credential
      lookups returned, one per event. */
  method HandleEvents(store: Store, body: Payload, env: Env)
    returns (aborted: bool, trace: seq<Action>, ghost creds: seq<Cred>)
    requires store.Valid()
    modifies store`messages
    ensures var r := Extract(body);
      && aborted == r.aborted
      && LookupsOk(r.events, creds, store.pages, store.whatsapp)
      && trace == Dispatch(r.events, creds, env)
      && store.messages == old(store.messages) + LogOf(r.events, creds, env)
  {
    aborted, trace, creds := false, [], [];
    if body.entry.None? {
      return;
    }
    var entries := body.entry.value;
    ghost var events: seq<Event> := [];
    var i := 0;
    while i < |entries|
      invariant 0 <= i <= |entries|
      invariant EntriesEvents(entries[..i]) == Extracted(events, false)
      invariant LookupsOk(events, creds, store.pages, store.whatsapp)
      invariant trace == Dispatch(events, creds, env)
      invariant store.messages == old(store.messages) + LogOf(events, creds, env)
    {
      EntriesStep(entries, i);
      var acts;
      ghost var cs';
      ghost var log1 := store.messages;
      aborted, acts, cs' := HandleEntry(store, entries[i], env);
      ghost var more := EntryEvents(entries[i]).events;
      RunAppend(events, creds, more, cs', env, store.pages, store.whatsapp, old(store.messages), log1, store.messages);
      creds, trace, events := creds + cs', trace + acts, events + more;
      if aborted {
        EntriesAbortAt(entries, i);
        return;
      }
      i := i + 1;
    }
    assert entries[..i] == entries;
  }

  /** `app.all("/webhook")`: a GET answers the handshake and touches nothing;
      any other method handles the body and then answers "EVENT_RECEIVED",
      unless the walk threw, in which case no response is sent. */
  method HandleWebhook(store: Store, req: Request, env: Env, configured: Option<string>)
    returns (resp: Option<Response>, trace: seq<Action>, ghost creds: seq<Cred>)
    requires store.Valid()
    modifies store`messages
    ensures req.verb == "GET" ==>
      resp == Some(Verify(req.query, configured)) && trace == [] && store.messages == old(store.messages)
    ensures req.verb != "GET" ==>
      var x := Extract(req.body);
      && resp == (if x.aborted then None else Some(Ack))
      && LookupsOk(x.events, creds, store.pages, store.whatsapp)
      && trace == Dispatch(x.events, creds, env)
      && store.messages == old(store.messages) + LogOf(x.events, creds, env)
      && store.messages == old(store.messages) + Records(trace)
  {
    if req.verb == "GET" {
      return Some(Verify(req.query, configured)), [], [];
    }
    var aborted;
    aborted, trace, creds := HandleEvents(store, req.body, env);
    DispatchLog(Extract(req.body).events, creds, env);
    resp := if aborted then None else Some(Ack);
  }
}
