/** End-to-end runs of the relay on concrete requests: a fresh database,
    credentials stored through the setup routes, then one POST to `/webhook`.
    The completion service and the senders stay arbitrary. */
module Scenarios {
  import opened Common
  import opened Inbound
  import opened Db
  import opened Replies
  import opened Webhook

  const NoQuery := Query(None, None, None)

  /** `{entry:[{id:"E1", messaging:[{sender:{id:"U1"}, message:{text:"hi"}}]}]}` */
  const MessengerBody := Payload(Some([Entry(Some("E1"),
    Some([MessagingEvent(Some(Sender(Some("U1"))), Some(Message(false, Some("hi"))))]), None)]))

  /** `{entry:[{changes:[{value:{metadata:{phone_number_id:"P1"},
      messages:[{from:"555", text:{body:"hey"}}]}}]}]}` */
  const WhatsappBody := Payload(Some([Entry(None, None,
    Some([Change(Some(ChangeValue(Some(Metadata(Some("P1"))),
      Some([WaMessage(Some("555"), Some(WaText(Some("hey"))))]))))]))]))

  /** The Messenger body yields one event, filed under the entry id. */
  lemma MessengerBodyEvents()
    ensures Extract(MessengerBody) == Extracted([Event(Messenger, Some("E1"), Some("U1"), "hi")], false)
  {
    var evs := MessengerBody.entry.value[0].messaging.value;
    assert MessengerEvents(Some("E1"), evs) == Then(MessengerEvents(Some("E1"), evs[..0]), FromMessaging(Some("E1"), evs[0]));
    assert MessengerBody.entry.value[..0] == [];
  }

  /** The WhatsApp body yields one event, filed under the phone number id. */
  lemma WhatsappBodyEvents()
    ensures Extract(WhatsappBody) == Extracted([Event(WhatsApp, Some("P1"), Some("555"), "hey")], false)
  {
    var cs := WhatsappBody.entry.value[0].changes.value;
    assert ChangeChatId(cs[0]) == "P1";
    var ms := ChangeMessages(cs[0]);
    assert ms[..0] == [] && cs[..0] == [];
    assert WaMessagesEvents("P1", ms) == [Event(WhatsApp, Some("P1"), Some("555"), "hey")];
    assert WhatsappBody.entry.value[..0] == [];
  }

  /** Handling a request whose body yields exactly one event. */
  lemma SingleEvent(e: Event, creds: seq<Cred>, trace: seq<Action>, log: seq<MessageRecord>,
                    pages: map<string, PageRow>, wa: map<string, WhatsappRow>, env: Env)
    requires LookupsOk([e], creds, pages, wa)
    requires trace == Dispatch([e], creds, env) && log == [] + LogOf([e], creds, env)
    ensures LookupOk(e, creds[0], pages, wa)
    ensures trace == EventActions(e, creds[0], env)
    ensures log == EventRecords(e, creds[0], env)
  {
    assert LookupOk([e][0], creds[0], pages, wa);
    assert creds == [creds[0]];
    RunSingle(e, creds[0], env, pages, wa);
  }

  /** With one page stored, the page lookup can only return that page. */
  lemma OnlyPage(e: Event, c: Cred, pages: map<string, PageRow>, wa: map<string, WhatsappRow>)
    requires e.platform == Messenger && pages == map["PG1" := PageRow("PG1", "My Page", "PT", 1)]
    requires LookupOk(e, c, pages, wa)
    ensures c == PageCred(PageRow("PG1", "My Page", "PT", 1))
  {
    assert pages.Keys == {"PG1"};
  }

  /** With one number stored, the WhatsApp lookup can only return that row. */
  lemma OnlyWhatsapp(e: Event, c: Cred, pages: map<string, PageRow>, wa: map<string, WhatsappRow>)
    requires e.platform == WhatsApp && wa == map["P1" := WhatsappRow("P1", "WT", None)]
    requires LookupOk(e, c, pages, wa)
    ensures c == WaCred(WhatsappRow("P1", "WT", None))
  {
    assert wa.Keys == {"P1"};
  }

  /** What handling the Messenger body does when `pages` holds one page. */
  lemma MessengerOutcome(creds: seq<Cred>, trace: seq<Action>, log: seq<MessageRecord>,
                         pages: map<string, PageRow>, wa: map<string, WhatsappRow>, env: Env)
    requires pages == map["PG1" := PageRow("PG1", "My Page", "PT", 1)]
    requires var e := Event(Messenger, Some("E1"), Some("U1"), "hi");
      LookupsOk([e], creds, pages, wa) && trace == Dispatch([e], creds, env) && log == [] + LogOf([e], creds, env)
    ensures var reply := Reply(env, "hi");
      && |trace| >= 3 && trace[..3] == [Log(MessageRecord(Messenger, Some("E1"), Some("U1"), "hi", Incoming)),
                        Complete(Prompt("hi")),
                        SendMessenger("PT", Some("U1"), reply)]
      && log == [MessageRecord(Messenger, Some("E1"), Some("U1"), "hi", Incoming)] +
                (if env.messengerSend("PT", Some("U1"), reply)
                 then [MessageRecord(Messenger, Some("E1"), Some("page"), reply, Outgoing)] else [])
  {
    var e := Event(Messenger, Some("E1"), Some("U1"), "hi");
    SingleEvent(e, creds, trace, log, pages, wa, env);
    var c := creds[0];
    OnlyPage(e, c, pages, wa);
    var reply := Reply(env, "hi");
    assert trace[..3] == [Log(IncomingRecord(e)), Complete(Prompt("hi")), SendMessenger("PT", Some("U1"), reply)] by {
      MessengerEventSpec(e, c, env);
      assert trace[..3] == [trace[0], trace[1], trace[2]];
    }
  }

  /** With a page connected through the OAuth callback, a Messenger text is
      logged under the entry id, answered to its sender with the page token,
      and the reply is logged as sent by "page" when the send succeeded. */
  method MessengerScenario(env: Env) returns (resp: Option<Response>, trace: seq<Action>, log: seq<MessageRecord>)
    ensures resp == Some(Ack)
    ensures var reply := Reply(env, "hi");
      && |trace| >= 3 && trace[..3] == [Log(MessageRecord(Messenger, Some("E1"), Some("U1"), "hi", Incoming)),
                        Complete(Prompt("hi")),
                        SendMessenger("PT", Some("U1"), reply)]
      && log == [MessageRecord(Messenger, Some("E1"), Some("U1"), "hi", Incoming)] +
                (if env.messengerSend("PT", Some("U1"), reply)
                 then [MessageRecord(Messenger, Some("E1"), Some("page"), reply, Outgoing)] else [])
  {
    var store := new Store();
    var _ := store.FacebookCallback(Some("code"), Some([GraphPage("PG1", "My Page", "PT")]));
    assert store.pages == map["PG1" := PageRow("PG1", "My Page", "PT", 1)];
    MessengerBodyEvents();
    ghost var creds;
    resp, trace, creds := HandleWebhook(store, Request("POST", NoQuery, MessengerBody), env, Some("secret"));
    log := store.messages;
    MessengerOutcome(creds, trace, log, store.pages, store.whatsapp, env);
  }

  /** What handling the WhatsApp body does when `wa` holds one number. */
  lemma WhatsappOutcome(creds: seq<Cred>, trace: seq<Action>, log: seq<MessageRecord>,
                        pages: map<string, PageRow>, wa: map<string, WhatsappRow>, env: Env)
    requires wa == map["P1" := WhatsappRow("P1", "WT", None)]
    requires var e := Event(WhatsApp, Some("P1"), Some("555"), "hey");
      LookupsOk([e], creds, pages, wa) && trace == Dispatch([e], creds, env) && log == [] + LogOf([e], creds, env)
    ensures var reply := Reply(env, "hey");
      && |trace| >= 3 && trace[..3] == [Log(MessageRecord(WhatsApp, Some("P1"), Some("555"), "hey", Incoming)),
                        Complete(Prompt("hey")),
                        SendWhatsapp("P1", "WT", Some("555"), reply)]
      && log == [MessageRecord(WhatsApp, Some("P1"), Some("555"), "hey", Incoming)] +
                (if env.whatsappSend("P1", "WT", Some("555"), reply)
                 then [MessageRecord(WhatsApp, Some("P1"), Some("wa_bot"), reply, Outgoing)] else [])
  {
    var e := Event(WhatsApp, Some("P1"), Some("555"), "hey");
    SingleEvent(e, creds, trace, log, pages, wa, env);
    var c := creds[0];
    OnlyWhatsapp(e, c, pages, wa);
    var reply := Reply(env, "hey");
    assert trace[..3] == [Log(IncomingRecord(e)), Complete(Prompt("hey")), SendWhatsapp("P1", "WT", Some("555"), reply)] by {
      assert WaUsable(c);
      WhatsappEventSpec(e, c, env);
      assert trace[..3] == [trace[0], trace[1], trace[2]];
    }
  }

  /** With a WhatsApp number saved through `/save_whatsapp`, a WhatsApp text is
      logged under its phone number id, answered to "555" with the saved token,
      and the reply is logged as sent by "wa_bot" when the send succeeded. */
  method WhatsappScenario(env: Env) returns (resp: Option<Response>, trace: seq<Action>, log: seq<MessageRecord>)
    ensures resp == Some(Ack)
    ensures var reply := Reply(env, "hey");
      && |trace| >= 3 && trace[..3] == [Log(MessageRecord(WhatsApp, Some("P1"), Some("555"), "hey", Incoming)),
                        Complete(Prompt("hey")),
                        SendWhatsapp("P1", "WT", Some("555"), reply)]
      && log == [MessageRecord(WhatsApp, Some("P1"), Some("555"), "hey", Incoming)] +
                (if env.whatsappSend("P1", "WT", Some("555"), reply)
                 then [MessageRecord(WhatsApp, Some("P1"), Some("wa_bot"), reply, Outgoing)] else [])
  {
    var store := new Store();
    var _ := store.SaveWhatsapp(Some("P1"), Some("WT"), None);
    assert store.whatsapp == map["P1" := WhatsappRow("P1", "WT", None)];
    WhatsappBodyEvents();
    ghost var creds;
    resp, trace, creds := HandleWebhook(store, Request("POST", NoQuery, WhatsappBody), env, Some("secret"));
    log := store.messages;
    WhatsappOutcome(creds, trace, log, store.pages, store.whatsapp, env);
  }

  /** Without any credential the same Messenger text is only logged as
      incoming: a completion is still requested, nothing is sent. */
  method NoCredentialScenario(env: Env) returns (resp: Option<Response>, trace: seq<Action>, log: seq<MessageRecord>)
    ensures resp == Some(Ack)
    ensures trace == [Log(MessageRecord(Messenger, Some("E1"), Some("U1"), "hi", Incoming)), Complete(Prompt("hi"))]
    ensures log == [MessageRecord(Messenger, Some("E1"), Some("U1"), "hi", Incoming)]
  {
    var store := new Store();
    var e := Event(Messenger, Some("E1"), Some("U1"), "hi");
    MessengerBodyEvents();
    ghost var creds;
    resp, trace, creds := HandleWebhook(store, Request("POST", NoQuery, MessengerBody), env, Some("secret"));
    log := store.messages;
    SingleEvent(e, creds, trace, log, store.pages, store.whatsapp, env);
  }

  /** An entry matching neither shape writes nothing and is still acknowledged,
      even with both credentials configured. */
  method ShapelessScenario(env: Env) returns (resp: Option<Response>, trace: seq<Action>, log: seq<MessageRecord>)
    ensures resp == Some(Ack) && trace == [] && log == []
  {
    var store := new Store();
    var _ := store.SaveWhatsapp(Some("P1"), Some("WT"), None);
    var _ := store.FacebookCallback(Some("code"), Some([GraphPage("PG1", "My Page", "PT")]));
    var body := Payload(Some([Entry(Some("X"), None, None)]));
    ShapelessEntriesAddNothing(body.entry.value);
    ghost var creds;
    resp, trace, creds := HandleWebhook(store, Request("POST", NoQuery, body), env, Some("secret"));
    log := store.messages;
  }

  /** A qualifying Messenger item without `sender` makes the handler throw
      before anything is written: no response is sent. */
  method MissingSenderScenario(env: Env) returns (resp: Option<Response>, trace: seq<Action>, log: seq<MessageRecord>)
    ensures resp.None? && trace == [] && log == []
  {
    var store := new Store();
    var body := Payload(Some([Entry(Some("E1"), Some([MessagingEvent(None, Some(Message(false, Some("hi"))))]), None)]));
    assert Extract(body) == Extracted([], true);
    ghost var creds;
    resp, trace, creds := HandleWebhook(store, Request("POST", NoQuery, body), env, Some("secret"));
    log := store.messages;
  }
}
