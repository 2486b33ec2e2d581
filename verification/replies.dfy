/** What the POST handler does for one inbound event (server.js, lines 192-205
    for Messenger, 221-236 for WhatsApp): log it, ask the completion service
    for a reply, send the reply through the platform and log it. The completion
    service and the two senders are oracles held in `Env`; the handler's
    observable behaviour is the sequence of `Action`s it performs. */
module Replies {
  import opened Common
  import opened Inbound
  import opened Db

  /** A role-tagged turn sent to the completion service. */
  datatype Turn = Turn(role: string, content: string)

  const SystemInstruction := "You are a helpful assistant."
  /** What `generateAIReply` returns when the completion call fails (line 95). */
  const Fallback := "Sorry, I can't respond right now."
  const PageSender := "page"
  const WhatsappSender := "wa_bot"

  /** The message list built for one inbound text (lines 194-197, 225-228). */
  function Prompt(text: string): seq<Turn>
  {
    [Turn("system", SystemInstruction), Turn("user", text)]
  }

  /** The outside world. `complete` answers a prompt with the top choice's
      content, or `None` on any failure; `messengerSend(pageToken, recipient,
      text)` and `whatsappSend(phoneNumberId, token, to, text)` say whether the
      Graph API call succeeded. */
  datatype Env = Env(
    complete: seq<Turn> -> Option<string>,
    messengerSend: (string, Option<string>, string) -> bool,
    whatsappSend: (string, string, Option<string>, string) -> bool)

  /** `generateAIReply`: never fails; a failed call yields the fallback text. */
  function Reply(env: Env, text: string): (r: string)
    ensures env.complete(Prompt(text)).Some? ==> r == env.complete(Prompt(text)).value
    ensures env.complete(Prompt(text)).None? ==> r == Fallback
  {
    match env.complete(Prompt(text))
    case Some(content) => content
    case None => Fallback
  }

  /** One observable step of the handler. */
  datatype Action =
    | Log(record: MessageRecord)
    | Complete(prompt: seq<Turn>)
    | SendMessenger(pageToken: string, recipient: Option<string>, text: string)
    | SendWhatsapp(phoneNumberId: string, token: string, to: Option<string>, text: string)

  /** The credential row a lookup returned for one event. */
  datatype Cred = NoCred | PageCred(page: PageRow) | WaCred(wa: WhatsappRow)

  /** `c` is a possible answer of the event's platform lookup against the tables:
      none exactly when the table is empty, otherwise some stored row. */
  ghost predicate LookupOk(e: Event, c: Cred, pages: map<string, PageRow>, wa: map<string, WhatsappRow>)
  {
    match e.platform
    case Messenger =>
      (c.NoCred? && pages == map[]) ||
      (c.PageCred? && c.page.pageId in pages && pages[c.page.pageId] == c.page)
    case WhatsApp =>
      (c.NoCred? && wa == map[]) ||
      (c.WaCred? && c.wa.phoneNumberId in wa && wa[c.wa.phoneNumberId] == c.wa)
  }

  /** `creds[k]` is a possible lookup answer for `events[k]`, for every k. */
  ghost predicate LookupsOk(events: seq<Event>, creds: seq<Cred>, pages: map<string, PageRow>, wa: map<string, WhatsappRow>)
  {
    |creds| == |events| &&
    forall k {:trigger LookupOk(events[k], creds[k], pages, wa)} ::
      0 <= k < |events| ==> LookupOk(events[k], creds[k], pages, wa)
  }

  function IncomingRecord(e: Event): MessageRecord
  {
    MessageRecord(e.platform, e.chatId, e.senderId, e.text, Incoming)
  }

  /** `wa && wa.token && wa.phone_number_id` (line 224). */
  predicate WaUsable(c: Cred)
  {
    c.WaCred? && c.wa.token != "" && c.wa.phoneNumberId != ""
  }

  /** Lines 192-205: log, complete, and with a page credential send the reply
      to the original sender and, if that succeeded, log it. */
  function MessengerActions(e: Event, c: Cred, env: Env): seq<Action>
  {
    var reply := Reply(env, e.text);
    [Log(IncomingRecord(e)), Complete(Prompt(e.text))] +
    if !c.PageCred? then []
    else
      [SendMessenger(c.page.accessToken, e.senderId, reply)] +
      if !env.messengerSend(c.page.accessToken, e.senderId, reply) then []
      else [Log(MessageRecord(Messenger, e.chatId, Some(PageSender), reply, Outgoing))]
  }

  /** Lines 221-236: log, and with a usable credential complete, send the reply
      to the original sender and, if that succeeded, log it. */
  function WhatsappActions(e: Event, c: Cred, env: Env): seq<Action>
  {
    var reply := Reply(env, e.text);
    [Log(IncomingRecord(e))] +
    if !WaUsable(c) then []
    else
      [Complete(Prompt(e.text)), SendWhatsapp(c.wa.phoneNumberId, c.wa.token, e.senderId, reply)] +
      if !env.whatsappSend(c.wa.phoneNumberId, c.wa.token, e.senderId, reply) then []
      else [Log(MessageRecord(WhatsApp, Some(c.wa.phoneNumberId), Some(WhatsappSender), reply, Outgoing))]
  }

  /** Everything the handler does for event `e`, given the credential its
      lookup returned. */
  function EventActions(e: Event, c: Cred, env: Env): seq<Action>
  {
    match e.platform
    case Messenger => MessengerActions(e, c, env)
    case WhatsApp => WhatsappActions(e, c, env)
  }

  /** The actions for a whole list of events, one after the other. */
  function Dispatch(events: seq<Event>, creds: seq<Cred>, env: Env): seq<Action>
    requires |creds| == |events|
  {
    if events == [] then []
    else Dispatch(events[..|events| - 1], creds[..|creds| - 1], env)
         + EventActions(events[|events| - 1], creds[|creds| - 1], env)
  }

  /** The outgoing record an event's handling writes, if any: the reply to a
      Messenger event when a page credential exists and the send succeeded;
      the reply to a WhatsApp event when a usable credential exists and the
      send succeeded. */
  function ReplyRecord(e: Event, c: Cred, env: Env): Option<MessageRecord>
  {
    var reply := Reply(env, e.text);
    match e.platform
    case Messenger =>
      if c.PageCred? && env.messengerSend(c.page.accessToken, e.senderId, reply)
      then Some(MessageRecord(Messenger, e.chatId, Some(PageSender), reply, Outgoing))
      else None
    case WhatsApp =>
      if WaUsable(c) && env.whatsappSend(c.wa.phoneNumberId, c.wa.token, e.senderId, reply)
      then Some(MessageRecord(WhatsApp, Some(c.wa.phoneNumberId), Some(WhatsappSender), reply, Outgoing))
      else None
  }

  /** The records one event adds to the log: its incoming record, then its
      reply record if there is one. */
  function EventRecords(e: Event, c: Cred, env: Env): seq<MessageRecord>
  {
    [IncomingRecord(e)] + (if ReplyRecord(e, c, env).Some? then [ReplyRecord(e, c, env).value] else [])
  }

  /** The records a list of events adds to the log. */
  function LogOf(events: seq<Event>, creds: seq<Cred>, env: Env): seq<MessageRecord>
    requires |creds| == |events|
  {
    if events == [] then []
    else LogOf(events[..|events| - 1], creds[..|creds| - 1], env)
         + EventRecords(events[|events| - 1], creds[|creds| - 1], env)
  }

  /** The records a trace writes to the message log, in order. */
  function Records(trace: seq<Action>): (r: seq<MessageRecord>)
    ensures |r| <= |trace|
  {
    if trace == [] then []
    else Records(trace[..|trace| - 1]) + (if trace[|trace| - 1].Log? then [trace[|trace| - 1].record] else [])
  }

  predicate IsIncoming(r: MessageRecord)
  {
    r.direction == Incoming
  }

  predicate IsSend(a: Action)
  {
    a.SendMessenger? || a.SendWhatsapp?
  }

  // ---- Properties ----

  lemma {:induction false} RecordsAppend(a: seq<Action>, b: seq<Action>)
    ensures Records(a + b) == Records(a) + Records(b)
    decreases |b|
  {
    if b == [] {
      assert a + b == a;
    } else {
      var b' := b[..|b| - 1];
      assert (a + b)[..|a + b| - 1] == a + b';
      assert (a + b)[|a + b| - 1] == b[|b| - 1];
      RecordsAppend(a, b');
    }
  }

  lemma RecordsCons(a: Action, rest: seq<Action>)
    ensures Records([a] + rest) == (if a.Log? then [a.record] else []) + Records(rest)
  {
    RecordsAppend([a], rest);
    assert [a][..0] == [];
  }

  lemma LookupsOkAppend(a: seq<Event>, ca: seq<Cred>, b: seq<Event>, cb: seq<Cred>,
                        pages: map<string, PageRow>, wa: map<string, WhatsappRow>)
    requires LookupsOk(a, ca, pages, wa) && LookupsOk(b, cb, pages, wa)
    ensures LookupsOk(a + b, ca + cb, pages, wa)
  {
    forall k | 0 <= k < |a + b| ensures LookupOk((a + b)[k], (ca + cb)[k], pages, wa) {
      if k < |a| {
        assert (a + b)[k] == a[k] && (ca + cb)[k] == ca[k];
      } else {
        assert (a + b)[k] == b[k - |a|] && (ca + cb)[k] == cb[k - |a|];
      }
    }
  }

  lemma AppendAssoc<T>(a: seq<T>, b: seq<T>, c: seq<T>)
    ensures a + b + c == a + (b + c)
  {
  }

  /** One more event: the trace, the log and the lookups all extend by it. */
  lemma DispatchStep(events: seq<Event>, creds: seq<Cred>, e: Event, c: Cred, env: Env,
                     pages: map<string, PageRow>, wa: map<string, WhatsappRow>)
    requires LookupsOk(events, creds, pages, wa) && LookupOk(e, c, pages, wa)
    ensures LookupsOk(events + [e], creds + [c], pages, wa)
    ensures Dispatch(events + [e], creds + [c], env) == Dispatch(events, creds, env) + EventActions(e, c, env)
    ensures LogOf(events + [e], creds + [c], env) == LogOf(events, creds, env) + EventRecords(e, c, env)
  {
    assert (events + [e])[..|events|] == events;
    assert (creds + [c])[..|creds|] == creds;
    LookupsOkAppend(events, creds, [e], [c], pages, wa);
  }

  lemma {:induction false} LogOfAppend(a: seq<Event>, ca: seq<Cred>, b: seq<Event>, cb: seq<Cred>, env: Env)
    requires |ca| == |a| && |cb| == |b|
    ensures LogOf(a + b, ca + cb, env) == LogOf(a, ca, env) + LogOf(b, cb, env)
    decreases |b|
  {
    if b == [] {
      assert a + b == a && ca + cb == ca;
    } else {
      var n := |b| - 1;
      assert (a + b)[..|a + b| - 1] == a + b[..n];
      assert (ca + cb)[..|ca + cb| - 1] == ca + cb[..n];
      assert (a + b)[|a + b| - 1] == b[n] && (ca + cb)[|ca + cb| - 1] == cb[n];
      LogOfAppend(a, ca, b[..n], cb[..n], env);
      AppendAssoc(LogOf(a, ca, env), LogOf(b[..n], cb[..n], env), EventRecords(b[n], cb[n], env));
    }
  }

  /** Handling `events` and then `more` is handling `events + more`: the
      lookups, the trace and the log each compose. */
  lemma RunAppend(events: seq<Event>, creds: seq<Cred>, more: seq<Event>, cs: seq<Cred>, env: Env,
                  pages: map<string, PageRow>, wa: map<string, WhatsappRow>,
                  log0: seq<MessageRecord>, log1: seq<MessageRecord>, log2: seq<MessageRecord>)
    requires LookupsOk(events, creds, pages, wa) && LookupsOk(more, cs, pages, wa)
    requires log1 == log0 + LogOf(events, creds, env)
    requires log2 == log1 + LogOf(more, cs, env)
    ensures LookupsOk(events + more, creds + cs, pages, wa)
    ensures Dispatch(events + more, creds + cs, env) == Dispatch(events, creds, env) + Dispatch(more, cs, env)
    ensures log2 == log0 + LogOf(events + more, creds + cs, env)
  {
    LookupsOkAppend(events, creds, more, cs, pages, wa);
    DispatchAppend(events, creds, more, cs, env);
    LogOfAppend(events, creds, more, cs, env);
    AppendAssoc(log0, LogOf(events, creds, env), LogOf(more, cs, env));
  }

  /** The same for a single further event. */
  lemma RunStep(events: seq<Event>, creds: seq<Cred>, e: Event, c: Cred, env: Env,
                pages: map<string, PageRow>, wa: map<string, WhatsappRow>,
                log0: seq<MessageRecord>, log1: seq<MessageRecord>, log2: seq<MessageRecord>)
    requires LookupsOk(events, creds, pages, wa) && LookupOk(e, c, pages, wa)
    requires log1 == log0 + LogOf(events, creds, env)
    requires log2 == log1 + EventRecords(e, c, env)
    ensures LookupsOk(events + [e], creds + [c], pages, wa)
    ensures Dispatch(events + [e], creds + [c], env) == Dispatch(events, creds, env) + EventActions(e, c, env)
    ensures log2 == log0 + LogOf(events + [e], creds + [c], env)
  {
    DispatchStep(events, creds, e, c, env, pages, wa);
    AppendAssoc(log0, LogOf(events, creds, env), EventRecords(e, c, env));
  }

  /** Handling a single event is handling the list of just that event. */
  lemma RunSingle(e: Event, c: Cred, env: Env, pages: map<string, PageRow>, wa: map<string, WhatsappRow>)
    requires LookupOk(e, c, pages, wa)
    ensures LookupsOk([e], [c], pages, wa)
    ensures Dispatch([e], [c], env) == EventActions(e, c, env)
    ensures LogOf([e], [c], env) == EventRecords(e, c, env)
  {
    DispatchStep([], [], e, c, env, pages, wa);
    assert [] + [e] == [e] && [] + [c] == [c];
  }

  /** The actions for two lists of events are those of the first list, then
      those of the second. */
  lemma {:induction false} DispatchAppend(a: seq<Event>, ca: seq<Cred>, b: seq<Event>, cb: seq<Cred>, env: Env)
    requires |ca| == |a| && |cb| == |b|
    ensures Dispatch(a + b, ca + cb, env) == Dispatch(a, ca, env) + Dispatch(b, cb, env)
    decreases |b|
  {
    if b == [] {
      assert a + b == a && ca + cb == ca;
    } else {
      var n := |b| - 1;
      assert (a + b)[..|a + b| - 1] == a + b[..n];
      assert (ca + cb)[..|ca + cb| - 1] == ca + cb[..n];
      assert (a + b)[|a + b| - 1] == b[n] && (ca + cb)[|ca + cb| - 1] == cb[n];
      DispatchAppend(a, ca, b[..n], cb[..n], env);
      AppendAssoc(Dispatch(a, ca, env), Dispatch(b[..n], cb[..n], env), EventActions(b[n], cb[n], env));
    }
  }

  /** A Messenger event is logged first and then always triggers a completion
      request, with or without a page credential. With a page credential the
      reply is sent to the original sender; it is logged as outgoing, under the
      event's chat id and the sender "page", exactly when a page credential
      exists and that send succeeded. */
  lemma MessengerEventSpec(e: Event, c: Cred, env: Env)
    requires e.platform == Messenger
    ensures var acts := EventActions(e, c, env); var reply := Reply(env, e.text);
      && |acts| >= 2
      && acts[0] == Log(IncomingRecord(e))
      && acts[1] == Complete(Prompt(e.text))
      && (c.PageCred? ==> |acts| >= 3 && acts[2] == SendMessenger(c.page.accessToken, e.senderId, reply))
      && (!c.PageCred? ==> |acts| == 2)
      && Records(acts) ==
         [IncomingRecord(e)] +
         (if c.PageCred? && env.messengerSend(c.page.accessToken, e.senderId, reply)
          then [MessageRecord(Messenger, e.chatId, Some(PageSender), reply, Outgoing)] else [])
  {
    var reply := Reply(env, e.text);
    var acts := EventActions(e, c, env);
    var tail := acts[2..];
    assert acts == [Log(IncomingRecord(e))] + ([Complete(Prompt(e.text))] + tail);
    RecordsCons(Log(IncomingRecord(e)), [Complete(Prompt(e.text))] + tail);
    RecordsCons(Complete(Prompt(e.text)), tail);
    if c.PageCred? {
      var out := MessageRecord(Messenger, e.chatId, Some(PageSender), reply, Outgoing);
      var sent := env.messengerSend(c.page.accessToken, e.senderId, reply);
      assert tail == [SendMessenger(c.page.accessToken, e.senderId, reply)] + (if sent then [Log(out)] else []);
      RecordsCons(SendMessenger(c.page.accessToken, e.senderId, reply), if sent then [Log(out)] else []);
      if sent {
        RecordsCons(Log(out), []);
        assert [Log(out)] + [] == [Log(out)];
      }
    } else {
      assert tail == [];
    }
  }

  /** A WhatsApp event is logged first. Only a stored credential with both a
      token and a phone number id leads to a completion request and a send to
      the original sender; the reply is logged as outgoing, under the stored
      phone number id and the sender "wa_bot", only when that send succeeded. */
  lemma WhatsappEventSpec(e: Event, c: Cred, env: Env)
    requires e.platform == WhatsApp
    ensures var acts := EventActions(e, c, env); var reply := Reply(env, e.text);
      && |acts| >= 1
      && acts[0] == Log(IncomingRecord(e))
      && (WaUsable(c) ==>
            |acts| >= 3 && acts[1] == Complete(Prompt(e.text)) &&
            acts[2] == SendWhatsapp(c.wa.phoneNumberId, c.wa.token, e.senderId, reply))
      && (!WaUsable(c) ==> |acts| == 1)
      && Records(acts) ==
         [IncomingRecord(e)] +
         (if WaUsable(c) && env.whatsappSend(c.wa.phoneNumberId, c.wa.token, e.senderId, reply)
          then [MessageRecord(WhatsApp, Some(c.wa.phoneNumberId), Some(WhatsappSender), reply, Outgoing)]
          else [])
  {
    var reply := Reply(env, e.text);
    var acts := EventActions(e, c, env);
    var tail := acts[1..];
    assert acts == [Log(IncomingRecord(e))] + tail;
    RecordsCons(Log(IncomingRecord(e)), tail);
    if WaUsable(c) {
      var send := SendWhatsapp(c.wa.phoneNumberId, c.wa.token, e.senderId, reply);
      var out := MessageRecord(WhatsApp, Some(c.wa.phoneNumberId), Some(WhatsappSender), reply, Outgoing);
      var sent := env.whatsappSend(c.wa.phoneNumberId, c.wa.token, e.senderId, reply);
      assert tail == [Complete(Prompt(e.text))] + ([send] + (if sent then [Log(out)] else []));
      RecordsCons(Complete(Prompt(e.text)), [send] + (if sent then [Log(out)] else []));
      RecordsCons(send, if sent then [Log(out)] else []);
      if sent {
        RecordsCons(Log(out), []);
        assert [Log(out)] + [] == [Log(out)];
      }
    } else {
      assert tail == [];
    }
  }

  /** Whatever the credential, an event leaves exactly one incoming record:
      its own. */
  lemma EventIncoming(e: Event, c: Cred, env: Env)
    ensures Filter(IsIncoming, Records(EventActions(e, c, env))) == [IncomingRecord(e)]
  {
    var rs := Records(EventActions(e, c, env));
    var reply := Reply(env, e.text);
    var incoming := IncomingRecord(e);
    var replied: bool, out: MessageRecord;
    if e.platform == Messenger {
      MessengerEventSpec(e, c, env);
      replied := c.PageCred? && env.messengerSend(c.page.accessToken, e.senderId, reply);
      out := MessageRecord(Messenger, e.chatId, Some(PageSender), reply, Outgoing);
    } else {
      WhatsappEventSpec(e, c, env);
      replied := WaUsable(c) && env.whatsappSend(c.wa.phoneNumberId, c.wa.token, e.senderId, reply);
      out := MessageRecord(WhatsApp, if c.WaCred? then Some(c.wa.phoneNumberId) else None,
        Some(WhatsappSender), reply, Outgoing);
    }
    assert rs == [incoming] + (if replied then [out] else []);
    FilterSingle(IsIncoming, incoming);
    if replied {
      FilterAppend(IsIncoming, [incoming], [out]);
      FilterSingle(IsIncoming, out);
    } else {
      assert rs == [incoming];
    }
  }

  lemma FilterSingle<T>(p: T -> bool, x: T)
    ensures Filter(p, [x]) == if p(x) then [x] else []
  {
    assert [x][..0] == [];
  }

  /** Every outgoing record is directly preceded in the trace by the send that
      delivered its text. */
  ghost predicate RepliesFollowSends(trace: seq<Action>)
  {
    forall i :: 0 <= i < |trace| && trace[i].Log? && trace[i].record.direction == Outgoing ==>
      0 < i && IsSend(trace[i - 1]) && trace[i - 1].text == trace[i].record.text
  }

  lemma EventRepliesFollowSends(e: Event, c: Cred, env: Env)
    ensures RepliesFollowSends(EventActions(e, c, env))
    ensures EventActions(e, c, env)[0] == Log(IncomingRecord(e))
  {
  }

  lemma RepliesFollowSendsAppend(a: seq<Action>, b: seq<Action>)
    requires RepliesFollowSends(a) && RepliesFollowSends(b)
    requires b != [] ==> !(b[0].Log? && b[0].record.direction == Outgoing)
    ensures RepliesFollowSends(a + b)
  {
    forall i | 0 <= i < |a + b| && (a + b)[i].Log? && (a + b)[i].record.direction == Outgoing
      ensures 0 < i && IsSend((a + b)[i - 1]) && (a + b)[i - 1].text == (a + b)[i].record.text
    {
      if i >= |a| {
        assert (a + b)[i] == b[i - |a|];
        assert i - |a| > 0;
        assert (a + b)[i - 1] == b[i - 1 - |a|];
      }
    }
  }

  /** The log written while handling an event is `EventRecords`. */
  lemma EventLog(e: Event, c: Cred, env: Env)
    ensures Records(EventActions(e, c, env)) == EventRecords(e, c, env)
  {
    if e.platform == Messenger {
      MessengerEventSpec(e, c, env);
    } else {
      WhatsappEventSpec(e, c, env);
    }
  }

  /** The log written while handling a list of events is `LogOf`. */
  lemma {:induction false} DispatchLog(events: seq<Event>, creds: seq<Cred>, env: Env)
    requires |creds| == |events|
    ensures Records(Dispatch(events, creds, env)) == LogOf(events, creds, env)
    decreases |events|
  {
    if events != [] {
      var n := |events| - 1;
      DispatchLog(events[..n], creds[..n], env);
      RecordsAppend(Dispatch(events[..n], creds[..n], env), EventActions(events[n], creds[n], env));
      EventLog(events[n], creds[n], env);
    }
  }

  /** Over a whole request every outgoing record directly follows the send
      that delivered its text. */
  lemma {:induction false} DispatchRepliesFollowSends(events: seq<Event>, creds: seq<Cred>, env: Env)
    requires |creds| == |events|
    ensures RepliesFollowSends(Dispatch(events, creds, env))
    decreases |events|
  {
    if events != [] {
      var n := |events| - 1;
      DispatchRepliesFollowSends(events[..n], creds[..n], env);
      EventRepliesFollowSends(events[n], creds[n], env);
      RepliesFollowSendsAppend(Dispatch(events[..n], creds[..n], env), EventActions(events[n], creds[n], env));
    }
  }

  /** The incoming records a request writes are exactly its inbound events,
      normalised, in order. */
  lemma {:induction false} DispatchIncoming(events: seq<Event>, creds: seq<Cred>, env: Env)
    requires |creds| == |events|
    ensures Filter(IsIncoming, Records(Dispatch(events, creds, env))) == Map(IncomingRecord, events)
    decreases |events|
  {
    if events != [] {
      var n := |events| - 1;
      var front := Dispatch(events[..n], creds[..n], env);
      var acts := EventActions(events[n], creds[n], env);
      DispatchIncoming(events[..n], creds[..n], env);
      assert Dispatch(events, creds, env) == front + acts;
      RecordsAppend(front, acts);
      FilterAppend(IsIncoming, Records(front), Records(acts));
      EventIncoming(events[n], creds[n], env);
      assert Map(IncomingRecord, events) == Map(IncomingRecord, events[..n]) + [IncomingRecord(events[n])];
    }
  }

  /** Without any credential nothing is sent. */
  lemma {:induction false} NoCredentialNoSend(events: seq<Event>, creds: seq<Cred>, env: Env)
    requires |creds| == |events|
    requires forall i :: 0 <= i < |creds| ==> creds[i] == NoCred
    ensures forall a :: a in Dispatch(events, creds, env) ==> !IsSend(a)
    decreases |events|
  {
    if events != [] {
      var n := |events| - 1;
      NoCredentialNoSend(events[..n], creds[..n], env);
      var acts := EventActions(events[n], NoCred, env);
      assert acts == if events[n].platform == Messenger
        then [Log(IncomingRecord(events[n])), Complete(Prompt(events[n].text))]
        else [Log(IncomingRecord(events[n]))];
    }
  }

  /** Without any credential nothing outgoing is logged: the log gets exactly
      the incoming records, one per event, in order. */
  lemma {:induction false} NoCredentialNoReply(events: seq<Event>, creds: seq<Cred>, env: Env)
    requires |creds| == |events|
    requires forall i :: 0 <= i < |creds| ==> creds[i] == NoCred
    ensures Records(Dispatch(events, creds, env)) == Map(IncomingRecord, events)
    decreases |events|
  {
    DispatchLog(events, creds, env);
    NoCredentialLog(events, creds, env);
  }

  lemma {:induction false} NoCredentialLog(events: seq<Event>, creds: seq<Cred>, env: Env)
    requires |creds| == |events|
    requires forall i :: 0 <= i < |creds| ==> creds[i] == NoCred
    ensures LogOf(events, creds, env) == Map(IncomingRecord, events)
    decreases |events|
  {
    if events != [] {
      var n := |events| - 1;
      NoCredentialLog(events[..n], creds[..n], env);
      assert ReplyRecord(events[n], creds[n], env).None?;
    }
  }

  /** A WhatsApp row saved through `/save_whatsapp` always passes the handler's
      `wa.token && wa.phone_number_id` check: once any row is stored, every
      WhatsApp event gets a completion request and a send. */
  lemma SavedWhatsappCredentialIsUsable(e: Event, c: Cred, pages: map<string, PageRow>, wa: map<string, WhatsappRow>, env: Env)
    requires e.platform == WhatsApp && WhatsappKeyed(wa) && wa != map[]
    requires LookupOk(e, c, pages, wa)
    ensures WaUsable(c)
    ensures Complete(Prompt(e.text)) in EventActions(e, c, env)
  {
    WhatsappEventSpec(e, c, env);
  }
}
