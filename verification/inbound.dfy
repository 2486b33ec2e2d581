/** The body of a POST to `/webhook` and its normalisation into a flat list of
    inbound message events (server.js, lines 180-241). Everything here is pure:
    the handler in module Webhook walks the same structure with loops and is
    proved to produce exactly `Extract(body)`. */
module Inbound {
  import opened Common

  // ---- Messenger shape: entry[].messaging[] ----

  datatype Sender = Sender(id: Option<string>)
  /** `isEcho` is the truthiness of `message.is_echo`. */
  datatype Message = Message(isEcho: bool, text: Option<string>)
  datatype MessagingEvent = MessagingEvent(sender: Option<Sender>, message: Option<Message>)

  // ---- WhatsApp shape: entry[].changes[].value.messages[] ----

  datatype Metadata = Metadata(phoneNumberId: Option<string>)
  datatype WaText = WaText(body: Option<string>)
  datatype WaMessage = WaMessage(from: Option<string>, text: Option<WaText>)
  datatype ChangeValue = ChangeValue(metadata: Option<Metadata>, messages: Option<seq<WaMessage>>)
  datatype Change = Change(value: Option<ChangeValue>)

  datatype Entry = Entry(id: Option<string>, messaging: Option<seq<MessagingEvent>>, changes: Option<seq<Change>>)
  datatype Payload = Payload(entry: Option<seq<Entry>>)

  // ---- Normalised events ----

  /** The `platform` column: "messenger" or "whatsapp". */
  datatype Platform = Messenger | WhatsApp

  /** One inbound message: `(platform, chat_id, sender_id, text)`. A `None` id
      is a JavaScript `undefined`, stored as SQL NULL. */
  datatype Event = Event(platform: Platform, chatId: Option<string>, senderId: Option<string>, text: string)

  /** The events found so far, and whether the walk stopped on a TypeError
      (a qualifying Messenger event without `sender`). */
  datatype Extracted = Extracted(events: seq<Event>, aborted: bool)

  /** Sequential composition: nothing after an abort is reached. */
  function Then(a: Extracted, b: Extracted): Extracted
  {
    if a.aborted then a else Extracted(a.events + b.events, b.aborted)
  }

  const Empty := Extracted([], false)

  // ---- Messenger ----

  /** `ev.message && !ev.message.is_echo && ev.message.text` (line 187). */
  predicate Qualifies(ev: MessagingEvent)
  {
    ev.message.Some? && !ev.message.value.isEcho && Truthy(ev.message.value.text)
  }

  /** `ev.sender.id`, for an event whose `sender` is present. */
  function SenderId(ev: MessagingEvent): Option<string>
  {
    if ev.sender.Some? then ev.sender.value.id else None
  }

  /** The event a qualifying Messenger item becomes (lines 188-190). */
  function NormaliseMessaging(entryId: Option<string>, ev: MessagingEvent): (e: Event)
    requires Qualifies(ev)
    ensures e.platform == Messenger && e.text != ""
    ensures e.text == ev.message.value.text.value
    ensures e.senderId == SenderId(ev)
    ensures Truthy(entryId) ==> e.chatId == entryId
    ensures !Truthy(entryId) ==> e.chatId == e.senderId
  {
    Event(Messenger, Or(entryId, SenderId(ev)), SenderId(ev), ev.message.value.text.value)
  }

  /** What one `messaging` item contributes. */
  function FromMessaging(entryId: Option<string>, ev: MessagingEvent): Extracted
  {
    if !Qualifies(ev) then Empty
    else if ev.sender.None? then Extracted([], true)
    else Extracted([NormaliseMessaging(entryId, ev)], false)
  }

  /** Predicate: every event is a Messenger event with a non-empty text whose
      chat id is the entry id, or the sender id when the entry id is falsy. */
  predicate MessengerShaped(entryId: Option<string>, es: seq<Event>)
  {
    forall e :: e in es ==>
      e.platform == Messenger && e.text != "" &&
      e.chatId == (if Truthy(entryId) then entryId else e.senderId)
  }

  /** The events of `entry.messaging` (lines 185-207). */
  function MessengerEvents(entryId: Option<string>, evs: seq<MessagingEvent>): (r: Extracted)
  {
    if evs == [] then Empty
    else Then(MessengerEvents(entryId, evs[..|evs| - 1]), FromMessaging(entryId, evs[|evs| - 1]))
  }

  // ---- WhatsApp ----

  /** `m.text && m.text.body` (line 216). */
  predicate HasBody(m: WaMessage)
  {
    m.text.Some? && Truthy(m.text.value.body)
  }

  /** `(change.value || {}).messages || []` (lines 213-214). */
  function ChangeMessages(c: Change): seq<WaMessage>
  {
    if c.value.Some? && c.value.value.messages.Some? then c.value.value.messages.value else []
  }

  /** `value.metadata?.phone_number_id || ""` (line 219). */
  function ChangeChatId(c: Change): string
  {
    if c.value.Some? && c.value.value.metadata.Some? && Truthy(c.value.value.metadata.value.phoneNumberId)
    then c.value.value.metadata.value.phoneNumberId.value
    else ""
  }

  /** The event a WhatsApp message with a body becomes (lines 217-219). */
  function NormaliseWa(chatId: string, m: WaMessage): (e: Event)
    requires HasBody(m)
    ensures e.platform == WhatsApp && e.text != "" && e.chatId == Some(chatId) && e.senderId == m.from
    ensures e.text == m.text.value.body.value
  {
    Event(WhatsApp, Some(chatId), m.from, m.text.value.body.value)
  }

  predicate WhatsappShaped(es: seq<Event>)
  {
    forall e :: e in es ==> e.platform == WhatsApp && e.text != "" && e.chatId.Some?
  }

  /** The events of one `value.messages` list, all under chat id `chatId`. */
  function WaMessagesEvents(chatId: string, ms: seq<WaMessage>): seq<Event>
  {
    if ms == [] then []
    else WaMessagesEvents(chatId, ms[..|ms| - 1])
         + (if HasBody(ms[|ms| - 1]) then [NormaliseWa(chatId, ms[|ms| - 1])] else [])
  }

  /** The events of `entry.changes` (lines 211-240). */
  function ChangesEvents(cs: seq<Change>): seq<Event>
  {
    if cs == [] then []
    else ChangesEvents(cs[..|cs| - 1])
         + WaMessagesEvents(ChangeChatId(cs[|cs| - 1]), ChangeMessages(cs[|cs| - 1]))
  }

  // ---- Whole body ----

  /** The events of one entry: its Messenger items, then its WhatsApp items. */
  function EntryEvents(en: Entry): (r: Extracted)
    ensures en.messaging.None? && en.changes.None? ==> r == Empty
  {
    Then(
      if en.messaging.Some? then MessengerEvents(en.id, en.messaging.value) else Empty,
      Extracted(if en.changes.Some? then ChangesEvents(en.changes.value) else [], false))
  }

  function EntriesEvents(ens: seq<Entry>): (r: Extracted)
    ensures ens == [] ==> r == Empty
  {
    if ens == [] then Empty
    else Then(EntriesEvents(ens[..|ens| - 1]), EntryEvents(ens[|ens| - 1]))
  }

  /** Every event the POST handler logs as incoming, in order, and whether it
      stopped early (lines 183-242). */
  function Extract(p: Payload): (r: Extracted)
    ensures p.entry.None? ==> r == Empty
  {
    if p.entry.Some? then EntriesEvents(p.entry.value) else Empty
  }

  // ---- Properties ----

  lemma ThenAssoc(a: Extracted, b: Extracted, c: Extracted)
    ensures Then(Then(a, b), c) == Then(a, Then(b, c))
  {
    if !a.aborted && !b.aborted {
      assert (a.events + b.events) + c.events == a.events + (b.events + c.events);
    }
  }

  /** Entries are processed in order: the events of `a + b` are those of `a`
      followed by those of `b`, unless `a` already stopped the walk. */
  lemma {:induction false} EntriesAppend(a: seq<Entry>, b: seq<Entry>)
    ensures EntriesEvents(a + b) == Then(EntriesEvents(a), EntriesEvents(b))
    decreases |b|
  {
    if b == [] {
      assert a + b == a;
    } else {
      var b' := b[..|b| - 1];
      assert (a + b)[..|a + b| - 1] == a + b';
      assert (a + b)[|a + b| - 1] == b[|b| - 1];
      EntriesAppend(a, b');
      ThenAssoc(EntriesEvents(a), EntriesEvents(b'), EntryEvents(b[|b| - 1]));
    }
  }

  /** The Messenger walk stops exactly when some qualifying item has no
      `sender`. */
  lemma {:induction false} MessengerAbortsIff(entryId: Option<string>, evs: seq<MessagingEvent>)
    ensures MessengerEvents(entryId, evs).aborted <==>
      exists i :: 0 <= i < |evs| && Qualifies(evs[i]) && evs[i].sender.None?
    decreases |evs|
  {
    if evs != [] {
      var evs' := evs[..|evs| - 1];
      MessengerAbortsIff(entryId, evs');
      if MessengerEvents(entryId, evs).aborted {
        if MessengerEvents(entryId, evs').aborted {
          var i :| 0 <= i < |evs'| && Qualifies(evs'[i]) && evs'[i].sender.None?;
          assert evs[i] == evs'[i];
        } else {
          assert Qualifies(evs[|evs| - 1]) && evs[|evs| - 1].sender.None?;
        }
      } else {
        forall i | 0 <= i < |evs'| ensures !(Qualifies(evs'[i]) && evs'[i].sender.None?) {
          assert evs'[i] == evs[i];
        }
      }
    }
  }

  /** An entry holding a qualifying Messenger item without `sender`. */
  predicate EntryThrows(en: Entry)
  {
    en.messaging.Some? &&
    exists j :: 0 <= j < |en.messaging.value| && Qualifies(en.messaging.value[j]) && en.messaging.value[j].sender.None?
  }

  /** One entry's walk stops exactly when the entry throws. */
  lemma EntryAbortsIff(en: Entry)
    ensures EntryEvents(en).aborted <==> EntryThrows(en)
  {
    if en.messaging.Some? {
      MessengerAbortsIff(en.id, en.messaging.value);
    }
  }

  /** The walk of the whole body stops exactly when some entry holds a
      qualifying Messenger item without `sender`; the WhatsApp shape never
      stops it. */
  lemma {:induction false} EntriesAbortIff(ens: seq<Entry>)
    ensures EntriesEvents(ens).aborted <==> exists i :: 0 <= i < |ens| && EntryThrows(ens[i])
    decreases |ens|
  {
    if ens != [] {
      var ens' := ens[..|ens| - 1];
      var en := ens[|ens| - 1];
      EntriesAbortIff(ens');
      EntryAbortsIff(en);
      EntriesThrowSplit(ens, ens', en);
      assert EntriesEvents(ens).aborted == (EntriesEvents(ens').aborted || EntryEvents(en).aborted);
    }
  }

  /** Some entry of a non-empty list throws exactly when one of all but the
      last does, or the last does. */
  lemma EntriesThrowSplit(ens: seq<Entry>, ens': seq<Entry>, en: Entry)
    requires ens == ens' + [en]
    ensures (exists i :: 0 <= i < |ens| && EntryThrows(ens[i])) <==>
      (exists i :: 0 <= i < |ens'| && EntryThrows(ens'[i])) || EntryThrows(en)
  {
    if exists i :: 0 <= i < |ens'| && EntryThrows(ens'[i]) {
      var i :| 0 <= i < |ens'| && EntryThrows(ens'[i]);
      assert ens[i] == ens'[i];
    }
    if exists i :: 0 <= i < |ens| && EntryThrows(ens[i]) {
      var i :| 0 <= i < |ens| && EntryThrows(ens[i]);
      if i < |ens'| {
        assert ens'[i] == ens[i];
      }
    }
    assert ens[|ens'|] == en;
  }

  /** Entries with neither `messaging` nor `changes` contribute nothing. */
  lemma {:induction false} ShapelessEntriesAddNothing(ens: seq<Entry>)
    requires forall i :: 0 <= i < |ens| ==> ens[i].messaging.None? && ens[i].changes.None?
    ensures EntriesEvents(ens) == Empty
    decreases |ens|
  {
    if ens != [] {
      ShapelessEntriesAddNothing(ens[..|ens| - 1]);
    }
  }

  /** Unless it stops, the Messenger walk yields one event per qualifying
      item, in order, and skips every other item. */
  lemma {:induction false} MessengerEventsAreQualifying(entryId: Option<string>, evs: seq<MessagingEvent>)
    ensures var r := MessengerEvents(entryId, evs); var q := Filter(Qualifies, evs);
      !r.aborted ==>
        |r.events| == |q| &&
        forall i :: 0 <= i < |q| ==> r.events[i] == NormaliseMessaging(entryId, q[i])
    decreases |evs|
  {
    if evs != [] {
      var evs' := evs[..|evs| - 1];
      MessengerEventsAreQualifying(entryId, evs');
      var last := evs[|evs| - 1];
      assert Filter(Qualifies, evs) == Filter(Qualifies, evs') + (if Qualifies(last) then [last] else []);
    }
  }

  /** Every WhatsApp message with a non-empty `text.body` yields one event, in
      order; every other message is skipped. */
  lemma {:induction false} WaMessagesEventsHaveBodies(chatId: string, ms: seq<WaMessage>)
    ensures var r := WaMessagesEvents(chatId, ms); var q := Filter(HasBody, ms);
      |r| == |q| && forall i :: 0 <= i < |q| ==> r[i] == NormaliseWa(chatId, q[i])
    decreases |ms|
  {
    if ms != [] {
      WaMessagesEventsHaveBodies(chatId, ms[..|ms| - 1]);
    }
  }

  /** Every Messenger event carries a non-empty text and is filed under the
      entry id, or under its sender when the entry id is falsy. */
  lemma {:induction false} MessengerEventsShaped(entryId: Option<string>, evs: seq<MessagingEvent>)
    ensures MessengerShaped(entryId, MessengerEvents(entryId, evs).events)
    decreases |evs|
  {
    if evs != [] {
      MessengerEventsShaped(entryId, evs[..|evs| - 1]);
    }
  }

  /** Every WhatsApp event of one change carries a non-empty text and is
      filed under that change's phone number id. */
  lemma {:induction false} WaMessagesEventsShaped(chatId: string, ms: seq<WaMessage>)
    ensures forall e :: e in WaMessagesEvents(chatId, ms) ==>
      e.platform == WhatsApp && e.text != "" && e.chatId == Some(chatId)
    decreases |ms|
  {
    if ms != [] {
      WaMessagesEventsShaped(chatId, ms[..|ms| - 1]);
    }
  }

  lemma {:induction false} ChangesEventsShaped(cs: seq<Change>)
    ensures WhatsappShaped(ChangesEvents(cs))
    decreases |cs|
  {
    if cs != [] {
      ChangesEventsShaped(cs[..|cs| - 1]);
      WaMessagesEventsShaped(ChangeChatId(cs[|cs| - 1]), ChangeMessages(cs[|cs| - 1]));
    }
  }

  /** Every WhatsApp event of one change comes from one of its messages with
      a body. */
  lemma {:induction false} WaMessagesEventsFrom(chatId: string, ms: seq<WaMessage>)
    ensures forall e :: e in WaMessagesEvents(chatId, ms) ==>
      exists m :: m in ms && HasBody(m) && e == NormaliseWa(chatId, m)
    decreases |ms|
  {
    if ms != [] {
      var init, last := ms[..|ms| - 1], ms[|ms| - 1];
      WaMessagesEventsFrom(chatId, init);
      forall e | e in WaMessagesEvents(chatId, ms)
        ensures exists m :: m in ms && HasBody(m) && e == NormaliseWa(chatId, m)
      {
        if e in WaMessagesEvents(chatId, init) {
          var m :| m in init && HasBody(m) && e == NormaliseWa(chatId, m);
          assert m in ms;
        } else {
          assert last in ms && HasBody(last) && e == NormaliseWa(chatId, last);
        }
      }
    }
  }

  /** Every message of one change with a body yields its event. */
  lemma {:induction false} WaMessagesEventsCover(chatId: string, ms: seq<WaMessage>)
    ensures forall m :: m in ms && HasBody(m) ==> NormaliseWa(chatId, m) in WaMessagesEvents(chatId, ms)
    decreases |ms|
  {
    if ms != [] {
      var init := ms[..|ms| - 1];
      WaMessagesEventsCover(chatId, init);
      forall m | m in ms && HasBody(m)
        ensures NormaliseWa(chatId, m) in WaMessagesEvents(chatId, ms)
      {
        if m != ms[|ms| - 1] {
          assert m in init by {
            var k :| 0 <= k < |ms| && ms[k] == m;
            assert init[k] == m;
          }
        }
      }
    }
  }

  /** The events drawn from `changes` are exactly the messages with a body,
      each normalised under the chat id of the change that carries it. */
  lemma {:induction false} ChangesEventsIff(cs: seq<Change>)
    ensures forall e :: e in ChangesEvents(cs) <==>
      exists i, m ::
        (0 <= i < |cs| && m in ChangeMessages(cs[i]) && HasBody(m) &&
         e == NormaliseWa(ChangeChatId(cs[i]), m))
    decreases |cs|
  {
    if cs != [] {
      var n := |cs| - 1;
      var init, last := cs[..n], cs[n];
      ChangesEventsIff(init);
      WaMessagesEventsFrom(ChangeChatId(last), ChangeMessages(last));
      WaMessagesEventsCover(ChangeChatId(last), ChangeMessages(last));
      forall e | e in ChangesEvents(cs)
        ensures exists i, m ::
          (0 <= i < |cs| && m in ChangeMessages(cs[i]) && HasBody(m) &&
           e == NormaliseWa(ChangeChatId(cs[i]), m))
      {
        if e in ChangesEvents(init) {
          var i, m :| 0 <= i < |init| && m in ChangeMessages(init[i]) && HasBody(m) &&
            e == NormaliseWa(ChangeChatId(init[i]), m);
          assert init[i] == cs[i];
        } else {
          var m :| m in ChangeMessages(last) && HasBody(m) && e == NormaliseWa(ChangeChatId(last), m);
          assert cs[n] == last;
        }
      }
      forall e, i, m | 0 <= i < |cs| && m in ChangeMessages(cs[i]) && HasBody(m) &&
          e == NormaliseWa(ChangeChatId(cs[i]), m)
        ensures e in ChangesEvents(cs)
      {
        if i < n {
          assert init[i] == cs[i];
        }
      }
    }
  }

  /** Only messages with a text are ever logged: every extracted event has a
      non-empty text. */
  lemma {:induction false} EntriesTextsNonEmpty(ens: seq<Entry>)
    ensures forall e :: e in EntriesEvents(ens).events ==> e.text != ""
    decreases |ens|
  {
    if ens != [] {
      EntriesTextsNonEmpty(ens[..|ens| - 1]);
      var en := ens[|ens| - 1];
      if en.messaging.Some? {
        MessengerEventsShaped(en.id, en.messaging.value);
      }
      if en.changes.Some? {
        ChangesEventsShaped(en.changes.value);
      }
    }
  }

  lemma ExtractTextsNonEmpty(p: Payload)
    ensures forall e :: e in Extract(p).events ==> e.text != ""
  {
    if p.entry.Some? {
      EntriesTextsNonEmpty(p.entry.value);
    }
  }

  /** No Messenger event follows a WhatsApp event. */
  predicate MessengerBeforeWhatsapp(es: seq<Event>)
  {
    forall i, j :: 0 <= i < j < |es| && es[i].platform == WhatsApp ==> es[j].platform == WhatsApp
  }

  lemma ConcatOrdered(ms: seq<Event>, ws: seq<Event>)
    requires forall e :: e in ms ==> e.platform == Messenger
    requires forall e :: e in ws ==> e.platform == WhatsApp
    ensures MessengerBeforeWhatsapp(ms + ws)
  {
    var es := ms + ws;
    forall k | 0 <= k < |ms| ensures es[k].platform == Messenger {
      assert es[k] == ms[k] && ms[k] in ms;
    }
    forall i, j | 0 <= i < j < |es| && es[i].platform == WhatsApp
      ensures es[j].platform == WhatsApp
    {
      assert es[j] == ws[j - |ms|] && ws[j - |ms|] in ws;
    }
  }

  /** Within one entry every Messenger event precedes every WhatsApp event. */
  lemma EntryMessengerFirst(en: Entry)
    ensures MessengerBeforeWhatsapp(EntryEvents(en).events)
  {
    var m := if en.messaging.Some? then MessengerEvents(en.id, en.messaging.value) else Empty;
    var w := if en.changes.Some? then ChangesEvents(en.changes.value) else [];
    if en.messaging.Some? {
      MessengerEventsShaped(en.id, en.messaging.value);
    }
    if en.changes.Some? {
      ChangesEventsShaped(en.changes.value);
    }
    if m.aborted {
      ConcatOrdered(m.events, []);
      assert m.events + [] == m.events;
    } else {
      ConcatOrdered(m.events, w);
    }
  }

  lemma {:induction false} MessengerEventsAppend(entryId: Option<string>, a: seq<MessagingEvent>, b: seq<MessagingEvent>)
    ensures MessengerEvents(entryId, a + b) == Then(MessengerEvents(entryId, a), MessengerEvents(entryId, b))
    decreases |b|
  {
    if b == [] {
      assert a + b == a;
    } else {
      var b' := b[..|b| - 1];
      assert (a + b)[..|a + b| - 1] == a + b';
      assert (a + b)[|a + b| - 1] == b[|b| - 1];
      MessengerEventsAppend(entryId, a, b');
      ThenAssoc(MessengerEvents(entryId, a), MessengerEvents(entryId, b'), FromMessaging(entryId, b[|b| - 1]));
    }
  }

  /** Walking one more Messenger item extends the walk so far by that item. */
  lemma MessengerStep(entryId: Option<string>, evs: seq<MessagingEvent>, j: nat)
    requires j < |evs|
    ensures MessengerEvents(entryId, evs[..j + 1]) == Then(MessengerEvents(entryId, evs[..j]), FromMessaging(entryId, evs[j]))
  {
    assert evs[..j + 1][..j] == evs[..j];
  }

  /** Once the walk of a prefix has stopped, the rest of the list is ignored. */
  lemma MessengerAbortedPrefix(entryId: Option<string>, evs: seq<MessagingEvent>, k: nat)
    requires k <= |evs| && MessengerEvents(entryId, evs[..k]).aborted
    ensures MessengerEvents(entryId, evs) == MessengerEvents(entryId, evs[..k])
  {
    var head, rest := evs[..k], evs[k..];
    assert head + rest == evs;
    MessengerEventsAppend(entryId, head, rest);
  }

  /** A qualifying Messenger item without `sender` ends the walk of its list:
      the items after it are never looked at. */
  lemma MessengerAbortsAt(entryId: Option<string>, evs: seq<MessagingEvent>, j: nat)
    requires j < |evs| && Qualifies(evs[j]) && evs[j].sender.None?
    requires !MessengerEvents(entryId, evs[..j]).aborted
    ensures MessengerEvents(entryId, evs) == Extracted(MessengerEvents(entryId, evs[..j]).events, true)
  {
    var head, rest := evs[..j + 1], evs[j + 1..];
    var x := MessengerEvents(entryId, head);
    assert x == Extracted(MessengerEvents(entryId, evs[..j]).events, true) by {
      assert head[..|head| - 1] == evs[..j] && head[|head| - 1] == evs[j];
    }
    assert MessengerEvents(entryId, evs) == Then(x, MessengerEvents(entryId, rest)) by {
      MessengerEventsAppend(entryId, head, rest);
      assert head + rest == evs;
    }
  }

  /** Walking one more entry extends the walk so far by that entry's events. */
  lemma EntriesStep(ens: seq<Entry>, i: nat)
    requires i < |ens|
    ensures EntriesEvents(ens[..i + 1]) == Then(EntriesEvents(ens[..i]), EntryEvents(ens[i]))
  {
    assert ens[..i + 1][..i] == ens[..i];
  }

  /** An entry whose walk stops ends the walk of the whole body. */
  lemma EntriesAbortAt(ens: seq<Entry>, i: nat)
    requires i < |ens| && EntryEvents(ens[i]).aborted
    requires !EntriesEvents(ens[..i]).aborted
    ensures EntriesEvents(ens) == Extracted(EntriesEvents(ens[..i]).events + EntryEvents(ens[i]).events, true)
  {
    var head, rest := ens[..i + 1], ens[i + 1..];
    assert ens == head + rest;
    var p, x, y := EntriesEvents(ens[..i]), EntryEvents(ens[i]), EntriesEvents(rest);
    assert EntriesEvents(head) == Then(p, x) by {
      EntriesStep(ens, i);
    }
    assert EntriesEvents(ens) == Then(EntriesEvents(head), y) by {
      EntriesAppend(head, rest);
    }
  }
}
