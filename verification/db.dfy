/** The embedded store of server.js (lines 21-74, 134-168): an append-only
    `messages` log and two credential tables, `pages` and `whatsapp`, each
    upserted by a UNIQUE natural key with `INSERT OR REPLACE`. */
module Db {
  import opened Common
  import opened Inbound

  /** The `direction` column: "incoming" or "outgoing". */
  datatype Direction = Incoming | Outgoing

  /** A row of `messages`; its position in the log stands for the
      auto-increment id and the timestamp. */
  datatype MessageRecord = MessageRecord(
    platform: Platform, chatId: Option<string>, senderId: Option<string>,
    text: string, direction: Direction)

  /** A row of `pages`, keyed by `page_id`. */
  datatype PageRow = PageRow(pageId: string, pageName: string, accessToken: string, subscribed: int)

  /** A row of `whatsapp`, keyed by `phone_number_id`. */
  datatype WhatsappRow = WhatsappRow(phoneNumberId: string, token: string, display: Option<string>)

  /** A page as listed by the Graph API's `me/accounts`. */
  datatype GraphPage = GraphPage(id: string, name: string, accessToken: string)

  /** `INSERT OR REPLACE` on a table with a UNIQUE key: afterwards exactly one
      row has `key`, and it is `row`; every other row is as before. */
  function Upsert<V>(t: map<string, V>, key: string, row: V): (r: map<string, V>)
    ensures key in r && r[key] == row
    ensures r.Keys == t.Keys + {key}
    ensures forall k :: k in t && k != key ==> r[k] == t[k]
  {
    t[key := row]
  }

  /** Upserting twice under one key leaves only the second row. */
  lemma UpsertLatestWins<V>(t: map<string, V>, key: string, first: V, second: V)
    ensures Upsert(Upsert(t, key, first), key, second) == Upsert(t, key, second)
  {
  }

  /** Every page row sits under its own `page_id`. */
  ghost predicate PagesKeyed(t: map<string, PageRow>)
  {
    forall k :: k in t ==> t[k].pageId == k
  }

  /** Every WhatsApp row sits under its own `phone_number_id`, and, as
      `/save_whatsapp` admits only truthy values, that id and the token are
      non-empty. */
  ghost predicate WhatsappKeyed(t: map<string, WhatsappRow>)
  {
    forall k :: k in t ==> t[k].phoneNumberId == k && k != "" && t[k].token != ""
  }

  class Store {
    var messages: seq<MessageRecord>
    var pages: map<string, PageRow>
    var whatsapp: map<string, WhatsappRow>

    ghost predicate Valid()
      reads this
    {
      PagesKeyed(pages) && WhatsappKeyed(whatsapp)
    }

    /** A freshly created database: three empty tables. */
    constructor ()
      ensures Valid()
      ensures messages == [] && pages == map[] && whatsapp == map[]
    {
      messages := [];
      pages := map[];
      whatsapp := map[];
    }

    /** `dbInsertMessage`: appends one record; nothing is updated or removed. */
    method InsertMessage(r: MessageRecord)
      modifies this`messages
      ensures messages == old(messages) + [r]
    {
      messages := messages + [r];
    }

    /** `getAnyPage`: `SELECT * FROM pages LIMIT 1` without ORDER BY returns
        some stored row, which one unspecified, or none when the table is empty. */
    method AnyPage() returns (r: Option<PageRow>)
      requires Valid()
      ensures r.None? <==> pages == map[]
      ensures r.Some? ==> r.value.pageId in pages && pages[r.value.pageId] == r.value
    {
      if pages == map[] {
        r := None;
      } else {
        var k :| k in pages;
        r := Some(pages[k]);
      }
    }

    /** `getWhatsapp`: some stored row of `whatsapp`, or none. */
    method AnyWhatsapp() returns (r: Option<WhatsappRow>)
      requires Valid()
      ensures r.None? <==> whatsapp == map[]
      ensures r.Some? ==> r.value.phoneNumberId in whatsapp && whatsapp[r.value.phoneNumberId] == r.value
    {
      if whatsapp == map[] {
        r := None;
      } else {
        var k :| k in whatsapp;
        r := Some(whatsapp[k]);
      }
    }

    /** POST `/save_whatsapp` with body `{phone_id, token, display}`. */
    method SaveWhatsapp(phoneId: Option<string>, token: Option<string>, display: Option<string>)
      returns (resp: Response)
      requires Valid()
      modifies this`whatsapp
      ensures Valid()
      ensures !(Truthy(phoneId) && Truthy(token)) ==>
        resp == Send(400, Some("phone_id and token required")) && whatsapp == old(whatsapp)
      ensures Truthy(phoneId) && Truthy(token) ==>
        resp == Redirect("/") &&
        whatsapp == Upsert(old(whatsapp), phoneId.value, WhatsappRow(phoneId.value, token.value, display))
    {
      if !Truthy(phoneId) || !Truthy(token) {
        return Send(400, Some("phone_id and token required"));
      }
      whatsapp := Upsert(whatsapp, phoneId.value, WhatsappRow(phoneId.value, token.value, display));
      resp := Redirect("/");
    }

    /** GET `/facebook/callback?code=...`, after the code exchange and the page
        listing: `listed` is what `me/accounts` returned, or `None` when either
        Graph API call failed (an unhandled rejection: no response is sent). */
    method FacebookCallback(code: Option<string>, listed: Option<seq<GraphPage>>)
      returns (resp: Option<Response>)
      requires Valid()
      modifies this`pages
      ensures Valid()
      ensures !Truthy(code) ==> resp == Some(Send(400, Some("No code returned"))) && pages == old(pages)
      ensures Truthy(code) && listed.None? ==> resp.None? && pages == old(pages)
      ensures Truthy(code) && listed.Some? ==> resp == Some(Redirect("/"))
      ensures Truthy(code) && listed.Some? && listed.value == [] ==> pages == old(pages)
      ensures Truthy(code) && listed.Some? && listed.value != [] ==>
        var p := listed.value[0];
        pages == Upsert(old(pages), p.id, PageRow(p.id, p.name, p.accessToken, 1))
    {
      if !Truthy(code) {
        return Some(Send(400, Some("No code returned")));
      }
      if listed.None? {
        return None;
      }
      if |listed.value| > 0 {
        var p := listed.value[0];
        pages := Upsert(pages, p.id, PageRow(p.id, p.name, p.accessToken, 1));
      }
      resp := Some(Redirect("/"));
    }
  }
}
