/** The Odoo ERP as the services see it: an oracle that answers each
    JSON-RPC `execute_kw` call with a reply body.  Transport, authentication
    and Odoo's own behaviour are outside the model; the services only depend
    on the reply. */
module Odoo {
  import opened Wrappers
  import opened Values

  /** One domain filter `[field, operator, value]`. */
  datatype Term = Term(field: string, op: string, value: Json)

  /** The `limit` and `offset` options of a paged `search_read`. */
  datatype Window = Window(limit: int, offset: int)

  /** The `execute_kw` calls the services make, with the arguments that
      vary between calls (field lists and sort orders are fixed per call
      site and left out). */
  datatype Call =
    | SearchRead(model: string, domain: seq<Term>, window: Option<Window>)
    | Search(model: string, domain: seq<Term>, count: int)
    | Read(model: string, ids: Json)
    | Create(model: string, values: map<string, Json>)
    | Write(model: string, ids: Json, values: map<string, Json>)
    | Action(model: string, action: string, ids: Json)

  /** The body of a reply: `error` is present when the call failed, holding
      its `data.message` ("" when there is none); `result` is `None` when
      it is `undefined`. */
  datatype Reply = Reply(error: Option<string>, result: Option<Json>)

  /** What a service call depends on besides its arguments: the uid that
      authentication produced (0 when it failed), the Odoo oracle, the
      current time in seconds and today's date in Asia/Jakarta as
      `YYYY-MM-DD`. */
  datatype Env = Env(uid: int, odoo: Call -> Reply, now: int, today: string)

  const AuthFailed := "Gagal autentikasi ke Odoo"

  /** `message || fallback`. */
  function ErrorText(message: string, fallback: string): string {
    if message != "" then message else fallback
  }

  /** The array a search answered with: `result ?? []` read as a list.
      Odoo answers searches with arrays; any other shape reads as empty. */
  function AsList(result: Option<Json>): seq<Json> {
    if result.Some? && result.value.JArr? then result.value.items else []
  }
}
