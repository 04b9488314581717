/**
 * The JSON messages exchanged between the browser client and the Flask
 * server.  Both sides of the model speak in these values, so the end-to-end
 * lemmas can feed one side's output to the other.
 */
module Api {
  import opened Prelude

  /** Reply body of POST /api/mark_attendance: a `status` and an optional `message`. */
  datatype Reply = Reply(status: string, message: Option<string>)

  /** One element of the `data` array of GET /api/attendance_list. */
  datatype ListItem = ListItem(
    userId: string,
    userName: string,
    date: string,
    time: string,
    confidence: Option<string>)

  /** Reply body of GET /api/attendance_list. */
  datatype ListReply = ListReply(status: string, data: seq<ListItem>)

  /**
   * The outcome of a `fetch` followed by `res.json()` on the client: either
   * a parsed body, or the error either call threw, with its `message`.
   */
  datatype Transport<+T> = Delivered(body: T) | Failure(message: string)
}
