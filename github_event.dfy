/** The parts of the `GITHUB_CONTEXT` JSON object that the runner and the
    prompt builder read: the event name, the event's action, and the
    issue, pull request, review, comment and discussion objects with their
    `number` and `body`. */
module GithubEvent {
  import opened Wrappers

  /** One object of the event. `Absent` is a missing or empty object, which
      Python reads as falsy; a missing `body` reads as `""`. */
  datatype Payload = Absent | Present(number: Option<int>, body: string)

  /** The decoded context. A missing `event_name` or `action` reads as `""`. */
  datatype Context = Context(
    eventName: string, action: string,
    issue: Payload, pullRequest: Payload, review: Payload, comment: Payload, discussion: Payload)

  /** `payload.get("body", "")` where a missing payload reads as `{}`. */
  function BodyOf(p: Payload): string {
    if p.Present? then p.body else ""
  }

  /** Reading `GITHUB_CONTEXT`: unset means `"{}"`; an empty string or
      `"{}"` gives no context; otherwise `decode` is `json.loads`, `None`
      where it raises. */
  function LoadContext(raw: Option<string>, decode: string -> Option<Context>): (r: Option<Context>)
    ensures raw.None? || raw == Some("") || raw == Some("{}") ==> r.None?
    ensures raw.Some? && raw.value != "" && raw.value != "{}" ==> r == decode(raw.value)
  {
    var text := raw.GetOr("{}");
    if text == "" || text == "{}" then None else decode(text)
  }
}
