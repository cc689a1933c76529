/**
 * The backend relay: its two endpoints as functions from the request and the
 * outcome of the upstream call to the one response each request gets.
 */
module Relay {
  import opened Wrappers
  import opened Json
  import opened Http

  const MissingFields := "Missing required fields"
  const UpstreamErrorPrefix := "LibreTranslate error: "
  const TranslateFailedPrefix := "Translation failed: "
  const LanguagesFailedPrefix := "Failed to fetch languages: "

  /** The fields the translate endpoint destructures from the JSON request body. */
  datatype TranslateBody = TranslateBody(q: Option<string>, source: Option<string>,
                                         target: Option<string>, format: Option<string>)

  /** JavaScript truthiness of a string field: an absent field and "" are falsy. */
  predicate Truthy(v: Option<string>) {
    v.Some? && v.value != ""
  }

  /** `v || fallback` */
  function Or(v: Option<string>, fallback: string): string {
    if Truthy(v) then v.value else fallback
  }

  /** The request may be forwarded: both `q` and `target` are truthy. */
  predicate Admissible(body: TranslateBody) {
    Truthy(body.q) && Truthy(body.target)
  }

  /**
   * The payload forwarded upstream: `q` and `target` as given, `source` and
   * `format` defaulted when falsy.
   */
  function Forwarded(body: TranslateBody): (p: Payload)
    requires Admissible(body)
    ensures p.q == body.q.value && p.target == body.target.value
    ensures p.source == (if Truthy(body.source) then body.source.value else "auto")
    ensures p.format == (if Truthy(body.format) then body.format.value else "text")
    ensures p.q != "" && p.target != "" && p.source != "" && p.format != ""
  {
    Payload(body.q.value, Or(body.source, "auto"), body.target.value, Or(body.format, "text"))
  }

  /** The message of whatever the forwarding step threw, if it threw. */
  function Failure(o: Outcome): string {
    match o
    case Rejected(m) => m
    case Reply(_, _, json) => if json.Unparseable? then json.message else ""
  }

  /**
   * The response to a forwarded translation, from the upstream outcome: the
   * upstream JSON unchanged on an ok reply, 502 with the upstream text on a
   * reply that is not ok, and 500 with the message when the call or the JSON
   * parse throws.
   */
  function TranslateReply(o: Outcome): (r: Response)
    ensures r.status == 200 || r.status == 500 || r.status == 502
    ensures r.status == 200 <==> o.Reply? && o.ok && o.json.Parsed?
    ensures r.status == 200 ==> r.body == JsonBody(o.json.value)
    ensures r.status == 502 <==> o.Reply? && !o.ok
    ensures r.status == 502 ==> r.body == TextBody(UpstreamErrorPrefix + o.text)
    ensures r.status == 500 <==> o.Rejected? || (o.ok && o.json.Unparseable?)
    ensures r.status == 500 ==> r.body == TextBody(TranslateFailedPrefix + Failure(o))
  {
    match o
    case Rejected(m) => Response(500, TextBody(TranslateFailedPrefix + m))
    case Reply(ok, txt, json) =>
      if !ok then Response(502, TextBody(UpstreamErrorPrefix + txt))
      else match json
        case Parsed(data) => Response(200, JsonBody(data))
        case Unparseable(m) => Response(500, TextBody(TranslateFailedPrefix + m))
  }

  /** What one request to the translate endpoint did: the upstream call it made, if any, and its response. */
  datatype Exchange = Exchange(forwarded: Option<Payload>, response: Response)

  /**
   * POST /translate. `upstream` gives the outcome of forwarding a payload; it is
   * consulted only for an admissible request.
   */
  function HandleTranslate(body: TranslateBody, upstream: Payload -> Outcome): (ex: Exchange)
    ensures ex.forwarded.None? <==> !Admissible(body)
    ensures ex.forwarded.None? ==> ex.response == Response(400, TextBody(MissingFields))
    ensures ex.forwarded.Some? ==>
      ex.forwarded.value == Forwarded(body) &&
      ex.response == TranslateReply(upstream(ex.forwarded.value))
    ensures ex.response.status == 400 <==> !Admissible(body)
  {
    if !Admissible(body) then Exchange(None, Response(400, TextBody(MissingFields)))
    else
      var p := Forwarded(body);
      Exchange(Some(p), TranslateReply(upstream(p)))
  }

  /**
   * GET /languages: the upstream body read as JSON is passed through whatever
   * the upstream status; a rejected call or an unparseable body gives 500.
   */
  function HandleLanguages(o: Outcome): (r: Response)
    ensures r.status == 200 || r.status == 500
    ensures r.status == 200 <==> o.Reply? && o.json.Parsed?
    ensures r.status == 200 ==> r.body == JsonBody(o.json.value)
    ensures r.status == 500 ==> r.body == TextBody(LanguagesFailedPrefix + Failure(o))
  {
    match o
    case Rejected(m) => Response(500, TextBody(LanguagesFailedPrefix + m))
    case Reply(_, _, json) =>
      match json
      case Parsed(data) => Response(200, JsonBody(data))
      case Unparseable(m) => Response(500, TextBody(LanguagesFailedPrefix + m))
  }

  /** A rejected request gets the same response whatever the upstream would do: the upstream is never asked. */
  lemma RejectedIgnoresUpstream(body: TranslateBody, up1: Payload -> Outcome, up2: Payload -> Outcome)
    requires !Admissible(body)
    ensures HandleTranslate(body, up1) == HandleTranslate(body, up2)
    ensures HandleTranslate(body, up1).forwarded == None
  {
  }

  /** An admissible request's response depends on the upstream only through the one payload it forwards. */
  lemma ForwardedOnly(body: TranslateBody, up1: Payload -> Outcome, up2: Payload -> Outcome)
    requires Admissible(body)
    requires up1(Forwarded(body)) == up2(Forwarded(body))
    ensures HandleTranslate(body, up1) == HandleTranslate(body, up2)
  {
  }

  /** A body whose source and format are both truthy is forwarded exactly as received. */
  lemma FullBodyForwardedUnchanged(p: Payload)
    requires p.q != "" && p.target != "" && p.source != "" && p.format != ""
    ensures Admissible(TranslateBody(Some(p.q), Some(p.source), Some(p.target), Some(p.format)))
    ensures Forwarded(TranslateBody(Some(p.q), Some(p.source), Some(p.target), Some(p.format))) == p
  {
  }

  /** Every response of the translate endpoint has exactly one of the four statuses the code sends. */
  lemma TranslateStatuses(body: TranslateBody, upstream: Payload -> Outcome)
    ensures var s := HandleTranslate(body, upstream).response.status;
            s == 200 || s == 400 || s == 500 || s == 502
    ensures var r := HandleTranslate(body, upstream).response;
            r.body.JsonBody? <==> r.status == 200
  {
  }
}
