/**
 * The browser, the relay and the upstream service together: what the result
 * area and the pickers show for each upstream outcome, once the relay's
 * response has reached the frontend.
 */
module System {
  import opened Wrappers
  import opened Json
  import opened Http
  import Relay
  import Frontend
  import Text

  /**
   * `o` is what the frontend's `fetch` yields for relay response `r`: ok
   * exactly for a 2xx status, and the body read back as what the relay sent.
   * This assumes the serialisation round trip is lossless, which fails only for
   * numbers outside the double range.
   */
  predicate Carries(o: Outcome, r: Response) {
    o.Reply? && o.ok == IsOk(r.status) &&
    match r.body
    case TextBody(s) => o.text == s
    case JsonBody(j) => o.json == Parsed(j)
  }

  /** The request body the relay receives for a frontend payload. */
  function Encode(p: Payload): Relay.TranslateBody {
    Relay.TranslateBody(Some(p.q), Some(p.source), Some(p.target), Some(p.format))
  }

  /**
   * A frontend request passes the relay's check exactly when a target is
   * selected, and is forwarded unchanged but for an empty source.
   */
  lemma FrontendRequestAdmitted(input: string, sourceLang: string, targetLang: string)
    requires Frontend.PayloadFor(input, sourceLang, targetLang).Some?
    ensures var p := Frontend.PayloadFor(input, sourceLang, targetLang).value;
            (Relay.Admissible(Encode(p)) <==> targetLang != "") &&
            (Relay.Admissible(Encode(p)) ==>
               Relay.Forwarded(Encode(p)) == Payload(p.q, if sourceLang == "" then "auto" else sourceLang, targetLang, "text"))
  {
  }

  /** The relay is transparent to a successful translation: the frontend shows what the upstream reply holds. */
  lemma SuccessPassesThrough(p: Payload, upstream: Payload -> Outcome, o: Outcome)
    requires Relay.Admissible(Encode(p))
    requires var u := upstream(Relay.Forwarded(Encode(p))); u.Reply? && u.ok && u.json.Parsed?
    requires Carries(o, Relay.HandleTranslate(Encode(p), upstream).response)
    ensures Frontend.CompletionText(o) == Frontend.CompletionText(upstream(Relay.Forwarded(Encode(p))))
  {
  }

  /** An upstream translation text reaches the result area unchanged. */
  lemma TranslatedTextShown(p: Payload, upstream: Payload -> Outcome, o: Outcome, members: seq<(string, Json)>, s: string)
    requires Relay.Admissible(Encode(p))
    requires upstream(Relay.Forwarded(Encode(p))).Reply?
    requires upstream(Relay.Forwarded(Encode(p))).ok
    requires upstream(Relay.Forwarded(Encode(p))).json == Parsed(JObject(members))
    requires Member(members, "translatedText") == Some(JString(s))
    requires Carries(o, Relay.HandleTranslate(Encode(p), upstream).response)
    ensures Frontend.CompletionText(o) == s
  {
    SuccessPassesThrough(p, upstream, o);
  }

  /**
   * Every failure shows as an error line: the relay's message behind
   * "Error: ", which for an upstream error keeps the relay's own prefix.
   */
  lemma FailureShown(body: Relay.TranslateBody, upstream: Payload -> Outcome, o: Outcome)
    requires Carries(o, Relay.HandleTranslate(body, upstream).response)
    ensures !Relay.Admissible(body) ==>
      Frontend.CompletionText(o) == Frontend.ErrorPrefix + Relay.MissingFields
    ensures Relay.Admissible(body) ==>
      var u := upstream(Relay.Forwarded(body));
      (u.Reply? && !u.ok ==>
         Frontend.CompletionText(o) == Frontend.ErrorPrefix + Relay.UpstreamErrorPrefix + u.text) &&
      (u.Rejected? ==>
         Frontend.CompletionText(o) == Frontend.ErrorPrefix + Relay.TranslateFailedPrefix + u.message) &&
      (u.Reply? && u.ok && u.json.Unparseable? ==>
         Frontend.CompletionText(o) == Frontend.ErrorPrefix + Relay.TranslateFailedPrefix + u.json.message)
  {
  }

  /** The pickers fall back to the fixed five languages when the relay cannot get the list. */
  lemma LanguagesFallback(u: Outcome, o: Outcome)
    requires u.Rejected? || (u.Reply? && u.json.Unparseable?)
    requires Carries(o, Relay.HandleLanguages(u))
    ensures Frontend.LanguagesFrom(o) == Frontend.Fallback
    ensures Frontend.Codes(Frontend.LanguagesFrom(o)) == ["en", "hi", "es", "fr", "de"]
  {
  }

  /** A list the upstream sends, even with an error status, reaches the pickers as sent. */
  lemma LanguagesPassThrough(u: Outcome, o: Outcome)
    requires u.Reply? && u.json.Parsed? && Frontend.DecodeLanguages(u.json.value).Some?
    requires Carries(o, Relay.HandleLanguages(u))
    ensures Frontend.LanguagesFrom(o) == Frontend.DecodeLanguages(u.json.value).value
  {
  }

  /** The frontend sends "Hello" from auto to Spanish as it is. */
  lemma HelloPayload()
    ensures Frontend.PayloadFor("Hello", "auto", "es") == Some(Payload("Hello", "auto", "es", "text"))
  {
    var s := "Hello";
    assert !Text.IsSpace(s[0]) && !Text.IsSpace(s[|s| - 1]);
    assert Text.LeadingSpace(s) == 0;
    assert Text.TrailingSpace(s) == 0;
    assert Text.Trim(s) == s by { assert s[0..] == s; }
  }

  /** A well-formed list the upstream sends reaches the pickers as the languages it describes. */
  lemma UpstreamListReachesPickers(ls: seq<Frontend.Language>, u: Outcome, o: Outcome)
    requires u.Reply? && u.json == Parsed(Frontend.LanguagesJson(ls))
    requires Carries(o, Relay.HandleLanguages(u))
    ensures Frontend.LanguagesFrom(o) == ls
  {
    Frontend.DecodeLanguagesJson(ls);
  }

  /** "Hello" from auto to Spanish, answered with {"translatedText":"Hola"}, shows "Hola". */
  lemma HolaScenario(upstream: Payload -> Outcome, o: Outcome, txt: string)
    requires upstream(Payload("Hello", "auto", "es", "text")) ==
             Reply(true, txt, Parsed(JObject([("translatedText", JString("Hola"))])))
    requires Carries(o, Relay.HandleTranslate(Encode(Payload("Hello", "auto", "es", "text")), upstream).response)
    ensures Frontend.PayloadFor("Hello", "auto", "es") == Some(Payload("Hello", "auto", "es", "text"))
    ensures Frontend.CompletionText(o) == "Hola"
  {
    var p := Payload("Hello", "auto", "es", "text");
    HelloPayload();
    Relay.FullBodyForwardedUnchanged(p);
    var ms := [("translatedText", JString("Hola"))];
    assert Member(ms, "translatedText") == Some(JString("Hola"));
    var r := Relay.HandleTranslate(Encode(p), upstream).response;
    assert r == Response(200, JsonBody(JObject(ms)));
    assert o.ok && o.json == Parsed(JObject(ms));
  }

  /**
   * An upstream 500 with body "rate limit exceeded" gives a 502 from the relay
   * and shows "Error: LibreTranslate error: rate limit exceeded".
   */
  lemma RateLimitScenario(p: Payload, upstream: Payload -> Outcome, j: JsonRead, o: Outcome)
    requires Relay.Admissible(Encode(p))
    requires upstream(Relay.Forwarded(Encode(p))) == Reply(false, "rate limit exceeded", j)
    requires Carries(o, Relay.HandleTranslate(Encode(p), upstream).response)
    ensures Relay.HandleTranslate(Encode(p), upstream).response ==
            Response(502, TextBody(Relay.UpstreamErrorPrefix + "rate limit exceeded"))
    ensures Frontend.CompletionText(o) ==
            Frontend.ErrorPrefix + Relay.UpstreamErrorPrefix + "rate limit exceeded"
  {
    FailureShown(Encode(p), upstream, o);
  }

  /** With source "auto", two swaps do not restore the selections. */
  lemma SwapTwiceFromAuto()
    ensures var once := Frontend.SwappedSelection("auto", "es");
            Frontend.SwappedSelection(once.0, once.1) == ("en", "es")
  {
  }
}
