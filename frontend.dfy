/**
 * The browser controller: the page's text areas, language pickers and
 * translate button as the fields of one object, and the handlers that update
 * them. The network is replaced by the outcomes the handlers receive.
 */
module Frontend {
  import opened Wrappers
  import opened Json
  import opened Http
  import Text

  /** A language descriptor as the pickers use it: code and display name. */
  datatype Language = Language(code: string, name: string)

  /** One `<option>` of a picker: its value and its visible text. */
  datatype SelectOption = SelectOption(value: string, text: string)

  const BusyLabel := "Translating\U{2026}"
  const IdleLabel := "Translate"
  const ErrorPrefix := "Error: "
  const NotOkFallback := "Translation failed"
  const ThrownFallback := "Unable to translate"
  /** The message V8 gives the TypeError thrown when reading a property of null. */
  const NullReadMessage := "Cannot read properties of null (reading 'translatedText')"
  /** The message V8 gives the TypeError thrown when an object cannot be converted to a string. */
  const ConvertMessage := "Cannot convert object to primitive value"

  /** The list used when the languages cannot be fetched. */
  const Fallback: seq<Language> := [
    Language("en", "English"),
    Language("hi", "Hindi"),
    Language("es", "Spanish"),
    Language("fr", "French"),
    Language("de", "German")
  ]

  /** The translate button's text for a busy flag. */
  function Label(busy: bool): (r: string)
    ensures r == BusyLabel <==> busy
    ensures r == IdleLabel <==> !busy
  {
    if busy then BusyLabel else IdleLabel
  }

  /** The option added to each picker for one language: the code as value, `name (code)` as text. */
  function OptionFor(l: Language): SelectOption {
    SelectOption(l.code, l.name + " (" + l.code + ")")
  }

  /** The options the populate loop adds for a list of languages, one per language in order. */
  function OptionsFor(ls: seq<Language>): (os: seq<SelectOption>)
    ensures |os| == |ls|
    ensures ls != [] ==> os[|ls| - 1] == OptionFor(ls[|ls| - 1])
    decreases |ls|
  {
    if ls == [] then [] else OptionsFor(ls[..|ls| - 1]) + [OptionFor(ls[|ls| - 1])]
  }

  /** The i-th option is the option for the i-th language. */
  lemma {:induction false} OptionsForAt(ls: seq<Language>, i: int)
    requires 0 <= i < |ls|
    ensures |OptionsFor(ls)| == |ls| && OptionsFor(ls)[i] == OptionFor(ls[i])
    decreases |ls|
  {
    if i < |ls| - 1 {
      OptionsForAt(ls[..|ls| - 1], i);
    }
  }

  /** The values of a picker's options. */
  function Values(os: seq<SelectOption>): seq<string> {
    seq(|os|, i requires 0 <= i < |os| => os[i].value)
  }

  /** The codes of a list of languages. */
  function Codes(ls: seq<Language>): seq<string> {
    seq(|ls|, i requires 0 <= i < |ls| => ls[i].code)
  }

  /** The values of the options for a list of languages are its codes, in order. */
  lemma OptionValuesAreCodes(ls: seq<Language>)
    ensures Values(OptionsFor(ls)) == Codes(ls)
  {
    forall i | 0 <= i < |ls| ensures Values(OptionsFor(ls))[i] == Codes(ls)[i] {
      OptionsForAt(ls, i);
    }
  }

  /**
   * The descriptor the pickers build from one element `l` of a fetched list:
   * `${l.code}` and `${l.name}`. None when building it throws: `l` is null, or
   * converting its `code` or `name` to a string throws.
   */
  function LanguageOf(j: Json): Option<Language> {
    if j.JNull? then None
    else match (PropertyText(j, "code"), PropertyText(j, "name"))
      case (Some(code), Some(name)) => Some(Language(code, name))
      case _ => None
  }

  /** The JSON object `{"code": ..., "name": ...}` that describes a language. */
  function LanguageJson(l: Language): Json {
    JObject([("code", JString(l.code)), ("name", JString(l.name))])
  }

  /** A JSON array of language descriptors. */
  function LanguagesJson(ls: seq<Language>): Json {
    JArray(seq(|ls|, i requires 0 <= i < |ls| => LanguageJson(ls[i])))
  }

  /** A well-formed descriptor object gives back its language. */
  lemma LanguageOfJson(l: Language)
    ensures LanguageOf(LanguageJson(l)) == Some(l)
  {
    var ms := [("code", JString(l.code)), ("name", JString(l.name))];
    assert ms[..1] == [("code", JString(l.code))];
    assert Member(ms, "name") == Some(JString(l.name));
    assert Member(ms[..1], "code") == Some(JString(l.code));
    assert Member(ms, "code") == Member(ms[..1], "code");
  }

  /** A descriptor whose `name` is null still gives a language, named `null`, as the template literal shows it. */
  lemma NullNameShown(code: string)
    ensures LanguageOf(JObject([("code", JString(code)), ("name", JNull)])) == Some(Language(code, "null"))
  {
    var ms := [("code", JString(code)), ("name", JNull)];
    assert ms[..1] == [("code", JString(code))];
    assert Member(ms, "name") == Some(JNull);
    assert Member(ms[..1], "code") == Some(JString(code));
    assert Member(ms, "code") == Member(ms[..1], "code");
  }

  /**
   * The languages held after a fetched list is populated, or None when the
   * populate step throws: the body is not an array (it has no `forEach`) or
   * building the descriptor of some element throws.
   */
  function DecodeLanguages(j: Json): Option<seq<Language>> {
    if j.JArray? && forall i :: 0 <= i < |j.items| ==> LanguageOf(j.items[i]).Some? then
      Some(seq(|j.items|, i requires 0 <= i < |j.items| => LanguageOf(j.items[i]).value))
    else None
  }

  /**
   * A descriptor whose `name` is an object with its own `toString` makes the
   * populate step throw, so the pickers get the fallback list.
   */
  lemma UnconvertibleNameFallsBack(txt: string)
    ensures var l := JObject([("code", JString("en")), ("name", JObject([("toString", JNumber("1"))]))]);
            LanguagesFrom(Reply(true, txt, Parsed(JArray([l])))) == Fallback
  {
    var inner := [("toString", JNumber("1"))];
    var ms := [("code", JString("en")), ("name", JObject(inner))];
    assert Member(inner, "toString").Some?;
    assert Member(ms, "name") == Some(JObject(inner));
    assert PropertyText(JObject(ms), "name").None?;
    assert LanguageOf(JObject(ms)).None?;
    var items := [JObject(ms)];
    assert items[0] == JObject(ms);
    assert !LanguageOf(items[0]).Some?;
    assert DecodeLanguages(JArray(items)).None?;
  }

  /** A list of well-formed descriptors decodes to the languages it describes. */
  lemma DecodeLanguagesJson(ls: seq<Language>)
    ensures DecodeLanguages(LanguagesJson(ls)) == Some(ls)
  {
    var j := LanguagesJson(ls);
    forall i | 0 <= i < |ls| ensures LanguageOf(j.items[i]) == Some(ls[i]) {
      LanguageOfJson(ls[i]);
    }
    var r := DecodeLanguages(j);
    assert r.Some?;
    assert r.value == ls;
  }

  /**
   * The list the controller ends with after fetching the languages: the
   * fetched one when the reply is ok, parses and populates; otherwise the fallback.
   */
  function LanguagesFrom(o: Outcome): seq<Language> {
    if o.Reply? && o.ok && o.json.Parsed? then
      match DecodeLanguages(o.json.value)
      case Some(ls) => ls
      case None => Fallback
    else Fallback
  }

  /**
   * The translate guard: no request for input that is empty after trimming;
   * otherwise the trimmed text with the selected languages and format "text".
   */
  function PayloadFor(input: string, sourceLang: string, targetLang: string): (p: Option<Payload>)
    ensures p.None? <==> Text.AllSpace(input)
    ensures p.Some? ==> p.value == Payload(Text.Trim(input), sourceLang, targetLang, "text")
    ensures p.Some? ==> p.value.q != "" && !Text.IsSpace(p.value.q[0]) && !Text.IsSpace(p.value.q[|p.value.q| - 1])
  {
    Text.TrimEmptyIff(input);
    var text := Text.Trim(input);
    if text == "" then None
    else Some(Payload(text, if sourceLang == "auto" then "auto" else sourceLang, targetLang, "text"))
  }

  /** `"Error: " + (message || fallback)` */
  function ErrorText(message: string, fallback: string): (r: string)
    ensures |r| > |ErrorPrefix| || (message == "" && fallback == "")
    ensures |r| >= |ErrorPrefix| && r[..|ErrorPrefix|] == ErrorPrefix
    ensures message != "" ==> r[|ErrorPrefix|..] == message
    ensures message == "" ==> r[|ErrorPrefix|..] == fallback
  {
    ErrorPrefix + (if message == "" then fallback else message)
  }

  /**
   * `v ?? ''` as the result area shows it: null and `undefined` show as
   * empty; None when converting the value to a string throws.
   */
  function Shown(v: Option<Json>): Option<string> {
    match v
    case None => Some("")
    case Some(t) => if t.JNull? then Some("") else Display(t)
  }

  /**
   * What the result area shows when a translate call completes: the reply's
   * `translatedText` (empty when it is null or absent), or "Error: " and the
   * failure's message, with a fixed message in place of an empty one.
   */
  function CompletionText(o: Outcome): (r: string)
    ensures o.Rejected? && o.message != "" ==> r == ErrorPrefix + o.message
    ensures o.Rejected? && o.message == "" ==> r == ErrorPrefix + ThrownFallback
    ensures o.Reply? && !o.ok && o.text != "" ==> r == ErrorPrefix + o.text
    ensures o.Reply? && !o.ok && o.text == "" ==> r == ErrorPrefix + NotOkFallback
    ensures o.Reply? && o.ok && o.json.Unparseable? && o.json.message != "" ==> r == ErrorPrefix + o.json.message
    ensures o.Reply? && o.ok && o.json.Unparseable? && o.json.message == "" ==> r == ErrorPrefix + ThrownFallback
    ensures o.Reply? && o.ok && o.json == Parsed(JNull) ==> r == ErrorPrefix + NullReadMessage
    ensures o.Reply? && o.ok && o.json.Parsed? && !o.json.value.JNull? ==>
              var shown := Shown(Get(o.json.value, "translatedText"));
              (shown.Some? ==> r == shown.value) &&
              (shown.None? ==> r == ErrorPrefix + ConvertMessage)
    ensures o.Reply? && o.ok && o.json.Parsed? && Get(o.json.value, "translatedText").Some? &&
            Get(o.json.value, "translatedText").value.JString? ==>
              r == Get(o.json.value, "translatedText").value.s
  {
    match o
    case Rejected(m) => ErrorText(m, ThrownFallback)
    case Reply(ok, txt, json) =>
      if !ok then ErrorText(if txt == "" then NotOkFallback else txt, ThrownFallback)
      else match json
        case Unparseable(m) => ErrorText(m, ThrownFallback)
        case Parsed(data) =>
          if data.JNull? then ErrorText(NullReadMessage, ThrownFallback)
          else match Shown(Get(data, "translatedText"))
            case Some(text) => text
            case None => ErrorText(ConvertMessage, ThrownFallback)
  }

  /** A `translatedText` object with its own `toString` cannot be shown, so the result area shows the TypeError. */
  lemma UnconvertibleTranslation(txt: string)
    ensures var data := JObject([("translatedText", JObject([("toString", JNumber("1"))]))]);
            CompletionText(Reply(true, txt, Parsed(data))) == ErrorPrefix + ConvertMessage
  {
    var inner := [("toString", JNumber("1"))];
    assert Member(inner, "toString").Some?;
    assert Display(JObject(inner)).None?;
  }

  /** Whether a keydown in the input area triggers a translation: Ctrl or Meta with Enter. */
  predicate IsTranslateHotkey(ctrlKey: bool, metaKey: bool, key: string) {
    (ctrlKey || metaKey) && key == "Enter"
  }

  /**
   * The selections after a swap: the source takes the old target (or "auto"
   * when it is empty), the target the old source ("en" in place of "auto").
   */
  function SwappedSelection(sourceLang: string, targetLang: string): (r: (string, string))
    ensures r.0 != "" && r.1 != "auto"
    ensures targetLang != "" ==> r.0 == targetLang
    ensures targetLang == "" ==> r.0 == "auto"
    ensures sourceLang != "auto" ==> r.1 == sourceLang
    ensures sourceLang == "auto" ==> r.1 == "en"
  {
    (if targetLang == "" then "auto" else targetLang, if sourceLang == "auto" then "en" else sourceLang)
  }

  /** Two swaps restore the selections when neither is "auto" or empty. */
  lemma SwapSelectionTwice(sourceLang: string, targetLang: string)
    requires sourceLang != "auto" && sourceLang != "" && targetLang != "auto" && targetLang != ""
    ensures var once := SwappedSelection(sourceLang, targetLang);
            SwappedSelection(once.0, once.1) == (sourceLang, targetLang)
  {
  }

  class Controller {
    var sourceText: string
    var result: string
    var sourceLang: string
    var targetLang: string
    /** The translate button's `disabled` flag. */
    var busy: bool
    /** The translate button's text. */
    var buttonText: string
    var languages: seq<Language>
    var sourceOptions: seq<SelectOption>
    var targetOptions: seq<SelectOption>
    /** The markup's "auto" source option, kept by every populate. */
    const autoOption: SelectOption

    ghost predicate Valid()
      reads this
    {
      buttonText == Label(busy) &&
      autoOption.value == "auto" &&
      |sourceOptions| >= 1 && sourceOptions[0] == autoOption
    }

    /** The page before the languages arrive: empty areas, only the "auto" source option. */
    constructor (autoText: string)
      ensures Valid()
      ensures sourceText == "" && result == "" && !busy
      ensures sourceLang == "auto" && targetLang == ""
      ensures languages == [] && targetOptions == []
      ensures autoOption == SelectOption("auto", autoText) && sourceOptions == [autoOption]
    {
      sourceText, result := "", "";
      sourceLang, targetLang := "auto", "";
      busy, buttonText := false, IdleLabel;
      languages := [];
      autoOption := SelectOption("auto", autoText);
      sourceOptions, targetOptions := [SelectOption("auto", autoText)], [];
    }

    method SetLoading(on: bool)
      requires Valid()
      modifies this`busy, this`buttonText
      ensures Valid() && busy == on
    {
      busy := on;
      buttonText := if on then BusyLabel else IdleLabel;
    }

    /**
     * Rebuilds both pickers from `languages`: the source keeps its "auto"
     * option followed by one option per language, the target gets one option
     * per language; then selects "auto" and "en".
     */
    method PopulateLanguageSelects()
      requires Valid()
      modifies this`sourceOptions, this`targetOptions, this`sourceLang, this`targetLang
      ensures Valid()
      ensures sourceOptions == [autoOption] + OptionsFor(languages)
      ensures targetOptions == OptionsFor(languages)
      ensures Values(sourceOptions) == ["auto"] + Codes(languages)
      ensures Values(targetOptions) == Codes(languages)
      ensures sourceLang == "auto" && targetLang == "en"
    {
      var ls := languages;
      var sources := [autoOption];
      var targets := [];
      var i := 0;
      while i < |ls|
        invariant 0 <= i <= |ls|
        invariant sources == [autoOption] + OptionsFor(ls[..i])
        invariant targets == OptionsFor(ls[..i])
      {
        assert ls[..i + 1][..i] == ls[..i];
        sources := sources + [OptionFor(ls[i])];
        targets := targets + [OptionFor(ls[i])];
        i := i + 1;
      }
      assert ls[..i] == ls;
      OptionValuesAreCodes(ls);
      assert Values(sources) == ["auto"] + Values(OptionsFor(ls));
      sourceOptions := sources;
      targetOptions := targets;
      sourceLang := "auto";
      targetLang := "en";
    }

    /** The completion of the languages fetch started at load. */
    method FetchLanguagesDone(o: Outcome)
      requires Valid()
      modifies this`languages, this`sourceOptions, this`targetOptions, this`sourceLang, this`targetLang
      ensures Valid()
      ensures languages == LanguagesFrom(o)
      ensures sourceOptions == [autoOption] + OptionsFor(languages)
      ensures targetOptions == OptionsFor(languages)
      ensures Values(sourceOptions) == ["auto"] + Codes(languages)
      ensures Values(targetOptions) == Codes(languages)
      ensures sourceLang == "auto" && targetLang == "en"
    {
      var fetched: Option<seq<Language>> := None;
      if o.Reply? && o.ok && o.json.Parsed? {
        fetched := DecodeLanguages(o.json.value);
      }
      match fetched {
        case Some(ls) => languages := ls;
        case None => languages := Fallback;
      }
      PopulateLanguageSelects();
    }

    /**
     * The translate action up to the request: for blank input clears the
     * result and sends nothing; otherwise marks the button busy and returns
     * the payload to send.
     */
    method TranslateStart() returns (payload: Option<Payload>)
      requires Valid()
      modifies this`result, this`busy, this`buttonText
      ensures Valid()
      ensures payload == PayloadFor(sourceText, sourceLang, targetLang)
      ensures payload.None? ==> result == "" && busy == old(busy)
      ensures payload.Some? ==> result == old(result) && busy
    {
      payload := PayloadFor(sourceText, sourceLang, targetLang);
      if payload.None? {
        result := "";
        return;
      }
      SetLoading(true);
    }

    /** The end of a translate call: shows the outcome and frees the button. */
    method TranslateDone(o: Outcome)
      requires Valid()
      modifies this`result, this`busy, this`buttonText
      ensures Valid() && !busy
      ensures result == CompletionText(o)
    {
      result := CompletionText(o);
      SetLoading(false);
    }

    /** A click on the translate button; a disabled button does not fire. */
    method ClickTranslate() returns (payload: Option<Payload>)
      requires Valid()
      modifies this`result, this`busy, this`buttonText
      ensures Valid()
      ensures old(busy) ==> payload.None? && result == old(result) && busy
      ensures !old(busy) ==> payload == PayloadFor(sourceText, sourceLang, targetLang)
      ensures !old(busy) && payload.None? ==> result == "" && !busy
      ensures !old(busy) && payload.Some? ==> result == old(result) && busy
    {
      if busy {
        return None;
      }
      payload := TranslateStart();
    }

    /** A keydown in the input area: Ctrl/Meta+Enter runs the translate action, busy or not. */
    method KeyDown(ctrlKey: bool, metaKey: bool, key: string) returns (payload: Option<Payload>)
      requires Valid()
      modifies this`result, this`busy, this`buttonText
      ensures Valid()
      ensures !IsTranslateHotkey(ctrlKey, metaKey, key) ==>
                payload.None? && result == old(result) && busy == old(busy)
      ensures IsTranslateHotkey(ctrlKey, metaKey, key) ==>
                payload == PayloadFor(sourceText, sourceLang, targetLang)
      ensures IsTranslateHotkey(ctrlKey, metaKey, key) && payload.None? ==>
                result == "" && busy == old(busy)
      ensures IsTranslateHotkey(ctrlKey, metaKey, key) && payload.Some? ==>
                result == old(result) && busy
    {
      payload := None;
      if IsTranslateHotkey(ctrlKey, metaKey, key) {
        payload := TranslateStart();
      }
    }

    /** Empties both text areas. */
    method Clear()
      requires Valid()
      modifies this`sourceText, this`result
      ensures Valid()
      ensures sourceText == "" && result == ""
    {
      sourceText := "";
      result := "";
    }

    /** Exchanges the language selections and the two texts. */
    method Swap()
      requires Valid()
      modifies this`sourceLang, this`targetLang, this`sourceText, this`result
      ensures Valid()
      ensures (sourceLang, targetLang) == SwappedSelection(old(sourceLang), old(targetLang))
      ensures sourceText == old(result) && result == old(sourceText)
    {
      var prevSource := sourceLang;
      sourceLang := if targetLang == "" then "auto" else targetLang;
      targetLang := if prevSource == "auto" then "en" else prevSource;
      var t := sourceText;
      sourceText := result;
      result := t;
    }
  }

  /** Two swaps in a row restore both texts, and the selections when neither is "auto" or empty. */
  method SwapTwice(c: Controller)
    requires c.Valid()
    modifies c`sourceLang, c`targetLang, c`sourceText, c`result
    ensures c.Valid()
    ensures c.sourceText == old(c.sourceText) && c.result == old(c.result)
    ensures old(c.sourceLang) != "auto" && old(c.sourceLang) != "" &&
            old(c.targetLang) != "auto" && old(c.targetLang) != "" ==>
              c.sourceLang == old(c.sourceLang) && c.targetLang == old(c.targetLang)
  {
    c.Swap();
    c.Swap();
  }
}
