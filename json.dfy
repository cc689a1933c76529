/**
 * JSON values as JavaScript holds them after parsing, with the two reads the
 * translator performs on them: a property read and conversion to a string.
 */
module Json {
  import opened Wrappers

  /** A parsed JSON value. A number is kept in the form JavaScript displays it. */
  datatype Json =
    | JNull
    | JBool(b: bool)
    | JNumber(repr: string)
    | JString(s: string)
    | JArray(items: seq<Json>)
    | JObject(members: seq<(string, Json)>)

  /** Reading a body as JSON: the parsed value, or the message of the parse error. */
  datatype JsonRead = Parsed(value: Json) | Unparseable(message: string)

  /**
   * The member `key` of an object parsed from JSON text. When the text repeats
   * a key the last occurrence wins; None is `undefined`.
   */
  function Member(ms: seq<(string, Json)>, key: string): (r: Option<Json>)
    ensures r.None? <==> forall i :: 0 <= i < |ms| ==> ms[i].0 != key
    ensures r.Some? ==>
      exists i :: 0 <= i < |ms| && ms[i] == (key, r.value) &&
        forall k :: i < k < |ms| ==> ms[k].0 != key
    decreases |ms|
  {
    if ms == [] then None
    else if ms[|ms| - 1].0 == key then Some(ms[|ms| - 1].1)
    else Member(ms[..|ms| - 1], key)
  }

  /**
   * `v[key]` for a value that is not null: only objects have the properties
   * read here, every other value gives `undefined`. Reading a property of null
   * throws, which callers handle before calling this.
   */
  function Get(v: Json, key: string): (r: Option<Json>)
    ensures !v.JObject? ==> r.None?
    ensures v.JObject? && r.Some? ==>
      exists i :: 0 <= i < |v.members| && v.members[i] == (key, r.value) &&
        forall k :: i < k < |v.members| ==> v.members[k].0 != key
    ensures v.JObject? ==> (r.None? <==> forall i :: 0 <= i < |v.members| ==> v.members[i].0 != key)
  {
    if v.JObject? then Member(v.members, key) else None
  }

  /** The elements of `parts` separated by `sep`, as `Array.prototype.join` does. */
  function Join(parts: seq<string>, sep: string): string
    decreases |parts|
  {
    if parts == [] then ""
    else if |parts| == 1 then parts[0]
    else parts[0] + sep + Join(parts[1..], sep)
  }

  /**
   * JavaScript's conversion of a value to a string (`String(v)`, a template
   * literal, assignment to a text field), or None when the conversion throws.
   * Arrays join their elements with commas, showing null elements as empty,
   * and throw when an element does. An object shows as `[object Object]`,
   * unless it has its own `toString` member: JSON cannot make that member
   * callable, and `valueOf` gives back the object itself, so the conversion
   * throws a TypeError.
   */
  function Display(j: Json): (r: Option<string>)
    ensures j.JString? ==> r == Some(j.s)
    ensures j.JObject? ==> (r.None? <==> Member(j.members, "toString").Some?)
    ensures j.JObject? && r.Some? ==> r.value == "[object Object]"
    ensures j.JNull? ==> r == Some("null")
    ensures j.JBool? ==> r == Some(if j.b then "true" else "false")
    ensures j.JNumber? ==> r == Some(j.repr)
    ensures j.JArray? ==>
      (r.None? <==> exists i :: 0 <= i < |j.items| && !j.items[i].JNull? && Display(j.items[i]).None?)
    ensures j.JArray? && r.Some? ==>
      r.value == Join(seq(|j.items|, i requires 0 <= i < |j.items| && (j.items[i].JNull? || Display(j.items[i]).Some?) =>
                            if j.items[i].JNull? then "" else Display(j.items[i]).value), ",")
    decreases j
  {
    match j
    case JNull => Some("null")
    case JBool(b) => Some(if b then "true" else "false")
    case JNumber(repr) => Some(repr)
    case JString(s) => Some(s)
    case JArray(items) =>
      var parts := seq(|items|, i requires 0 <= i < |items| =>
                     if items[i].JNull? then Some("") else Display(items[i]));
      assert forall i :: 0 <= i < |items| ==>
        parts[i] == (if items[i].JNull? then Some("") else Display(items[i]));
      if forall i :: 0 <= i < |parts| ==> parts[i].Some? then
        var texts := seq(|parts|, i requires 0 <= i < |parts| && parts[i].Some? => parts[i].value);
        assert texts == seq(|items|, i requires 0 <= i < |items| && (items[i].JNull? || Display(items[i]).Some?) =>
                              if items[i].JNull? then "" else Display(items[i]).value);
        Some(Join(texts, ","))
      else
        assert exists i :: 0 <= i < |items| && !items[i].JNull? && Display(items[i]).None?;
        None
    case JObject(ms) =>
      if Member(ms, "toString").Some? then None else Some("[object Object]")
  }

  /** `String(["a", null, 1])` is `a,,1`: a null element shows as empty. */
  lemma ArrayWithNullShown()
    ensures Display(JArray([JString("a"), JNull, JNumber("1")])) == Some("a,,1")
  {
    var items := [JString("a"), JNull, JNumber("1")];
    assert Display(items[0]) == Some("a") && Display(items[2]) == Some("1");
    assert forall i :: 0 <= i < |items| ==> items[i].JNull? || Display(items[i]).Some?;
    assert Display(JArray(items)).Some?;
    var texts := seq(|items|, i requires 0 <= i < |items| && (items[i].JNull? || Display(items[i]).Some?) =>
                       if items[i].JNull? then "" else Display(items[i]).value);
    assert texts == ["a", "", "1"];
    assert Join(["1"], ",") == "1";
    assert Join(["", "1"], ",") == "," + "1";
    assert Join(texts, ",") == "a" + "," + ",1";
    assert Display(JArray(items)).value == Join(texts, ",");
    assert "a" + "," + ",1" == "a,,1";
  }

  /**
   * How a property read shows in a template literal: `undefined` when the
   * property is absent, None when converting its value throws.
   */
  function PropertyText(v: Json, key: string): Option<string> {
    match Get(v, key)
    case None => Some("undefined")
    case Some(x) => Display(x)
  }
}
