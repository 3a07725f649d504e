/** Message lookup and placeholder substitution (frontend/src/hooks/useTranslation.ts).
    The message catalogue is passed in as a JavaScript value; parameter values are
    given already converted with `toString()`. */
module Translation {
  import opened Wrappers
  import opened Strs
  import opened Js

  /** `current?.[key]`: a nullish value stays undefined, an object yields its field. */
  function Step(current: JsValue, key: string): JsValue {
    if current.Obj? then Get(current.fields, key) else Undefined
  }

  /** `keys.reduce((current, key) => current?.[key], obj)`. */
  function Lookup(obj: JsValue, keys: seq<string>): JsValue
    decreases |keys|
  {
    if keys == [] then obj else Lookup(Step(obj, keys[0]), keys[1..])
  }

  /** The fold takes a longer path one prefix at a time. */
  lemma {:induction false} LookupConcat(obj: JsValue, a: seq<string>, b: seq<string>)
    ensures Lookup(obj, a + b) == Lookup(Lookup(obj, a), b)
    decreases |a|
  {
    if a != [] {
      assert (a + b)[0] == a[0] && (a + b)[1..] == a[1..] + b;
      LookupConcat(Step(obj, a[0]), a[1..], b);
    } else {
      assert a + b == b;
    }
  }

  /** Once a segment is missing, every longer path is missing too. */
  lemma {:induction false} LookupFromMissing(keys: seq<string>)
    ensures Lookup(Undefined, keys) == Undefined
    decreases |keys|
  {
    if keys != [] { LookupFromMissing(keys[1..]); }
  }

  /** `getNestedValue`: the value at the dotted path, or the path itself when that is
      missing or falsy. */
  function NestedValue(obj: JsValue, path: string): (r: JsValue)
    ensures Truthy(Lookup(obj, Split(path, '.'))) ==> r == Lookup(obj, Split(path, '.'))
    ensures !Truthy(Lookup(obj, Split(path, '.'))) ==> r == Text(path)
  {
    var v := Lookup(obj, Split(path, '.'));
    if Truthy(v) then v else Text(path)
  }

  /** A key joined from dot-free segments looks up exactly those segments. */
  lemma NestedValueOfSegments(obj: JsValue, keys: seq<string>)
    requires |keys| >= 1 && forall k :: 0 <= k < |keys| ==> '.' !in keys[k]
    ensures var v := Lookup(obj, keys);
      NestedValue(obj, Join(keys, ".")) == if Truthy(v) then v else Text(Join(keys, "."))
  {
    SplitJoin(keys, '.');
  }

  // ---------------------------------------------------------------- substitution

  /** A character of the regular-expression class `\w`. */
  predicate IsWord(c: char) {
    ('a' <= c <= 'z') || ('A' <= c <= 'Z') || ('0' <= c <= '9') || c == '_'
  }

  /** The longest prefix of word characters. */
  function WordRun(s: string): (r: string)
    ensures |r| <= |s| && r == s[..|r|]
    ensures forall k :: 0 <= k < |r| ==> IsWord(r[k])
    ensures |r| < |s| ==> !IsWord(s[|r|])
  {
    if s != [] && IsWord(s[0]) then [s[0]] + WordRun(s[1..]) else ""
  }

  /** The name of the placeholder `{name}` at the start of `s`, if there is one. */
  function PlaceholderAt(s: string): (r: Option<string>)
    ensures r.Some? ==> |r.value| >= 1 && |r.value| + 2 <= |s| && s[..|r.value| + 2] == "{" + r.value + "}"
    ensures r.Some? ==> forall k :: 0 <= k < |r.value| ==> IsWord(r.value[k])
  {
    if s == [] || s[0] != '{' then None
    else
      var name := WordRun(s[1..]);
      if |name| >= 1 && |name| + 1 < |s| && s[|name| + 1] == '}' then
        assert s[..|name| + 2] == [s[0]] + s[1..][..|name|] + [s[|name| + 1]];
        Some(name)
      else None
  }

  /** What replaces `{name}`: the parameter's text, or the placeholder itself when the
      parameter is missing or empty. */
  function Substitute(name: string, params: map<string, string>): (r: string)
    ensures name in params && params[name] != "" ==> r == params[name]
    ensures name !in params || params[name] == "" ==> r == "{" + name + "}"
  {
    if name in params && params[name] != "" then params[name] else "{" + name + "}"
  }

  /** `template.replace(/\{(\w+)\}/g, …)`: one left-to-right pass; the text after a
      replaced placeholder is scanned next, never the inserted value. */
  function Interpolate(template: string, params: map<string, string>): string
    decreases |template|
  {
    if template == [] then ""
    else
      match PlaceholderAt(template)
      case Some(name) => Substitute(name, params) + Interpolate(template[|name| + 2..], params)
      case None => [template[0]] + Interpolate(template[1..], params)
  }

  /** The placeholder names the pass meets. */
  function Placeholders(template: string): set<string>
    decreases |template|
  {
    if template == [] then {}
    else
      match PlaceholderAt(template)
      case Some(name) => {name} + Placeholders(template[|name| + 2..])
      case None => Placeholders(template[1..])
  }

  /** A template none of whose placeholders has a non-empty parameter comes back
      unchanged; in particular any template with no parameters. */
  lemma {:induction false} InterpolateUnchanged(template: string, params: map<string, string>)
    requires forall name :: name in Placeholders(template) ==> name !in params || params[name] == ""
    ensures Interpolate(template, params) == template
    decreases |template|
  {
    if template != [] {
      match PlaceholderAt(template)
      case Some(name) =>
        var rest := template[|name| + 2..];
        InterpolateUnchanged(rest, params);
        assert template == template[..|name| + 2] + rest;
      case None =>
        InterpolateUnchanged(template[1..], params);
        assert template == [template[0]] + template[1..];
    }
  }

  /** Text without a `{` holds no placeholder and is copied as it is. */
  lemma {:induction false} InterpolatePlain(text: string, params: map<string, string>)
    requires '{' !in text
    ensures Interpolate(text, params) == text
    ensures Placeholders(text) == {}
    decreases |text|
  {
    if text != [] {
      assert text[0] != '{';
      InterpolatePlain(text[1..], params);
      assert text == [text[0]] + text[1..];
    }
  }

  /** The word run of word characters followed by a non-word character is exactly them. */
  lemma {:induction false} WordRunStops(w: string, t: string)
    requires forall k :: 0 <= k < |w| ==> IsWord(w[k])
    requires t != [] && !IsWord(t[0])
    ensures WordRun(w + t) == w
  {
    if w != [] {
      assert (w + t)[1..] == w[1..] + t;
      WordRunStops(w[1..], t);
    } else {
      assert w + t == t;
    }
  }

  /** A placeholder at the front is replaced by its parameter, and the pass goes on
      with the text after it. */
  lemma InterpolateFills(name: string, rest: string, params: map<string, string>)
    requires |name| >= 1 && forall k :: 0 <= k < |name| ==> IsWord(name[k])
    ensures Interpolate("{" + name + "}" + rest, params) == Substitute(name, params) + Interpolate(rest, params)
  {
    var s := "{" + name + "}" + rest;
    assert s[1..] == name + ("}" + rest);
    WordRunStops(name, "}" + rest);
    assert s[|name| + 1] == '}';
    assert PlaceholderAt(s) == Some(name);
    assert s[|name| + 2..] == rest;
  }

  /** An inserted value is not expanded again: `{a}` with a = "{b}" and b = "x"
      gives "{b}". */
  lemma NoReexpansion()
    ensures Interpolate("{a}", map["a" := "{b}", "b" := "x"]) == "{b}"
  {
    var params := map["a" := "{b}", "b" := "x"];
    var s := "{a}";
    assert s[1..] == "a}";
    assert WordRun("}") == "" by { assert !IsWord('}'); }
    assert WordRun("a}") == "a" by { assert "a}"[1..] == "}"; }
    assert PlaceholderAt(s) == Some("a");
    assert s[3..] == "";
  }

  /** `t(key, params)`: the catalogue entry for the key with its placeholders filled in.
      A value without a `replace` method (a number, a nested object) raises TypeError. */
  function Translate(catalogue: JsValue, key: string, params: map<string, string>): (r: Result<string, string>)
    ensures NestedValue(catalogue, key).Text? ==> r == Ok(Interpolate(NestedValue(catalogue, key).s, params))
    ensures !NestedValue(catalogue, key).Text? ==> r.Err?
  {
    match NestedValue(catalogue, key)
    case Text(s) => Ok(Interpolate(s, params))
    case _ => Err("TypeError")
  }

  /** A key missing from the catalogue translates to itself, filled in. */
  lemma TranslateMissing(catalogue: JsValue, key: string, params: map<string, string>)
    requires !Truthy(Lookup(catalogue, Split(key, '.')))
    ensures Translate(catalogue, key, params) == Ok(Interpolate(key, params))
  {
  }
}
