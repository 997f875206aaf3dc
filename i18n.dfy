/** Translation lookup (utils/i18n.ts): a language falls back to English, a
    missing key falls back to the key itself, and each parameter fills the
    first `{name}` placeholder of the looked-up text. */
module I18n {
  import opened Common
  import opened Text

  /** One language's table: key to translated text. */
  type Table = map<string, string>

  /** The translation catalogue: language code to table. The application's
      catalogue always has an English table, which the lookup falls back to. */
  type Catalog = c: map<string, Table> | "en" in c witness map["en" := map[]]

  /** A parameter value is a string or a number; `String(v)` renders it. */
  datatype ParamValue = Str(text: string) | Number(n: int)

  /** One `name: value` entry of the params object, in enumeration order. */
  datatype Param = Param(name: string, value: ParamValue)

  function Render(v: ParamValue): (r: string)
    ensures v.Str? ==> r == v.text
    ensures v.Number? ==> r == IntToString(v.n)
  {
    match v
    case Str(t) => t
    case Number(n) => IntToString(n)
  }

  /** The text `{name}` that a parameter fills. */
  function Placeholder(name: string): string {
    "{" + name + "}"
  }

  /** `TRANSLATIONS[lang] || TRANSLATIONS['en']`. */
  function TableFor(c: Catalog, lang: string): (t: Table)
    ensures lang in c ==> t == c[lang]
    ensures lang !in c ==> t == c["en"]
  {
    if lang in c then c[lang] else c["en"]
  }

  /** `translationMap[key] || key`: the table's text when it is present and
      non-empty (an empty string is falsy), otherwise the key itself. */
  function Lookup(c: Catalog, lang: string, key: string): (r: string)
    ensures key in TableFor(c, lang) && TableFor(c, lang)[key] != "" ==> r == TableFor(c, lang)[key]
    ensures key !in TableFor(c, lang) ==> r == key
    ensures key in TableFor(c, lang) && TableFor(c, lang)[key] == "" ==> r == key
    ensures lang !in c && key !in c["en"] ==> r == key
  {
    var t := TableFor(c, lang);
    if key in t && t[key] != "" then t[key] else key
  }

  /** The loop over the params, as a function: each parameter in turn
      replaces the first occurrence of its placeholder in the current text. */
  function ApplyParams(s: string, params: seq<Param>): string
    decreases |params|
  {
    if params == [] then s
    else ApplyParams(ReplaceFirst(s, Placeholder(params[0].name), Render(params[0].value)), params[1..])
  }

  /** What `getTranslation(lang, key, params)` returns. Without parameters
      (the `params` argument omitted) it is the looked-up text. */
  function Translate(c: Catalog, lang: string, key: string, params: seq<Param>): (r: string)
    ensures params == [] ==> r == Lookup(c, lang, key)
    ensures params == [] && key !in TableFor(c, lang) ==> r == key
  {
    ApplyParams(Lookup(c, lang, key), params)
  }

  /** A language the catalogue lacks translates exactly as English does. */
  lemma UnknownLanguageIsEnglish(c: Catalog, lang: string, key: string, params: seq<Param>)
    requires lang !in c
    ensures Translate(c, lang, key, params) == Translate(c, "en", key, params)
  {
    assert TableFor(c, lang) == TableFor(c, "en");
  }

  /** `getTranslation`: look the key up, then substitute the parameters one
      by one, reassigning the working string as the source's loop does. */
  method GetTranslation(c: Catalog, lang: string, key: string, params: seq<Param>) returns (r: string)
    ensures r == Translate(c, lang, key, params)
  {
    r := Lookup(c, lang, key);
    var i := 0;
    while i < |params|
      invariant 0 <= i <= |params|
      invariant ApplyParams(r, params[i..]) == Translate(c, lang, key, params)
    {
      assert params[i..][1..] == params[i + 1..];
      r := ReplaceFirst(r, Placeholder(params[i].name), Render(params[i].value));
      i := i + 1;
    }
  }

  /** `useTranslation(lang)`: the `t` it hands out translates in that fixed
      language. */
  function UseTranslation(c: Catalog, lang: string): (t: (string, seq<Param>) -> string)
    ensures forall key, params :: t(key, params) == Translate(c, lang, key, params)
  {
    (key, params) => Translate(c, lang, key, params)
  }

  /** Parameters whose placeholders do not occur leave the text unchanged. */
  lemma {:induction false} UnmatchedParamsKeepText(s: string, params: seq<Param>)
    requires forall j :: 0 <= j < |params| ==> IndexOf(s, Placeholder(params[j].name)).None?
    ensures ApplyParams(s, params) == s
    decreases |params|
  {
    if params != [] {
      assert ReplaceFirst(s, Placeholder(params[0].name), Render(params[0].value)) == s;
      UnmatchedParamsKeepText(s, params[1..]);
    }
  }

  /** One parameter fills only the first occurrence of its placeholder: the
      text before it and everything after it, later occurrences included,
      are kept verbatim, and the value goes through `replace`'s `$`
      patterns (the text `err.message` brings can hold a `$`). */
  lemma FirstPlaceholder(s: string, p: Param, i: nat)
    requires OccursAt(s, Placeholder(p.name), i)
    requires forall k :: 0 <= k < i ==> !OccursAt(s, Placeholder(p.name), k)
    ensures var ph := Placeholder(p.name);
      ApplyParams(s, [p]) == s[..i] + Substitution(Render(p.value), ph, s[..i], s[i + |ph|..]) + s[i + |ph|..]
  {
    ReplaceFirstAt(s, Placeholder(p.name), Render(p.value), i);
    assert [p][1..] == [];
  }

  /** A value without `$` is inserted as it is. */
  lemma FirstPlaceholderOnly(s: string, p: Param, i: nat)
    requires '$' !in Render(p.value)
    requires OccursAt(s, Placeholder(p.name), i)
    requires forall k :: 0 <= k < i ==> !OccursAt(s, Placeholder(p.name), k)
    ensures ApplyParams(s, [p]) == s[..i] + Render(p.value) + s[i + |Placeholder(p.name)|..]
  {
    FirstPlaceholder(s, p, i);
  }

  /** A numeric parameter is rendered in decimal and inserted verbatim: a
      number never contains the `$` that `replace` would interpret. */
  lemma NumberParamVerbatim(s: string, name: string, n: int, i: nat)
    requires OccursAt(s, Placeholder(name), i)
    requires forall k :: 0 <= k < i ==> !OccursAt(s, Placeholder(name), k)
    ensures ApplyParams(s, [Param(name, Number(n))]) == s[..i] + IntToString(n) + s[i + |Placeholder(name)|..]
  {
    FirstPlaceholderOnly(s, Param(name, Number(n)), i);
  }

  /** A string parameter goes through `replace`'s replacement patterns: a
      value of `$&` puts the placeholder itself back instead of the value. */
  lemma DollarParamIsInterpreted()
    ensures ApplyParams("{m}", [Param("m", Str("$&"))]) == "{m}"
  {
    assert OccursAt("{m}", Placeholder("m"), 0);
    assert IndexOf("{m}", Placeholder("m")) == Some(0);
    assert Substitution("", "{m}", "", "") == "";
    assert Substitution("$&", "{m}", "", "") == "{m}";
    assert [Param("m", Str("$&"))][1..] == [];
  }
}
