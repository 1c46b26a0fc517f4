/** The page translations of the display front end: the lookup of a key in the
    current language with its fallbacks, the substitution of `{name}`
    placeholders, and the current language with its persistence. JavaScript
    strings are Dafny strings here. */
module I18n {
  import opened Base

  /** The translations object: language, then key, then text. */
  type Table = map<string, map<string, string>>

  /** `table[lang] && table[lang][key]`: a text that is missing or empty counts
      as absent. */
  predicate Has(table: Table, lang: string, key: string)
  {
    lang in table && key in table[lang] && table[lang][key] != ""
  }

  /** The text before substitution: the current language's, else the English
      one, else the key itself. */
  function Lookup(table: Table, lang: string, key: string): string
  {
    if Has(table, lang, key) then table[lang][key]
    else if Has(table, "en", key) then table["en"][key]
    else key
  }

  function Placeholder(name: string): (p: string)
    ensures |p| == |name| + 2
  {
    "{" + name + "}"
  }

  predicate OccursAt(s: string, pat: string, j: nat)
  {
    j + |pat| <= |s| && s[j..j + |pat|] == pat
  }

  /** Where `pat` first occurs in `s` at or after `from`, as `indexOf` finds it. */
  function IndexFrom(s: string, pat: string, from: nat): (r: Option<nat>)
    ensures r.Some? ==> from <= r.value && OccursAt(s, pat, r.value)
    decreases |s| - from
  {
    if from + |pat| > |s| then None
    else if OccursAt(s, pat, from) then Some(from)
    else IndexFrom(s, pat, from + 1)
  }

  /** The replacement text for one match, as String.prototype.replace expands
      a replacement string when the pattern is a string (there are no capture
      groups): `$$` is `$`, `$&` the match, `` $` `` the text before it, `$'`
      the text after it, and any other `$` is kept. */
  function Expand(rep: string, matched: string, before: string, after: string): string
  {
    if rep == [] then []
    else if |rep| >= 2 && rep[0] == '$' && rep[1] == '$' then "$" + Expand(rep[2..], matched, before, after)
    else if |rep| >= 2 && rep[0] == '$' && rep[1] == '&' then matched + Expand(rep[2..], matched, before, after)
    else if |rep| >= 2 && rep[0] == '$' && rep[1] == '`' then before + Expand(rep[2..], matched, before, after)
    else if |rep| >= 2 && rep[0] == '$' && rep[1] == '\'' then after + Expand(rep[2..], matched, before, after)
    else [rep[0]] + Expand(rep[1..], matched, before, after)
  }

  /** `s.replace(pat, rep)` with a string pattern: only the first occurrence. */
  function ReplaceFirst(s: string, pat: string, rep: string): string
  {
    match IndexFrom(s, pat, 0)
    case None => s
    case Some(i) => s[..i] + Expand(rep, pat, s[..i], s[i + |pat|..]) + s[i + |pat|..]
  }

  /** The parameters substituted one after the other, in the order `for...in`
      visits them. */
  function Substituted(val: string, params: seq<(string, string)>): string
    decreases |params|
  {
    if params == [] then val
    else Substituted(ReplaceFirst(val, Placeholder(params[0].0), params[0].1), params[1..])
  }

  function Translate(table: Table, lang: string, key: string, params: seq<(string, string)>): string
  {
    Substituted(Lookup(table, lang, key), params)
  }

  /** `localStorage.getItem('lang') || 'zh'`. */
  function InitialLang(storage: map<string, string>): string
  {
    if "lang" in storage && storage["lang"] != "" then storage["lang"] else "zh"
  }

  function Toggled(lang: string): string
  {
    if lang == "en" then "zh" else "en"
  }

  /** The value updatePage gives `document.documentElement.lang`. */
  function HtmlLang(lang: string): string
  {
    if lang == "zh" then "zh-CN" else "en"
  }

  /** The script's state in one page. */
  class Localizer {
    const translations: Table
    var currentLang: string
    /** localStorage. */
    var storage: map<string, string>
    /** The lang attribute of the document element. */
    var htmlLang: string
    /** `window.currentLang`, copied once when the script loads. */
    var exposedLang: string

    constructor(translations: Table, storage: map<string, string>, documentLang: string)
      ensures this.translations == translations && this.storage == storage && htmlLang == documentLang
      ensures currentLang == InitialLang(storage) && exposedLang == currentLang
    {
      this.translations := translations;
      this.storage := storage;
      htmlLang := documentLang;
      currentLang := InitialLang(storage);
      exposedLang := InitialLang(storage);
    }

    /** updatePage, as far as it touches the document element. */
    method UpdatePage()
      modifies this
      ensures htmlLang == HtmlLang(currentLang)
      ensures currentLang == old(currentLang) && storage == old(storage) && exposedLang == old(exposedLang)
    {
      htmlLang := if currentLang == "zh" then "zh-CN" else "en";
    }

    method SetLanguage(lang: string)
      modifies this
      ensures currentLang == lang && storage == old(storage)["lang" := lang]
      ensures htmlLang == HtmlLang(lang) && exposedLang == old(exposedLang)
    {
      currentLang := lang;
      storage := storage["lang" := lang];
      UpdatePage();
    }

    method ToggleLanguage()
      modifies this
      ensures currentLang == Toggled(old(currentLang)) && storage == old(storage)["lang" := currentLang]
      ensures htmlLang == HtmlLang(currentLang) && exposedLang == old(exposedLang)
    {
      SetLanguage(if currentLang == "en" then "zh" else "en");
    }

    /** t(key, params). */
    method T(key: string, params: seq<(string, string)>) returns (val: string)
      ensures val == Translate(translations, currentLang, key, params)
    {
      val := if currentLang in translations && key in translations[currentLang] && translations[currentLang][key] != ""
        then translations[currentLang][key]
        else if "en" in translations && key in translations["en"] && translations["en"][key] != ""
        then translations["en"][key]
        else key;
      for k := 0 to |params|
        invariant Substituted(val, params[k..]) == Translate(translations, currentLang, key, params)
      {
        assert params[k..][1..] == params[k + 1..];
        val := ReplaceFirst(val, Placeholder(params[k].0), params[k].1);
      }
      assert params[|params|..] == [];
    }
  }

  // ---- properties ---------------------------------------------------------------

  /** The current language's text when it has a non-empty one; otherwise the
      English text when that is non-empty; otherwise the key. */
  lemma LookupFallback(table: Table, lang: string, key: string)
    ensures Has(table, lang, key) ==> Lookup(table, lang, key) == table[lang][key]
    ensures !Has(table, lang, key) && Has(table, "en", key) ==> Lookup(table, lang, key) == table["en"][key]
    ensures !Has(table, lang, key) && !Has(table, "en", key) ==> Lookup(table, lang, key) == key
    ensures Lookup(table, lang, key) != "" || key == ""
  {
  }

  /** indexOf finds the first occurrence at or after `from`: there is none
      before it, and None means there is none at all. */
  lemma {:induction false} IndexFromFirst(s: string, pat: string, from: nat)
    ensures IndexFrom(s, pat, from).Some? ==>
      forall j :: from <= j < IndexFrom(s, pat, from).value ==> !OccursAt(s, pat, j)
    ensures IndexFrom(s, pat, from).None? ==> forall j :: from <= j ==> !OccursAt(s, pat, j)
    decreases |s| - from
  {
    if from + |pat| <= |s| && s[from..from + |pat|] != pat {
      IndexFromFirst(s, pat, from + 1);
    }
  }

  /** A replacement without `$` is inserted as it is. */
  lemma {:induction false} ExpandLiteral(rep: string, matched: string, before: string, after: string)
    requires '$' !in rep
    ensures Expand(rep, matched, before, after) == rep
  {
    if rep != [] {
      assert rep == [rep[0]] + rep[1..];
      ExpandLiteral(rep[1..], matched, before, after);
    }
  }

  /** replace changes only the first occurrence of the placeholder: the text
      before it has none, the text after it is kept as it is, and a string
      without the placeholder is returned unchanged. */
  lemma ReplaceFirstOnly(s: string, pat: string, rep: string)
    ensures IndexFrom(s, pat, 0).None? ==> ReplaceFirst(s, pat, rep) == s
    ensures IndexFrom(s, pat, 0).Some? ==>
      var i := IndexFrom(s, pat, 0).value;
      (forall j :: 0 <= j < i ==> !OccursAt(s, pat, j)) &&
      ReplaceFirst(s, pat, rep) == s[..i] + Expand(rep, pat, s[..i], s[i + |pat|..]) + s[i + |pat|..]
  {
    IndexFromFirst(s, pat, 0);
  }

  /** A parameter without `$` is put in place of the first placeholder as it is. */
  lemma ReplaceLiteral(s: string, pat: string, rep: string, i: nat)
    requires IndexFrom(s, pat, 0) == Some(i)
    requires '$' !in rep
    ensures ReplaceFirst(s, pat, rep) == s[..i] + rep + s[i + |pat|..]
  {
    ReplaceFirstOnly(s, pat, rep);
    ExpandLiteral(rep, pat, s[..i], s[i + |pat|..]);
  }

  /** Without parameters t returns the looked-up text unchanged. */
  lemma NoParams(table: Table, lang: string, key: string)
    ensures Translate(table, lang, key, []) == Lookup(table, lang, key)
  {
  }

  /** Parameters are applied in order: one more parameter is one more
      replacement on the text the earlier ones produced. */
  lemma {:induction false} SubstitutedAppend(val: string, params: seq<(string, string)>, p: (string, string))
    ensures Substituted(val, params + [p]) == ReplaceFirst(Substituted(val, params), Placeholder(p.0), p.1)
    decreases |params|
  {
    if params == [] {
      assert ([] + [p])[1..] == [];
    } else {
      assert (params + [p])[1..] == params[1..] + [p];
      SubstitutedAppend(ReplaceFirst(val, Placeholder(params[0].0), params[0].1), params[1..], p);
    }
  }

  /** Toggling maps "en" to "zh" and anything else to "en"; twice returns to
      "en" or "zh", and from any other language reaches "zh". */
  lemma ToggleTwice(lang: string)
    ensures Toggled(lang) == (if lang == "en" then "zh" else "en")
    ensures lang == "en" || lang == "zh" ==> Toggled(Toggled(lang)) == lang
    ensures lang != "en" && lang != "zh" ==> Toggled(Toggled(lang)) == "zh"
  {
  }

  /** The first load without a stored language is in Chinese; a language that
      setLanguage stored is the one the next load starts in, unless it is empty. */
  lemma StoredLanguage(storage: map<string, string>, lang: string)
    ensures "lang" !in storage ==> InitialLang(storage) == "zh"
    ensures lang != "" ==> InitialLang(storage["lang" := lang]) == lang
    ensures lang == "" ==> InitialLang(storage["lang" := lang]) == "zh"
  {
  }

  /** The document is marked "zh-CN" exactly when the language is "zh", and "en"
      otherwise. */
  lemma HtmlLangChoice(lang: string)
    ensures HtmlLang(lang) == "zh-CN" <==> lang == "zh"
    ensures lang != "zh" ==> HtmlLang(lang) == "en"
  {
  }
}
