/** contexts/LanguageContext.tsx: the current language, its persistence in localStorage,
    and `t(key, params)`, which looks a key up in the translation table and substitutes
    `{name}` placeholders. The table's ~670 literal strings are not transcribed: the table
    is a parameter, and the entries a property needs are stated as requirements. */
module LanguageContext {
  import opened Wrappers
  import opened Text
  import opened Types
  import Storage

  /** The localStorage key holding the chosen language. */
  const LanguageStorageKey := "SILVERCARE_LANGUAGE"

  /** The language a provider starts with. */
  const DefaultLanguage := ZhCN

  /** The code under which a language is stored. */
  function LanguageCode(l: Language): string {
    match l
    case ZhCN => "zh-CN"
    case ZhTW => "zh-TW"
    case En => "en"
  }

  /** The check `['zh-CN', 'zh-TW', 'en'].includes(saved)`, returning the language. */
  function ParseLanguage(s: string): (r: Option<Language>)
    ensures r.Some? ==> LanguageCode(r.value) == s
  {
    if s == "zh-CN" then Some(ZhCN)
    else if s == "zh-TW" then Some(ZhTW)
    else if s == "en" then Some(En)
    else None
  }

  /** Every language's code is recognised as that language, and nothing else is
      recognised: the stored codes and the accepted strings are the same three. */
  lemma LanguageCodeRoundTrip(l: Language, s: string)
    ensures ParseLanguage(LanguageCode(l)) == Some(l)
    ensures ParseLanguage(s).None? <==> s != "zh-CN" && s != "zh-TW" && s != "en"
  {
  }

  /** The mount effect's decision: a saved value is adopted only when it is one of the
      three codes; otherwise the current language stays. */
  function AdoptSaved(saved: Option<string>, current: Language): (r: Language)
    ensures saved.Some? && ParseLanguage(saved.value).Some? ==> r == ParseLanguage(saved.value).value
    ensures (saved.None? || ParseLanguage(saved.value).None?) ==> r == current
  {
    if saved.Some? && ParseLanguage(saved.value).Some? then ParseLanguage(saved.value).value
    else current
  }

  /** What `setLanguage` stores is adopted as that same language by the next provider that
      loads it. */
  lemma PersistedLanguageRestores(l: Language, current: Language)
    ensures AdoptSaved(Some(LanguageCode(l)), current) == l
  {
  }

  /** Translation strings per language, key to text. */
  type Table = Language -> map<string, string>

  /** `translations[language][key] || key`: an entry that is missing or empty falls back to
      the key itself. */
  function Lookup(table: Table, lang: Language, key: string): (r: string)
    ensures key in table(lang) && table(lang)[key] != "" ==> r == table(lang)[key]
    ensures !(key in table(lang) && table(lang)[key] != "") ==> r == key
  {
    if key in table(lang) && table(lang)[key] != "" then table(lang)[key] else key
  }

  /** A parameter value: a string, or an integer-valued number. */
  datatype ParamValue = StrValue(s: string) | IntValue(n: int)

  /** `String(v)`. */
  function Stringify(v: ParamValue): string {
    match v
    case StrValue(s) => s
    case IntValue(n) => IntToString(n)
  }

  /** The entries of a params object, in `Object.entries` order. */
  type Params = seq<(string, ParamValue)>

  /** The placeholder `{k}` that a parameter named `k` fills. */
  function Placeholder(k: string): (r: string)
    ensures |r| == |k| + 2 && r[0] == '{'
  {
    "{" + k + "}"
  }

  /** The params loop: each entry, in order, replaces the first `{name}` of the text as it
      stands after the previous entries. */
  function ApplyParams(text: string, params: Params): string
    decreases |params|
  {
    if params == [] then text
    else ApplyParams(ReplaceFirst(text, Placeholder(params[0].0), Stringify(params[0].1)), params[1..])
  }

  /** `t(key, params)`: the lookup, then the params loop when there are params. */
  function Translation(table: Table, lang: Language, key: string, params: Option<Params>): string {
    var text := Lookup(table, lang, key);
    if params.Some? then ApplyParams(text, params.value) else text
  }

  /** Without params (or with none left to apply) the result is the lookup itself. */
  lemma TranslationWithoutParams(table: Table, lang: Language, key: string)
    ensures Translation(table, lang, key, None) == Lookup(table, lang, key)
    ensures Translation(table, lang, key, Some([])) == Lookup(table, lang, key)
  {
  }

  /** A text with no '{' at all has no placeholder for any parameter. */
  lemma {:induction false} NoBraceNoPlaceholder(s: string, k: string)
    requires forall i :: 0 <= i < |s| ==> s[i] != '{'
    ensures forall j :: 0 <= j ==> !OccursAt(s, Placeholder(k), j)
  {
    forall j | 0 <= j ensures !OccursAt(s, Placeholder(k), j) {
      if j < |s| {
        assert s[j] != Placeholder(k)[0];
      }
    }
  }

  /** A parameter whose placeholder does not occur leaves the text as it was. */
  lemma AbsentPlaceholderUnchanged(text: string, k: string, v: ParamValue)
    requires forall j :: 0 <= j ==> !OccursAt(text, Placeholder(k), j)
    ensures ApplyParams(text, [(k, v)]) == text
  {
    ReplaceFirstSpec(text, Placeholder(k), Stringify(v));
    assert [(k, v)][1..] == [];
  }

  /** One parameter replaces the first occurrence of its placeholder and nothing else. */
  lemma SingleParamReplacesFirst(text: string, k: string, v: ParamValue, i: nat)
    requires OccursAt(text, Placeholder(k), i)
    requires forall j :: 0 <= j < i ==> !OccursAt(text, Placeholder(k), j)
    ensures ApplyParams(text, [(k, v)]) == text[..i] + Stringify(v) + text[i + |Placeholder(k)|..]
  {
    ReplaceFirstSpec(text, Placeholder(k), Stringify(v));
    assert [(k, v)][1..] == [];
  }

  /** When the text's first '{' opens the parameter's placeholder, the value goes exactly
      there. */
  lemma PlaceholderAtFirstBrace(text: string, k: string, v: ParamValue, i: nat)
    requires OccursAt(text, Placeholder(k), i)
    requires forall j :: 0 <= j < i ==> text[j] != '{'
    ensures ApplyParams(text, [(k, v)]) == text[..i] + Stringify(v) + text[i + |Placeholder(k)|..]
  {
    forall j | 0 <= j < i ensures !OccursAt(text, Placeholder(k), j) {
      assert text[j] != Placeholder(k)[0];
    }
    SingleParamReplacesFirst(text, k, v, i);
  }

  /** Params are applied in entry order: the first entry's substitution happens before the
      remaining entries are applied. */
  lemma {:induction false} ApplyParamsInOrder(text: string, first: Params, rest: Params)
    ensures ApplyParams(text, first + rest) == ApplyParams(ApplyParams(text, first), rest)
    decreases |first|
  {
    if first == [] {
      assert first + rest == rest;
    } else {
      assert (first + rest)[1..] == first[1..] + rest;
      ApplyParamsInOrder(ReplaceFirst(text, Placeholder(first[0].0), Stringify(first[0].1)), first[1..], rest);
    }
  }

  /** The alarm-count text of the guardian dashboard, `t('alarm_config_count', {count: 1})`,
      in English: the number takes the placeholder's place. */
  lemma AlarmCountEnglish(table: Table)
    requires "alarm_config_count" in table(En) && table(En)["alarm_config_count"] == "{count} alarm(s) set"
    ensures Translation(table, En, "alarm_config_count", Some([("count", IntValue(1))])) == "1 alarm(s) set"
  {
    var tail := " alarm(s) set";
    var en := Placeholder("count") + tail;
    var params := [("count", IntValue(1))];
    assert en == "{count} alarm(s) set";
    assert Lookup(table, En, "alarm_config_count") == en;
    assert en[0..|Placeholder("count")|] == Placeholder("count");
    SingleParamReplacesFirst(en, "count", IntValue(1), 0);
    assert en[|Placeholder("count")|..] == tail;
    StringifyOne();
    assert ApplyParams(en, params) == [] + "1" + tail;
  }

  /** `String(1)` is "1". */
  lemma StringifyOne()
    ensures Stringify(IntValue(1)) == "1"
  {
    assert NatToString(1) == [DigitChar(1)];
  }

  /** The same call in Simplified Chinese: the entry has no placeholder and is shown as
      written. */
  lemma AlarmCountChinese(table: Table)
    requires "alarm_config_count" in table(ZhCN) && table(ZhCN)["alarm_config_count"] == "已配置 1 个定时提醒"
    ensures Translation(table, ZhCN, "alarm_config_count", Some([("count", IntValue(1))])) == "已配置 1 个定时提醒"
  {
    var zh := "已配置 1 个定时提醒";
    assert Lookup(table, ZhCN, "alarm_config_count") == zh;
    NoBraceNoPlaceholder(zh, "count");
    AbsentPlaceholderUnchanged(zh, "count", IntValue(1));
  }

  /** The provider: the current language, the table, and the storage it persists to. */
  class LanguageProvider {
    var language: Language
    const translations: Table
    const storage: Storage.LocalStorage

    /** `useState<Language>('zh-CN')`. */
    constructor (translations: Table, storage: Storage.LocalStorage)
      ensures language == DefaultLanguage
      ensures this.translations == translations && this.storage == storage
    {
      language := DefaultLanguage;
      this.translations := translations;
      this.storage := storage;
    }

    /** The mount effect: reads the saved language and adopts it when it is valid. */
    method LoadSaved()
      modifies this
      ensures language == AdoptSaved(storage.GetItem(LanguageStorageKey), old(language))
    {
      var saved := storage.GetItem(LanguageStorageKey);
      if saved.Some? && ParseLanguage(saved.value).Some? {
        language := ParseLanguage(saved.value).value;
      }
    }

    /** `setLanguage`: the state and the stored value both become `l`. */
    method SetLanguage(l: Language)
      modifies this, storage
      ensures language == l
      ensures storage.items == old(storage.items)[LanguageStorageKey := LanguageCode(l)]
    {
      language := l;
      storage.SetItem(LanguageStorageKey, LanguageCode(l));
    }

    /** `t(key, params)`, with its `forEach` over the entries as a loop. */
    method T(key: string, params: Option<Params>) returns (text: string)
      ensures text == Translation(translations, language, key, params)
    {
      text := Lookup(translations, language, key);
      if params.Some? {
        var entries := params.value;
        var i := 0;
        while i < |entries|
          invariant 0 <= i <= |entries|
          invariant ApplyParams(text, entries[i..]) == ApplyParams(Lookup(translations, language, key), entries)
        {
          text := ReplaceFirst(text, Placeholder(entries[i].0), Stringify(entries[i].1));
          i := i + 1;
        }
      }
    }
  }

  /** After `setLanguage(l)`, a provider reloaded over the same storage starts in `l`. */
  method RestoreAfterSet(translations: Table, storage: Storage.LocalStorage, l: Language)
    returns (reloaded: LanguageProvider)
    modifies storage
    ensures reloaded.language == l
  {
    var first := new LanguageProvider(translations, storage);
    first.SetLanguage(l);
    reloaded := new LanguageProvider(translations, storage);
    reloaded.LoadSaved();
    PersistedLanguageRestores(l, DefaultLanguage);
  }

  /** `useLanguage`: the provider's context, or the error thrown outside a provider. */
  function UseLanguage(context: Option<LanguageProvider>): (r: Result<LanguageProvider, string>)
    ensures r.Failure? <==> context.None?
    ensures r.Success? ==> r.value == context.value
    ensures r.Failure? ==> r.error == "useLanguage must be used within a LanguageProvider"
  {
    if context.None? then Failure("useLanguage must be used within a LanguageProvider")
    else Success(context.value)
  }
}
