/**
 * Language detection in the frontend's development boot script: the
 * language kept in local storage if the build supports it, else the
 * browser's language if supported, else the first supported language
 * whose primary subtag (the part before the first `-`) is the browser's
 * language, else `en-US`; the choice is then written back to local
 * storage under `lang`.
 */
module DevBoot {
  import opened Optional

  const DefaultLang := "en-US"
  const LangKey := "lang"

  /** `_LANGS_`: pairs of a language code and its display name. */
  type Langs = seq<(string, string)>

  /** `_LANGS_.map(it => it[0])`. */
  function Supported(langs: Langs): (r: seq<string>)
    ensures |r| == |langs| && forall i :: 0 <= i < |langs| ==> r[i] == langs[i].0
  {
    seq(|langs|, i requires 0 <= i < |langs| => langs[i].0)
  }

  /** `x.split('-')[0]`: everything before the first `-`, or all of `x` when it has none. */
  function Primary(x: string): (r: string)
    ensures |r| <= |x| && r == x[..|r|]
    ensures '-' !in r
    ensures |r| < |x| ==> x[|r|] == '-'
  {
    if x == [] || x[0] == '-' then [] else [x[0]] + Primary(x[1..])
  }

  /** The position of the first entry of `xs` whose primary subtag is `nav`, or `|xs|` when none is. */
  function FirstMatch(xs: seq<string>, nav: string): (k: nat)
    ensures k <= |xs|
    ensures k < |xs| ==> Primary(xs[k]) == nav
    ensures forall j :: 0 <= j < k ==> Primary(xs[j]) != nav
  {
    if xs == [] then 0
    else if Primary(xs[0]) == nav then 0
    else 1 + FirstMatch(xs[1..], nav)
  }

  /** `supportedLangs.find(x => x.split('-')[0] === navigator.language)`. */
  function Find(xs: seq<string>, nav: string): (r: Option<string>)
    ensures r.None? <==> forall x :: x in xs ==> Primary(x) != nav
    ensures r.Some? ==> exists k :: 0 <= k < |xs| && xs[k] == r.value && Primary(xs[k]) == nav
                                    && forall j :: 0 <= j < k ==> Primary(xs[j]) != nav
  {
    var k := FirstMatch(xs, nav);
    if k < |xs| then assert xs[k] in xs; Some(xs[k]) else None
  }

  /** The rule of lines 22-33, from the stored `lang` (if any) and `navigator.language`. */
  function ResolveLang(langs: Langs, stored: Option<string>, nav: string): (lang: string)
    ensures lang in Supported(langs) || lang == DefaultLang
  {
    var supported := Supported(langs);
    if stored.Some? && stored.value in supported then stored.value
    else if nav in supported then nav
    else Find(supported, nav).GetOr(DefaultLang)
  }

  /** A supported stored language is kept, whatever the browser says. */
  lemma KeepsStored(langs: Langs, stored: string, nav: string)
    requires stored in Supported(langs)
    ensures ResolveLang(langs, Some(stored), nav) == stored
  {
  }

  /**
   * The four outcomes of the rule, each with the condition that selects it:
   * the stored language, the browser's language, the first entry with a
   * matching primary subtag, and the default.
   */
  lemma ResolveLangCases(langs: Langs, stored: Option<string>, nav: string)
    ensures var supported := Supported(langs);
      var kept := stored.Some? && stored.value in supported;
      var k := FirstMatch(supported, nav);
      && (kept ==> ResolveLang(langs, stored, nav) == stored.value)
      && (!kept && nav in supported ==> ResolveLang(langs, stored, nav) == nav)
      && (!kept && nav !in supported && k < |supported| ==>
            && ResolveLang(langs, stored, nav) == supported[k]
            && Primary(supported[k]) == nav
            && forall j :: 0 <= j < k ==> Primary(supported[j]) != nav)
      && (!kept && nav !in supported && k == |supported| ==>
            && ResolveLang(langs, stored, nav) == DefaultLang
            && forall x :: x in supported ==> Primary(x) != nav)
  {
    var supported := Supported(langs);
    var k := FirstMatch(supported, nav);
    if k == |supported| {
      forall x | x in supported
        ensures Primary(x) != nav
      {
        var j :| 0 <= j < |supported| && supported[j] == x;
      }
    }
  }

  /** A browser language with no region subtag matches every supported regional variant of it. */
  lemma {:induction false} PrimaryOfRegional(base: string, region: string)
    requires '-' !in base
    ensures Primary(base + "-" + region) == base
    decreases |base|
  {
    var x := base + "-" + region;
    if base != [] {
      assert x[0] == base[0] && x[1..] == base[1..] + "-" + region;
      PrimaryOfRegional(base[1..], region);
      assert [base[0]] + base[1..] == base;
    }
  }

  /**
   * Boot again with the written-back `lang`: when that language is
   * supported the rule returns it once more, for any browser language.
   */
  lemma RerunKeepsChoice(langs: Langs, stored: Option<string>, nav: string, nav2: string)
    requires ResolveLang(langs, stored, nav) in Supported(langs)
    ensures var lang := ResolveLang(langs, stored, nav);
      ResolveLang(langs, Some(lang), nav2) == lang
  {
    KeepsStored(langs, ResolveLang(langs, stored, nav), nav2);
  }

  /** The stored value of `key`, `null` when there is none. */
  function StoredItem(items: map<string, string>, key: string): (r: Option<string>)
    ensures r.Some? <==> key in items
    ensures r.Some? ==> r.value == items[key]
  {
    if key in items then Some(items[key]) else None
  }

  /** The browser's `localStorage`, as far as language detection uses it. */
  class LocalStorage {
    var items: map<string, string>

    constructor (items: map<string, string>)
      ensures this.items == items
    {
      this.items := items;
    }

    method GetItem(key: string) returns (r: Option<string>)
      ensures r == StoredItem(items, key)
    {
      r := if key in items then Some(items[key]) else None;
    }

    method SetItem(key: string, value: string)
      modifies this
      ensures items == old(items)[key := value]
    {
      items := items[key := value];
    }

    /** Lines 22-37: read `lang`, apply the rule, write the choice back. */
    method DetectLanguage(langs: Langs, nav: string) returns (lang: string)
      modifies this
      ensures lang == ResolveLang(langs, StoredItem(old(items), LangKey), nav)
      ensures items == old(items)[LangKey := lang]
    {
      var supported := Supported(langs);
      var stored := GetItem(LangKey);
      if stored.None? || stored.value !in supported {
        if nav in supported {
          lang := nav;
        } else {
          var found := Find(supported, nav);
          lang := if found.None? then DefaultLang else found.value;
        }
      } else {
        lang := stored.value;
      }
      SetItem(LangKey, lang);
    }
  }

  /**
   * Two boots in a row with the same storage: the second reads back what
   * the first wrote and, when that language is supported, keeps it.
   */
  method BootTwice(langs: Langs, items: map<string, string>, nav: string, nav2: string)
    returns (first: string, second: string)
    ensures first == ResolveLang(langs, StoredItem(items, LangKey), nav)
    ensures first in Supported(langs) ==> second == first
    ensures first !in Supported(langs) ==> first == DefaultLang
  {
    var storage := new LocalStorage(items);
    first := storage.DetectLanguage(langs, nav);
    second := storage.DetectLanguage(langs, nav2);
    if first in Supported(langs) {
      RerunKeepsChoice(langs, StoredItem(items, LangKey), nav, nav2);
    }
  }
}
