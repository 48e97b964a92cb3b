/**
 * Locale resolution: a fixed table of message bundles for `en`, `ru` and `kk`,
 * a process-wide fallback locale set by `Init`, a case-insensitive `Get`, and
 * `ParseAcceptLanguage`, which extracts a primary language tag from an
 * `Accept-Language` header value (section 12.5.4 of RFC 9110) in a simplified way.
 */
module I18n {
  import opened Text

  /** The user-facing strings of one locale. */
  datatype Messages = Messages(unauthorized: string, invalidID: string, invalidName: string)

  /** Go's zero value for `Messages`: every field empty. */
  const Zero: Messages := Messages("", "", "")

  const Translations: map<string, Messages> := map[
    "en" := Messages("unauthorized", "invalid id", "invalid name"),
    "ru" := Messages("неавторизован", "неверный id", "неверное имя"),
    "kk" := Messages("авторизацияланбаған", "жарамсыз id", "жарамсыз аты")
  ]

  predicate Complete(m: Messages)
  {
    m.unauthorized != "" && m.invalidID != "" && m.invalidName != ""
  }

  /** Every bundle of the table has all three messages. */
  lemma BundlesComplete(code: string)
    requires code in Translations
    ensures Complete(Translations[code])
  {
  }

  /** Indexing the table as Go indexes a map: a missing key yields the zero value. */
  function Lookup(code: string): (m: Messages)
    ensures code in Translations ==> m == Translations[code]
    ensures Complete(m) <==> code in Translations
    ensures !Complete(m) ==> m == Zero
  {
    if code in Translations then Translations[code] else Zero
  }

  /**
   * The package state of the resolver: the fallback locale `defaultLang`.
   * It is `""` until `Init` runs; `""` is not a key of the table.
   */
  class Catalog {
    var defaultLang: string

    constructor ()
      ensures defaultLang == ""
    {
      defaultLang := "";
    }

    predicate Initialized()
      reads this
    {
      defaultLang in Translations
    }

    /** Sets the fallback to the lower-cased `lang` when the table has it, and to `en` otherwise. */
    method Init(lang: string)
      modifies this
      ensures defaultLang == if ToLower(lang) in Translations then ToLower(lang) else "en"
      ensures Initialized()
    {
      var code := ToLower(lang);
      if code !in Translations {
        code := "en";
      }
      defaultLang := code;
    }

    /** The bundle of `lang`, compared case-insensitively; on a miss, the fallback's bundle. */
    function Get(lang: string): (m: Messages)
      reads this
      ensures ToLower(lang) in Translations ==> m == Translations[ToLower(lang)]
      ensures ToLower(lang) !in Translations ==> m == Lookup(defaultLang)
    {
      var code := ToLower(lang);
      if code != "" && code in Translations then Translations[code] else Lookup(defaultLang)
    }
  }

  /** `Get` does not distinguish upper and lower case: `Get("RU") == Get("ru")`. */
  lemma GetIgnoresCase(cat: Catalog, a: string, b: string)
    requires ToLower(a) == ToLower(b)
    ensures cat.Get(a) == cat.Get(b)
  {
  }

  lemma GetUpperCase(cat: Catalog)
    ensures cat.Get("RU") == cat.Get("ru") == Translations["ru"]
  {
    assert ToLower("RU") == "ru";
    assert ToLower("ru") == "ru";
  }

  /** Lower-casing is that of Go: two KELVIN SIGNs select the Kazakh bundle. */
  lemma GetKelvinSign(cat: Catalog)
    ensures cat.Get([KelvinSign, KelvinSign]) == Translations["kk"]
  {
    assert ToLower([KelvinSign, KelvinSign]) == "kk";
  }

  /** After `Init`, every code, supported or not, empty or not, resolves to a complete bundle of the table. */
  lemma GetAfterInit(cat: Catalog, lang: string)
    requires cat.Initialized()
    ensures cat.Get(lang) in Translations.Values
    ensures Complete(cat.Get(lang))
    ensures ToLower(lang) !in Translations ==> cat.Get(lang) == Translations[cat.defaultLang]
  {
    var code := if ToLower(lang) in Translations then ToLower(lang) else cat.defaultLang;
    assert cat.Get(lang) == Translations[code];
  }

  /** Before `Init`, an unsupported or empty code resolves to the zero bundle, whose messages are all empty. */
  lemma GetBeforeInit(cat: Catalog, lang: string)
    requires cat.defaultLang == ""
    requires ToLower(lang) !in Translations
    ensures cat.Get(lang) == Zero
  {
  }

  /**
   * The primary tag of an `Accept-Language` value: the first comma-separated
   * item, trimmed, cut before its first `;` and then before its first `-`, and
   * lower-cased. Quality values and all later items are ignored.
   */
  function ParseAcceptLanguage(acceptLang: string): string
  {
    if acceptLang == "" then ""
    else
      var parts := Split(acceptLang, ',');
      if |parts| > 0 then
        var lang := TrimSpace(parts[0]);
        var lang := Before(lang, ';');
        var lang := Before(lang, '-');
        ToLower(lang)
      else ""
  }

  /** The result is `""` for `""`, never contains `,`, `;` or `-`, and is lower-case. */
  lemma ParsedTagShape(acceptLang: string)
    ensures var r := ParseAcceptLanguage(acceptLang);
      && (acceptLang == "" ==> r == "")
      && ',' !in r && ';' !in r && '-' !in r
      && IsLower(r)
  {
    if acceptLang != "" {
      var lang := Before(Before(TrimSpace(Split(acceptLang, ',')[0]), ';'), '-');
      ToLowerKeepsNonLetters(lang, ',');
      ToLowerKeepsNonLetters(lang, ';');
      ToLowerKeepsNonLetters(lang, '-');
      ToLowerIsLower(lang);
    }
  }

  /**
   * The four steps of the parser, for a non-empty value. This restates the
   * parser with `Split(s, ',')[0]` read as `Before(s, ',')`; what the steps
   * yield on a header value is stated by `PrimaryTag`.
   */
  lemma ParseSteps(s: string)
    requires s != ""
    ensures ParseAcceptLanguage(s) == ToLower(Before(Before(TrimSpace(Before(s, ',')), ';'), '-'))
  {
  }

  lemma BeforeAfterPrefix(a: string, b: string, c: char)
    requires c !in a
    ensures Before(a + b, c) == a + Before(b, c)
  {
    IndexOfAfterPrefix(a, b, c);
    if c in b {
      assert (a + b)[..|a| + IndexOf(b, c)] == a + b[..IndexOf(b, c)];
    }
  }

  /** Trimming keeps a non-white-space prefix that ends in a non-white-space character. */
  lemma TrimSpaceKeepsTag(tag: string, v: string)
    requires |tag| > 0 && !IsSpace(tag[0]) && !IsSpace(tag[|tag| - 1])
    requires v != [] ==> !IsSpace(v[0])
    ensures |tag| <= |TrimSpace(tag + v)|
    ensures TrimSpace(tag + v) == tag + v[..|TrimSpace(tag + v)| - |tag|]
    ensures v != [] ==> |tag| < |TrimSpace(tag + v)|
  {
    var s := tag + v;
    var r := TrimSpace(s);
    assert LeadingSpaces(s) == 0;
    assert s[|tag| - 1] == tag[|tag| - 1];
    if v != [] {
      assert s[|tag|] == v[0];
    }
    assert r == s[..|r|];
  }

  /** Cutting at `;` and then at `-` keeps a tag followed by nothing, a parameter or a subtag. */
  lemma CutsKeepTag(tag: string, w: string)
    requires ';' !in tag && '-' !in tag
    requires w == [] || w[0] == ';' || w[0] == '-'
    ensures Before(Before(tag + w, ';'), '-') == tag
  {
    BeforeAfterPrefix(tag, w, ';');
    var u := Before(w, ';');
    assert u == [] || u[0] == '-' by {
      if w != [] && w[0] == ';' {
        assert IndexOf(w, ';') == 0;
      }
    }
    BeforeAfterPrefix(tag, u, '-');
    if u != [] {
      assert IndexOf(u, '-') == 0;
    }
  }

  /** The first item of a value that starts with a tag is that tag followed by nothing, a parameter or a subtag. */
  lemma FirstItemOfTag(tag: string, rest: string)
    requires ',' !in tag
    requires rest == [] || rest[0] == ',' || rest[0] == ';' || rest[0] == '-'
    ensures var v := Before(rest, ',');
      Before(tag + rest, ',') == tag + v && (v == [] || v[0] == ';' || v[0] == '-')
  {
    BeforeAfterPrefix(tag, rest, ',');
    if rest != [] && rest[0] == ',' {
      assert IndexOf(rest, ',') == 0;
    }
  }

  /**
   * A header value that starts with a tag followed by the end, a region
   * subtag, a parameter or the next item yields that tag, lower-cased.
   */
  lemma PrimaryTag(tag: string, rest: string)
    requires |tag| > 0 && !IsSpace(tag[0]) && !IsSpace(tag[|tag| - 1])
    requires ',' !in tag && ';' !in tag && '-' !in tag
    requires rest == [] || rest[0] == ',' || rest[0] == ';' || rest[0] == '-'
    ensures ParseAcceptLanguage(tag + rest) == ToLower(tag)
  {
    assert Before(Before(TrimSpace(Before(tag + rest, ',')), ';'), '-') == tag by {
      TagCuts(tag, rest);
    }
    ParseSteps(tag + rest);
  }

  /** The cuts of the parser applied to a value that starts with a tag leave the tag. */
  lemma TagCuts(tag: string, rest: string)
    requires |tag| > 0 && !IsSpace(tag[0]) && !IsSpace(tag[|tag| - 1])
    requires ',' !in tag && ';' !in tag && '-' !in tag
    requires rest == [] || rest[0] == ',' || rest[0] == ';' || rest[0] == '-'
    ensures Before(Before(TrimSpace(Before(tag + rest, ',')), ';'), '-') == tag
  {
    var v := Before(rest, ',');
    assert Before(tag + rest, ',') == tag + v && (v == [] || v[0] == ';' || v[0] == '-') by {
      FirstItemOfTag(tag, rest);
    }
    var t := TrimSpace(tag + v);
    assert |tag| <= |t| && t == tag + v[..|t| - |tag|] by {
      TrimSpaceKeepsTag(tag, v);
    }
    CutsKeepTag(tag, v[..|t| - |tag|]);
  }

  /** A lower-case tag, followed by the end, a subtag, a parameter or the next item, parses to itself. */
  lemma LowerTag(tag: string, rest: string)
    requires |tag| > 0 && !IsSpace(tag[0]) && !IsSpace(tag[|tag| - 1]) && IsLower(tag)
    requires ',' !in tag && ';' !in tag && '-' !in tag
    requires rest == [] || rest[0] == ',' || rest[0] == ';' || rest[0] == '-'
    ensures ParseAcceptLanguage(tag + rest) == tag
  {
    PrimaryTag(tag, rest);
    ToLowerOfLower(tag);
  }

  lemma ParseRegionAndQuality()
    ensures ParseAcceptLanguage("en-US,fr;q=0.9") == "en"
  {
    var tag, rest := "en", "-US,fr;q=0.9";
    assert tag + rest == "en-US,fr;q=0.9";
    assert !IsSpace(tag[0]) && !IsSpace(tag[1]);
    LowerTag(tag, rest);
  }

  lemma ParseUpperCase()
    ensures ParseAcceptLanguage("RU") == "ru"
  {
    var tag := "RU";
    assert tag + [] == tag;
    assert !IsSpace(tag[0]) && !IsSpace(tag[1]);
    PrimaryTag(tag, []);
    assert ToLower(tag) == [LowerChar('R')] + ToLower("U");
    assert ToLower("U") == [LowerChar('U')] + ToLower("");
  }

  /** A result without white space at its ends is a fixed point of the parser. */
  lemma ParseIdempotent(s: string)
    requires var r := ParseAcceptLanguage(s); r == [] || (!IsSpace(r[0]) && !IsSpace(r[|r| - 1]))
    ensures ParseAcceptLanguage(ParseAcceptLanguage(s)) == ParseAcceptLanguage(s)
  {
    var r := ParseAcceptLanguage(s);
    if r != [] {
      ParsedTagShape(s);
      assert r + [] == r;
      LowerTag(r, []);
    }
  }

  /**
   * White space before a parameter survives: the value is trimmed before the
   * `;` cut, so an item such as `"ru ;q=0.9"` yields `"ru "`, which no bundle matches.
   */
  lemma ParseKeepsSpaceBeforeParameter(item: string, param: string)
    requires |item| > 0 && !IsSpace(item[0]) && IsLower(item)
    requires ',' !in item && ';' !in item && '-' !in item
    requires |param| > 0 && param[0] == ';' && ',' !in param && !IsSpace(param[|param| - 1])
    ensures ParseAcceptLanguage(item + param) == item
  {
    var s := item + param;
    assert Before(Before(TrimSpace(Before(s, ',')), ';'), '-') == item by {
      ItemBeforeParameter(item, param);
    }
    assert ToLower(item) == item by {
      ToLowerOfLower(item);
    }
    ParseSteps(s);
  }

  /** The cuts of the parser applied to an item followed by a parameter leave the item. */
  lemma ItemBeforeParameter(item: string, param: string)
    requires |item| > 0 && !IsSpace(item[0])
    requires ',' !in item && ';' !in item && '-' !in item
    requires |param| > 0 && param[0] == ';' && ',' !in param && !IsSpace(param[|param| - 1])
    ensures Before(Before(TrimSpace(Before(item + param, ',')), ';'), '-') == item
  {
    var s := item + param;
    assert Before(s, ',') == s by {
      BeforeAfterPrefix(s, [], ',');
      assert s + [] == s;
    }
    assert TrimSpace(s) == s by {
      assert s[0] == item[0] && s[|s| - 1] == param[|param| - 1];
      TrimSpaceOfTrimmed(s);
    }
    assert Before(s, ';') == item by {
      BeforeAfterPrefix(item, param, ';');
      assert IndexOf(param, ';') == 0;
    }
    assert Before(item, '-') == item by {
      BeforeAfterPrefix(item, [], '-');
      assert item + [] == item;
    }
  }

  lemma ParseQuotedSpaceExample()
    ensures ParseAcceptLanguage("ru ;q=0.9") == "ru "
  {
    var item, param := "ru ", ";q=0.9";
    assert item + param == "ru ;q=0.9";
    assert !IsSpace(item[0]) && !IsSpace(param[|param| - 1]);
    ParseKeepsSpaceBeforeParameter(item, param);
  }
}
