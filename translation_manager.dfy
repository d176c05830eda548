/** The bot's translation lookup: per-language JSON documents, a dotted key path walked through
    nested objects, a fallback to Spanish and then to the key itself, and keyword formatting that
    falls back to the raw text. Reading the files is a parameter. */
module TranslationManager {
  import opened Wrappers
  import opened Text

  /** A parsed JSON value: a string, an object (its members in file order, keys distinct), or
      anything else (number, list, boolean, null). */
  datatype Json = JStr(s: string) | JObj(fields: seq<(string, Json)>) | JOther

  const DefaultLanguage: string := "es"
  const SupportedLanguages: seq<string> := ["es", "en"]

  /** `key in data` and `data[key]` on an object: the member with that key, if any. */
  function Member(fields: seq<(string, Json)>, key: string): (r: Option<Json>)
    ensures r.Some? <==> exists i :: 0 <= i < |fields| && fields[i].0 == key
    ensures r.Some? ==> exists i :: 0 <= i < |fields| && fields[i] == (key, r.value)
  {
    if fields == [] then None
    else if fields[0].0 == key then Some(fields[0].1)
    else Member(fields[1..], key)
  }

  /** Following the keys one by one through nested objects. */
  function Walk(data: Json, keys: seq<string>): Option<Json>
  {
    if keys == [] then Some(data)
    else if data.JObj? && Member(data.fields, keys[0]).Some? then Walk(Member(data.fields, keys[0]).value, keys[1..])
    else None
  }

  /** Walking a path in two parts is walking the first part, then the second from where it ends. */
  lemma {:induction false} WalkAppend(data: Json, a: seq<string>, b: seq<string>)
    ensures Walk(data, a + b) == if Walk(data, a).Some? then Walk(Walk(data, a).value, b) else None
  {
    if a != [] {
      assert (a + b)[0] == a[0] && (a + b)[1..] == a[1..] + b;
      if data.JObj? && Member(data.fields, a[0]).Some? {
        WalkAppend(Member(data.fields, a[0]).value, a[1..], b);
      }
    } else {
      assert a + b == b;
    }
  }

  /** _get_nested_value as a value: the string at the end of the path, or None. */
  function NestedValue(data: Json, keys: seq<string>): (r: Option<string>)
    ensures r.Some? <==> Walk(data, keys).Some? && Walk(data, keys).value.JStr?
    ensures r.Some? ==> Walk(data, keys) == Some(JStr(r.value))
  {
    var w := Walk(data, keys);
    if w.Some? && w.value.JStr? then Some(w.value.s) else None
  }

  /** _get_nested_value: the loop that rebinds `data` key by key. */
  method GetNestedValue(data: Json, keys: seq<string>) returns (r: Option<string>)
    ensures r == NestedValue(data, keys)
  {
    var cur := data;
    var i := 0;
    while i < |keys|
      invariant 0 <= i <= |keys|
      invariant Walk(data, keys[..i]) == Some(cur)
    {
      WalkAppend(data, keys[..i], [keys[i]]);
      assert keys[..i + 1] == keys[..i] + [keys[i]];
      if cur.JObj? && Member(cur.fields, keys[i]).Some? {
        cur := Member(cur.fields, keys[i]).value;
      } else {
        WalkAppend(data, keys[..i + 1], keys[i + 1..]);
        assert keys[..i + 1] + keys[i + 1..] == keys;
        return None;
      }
      i := i + 1;
    }
    assert keys[..i] == keys;
    r := if cur.JStr? then Some(cur.s) else None;
  }

  /** The language get_text uses: the one asked for when supported, Spanish otherwise. */
  function ResolveLanguage(language: Option<string>): (lang: string)
    ensures lang in SupportedLanguages
    ensures language.Some? && language.value in SupportedLanguages ==> lang == language.value
    ensures language.None? || language.value !in SupportedLanguages ==> lang == DefaultLanguage
  {
    if language.Some? && language.value in SupportedLanguages then language.value else DefaultLanguage
  }

  /** `translations.get(lang, {})`. */
  function Document(translations: map<string, Json>, lang: string): (d: Json)
    ensures lang in translations ==> d == translations[lang]
    ensures lang !in translations ==> d == JObj([])
  {
    if lang in translations then translations[lang] else JObj([])
  }

  /** The three ways str.format with keyword arguments only can fail. */
  datatype FormatError = KeyErr | ValueErr | IndexErr

  /** The index of the first brace in s, or |s|. */
  function BraceAt(s: string): (k: nat)
    ensures k <= |s|
    ensures forall i :: 0 <= i < k ==> s[i] != '{' && s[i] != '}'
    ensures k < |s| ==> s[k] == '{' || s[k] == '}'
  {
    if s == [] || s[0] == '{' || s[0] == '}' then 0 else 1 + BraceAt(s[1..])
  }

  /** text.format(**kwargs): "{{" and "}}" are literal braces, "{name}" is the named argument
      (KeyError when absent), an empty or numeric field is positional and fails with IndexError,
      and a brace without its partner is a ValueError. Errors are raised left to right. */
  function Format(t: string, kwargs: map<string, string>): (r: Result<string, FormatError>)
    decreases |t|
  {
    if t == [] then Ok([])
    else if t[0] == '{' && |t| > 1 && t[1] == '{' then Prepend('{', Format(t[2..], kwargs))
    else if t[0] == '}' && |t| > 1 && t[1] == '}' then Prepend('}', Format(t[2..], kwargs))
    else if t[0] == '}' then Err(ValueErr)
    else if t[0] == '{' then
      var rest := t[1..];
      var k := BraceAt(rest);
      if k == |rest| || rest[k] == '{' then Err(ValueErr)
      else
        var name := rest[..k];
        if name == [] || IsDigits(name) then Err(IndexErr)
        else if name !in kwargs then Err(KeyErr)
        else
          var tail := Format(rest[k + 1..], kwargs);
          if tail.Err? then tail else Ok(kwargs[name] + tail.value)
    else Prepend(t[0], Format(t[1..], kwargs))
  }

  function Prepend(c: char, r: Result<string, FormatError>): Result<string, FormatError>
  {
    if r.Err? then r else Ok([c] + r.value)
  }

  /** The text a template must be to print s literally: every brace doubled. */
  function Escape(s: string): (e: string)
    ensures |e| >= |s|
  {
    if s == [] then []
    else if s[0] == '{' || s[0] == '}' then [s[0], s[0]] + Escape(s[1..])
    else [s[0]] + Escape(s[1..])
  }

  /** Formatting an escaped text gives the text back, whatever the arguments. */
  lemma {:induction false} FormatEscape(s: string, kwargs: map<string, string>)
    ensures Format(Escape(s), kwargs) == Ok(s)
  {
    if s != [] {
      FormatEscape(s[1..], kwargs);
      var e := Escape(s);
      if s[0] == '{' || s[0] == '}' {
        assert e[2..] == Escape(s[1..]);
      } else {
        assert e[1..] == Escape(s[1..]);
      }
      assert [s[0]] + s[1..] == s;
    }
  }

  /** A text without braces formats to itself. */
  lemma {:induction false} FormatPlain(t: string, kwargs: map<string, string>)
    requires forall i :: 0 <= i < |t| ==> t[i] != '{' && t[i] != '}'
    ensures Format(t, kwargs) == Ok(t)
  {
    if t != [] {
      FormatPlain(t[1..], kwargs);
      assert [t[0]] + t[1..] == t;
    }
  }

  /** A named field between plain texts is replaced by its argument; without the argument the
      call fails with KeyError. */
  lemma FormatField(before: string, name: string, after: string, kwargs: map<string, string>)
    requires forall i :: 0 <= i < |before| ==> before[i] != '{' && before[i] != '}'
    requires forall i :: 0 <= i < |after| ==> after[i] != '{' && after[i] != '}'
    requires forall i :: 0 <= i < |name| ==> name[i] != '{' && name[i] != '}'
    requires name != [] && !IsDigits(name)
    ensures var t := before + ("{" + name + "}" + after);
      Format(t, kwargs) == if name in kwargs then Ok(before + (kwargs[name] + after)) else Err(KeyErr)
  {
    var field := "{" + name + "}" + after;
    FormatPlain(after, kwargs);
    FieldThenText(name, after, kwargs);
    TextThenRest(before, field, kwargs);
  }

  lemma FieldThenText(name: string, after: string, kwargs: map<string, string>)
    requires forall i :: 0 <= i < |name| ==> name[i] != '{' && name[i] != '}'
    requires name != [] && !IsDigits(name)
    ensures var t := "{" + name + "}" + after;
      Format(t, kwargs) == if name in kwargs then Prepend2(kwargs[name], Format(after, kwargs)) else Err(KeyErr)
  {
    var t := "{" + name + "}" + after;
    var rest := t[1..];
    assert t[0] == '{' && t[1] == name[0];
    assert rest == name + ("}" + after);
    BraceAtPrefix(name, "}" + after);
    assert BraceAt(rest) == |name| && rest[|name|] == '}';
    assert rest[..|name|] == name;
    assert rest[|name| + 1..] == after;
  }

  function Prepend2(s: string, r: Result<string, FormatError>): Result<string, FormatError>
  {
    if r.Err? then r else Ok(s + r.value)
  }

  lemma {:induction false} BraceAtPrefix(a: string, b: string)
    requires forall i :: 0 <= i < |a| ==> a[i] != '{' && a[i] != '}'
    requires b != [] && (b[0] == '{' || b[0] == '}')
    ensures BraceAt(a + b) == |a|
  {
    if a != [] {
      assert (a + b)[1..] == a[1..] + b;
      BraceAtPrefix(a[1..], b);
    } else {
      assert a + b == b;
    }
  }

  lemma {:induction false} TextThenRest(a: string, b: string, kwargs: map<string, string>)
    requires forall i :: 0 <= i < |a| ==> a[i] != '{' && a[i] != '}'
    ensures Format(a + b, kwargs) == Prepend2(a, Format(b, kwargs))
  {
    if a == [] {
      assert a + b == b;
      if Format(b, kwargs).Ok? {
        assert a + Format(b, kwargs).value == Format(b, kwargs).value;
      }
    } else {
      assert (a + b)[0] == a[0] && (a + b)[1..] == a[1..] + b;
      TextThenRest(a[1..], b, kwargs);
      assert Format(a + b, kwargs) == Prepend(a[0], Format(a[1..] + b, kwargs));
      if Format(b, kwargs).Ok? {
        assert [a[0]] + (a[1..] + Format(b, kwargs).value) == a + Format(b, kwargs).value;
      }
    }
  }

  /** The number of leaves under a value: a non-object counts one, an object the leaves of its
      members. */
  function LeafCount(j: Json): nat
    decreases j, if j.JObj? then |j.fields| + 1 else 0
  {
    if j.JObj? then Leaves(j, |j.fields|) else 1
  }

  /** The leaves of the first k members of an object. */
  function Leaves(obj: Json, k: nat): nat
    requires obj.JObj? && k <= |obj.fields|
    decreases obj, k
  {
    if k == 0 then 0
    else
      assert obj.fields[k - 1] in obj.fields;
      Leaves(obj, k - 1) + LeafCount(obj.fields[k - 1].1)
  }

  /** A member's leaves are among its object's leaves. */
  lemma {:induction false} MemberLeaves(obj: Json, k: nat, i: int)
    requires obj.JObj? && 0 <= i < k <= |obj.fields|
    ensures LeafCount(obj.fields[i].1) <= Leaves(obj, k)
  {
    if i < k - 1 {
      MemberLeaves(obj, k - 1, i);
    }
  }

  /** Whenever a key path finds a text, the document it was found in has at least one leaf. */
  lemma {:induction false} FoundTextIsLeaf(data: Json, keys: seq<string>)
    requires NestedValue(data, keys).Some?
    ensures LeafCount(data) >= 1
  {
    if keys != [] {
      var m := Member(data.fields, keys[0]).value;
      var i :| 0 <= i < |data.fields| && data.fields[i] == (keys[0], m);
      assert Walk(m, keys[1..]) == Walk(data, keys);
      FoundTextIsLeaf(m, keys[1..]);
      MemberLeaves(data, |data.fields|, i);
    }
  }

  /** _count_nested_keys: the running count plus the leaves of the object, counted member by
      member and recursing into nested objects. */
  method CountNestedKeys(data: Json, count: nat) returns (n: nat)
    requires data.JObj?
    ensures n == count + LeafCount(data)
    decreases data
  {
    n := count;
    var i := 0;
    while i < |data.fields|
      invariant 0 <= i <= |data.fields|
      invariant n == count + Leaves(data, i)
    {
      var value := data.fields[i].1;
      assert data.fields[i] in data.fields;
      if value.JObj? {
        n := CountNestedKeys(value, n);
      } else {
        n := n + 1;
      }
      i := i + 1;
    }
  }

  /** The documents _create_fallback_translations installs. */
  function FallbackTranslations(): (t: map<string, Json>)
    ensures t.Keys == {"es", "en"}
  {
    map["es" := JObj([("common", JObj([("error", JStr("Error")), ("success", JStr("Éxito")), ("loading", JStr("Cargando..."))]))]),
        "en" := JObj([("common", JObj([("error", JStr("Error")), ("success", JStr("Success")), ("loading", JStr("Loading..."))]))])]
  }

  class Translations {
    /** The loaded documents by language. */
    var translations: map<string, Json>

    /** __init__: nothing loaded, then load_all_translations. */
    constructor (dirExists: bool, files: map<string, Option<Json>>)
      ensures translations == Loaded(map[], dirExists, files)
    {
      translations := map[];
      new;
      LoadAllTranslations(dirExists, files);
    }

    /** load_all_translations: for each supported language with a file, its document replaces
        the loaded one; a file that fails to parse makes every language the fallback set; with
        no directory nothing changes. `files` maps a language to its parsed file, None when it
        does not parse. */
    method LoadAllTranslations(dirExists: bool, files: map<string, Option<Json>>)
      modifies this
      ensures translations == Loaded(old(translations), dirExists, files)
    {
      if !dirExists {
        return;
      }
      var i := 0;
      while i < |SupportedLanguages|
        invariant 0 <= i <= |SupportedLanguages|
        invariant forall j :: 0 <= j < i ==> SupportedLanguages[j] !in files || files[SupportedLanguages[j]].Some?
        invariant translations == Overlay(old(translations), files, SupportedLanguages[..i])
      {
        var lang := SupportedLanguages[i];
        if lang in files {
          if files[lang].None? {
            assert lang in SupportedLanguages && lang in files && files[lang].None?;
            translations := FallbackTranslations();
            return;
          }
          translations := translations[lang := files[lang].value];
        }
        assert SupportedLanguages[..i + 1] == SupportedLanguages[..i] + [lang];
        i := i + 1;
      }
      assert SupportedLanguages[..i] == SupportedLanguages;
      forall lang | lang in SupportedLanguages && lang in files ensures files[lang].Some? {
        var j :| 0 <= j < |SupportedLanguages| && SupportedLanguages[j] == lang;
      }
    }

    /** reload_translations: everything loaded is dropped, then the files are read again. */
    method ReloadTranslations(dirExists: bool, files: map<string, Option<Json>>)
      modifies this
      ensures translations == Loaded(map[], dirExists, files)
    {
      translations := map[];
      LoadAllTranslations(dirExists, files);
    }

    /** get_supported_languages: the list of supported languages. */
    function GetSupportedLanguages(): (langs: seq<string>)
      ensures langs == ["es", "en"]
    {
      SupportedLanguages
    }

    /** is_language_supported: supported and actually loaded. */
    function IsLanguageSupported(language: string): (ok: bool)
      reads this
      ensures ok <==> language in {"es", "en"} && language in translations
    {
      language in SupportedLanguages && language in translations
    }

    /** get_text: the text at the key path in the resolved language, else in Spanish, else the
        key path itself; with keyword arguments the text is formatted, a KeyError or ValueError
        gives the unformatted text, and any other error the key path. */
    method GetText(keyPath: string, language: Option<string>, kwargs: map<string, string>) returns (r: string)
      ensures var keys := Split(keyPath, '.');
        var own := NestedValue(Document(translations, ResolveLanguage(language)), keys);
        var fallback := NestedValue(Document(translations, DefaultLanguage), keys);
        var text := if own.Some? then own else fallback;
        && (text.None? ==> r == keyPath)
        && (text.Some? && kwargs == map[] ==> r == text.value)
        && (text.Some? && kwargs != map[] ==>
              r == match Format(text.value, kwargs)
                   case Ok(s) => s
                   case Err(IndexErr) => keyPath
                   case Err(_) => text.value)
    {
      var lang := ResolveLanguage(language);
      var keys := Split(keyPath, '.');
      var text := GetNestedValue(Document(translations, lang), keys);
      if text.None? && lang != DefaultLanguage {
        text := GetNestedValue(Document(translations, DefaultLanguage), keys);
      }
      if text.None? {
        return keyPath;
      }
      if kwargs != map[] {
        var f := Format(text.value, kwargs);
        if f.Ok? {
          return f.value;
        } else if f.error == IndexErr {
          return keyPath;
        }
        return text.value;
      }
      r := text.value;
    }
  }

  /** The documents after loading: each supported language's parsed file over what was there,
      or the fallback set when a file does not parse. */
  function Loaded(before: map<string, Json>, dirExists: bool, files: map<string, Option<Json>>): map<string, Json>
  {
    if !dirExists then before
    else if exists lang :: lang in SupportedLanguages && lang in files && files[lang].None? then FallbackTranslations()
    else Overlay(before, files, SupportedLanguages)
  }

  function Overlay(before: map<string, Json>, files: map<string, Option<Json>>, langs: seq<string>): map<string, Json>
  {
    if langs == [] then before
    else
      var m := Overlay(before, files, langs[..|langs| - 1]);
      var lang := langs[|langs| - 1];
      if lang in files && files[lang].Some? then m[lang := files[lang].value] else m
  }

  /** What loading leaves: both languages from a directory whose files parse, the fallback set
      after a bad file, and nothing new without the directory. */
  lemma LoadedLanguages(before: map<string, Json>, dirExists: bool, files: map<string, Option<Json>>, lang: string)
    ensures !dirExists ==> Loaded(before, dirExists, files) == before
    ensures dirExists && lang in SupportedLanguages && lang in files && files[lang].None? ==>
      Loaded(before, dirExists, files) == FallbackTranslations()
    ensures dirExists && (forall l :: l in files ==> files[l].Some?) && lang in SupportedLanguages && lang in files ==>
      lang in Loaded(before, dirExists, files) && Loaded(before, dirExists, files)[lang] == files[lang].value
    ensures dirExists && (forall l :: l in files ==> files[l].Some?) && lang !in SupportedLanguages ==>
      (lang in Loaded(before, dirExists, files) <==> lang in before)
  {
    if dirExists && forall l :: l in files ==> files[l].Some? {
      var m0 := Overlay(before, files, []);
      var m1 := Overlay(before, files, ["es"]);
      assert ["es"][..0] == [];
      assert m1 == if "es" in files then m0["es" := files["es"].value] else m0;
      assert SupportedLanguages[..1] == ["es"];
      assert Loaded(before, dirExists, files) == Overlay(before, files, SupportedLanguages);
      assert Loaded(before, dirExists, files) == if "en" in files then m1["en" := files["en"].value] else m1;
    }
  }
}
