/**
 * The translation service of src/i18n/index.jsx: a table of nested string
 * tables, one per locale, the resolver `t` that walks a dotted key through
 * the active locale's table and falls back to the key itself, and the
 * provider's locale state with its toggle.
 */
module I18n {
  import opened Wrappers
  import JsString

  /** A value of a locale table: JSON `null`, a string, or a nested object. */
  datatype Tree = Null | Leaf(text: string) | Node(children: map<string, Tree>)

  /** The locale every provider starts in. */
  const InitialLocale: string := "zh"

  /** `value == null` in JavaScript: `undefined` (a miss) or `null`. */
  predicate Nullish(v: Option<Tree>)
  {
    v == None || v == Some(Null)
  }

  /** `value[k]` during the walk: only an object has members; a string leaf has none. */
  function Member(v: Tree, k: string): Option<Tree>
  {
    match v
    case Node(m) => if k in m then Some(m[k]) else None
    case _ => None
  }

  /** `translations[locale]`. */
  function Table(translations: map<string, Tree>, locale: string): Option<Tree>
  {
    if locale in translations then Some(translations[locale]) else None
  }

  /**
   * What the loop in `t` computes from the current value and the segments
   * still to visit: `None` when it bails out on a nullish value or ends on
   * one, otherwise the value it ends on, which is never `null`.
   */
  function Walk(value: Option<Tree>, keys: seq<string>): (r: Option<Tree>)
    ensures r != Some(Null)
    decreases |keys|
  {
    if Nullish(value) then None
    else if keys == [] then value
    else Walk(Member(value.value, keys[0]), keys[1..])
  }

  /** What `t(key)` returns under `locale`. */
  function Translation(translations: map<string, Tree>, locale: string, key: string): (r: Tree)
    ensures r != Null
  {
    match Walk(Table(translations, locale), JsString.Split(key, '.'))
    case Some(v) => v
    case None => Leaf(key)
  }

  /**
   * The resolver `t`: split the key on '.', start from the active locale's
   * table, return the key as soon as the current value is nullish, step into
   * the next segment otherwise, and end with `value ?? key`.
   */
  method Translate(translations: map<string, Tree>, locale: string, key: string) returns (r: Tree)
    ensures r != Null
    ensures r == Translation(translations, locale, key)
  {
    var keys := JsString.Split(key, '.');
    var value := Table(translations, locale);
    for i := 0 to |keys|
      invariant Walk(value, keys[i..]) == Walk(Table(translations, locale), keys)
    {
      if Nullish(value) {
        return Leaf(key);
      }
      assert keys[i..][1..] == keys[i + 1..];
      value := Member(value.value, keys[i]);
    }
    r := if Nullish(value) then Leaf(key) else value.value;
  }

  /** Plain path access: the value at `path` below `v`, if every segment names a member. */
  function Follow(v: Tree, path: seq<string>): Option<Tree>
    decreases |path|
  {
    if path == [] then Some(v)
    else
      match Member(v, path[0])
      case None => None
      case Some(c) => Follow(c, path[1..])
  }

  /** The value at `path` in the locale's table, if the locale has a table and the path exists. */
  function Resolved(translations: map<string, Tree>, locale: string, path: seq<string>): Option<Tree>
  {
    match Table(translations, locale)
    case None => None
    case Some(root) => Follow(root, path)
  }

  /** The walk finds exactly the value plain path access finds, with a final `null` treated as a miss. */
  lemma {:induction false} WalkFollow(v: Tree, path: seq<string>)
    ensures Walk(Some(v), path) == if Follow(v, path) == Some(Null) then None else Follow(v, path)
    decreases |path|
  {
    if path != [] && v != Null {
      match Member(v, path[0])
      case None =>
      case Some(c) => WalkFollow(c, path[1..]);
    }
  }

  /**
   * `t(key)` returns the value stored at the key's path in the active
   * locale's table when that value exists and is not `null`, and the key
   * itself in every other case (no table for the locale, a missing or
   * `null` segment, a path that continues through a string, a final `null`).
   */
  lemma TranslationCharacterized(translations: map<string, Tree>, locale: string, key: string)
    ensures Translation(translations, locale, key) ==
      match Resolved(translations, locale, JsString.Split(key, '.'))
      case Some(v) => if v == Null then Leaf(key) else v
      case None => Leaf(key)
  {
    if locale in translations {
      WalkFollow(translations[locale], JsString.Split(key, '.'));
    }
  }

  /** Once a prefix of the path is missing, so is the whole path. */
  lemma {:induction false} FollowPrefixMissing(v: Tree, path: seq<string>, i: nat)
    requires i <= |path|
    requires Follow(v, path[..i]) == None || (i < |path| && Follow(v, path[..i]) == Some(Null))
    ensures Follow(v, path) == None
    decreases i
  {
    if i == 0 {
      assert path[..0] == [];
    } else {
      assert path[..i][1..] == path[1..][..i - 1];
      match Member(v, path[0])
      case None =>
      case Some(c) => FollowPrefixMissing(c, path[1..], i - 1);
    }
  }

  /** If any proper prefix of the key's segments is missing or `null`, `t` returns the key unchanged. */
  lemma TranslationFallsBack(translations: map<string, Tree>, locale: string, key: string, i: nat)
    requires i <= |JsString.Split(key, '.')|
    requires var p := JsString.Split(key, '.');
      Resolved(translations, locale, p[..i]) == None || (i < |p| && Resolved(translations, locale, p[..i]) == Some(Null))
    ensures Translation(translations, locale, key) == Leaf(key)
  {
    TranslationCharacterized(translations, locale, key);
    if locale in translations {
      FollowPrefixMissing(translations[locale], JsString.Split(key, '.'), i);
    }
  }

  /** `t` consults only the active locale's table: other locales' tables do not matter. */
  lemma TranslationReadsActiveLocaleOnly(tr1: map<string, Tree>, tr2: map<string, Tree>, locale: string, key: string)
    requires Table(tr1, locale) == Table(tr2, locale)
    ensures Translation(tr1, locale, key) == Translation(tr2, locale, key)
  {
  }

  /** The functional update of `toggleLocale`: `zh` becomes `en`, anything else becomes `zh`. */
  function ToggleLocale(prev: string): (next: string)
    ensures next in {"zh", "en"}
    ensures next == "en" <==> prev == "zh"
  {
    if prev == "zh" then "en" else "zh"
  }

  /** On the two supported locales, toggling twice is the identity. */
  lemma ToggleTwice(locale: string)
    requires locale in {"zh", "en"}
    ensures ToggleLocale(ToggleLocale(locale)) == locale
  {
  }

  /** The provider's state: the static tables and the active locale. */
  class Provider {
    const translations: map<string, Tree>
    var locale: string

    /** The locale is always one of the two supported ones. */
    ghost predicate Valid()
      reads this
    {
      locale in {"zh", "en"}
    }

    constructor (translations: map<string, Tree>)
      ensures Valid()
      ensures this.translations == translations && locale == InitialLocale
    {
      this.translations := translations;
      locale := InitialLocale;
    }

    method Toggle()
      requires Valid()
      modifies this
      ensures Valid()
      ensures locale == ToggleLocale(old(locale))
      ensures locale != old(locale)
    {
      locale := ToggleLocale(locale);
    }

    /** `t` bound to the active locale. */
    method T(key: string) returns (r: Tree)
      ensures r != Null
      ensures r == Translation(translations, locale, key)
    {
      r := Translate(translations, locale, key);
    }
  }
}
