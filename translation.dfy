/**
 * Locale handling and translation loading of Calamares' Retranslator.cpp:
 * the munging of a locale into the name used for translation resources
 * (TranslationLoader::mungeLocaleName) and the three loaders that build
 * resource names from it and try them in primary-then-default order
 * (BrandingLoader, CalamaresLoader and TZLoader).
 *
 * QTranslator::load and QDir::exists are not modelled: a `Store` says which
 * resources and directories exist, and a load succeeds exactly when the
 * resource it names is in the store.
 */
module Translation {

  /** The QLocale::Language values the core tells apart. */
  datatype Language = Serbian | OtherLanguage(tag: string)

  /** The QLocale::Script values the core tells apart. */
  datatype Script = LatinScript | OtherScript(tag: string)

  /** A QLocale: its name() ("de_DE", "C", ...), language() and script(). */
  datatype Locale = Locale(name: string, language: Language, script: Script)

  /** QDir::separator(), taken as the POSIX one. */
  const Separator: char := '/'

  /** QString::replace("-", "_"): every dash becomes an underscore. */
  function ReplaceDashes(s: string): (r: string)
    ensures |r| == |s|
    ensures forall i :: 0 <= i < |s| ==> r[i] == (if s[i] == '-' then '_' else s[i])
  {
    if s == [] then []
    else [if s[0] == '-' then '_' else s[0]] + ReplaceDashes(s[1..])
  }

  predicate IsSerbianLatin(locale: Locale) {
    locale.language == Serbian && locale.script == LatinScript
  }

  /** TranslationLoader::mungeLocaleName */
  function MungeLocaleName(locale: Locale): string {
    var dashless := ReplaceDashes(locale.name);
    var named := if dashless == "C" then "en" else dashless;
    if IsSerbianLatin(locale) then "sr@latin" else named
  }

  lemma {:induction false} ReplaceDashesIsC(s: string)
    ensures ReplaceDashes(s) == "C" <==> s == "C"
  {
    var r := ReplaceDashes(s);
    if r == "C" {
      assert |s| == 1 && r[0] == (if s[0] == '-' then '_' else s[0]);
      assert s == [s[0]];
    }
    if s == "C" {
      assert |r| == 1 && r[0] == 'C';
      assert r == [r[0]];
    }
  }

  /** Serbian in Latin script is always "sr@latin", whatever the name or region. */
  lemma MungeSerbianLatin(locale: Locale)
    requires IsSerbianLatin(locale)
    ensures MungeLocaleName(locale) == "sr@latin"
  {
  }

  /**
   * Any other locale keeps its name with each dash replaced by an underscore,
   * except that exactly the name "C" becomes "en".
   */
  lemma {:induction false} MungeOtherLocale(locale: Locale)
    requires !IsSerbianLatin(locale)
    ensures locale.name == "C" ==> MungeLocaleName(locale) == "en"
    ensures locale.name != "C" ==>
      var r := MungeLocaleName(locale);
      |r| == |locale.name| &&
      forall i :: 0 <= i < |r| ==> r[i] == (if locale.name[i] == '-' then '_' else locale.name[i])
  {
    ReplaceDashesIsC(locale.name);
  }

  /** The munged name never holds a dash. */
  lemma {:induction false} MungeHasNoDash(locale: Locale)
    ensures '-' !in MungeLocaleName(locale)
  {
    var r := MungeLocaleName(locale);
    if !IsSerbianLatin(locale) && ReplaceDashes(locale.name) != "C" {
      forall i | 0 <= i < |r| ensures r[i] != '-' {
      }
    }
  }

  /** A locale with a name has a non-empty munged name. */
  lemma MungeNonEmpty(locale: Locale)
    requires locale.name != []
    ensures MungeLocaleName(locale) != []
  {
  }

  /**
   * QString::lastIndexOf(c): the index of the last `c` in `s`, or -1.
   */
  function LastIndexOf(s: string, c: char): (r: int)
    ensures -1 <= r < |s|
    ensures r == -1 <==> c !in s
    ensures r >= 0 ==> s[r] == c && c !in s[r + 1..]
  {
    if s == [] then -1
    else if s[|s| - 1] == c then |s| - 1
    else
      var r := LastIndexOf(s[..|s| - 1], c);
      assert s == s[..|s| - 1] + [s[|s| - 1]];
      assert r >= 0 ==> s[r + 1..] == s[..|s| - 1][r + 1..] + [s[|s| - 1]];
      r
  }

  /**
   * QString::truncate(pos) as Qt 5 has it: a negative position truncates to
   * the empty string, one past the end leaves the string as it is.
   */
  function Truncate(s: string, pos: int): string {
    if pos < 0 then [] else if pos < |s| then s[..pos] else s
  }

  /** The directory of the branding translations: the prefix up to its last separator. */
  function BrandingDirPath(prefix: string): string {
    Truncate(prefix, LastIndexOf(prefix, Separator))
  }

  /** The file base of the branding translations: the prefix after its last separator. */
  function BrandingFileBase(prefix: string): string {
    prefix[LastIndexOf(prefix, Separator) + 1..]
  }

  /**
   * With a separator in the prefix, directory + separator + base is the
   * prefix, and the base holds no separator.
   */
  lemma BrandingSplit(prefix: string)
    requires Separator in prefix
    ensures BrandingDirPath(prefix) + [Separator] + BrandingFileBase(prefix) == prefix
    ensures Separator !in BrandingFileBase(prefix)
  {
    var k := LastIndexOf(prefix, Separator);
    assert prefix == prefix[..k] + [prefix[k]] + prefix[k + 1..];
  }

  /** Without a separator the directory is empty and the base is the whole prefix. */
  lemma BrandingSplitNoSeparator(prefix: string)
    requires Separator !in prefix
    ensures BrandingDirPath(prefix) == [] && BrandingFileBase(prefix) == prefix
  {
  }

  /**
   * The locale-aware QTranslator::load(locale, baseName, prefix, directory),
   * whose search of the directory is Qt's and is not modelled.
   */
  datatype CatalogQuery = CatalogQuery(locale: Locale, baseName: string, prefix: string, directory: string)

  /**
   * What exists to be loaded: resource paths that QTranslator::load(path)
   * finds, locale-aware queries that succeed, and existing directories.
   */
  datatype Store = Store(files: set<string>, catalogs: set<CatalogQuery>, directories: set<string>)

  /** What a translator holds after a load attempt. */
  datatype Content = NothingLoaded | LoadedFile(path: string) | LoadedCatalog(query: CatalogQuery)

  /** Which of the two diagnostic lines the loader writes, if any. */
  datatype Route = NoAttempt | PrimaryUsed | DefaultUsed

  /** The result of tryLoad and what the translator then holds. */
  datatype Outcome = Outcome(ok: bool, content: Content, route: Route)

  /** The three TranslationLoader subclasses, each with its locale. */
  datatype Loader =
    | BrandingLoader(locale: Locale, prefix: string)
    | CalamaresLoader(locale: Locale)
    | TZLoader(locale: Locale)

  const CalamaresStem: string := ":/lang/calamares_"
  const TimezoneStem: string := ":/lang/tz_"

  /** The m_localeName every loader computes in its constructor. */
  function LoaderLocaleName(loader: Loader): string {
    MungeLocaleName(loader.locale)
  }

  /** The resource stem of the application and timezone loaders. */
  function Stem(loader: Loader): string
    requires !loader.BrandingLoader?
  {
    if loader.CalamaresLoader? then CalamaresStem else TimezoneStem
  }

  /** QTranslator::load(path): a translator is cleared and then holds `path` if it exists. */
  function LoadFile(path: string, store: Store, route: Route): Outcome {
    if path in store.files then Outcome(true, LoadedFile(path), route)
    else Outcome(false, NothingLoaded, route)
  }

  /** The body shared by CalamaresLoader::tryLoad and TZLoader::tryLoad. */
  function LoadWithDefault(stem: string, localeName: string, store: Store): Outcome {
    var primary := stem + localeName;
    if primary in store.files then LoadFile(primary, store, PrimaryUsed)
    else LoadFile(stem + "en", store, DefaultUsed)
  }

  /** BrandingLoader::tryLoad */
  function BrandingTryLoad(locale: Locale, prefix: string, store: Store): Outcome {
    if prefix == [] then Outcome(false, NothingLoaded, NoAttempt)
    else
      var dir := BrandingDirPath(prefix);
      if dir !in store.directories then Outcome(false, NothingLoaded, NoAttempt)
      else
        var query := CatalogQuery(locale, BrandingFileBase(prefix), "_", dir);
        if query in store.catalogs then Outcome(true, LoadedCatalog(query), PrimaryUsed)
        else LoadFile(prefix + "en", store, DefaultUsed)
  }

  /** TranslationLoader::tryLoad, dispatched on the loader's kind. */
  function TryLoad(loader: Loader, store: Store): Outcome {
    match loader
    case BrandingLoader(locale, prefix) => BrandingTryLoad(locale, prefix, store)
    case CalamaresLoader(locale) => LoadWithDefault(CalamaresStem, MungeLocaleName(locale), store)
    case TZLoader(locale) => LoadWithDefault(TimezoneStem, MungeLocaleName(locale), store)
  }

  /**
   * Every loader reports success exactly when its translator holds
   * something, and what it holds is taken from the store.
   */
  lemma TryLoadFromStore(loader: Loader, store: Store)
    ensures var o := TryLoad(loader, store);
      (o.ok <==> o.content != NothingLoaded) &&
      (o.content.LoadedFile? ==> o.content.path in store.files) &&
      (o.content.LoadedCatalog? ==> o.content.query in store.catalogs)
  {
  }

  /**
   * The application and timezone loaders try `stem + munged name` first:
   * when it exists the result is true and the default is not tried;
   * otherwise the result is whether `stem + "en"` exists.
   */
  lemma PrimaryThenDefault(loader: Loader, store: Store)
    requires !loader.BrandingLoader?
    ensures var o := TryLoad(loader, store);
      var primary := Stem(loader) + LoaderLocaleName(loader);
      var fallback := Stem(loader) + "en";
      (primary in store.files ==> o == Outcome(true, LoadedFile(primary), PrimaryUsed)) &&
      (primary !in store.files ==>
         o.route == DefaultUsed && o.ok == (fallback in store.files) &&
         o.content == (if o.ok then LoadedFile(fallback) else NothingLoaded)) &&
      (o.ok <==> primary in store.files || fallback in store.files)
  {
  }

  /** An empty prefix, or a missing directory, fails without loading anything. */
  lemma BrandingFailsWithoutDirectory(locale: Locale, prefix: string, store: Store)
    requires prefix == [] || BrandingDirPath(prefix) !in store.directories
    ensures BrandingTryLoad(locale, prefix, store) == Outcome(false, NothingLoaded, NoAttempt)
  {
  }

  /**
   * When the directory exists but the locale-aware search misses, the
   * result is the load of the literal `prefix + "en"`.
   */
  lemma BrandingDefault(locale: Locale, prefix: string, store: Store)
    requires prefix != [] && BrandingDirPath(prefix) in store.directories
    requires CatalogQuery(locale, BrandingFileBase(prefix), "_", BrandingDirPath(prefix)) !in store.catalogs
    ensures var o := BrandingTryLoad(locale, prefix, store);
      o.route == DefaultUsed && (o.ok <==> prefix + "en" in store.files) &&
      (o.ok ==> o.content == LoadedFile(prefix + "en"))
  {
  }

  /**
   * A Serbian locale in Latin script with only the English application
   * translation available loads the English one through the default route.
   */
  lemma SerbianLatinFallsBackToEnglish(region: string, store: Store)
    requires ":/lang/calamares_sr@latin" !in store.files
    requires ":/lang/calamares_en" in store.files
    ensures TryLoad(CalamaresLoader(Locale("sr_" + region, Serbian, LatinScript)), store)
         == Outcome(true, LoadedFile(":/lang/calamares_en"), DefaultUsed)
  {
    var locale := Locale("sr_" + region, Serbian, LatinScript);
    MungeSerbianLatin(locale);
    assert CalamaresStem + MungeLocaleName(locale) == ":/lang/calamares_sr@latin";
    assert CalamaresStem + "en" == ":/lang/calamares_en";
  }
}
