/**
 * The language store of the locale provider: the selected language, its
 * restoration from browser storage on mount, `setLanguage`, the translation
 * function `t`, and the `useLocale` guard.
 */
module Locale {
  import opened Wrappers
  import I18n
  import Text

  datatype Language = Zh | En

  const StorageKey: string := "language"
  const NoProviderMessage: string := "useLocale must be used within LocaleProvider"

  /** The language's code as stored and as named in the dictionary table. */
  function Code(l: Language): (c: string)
    ensures Decode(c) == Some(l)
  {
    match l
    case Zh => "zh"
    case En => "en"
  }

  /** The language a stored code names, when it names one exactly. */
  function Decode(c: string): (l: Option<Language>)
    ensures l.Some? <==> c == "zh" || c == "en"
  {
    if c == "zh" then Some(Zh) else if c == "en" then Some(En) else None
  }

  /** The dictionary for a language. */
  function Dictionary(l: Language): I18n.Dictionary {
    match l
    case Zh => I18n.Zh
    case En => I18n.En
  }

  /**
   * The provider's state: the language and the browser's storage, `None` when
   * rendering without a window.
   */
  datatype State = State(language: Language, storage: Option<map<string, string>>)

  /** The value stored under `language`, if there is a window and such an entry. */
  function Saved(s: State): Option<string> {
    if s.storage.Some? && StorageKey in s.storage.value then Some(s.storage.value[StorageKey]) else None
  }

  /** The mount effect: a stored `"zh"` or `"en"` replaces the language; anything else is ignored. */
  function Restore(s: State): (r: State)
    ensures r.storage == s.storage
    ensures Saved(s).Some? && Decode(Saved(s).value).Some? ==> r.language == Decode(Saved(s).value).value
    ensures Saved(s).None? || Decode(Saved(s).value).None? ==> r == s
  {
    match Saved(s)
    case Some(c) => if c == "zh" then s.(language := Zh) else if c == "en" then s.(language := En) else s
    case None => s
  }

  /** The provider as mounted: language `zh`, then the mount effect. */
  function Mount(storage: Option<map<string, string>>): (r: State)
    ensures r.storage == storage
    ensures r.language == Zh || Saved(r) == Some("en")
  {
    Restore(State(Zh, storage))
  }

  /** `setLanguage(l)`: the language becomes `l` and, with a window, `l` is stored under `language`. */
  function SetLanguage(s: State, l: Language): (r: State)
    ensures r.language == l
    ensures s.storage.Some? ==> r.storage == Some(s.storage.value[StorageKey := Code(l)])
    ensures s.storage.None? ==> r.storage.None?
  {
    var storage := if s.storage.Some? then Some(s.storage.value[StorageKey := Code(l)]) else None;
    State(l, storage)
  }

  /**
   * A chosen language survives a reload: mounting a fresh provider on the storage
   * `setLanguage` left behind restores the same language.
   */
  lemma SetLanguagePersists(s: State, l: Language)
    requires s.storage.Some?
    ensures Mount(SetLanguage(s, l).storage).language == l
  {
    assert Saved(State(Zh, SetLanguage(s, l).storage)) == Some(Code(l));
  }

  /** `t(path)`: the lookup in the current language's dictionary. */
  function T(s: State, path: string): (r: string)
    ensures (exists t :: I18n.LeafAt(I18n.Node(Dictionary(s.language)), Text.Split(path, '.'), t)) ==>
      I18n.LeafAt(I18n.Node(Dictionary(s.language)), Text.Split(path, '.'), r)
    ensures (forall t :: !I18n.LeafAt(I18n.Node(Dictionary(s.language)), Text.Split(path, '.'), t)) ==> r == path
  {
    I18n.GetFromDictionary(Dictionary(s.language), path)
  }

  /** `useLocale`: the context value, or the error it throws outside a provider. */
  function UseLocale(ctx: Option<State>): (r: Result<State, string>)
    ensures ctx.Some? ==> r == Success(ctx.value)
    ensures ctx.None? ==> r == Failure(NoProviderMessage)
  {
    match ctx
    case Some(c) => Success(c)
    case None => Failure(NoProviderMessage)
  }

  /** The same path can translate differently per language: `coming.waiting` exists only in English. */
  lemma TranslationFollowsLanguage(storage: Option<map<string, string>>)
    ensures T(State(En, storage), "coming.waiting") == "This feature is under development..."
    ensures T(State(Zh, storage), "coming.waiting") == "coming.waiting"
    ensures T(State(Zh, storage), "signout") == "退出登录"
  {
    I18n.ComingWaitingEn();
    I18n.ComingWaitingZh();
    I18n.ZhSignout();
  }
}
