/**
 * `src/contexts/LanguageContext.tsx`: the translation table for Portuguese,
 * English and Spanish, the lookup `t(key)` with its fall-back to the key, and
 * the provider's `language` state persisted under `localStorage.language`.
 *
 * The stored value is cast to a language without a check, so the state is any
 * string; the lookup only succeeds for the three codes of the table.
 */
module Language {
  import opened Wrappers
  import opened Env

  datatype Lang = Pt | En | Es

  function Code(l: Lang): (r: string)
    ensures ParseLang(r) == Some(l)
  {
    match l
    case Pt => "pt"
    case En => "en"
    case Es => "es"
  }

  /** The member of the table a language code selects, if any. */
  function ParseLang(code: string): Option<Lang> {
    if code == "pt" then Some(Pt) else if code == "en" then Some(En) else if code == "es" then Some(Es) else None
  }

  const LanguageKey := "language"
  const DefaultLanguage := "pt"

  const PtTable: map<string, string> := map[
    "landing.tagline" := "Descubra playlists que combinam com seu humor",
    "landing.loginButton" := "Conectar com Spotify",
    "landing.instruction" := "Faça login para começar a conversar e criar sua playlist personalizada.",
    "chat.welcome" := "Olá! Vamos descobrir seu humor hoje.",
    "chat.startPrompt" := "Conte-me como está se sentindo ou o que está acontecendo no seu dia...",
    "chat.inputPlaceholder" := "Digite sua mensagem...",
    "chat.thinking" := "Pensando...",
    "result.loading" := "Analisando seu humor e gerando sua playlist...",
    "result.error" := "Ocorreu um problema ao carregar seus resultados. Por favor, tente novamente.",
    "result.tryAgain" := "Tentar novamente",
    "result.yourMood" := "Seu humor é",
    "result.playlistReady" := "Criamos uma playlist personalizada baseada no seu humor. Aproveite!",
    "result.spotifyPlaylist" := "Sua Playlist Personalizada",
    "result.enjoyMusic" := "Aprecie estas músicas selecionadas especialmente para você",
    "result.listenOnSpotify" := "Ouvir no Spotify",
    "result.startOver" := "Começar nova conversa",
    "footer.text" := "Produzido por Thalita Teles utilizando tecnologias da Gemini AI e Spotify.",
    "error.sessionExpired" := "Sua sessão expirou. Por favor, faça login novamente.",
    "error.connectionFailed" := "Erro ao conectar com o Spotify. Por favor, tente novamente.",
    "language.english" := "Inglês",
    "language.portuguese" := "Português",
    "language.spanish" := "Espanhol"
  ]

  const EnTable: map<string, string> := map[
    "landing.tagline" := "Discover playlists that match your mood",
    "landing.loginButton" := "Connect with Spotify",
    "landing.instruction" := "Log in to start chatting and create your personalized playlist.",
    "chat.welcome" := "Hello! Let's discover your mood today.",
    "chat.startPrompt" := "Tell me how you're feeling or what's happening in your day...",
    "chat.inputPlaceholder" := "Type your message...",
    "chat.thinking" := "Thinking...",
    "result.loading" := "Analyzing your mood and generating your playlist...",
    "result.error" := "There was an issue loading your results. Please try again.",
    "result.tryAgain" := "Try again",
    "result.yourMood" := "Your mood is",
    "result.playlistReady" := "We've created a personalized playlist based on your mood. Enjoy!",
    "result.spotifyPlaylist" := "Your Personalized Playlist",
    "result.enjoyMusic" := "Enjoy these songs specially selected for you",
    "result.listenOnSpotify" := "Listen on Spotify",
    "result.startOver" := "Start new conversation",
    "footer.text" := "Produced by Thalita Teles using Gemini AI and Spotify technologies.",
    "error.sessionExpired" := "Your session has expired. Please log in again.",
    "error.connectionFailed" := "Failed to connect with Spotify. Please try again.",
    "language.english" := "English",
    "language.portuguese" := "Portuguese",
    "language.spanish" := "Spanish"
  ]

  const EsTable: map<string, string> := map[
    "landing.tagline" := "Descubre playlists que coinciden con tu estado de ánimo",
    "landing.loginButton" := "Conectar con Spotify",
    "landing.instruction" := "Inicia sesión para comenzar a chatear y crear tu lista de reproducción personalizada.",
    "chat.welcome" := "¡Hola! Vamos a descubrir tu humor hoy.",
    "chat.startPrompt" := "Cuéntame cómo te sientes o qué está pasando en tu día...",
    "chat.inputPlaceholder" := "Escribe tu mensaje...",
    "chat.thinking" := "Pensando...",
    "result.loading" := "Analizando tu estado de ánimo y generando tu lista de reproducción...",
    "result.error" := "Hubo un problema al cargar tus resultados. Por favor, inténtalo de nuevo.",
    "result.tryAgain" := "Intentar de nuevo",
    "result.yourMood" := "Tu estado de ánimo es",
    "result.playlistReady" := "Hemos creado una lista de reproducción personalizada basada en tu humor. ¡Disfrútala!",
    "result.spotifyPlaylist" := "Tu Lista de Reproducción Personalizada",
    "result.enjoyMusic" := "Disfruta estas canciones especialmente seleccionadas para ti",
    "result.listenOnSpotify" := "Escuchar en Spotify",
    "result.startOver" := "Iniciar nueva conversación",
    "footer.text" := "Producido por Thalita Teles utilizando tecnologías de Gemini AI y Spotify.",
    "error.sessionExpired" := "Tu sesión ha caducado. Por favor, inicia sesión de nuevo.",
    "error.connectionFailed" := "Error al conectar con Spotify. Por favor, inténtalo de nuevo.",
    "language.english" := "Inglés",
    "language.portuguese" := "Portugués",
    "language.spanish" := "Español"
  ]

  function Table(l: Lang): map<string, string> {
    match l
    case Pt => PtTable
    case En => EnTable
    case Es => EsTable
  }

  /**
   * `t(key)` while `language` holds the given code: `None` is the `TypeError`
   * thrown by indexing `translations[language]` when it is `undefined`;
   * otherwise the translation when present and non-empty, else the key.
   */
  function T(language: string, key: string): (r: Option<string>)
    ensures r.None? <==> ParseLang(language).None?
  {
    match ParseLang(language)
    case None => None
    case Some(l) =>
      if key in Table(l) && Table(l)[key] != "" then Some(Table(l)[key]) else Some(key)
  }

  /** The three tables have the same keys. */
  lemma SameKeys()
    ensures forall k :: k in PtTable <==> k in EnTable
    ensures forall k :: k in PtTable <==> k in EsTable
  {
  }

  /** No entry of any table is empty, so a present key never falls back. */
  lemma NoEmptyEntry()
    ensures forall l: Lang, k :: k in Table(l) ==> Table(l)[k] != ""
  {
  }

  /** A key with an entry translates to that entry, in each language. */
  lemma TranslationFound(l: Lang, key: string)
    requires key in PtTable
    ensures key in Table(l) && T(Code(l), key) == Some(Table(l)[key])
  {
    SameKeys();
    NoEmptyEntry();
  }

  /** A key without an entry translates to itself in every language. */
  lemma MissingKeyIsItself(l: Lang, key: string)
    requires key !in PtTable
    ensures T(Code(l), key) == Some(key)
  {
    SameKeys();
  }

  /** The three keys of the progress line have no entry. */
  lemma ProgressKeysAbsent()
    ensures "chat.creatingPlaylist" !in PtTable
    ensures "chat.oneMoreMessage" !in PtTable
    ensures "chat.messagesRemaining" !in PtTable
  {
  }

  /** The lookup succeeds exactly for the three codes of the table. */
  lemma TotalOnlyForKnownCodes(language: string, key: string)
    ensures T(language, key).Some? <==> language == "pt" || language == "en" || language == "es"
  {
  }

  class LanguageProvider {
    const env: Browser
    var language: string

    /** The initial state: the stored language when it is truthy, otherwise `pt`. */
    constructor (env: Browser)
      ensures this.env == env
      ensures Truthy(env.GetLocal(LanguageKey)) ==> language == env.local[LanguageKey]
      ensures !Truthy(env.GetLocal(LanguageKey)) ==> language == DefaultLanguage
    {
      this.env := env;
      var stored := env.GetLocal(LanguageKey);
      language := if Truthy(stored) then stored.value else DefaultLanguage;
    }

    /** `setLanguage(lang)`. */
    method SetLanguage(l: Lang)
      modifies this, env
      ensures language == Code(l)
      ensures env.local == old(env.local)[LanguageKey := Code(l)]
      ensures forall key :: Translate(key).Some?
      ensures env.Snapshot() == old(env.Snapshot()).(local := env.local)
    {
      language := Code(l);
      env.SetLocal(LanguageKey, Code(l));
    }

    /** The context's `t`. */
    function Translate(key: string): (r: Option<string>)
      reads this
      ensures r.Some? <==> ParseLang(language).Some?
    {
      T(language, key)
    }
  }
}
