/** The two string tables of the front-end, the lookup with its fallback,
    the language toggle, and the choice of the start-up language. */
module Translations {

  /** The front-end only ever stores "en" or "ja" as its language. */
  datatype Lang = En | Ja

  /** Keys of the table that the window and the log ask for. */
  const UsedKeys: set<string> :=
    {"title", "appearance", "file_placeholder", "browse", "margin", "export", "run",
     "error_file", "running", "finished", "error_import", "lang_switch"}

  /** The table for one language. */
  function Table(lang: Lang): map<string, string>
  {
    match lang
    case En => map[
      "title" := "Auto-Editor GUI",
      "appearance" := "Appearance Mode:",
      "file_placeholder" := "Select video file...",
      "browse" := "Browse",
      "margin" := "Margin (sec):",
      "export" := "Export Format:",
      "run" := "Run Auto-Editor",
      "error_file" := "Error: Please select a file first.\n",
      "running" := "Running Auto-Editor...\n",
      "finished" := "\nProcess finished.\n",
      "error_import" := "Error: auto-editor module not found. Please install it via pip.\n",
      "lang_switch" := "Switch to Japanese"]
    case Ja => map[
      "title" := "Auto-Editor GUI",
      "appearance" := "外観モード:",
      "file_placeholder" := "動画ファイルを選択...",
      "browse" := "参照",
      "margin" := "マージン (秒):",
      "export" := "出力形式:",
      "run" := "Auto-Editorを実行",
      "error_file" := "エラー: ファイルを選択してください。\n",
      "running" := "Auto-Editorを実行中...\n",
      "finished" := "\n処理が完了しました。\n",
      "error_import" := "エラー: auto-editorモジュールが見つかりません。pipでインストールしてください。\n",
      "lang_switch" := "Switch to English"]
  }

  /** Lookup in the current language's table; an unknown key stands for itself. */
  function Tr(lang: Lang, key: string): (text: string)
    ensures key in Table(lang) ==> text == Table(lang)[key]
    ensures key !in Table(lang) ==> text == key
  {
    if key in Table(lang) then Table(lang)[key] else key
  }

  /** The other language: "ja" when the current one is "en", "en" otherwise. */
  function Toggled(lang: Lang): (other: Lang)
    ensures other != lang
    ensures other == Ja <==> lang == En
  {
    if lang == En then Ja else En
  }

  /** Toggling twice gives back the language toggled from. */
  lemma ToggleTwice(lang: Lang)
    ensures Toggled(Toggled(lang)) == lang
  {
  }

  /** Both tables define exactly the keys the front-end uses, so switching
      language never turns a label into its bare key. */
  lemma TablesAgreeOnKeys()
    ensures Table(En).Keys == Table(Ja).Keys == UsedKeys
  {
  }

  /** Every key the front-end asks for is translated in either language:
      the fallback to the key itself is never taken for them. */
  lemma UsedKeysTranslated(lang: Lang, key: string)
    requires key in UsedKeys
    ensures key in Table(lang)
    ensures Tr(lang, key) == Table(lang)[key]
  {
    TablesAgreeOnKeys();
  }

  /** The language part of the system's default locale, which may be unset. */
  datatype Locale = Unset | Named(name: string)

  /** The start-up language: Japanese exactly when the system locale is set
      and its name begins with "ja", English otherwise. */
  function StartLanguage(locale: Locale): (lang: Lang)
    ensures lang == Ja <==> locale.Named? && |locale.name| >= 2 && locale.name[..2] == "ja"
  {
    if locale.Named? && "ja" <= locale.name then Ja else En
  }
}
