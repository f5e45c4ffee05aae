/**
 * The translation table of the tool: every key maps to a pair of texts,
 * Russian first and English second, and a lookup that falls back to the
 * key itself when the key is unknown.
 */
module Localization {
  import opened Wrappers
  import opened Text

  datatype Language = Russian | English

  /** `lang as usize`: the discriminant of the enum, Russian first. */
  function Index(lang: Language): nat {
    match lang
    case Russian => 0
    case English => 1
  }

  /** A `[&str; 2]` array of texts: Russian at index 0, English at index 1. */
  datatype Translations = Translations(russian: string, english: string) {

    /** The slice method `get`: the text at index `i`, or nothing past the end. */
    function At(i: nat): Option<string> {
      if i == 0 then Some(russian)
      else if i == 1 then Some(english)
      else None
    }

    /** The text of the given language, by its name. */
    function In(lang: Language): string {
      match lang
      case Russian => russian
      case English => english
    }
  }

  /** The placeholder that `GetFmt` substitutes. */
  const PLACEHOLDER := "{}"

  datatype Localization = Localization(strings: map<string, Translations>) {

    /** Look `key` up and pick the language's text; an unknown key stands for itself. */
    function Get(key: string, lang: Language): string {
      if key in strings && strings[key].At(Index(lang)).Some? then
        strings[key].At(Index(lang)).value
      else
        key
    }

    /** `Get`, then every `{}` replaced by `arg`. */
    function GetFmt(key: string, lang: Language, arg: string): string {
      Replace(Get(key, lang), PLACEHOLDER, arg)
    }
  }

  /** `HashMap::insert` applied in order to an empty map: a later insert of a key replaces an earlier one. */
  function Build(inserts: seq<(string, Translations)>): map<string, Translations> {
    if inserts == [] then map[]
    else
      var last := inserts[|inserts| - 1];
      Build(inserts[..|inserts| - 1])[last.0 := last.1]
  }

  /** `Localization::new`: the table filled by the fixed sequence of inserts. */
  function New(): Localization {
    Localization(Build(INSERTS))
  }

  /** The inserts of `Localization::new`, in source order. */
  const INSERTS: seq<(string, Translations)> := [
    ("app_title", Translations("Система Коршун - Инструменты управления", "Kite Linux - Management Tools")),
    ("menu", Translations("Меню", "Menu")),
    ("status", Translations("Статус", "Status")),
    ("package_list_title", Translations("Выбор пакетов для установки", "Select packages to install")),
    ("available_packages", Translations("Доступные пакеты", "Available packages")),
    ("menu_install", Translations("Установка системы", "System Installation")),
    ("menu_update", Translations("Обновление системы", "System Update")),
    ("menu_uninstall", Translations("Очистка системы", "System Uninstall")),
    ("menu_install_package", Translations("Установка пакетов", "Install Packages")),
    ("welcome_menu_status", Translations("Добро пожаловать в инструменты управления Коршун", "Welcome to Kite Tools")),
    ("select_installation_type", Translations("Выбор типа установки", "Select installation type")),
    ("available_installation_types", Translations("Доступные варианты", "Available options")),
    ("installation_types_stable", Translations("Стабильная сборка", "Stable")),
    ("installation_types_developer", Translations("Сборка разработчика", "Developer")),
    ("installation_types_experimental", Translations("Экспериментальная сборка", "Experimental")),
    ("installation_types_description_stable", Translations("Стабильная сборка системы, рекомендуется для повседневного использования", "Stable")),
    ("installation_types_description_developer", Translations("Система с предустановленным инструментарием разработчика, включает дополнительные инструменты для разработки", "Developer")),
    ("installation_types_description_experimental", Translations("Экспериментальная версия с новейшими изменениями, может содержать нестабильные компоненты", "Experimental")),
    ("select_uninstall_type", Translations("Выбор типа очистки", "Select uninstall type")),
    ("uninstall_types_config", Translations("Очистка конфигураций", "Clear Configurations")),
    ("uninstall_types_apps", Translations("Очистка программ", "Clear Applications")),
    ("uninstall_types_full", Translations("Полная очистка системы", "Full System Clear")),
    ("uninstall_types_description_config", Translations("Удаление пользовательских настроек и конфигурационных файлов", "Clear Configurations")),
    ("uninstall_types_description_apps", Translations("Удаление установленных программ, сохраняя пользовательские данные", "Clear Applications")),
    ("uninstall_types_description_full", Translations("Полное удаление системы, включая все данные и настройки", "Full System Clear")),
    ("update_check_title", Translations("Проверка обновлений", "Update Check")),
    ("available_updates", Translations("Доступные обновления", "Available Updates")),
    ("script_progress_title", Translations("Установка пакетов", "Package Installation")),
    ("script_output", Translations("Вывод", "Output")),
    ("instructions_custom_package_input", Translations("Введите названия пакетов через пробел", "Enter package names separated by spaces")),
    ("warning_installation", Translations("Вы уверены, что хотите установить версию {}?\nВсе данные на диске будут удалены!", "Are you sure you want to install version {}?\nAll data on the disk will be deleted!")),
    ("warning_uninstall_config", Translations("Вы уверены, что хотите удалить все пользовательские настройки?", "Are you sure you want to uninstall all user configurations?")),
    ("warning_uninstall_apps", Translations("Вы уверены, что хотите удалить все установленные программы?", "Are you sure you want to uninstall all installed applications?")),
    ("warning_uninstall_full", Translations("ВНИМАНИЕ! Вы уверены, что хотите полностью удалить систему?\nВсе данные будут безвозвратно удалены!", "Are you sure you want to uninstall the entire system?\nAll data will be permanently deleted!")),
    ("confirm_uninstall", Translations("Подтвердите удаление", "Confirm uninstall")),
    ("warning_update_found", Translations("Найдена новая версия {}!\nВы действительно хотите обновить систему?", "New version {} found!\nAre you sure you want to update the system?")),
    ("version_up_to_date", Translations("Версия системы актуальна", "System version is up to date")),
    ("command_success", Translations("Программа завершилась успешно", "Command completed successfully")),
    ("command_error", Translations("Программа завершилась с ошибкой", "Command failed")),
    ("command_error_start", Translations("Ошибка запуска: {}", "Command failed: {}")),
    ("command_error_process", Translations("Ошибка выполнения: {}", "Command failed: {}")),
    ("system_already_installed", Translations("Система уже установлена", "System already installed")),
    ("system_not_detected", Translations("Не удалось определить операционную систему", "System not detected")),
    ("update_not_supported", Translations("Обновление не поддерживается для данной операционной системы: {}", "Update not supported for this operating system: {}")),
    ("package_error_status", Translations("Не указаны пакеты для установки", "No packages specified for installation")),
    ("custom_packages", Translations("[ Установить свои пакеты ]", "[ Install Custom Packages ]")),
    ("main_menu_navigation_hints", Translations("↑/↓: Навигация | Enter: Выбрать | q: Выход | F2: Переключение языка", "↑/↓: Navigation | Enter: Select | q: Exit | F2: Language Switch")),
    ("package_list_navigation_hints", Translations("↑/↓: Навигация | Пробел: Выбрать | Enter: Подтвердить установку | Esc: Назад | q: Выход", "↑/↓: Navigation | Space: Select | Enter: Confirm Installation | Esc: Back | q: Exit")),
    ("custom_package_input_navigation_hints", Translations("Enter: Установить | Esc: Назад", "Enter: Install | Esc: Back")),
    ("script_running_hints", Translations("Выполняется программа... | Esc: Отмена", "Script is running... | Esc: Cancel")),
    ("script_finished_hints", Translations("Программа завершена | Enter: Закрыть | Esc: Вернуться", "Script finished | Enter: Close | Esc: Back")),
    ("installation_type_navigation_hints", Translations("↑/↓: Навигация | Enter: Выбрать | q: Выход", "↑/↓: Navigation | Enter: Select | q: Exit")),
    ("update_check_hints", Translations("Проверка обновлений... | Esc: Отмена", "Update check... | Esc: Cancel")),
    ("uninstall_type_navigation_hints", Translations("↑/↓: Навигация | Enter: Выбрать | q: Выход", "↑/↓: Navigation | Enter: Select | q: Exit")),
    ("uninstall_confirmation", Translations("{}\n\nEnter - Подтвердить\nEsc - Отменить", "{}\n\nEnter - Confirm\nEsc - Cancel")),
    ("uninstall_error_message", Translations("{}\n\nНажмите Enter для продолжения", "{}\n\nPress Enter to continue")),
    ("uninstall_info_message", Translations("{}\n\nНажмите Enter для продолжения", "{}\n\nPress Enter to continue")),
    ("package_input_title", Translations("Ввод пакетов", "Package Input")),
    ("confirmation", Translations("Подтверждение", "Confirmation")),
    ("error", Translations("Ошибка", "Error")),
    ("info", Translations("Информация", "Info")),
    ("task_cancelled", Translations("Задача отменена", "Task Cancelled"))
  ]

  /**
   * A present key yields the text of the requested language: both indices of
   * the language enum lie inside every two-element entry, so a lookup never
   * falls back to the key.
   */
  lemma GetPresent(l: Localization, key: string, lang: Language)
    requires key in l.strings
    ensures l.Get(key, lang) == l.strings[key].In(lang)
  {
  }

  /** An absent key is returned unchanged. */
  lemma GetAbsent(l: Localization, key: string, lang: Language)
    requires key !in l.strings
    ensures l.Get(key, lang) == key
  {
  }

  /** When the looked-up text has no placeholder, the argument is ignored. */
  lemma GetFmtWithoutPlaceholder(l: Localization, key: string, lang: Language, arg: string)
    requires !Contains(l.Get(key, lang), PLACEHOLDER)
    ensures l.GetFmt(key, lang, arg) == l.Get(key, lang)
  {
    ReplaceAbsent(l.Get(key, lang), PLACEHOLDER, arg);
  }

  /** The built map holds exactly the inserted keys. */
  lemma {:induction false} BuildKeys(inserts: seq<(string, Translations)>)
    ensures forall k :: k in Build(inserts) <==> exists i :: 0 <= i < |inserts| && inserts[i].0 == k
  {
    if inserts != [] {
      var init := inserts[..|inserts| - 1];
      BuildKeys(init);
      forall k | exists i :: 0 <= i < |inserts| && inserts[i].0 == k
        ensures k in Build(inserts)
      {
        var i :| 0 <= i < |inserts| && inserts[i].0 == k;
        if i < |init| {
          assert init[i] == inserts[i];
        }
      }
      forall k | k in Build(inserts)
        ensures exists i :: 0 <= i < |inserts| && inserts[i].0 == k
      {
        if k != inserts[|inserts| - 1].0 {
          assert k in Build(init);
          var i :| 0 <= i < |init| && init[i].0 == k;
          assert inserts[i] == init[i];
        }
      }
    }
  }

  /** A key maps to the value of its last insert. */
  lemma {:induction false} BuildLastInsertWins(inserts: seq<(string, Translations)>, i: nat)
    requires i < |inserts|
    requires forall j :: i < j < |inserts| ==> inserts[j].0 != inserts[i].0
    ensures inserts[i].0 in Build(inserts) && Build(inserts)[inserts[i].0] == inserts[i].1
  {
    var init := inserts[..|inserts| - 1];
    if i < |inserts| - 1 {
      assert init[i] == inserts[i];
      BuildLastInsertWins(init, i);
    }
  }

  /** The table of `new` holds exactly the keys it inserts. */
  lemma NewKeys()
    ensures forall k :: k in New().strings <==> exists i :: 0 <= i < |INSERTS| && INSERTS[i].0 == k
  {
    BuildKeys(INSERTS);
  }

  /** The last insert is looked up as inserted, in both languages. */
  lemma NewTaskCancelled()
    ensures New().Get("task_cancelled", Russian) == "Задача отменена"
    ensures New().Get("task_cancelled", English) == "Task Cancelled"
  {
    BuildLastInsertWins(INSERTS, |INSERTS| - 1);
  }

  /** No insert after the one of "command_error_start" (index 39) uses that key again. */
  lemma CommandErrorStartNotReinserted()
    ensures INSERTS[39] == ("command_error_start", Translations("Ошибка запуска: {}", "Command failed: {}"))
    ensures forall j :: 39 < j < |INSERTS| ==> INSERTS[j].0 != "command_error_start"
  {
  }

  /** The table holds the entry inserted for "command_error_start". */
  lemma NewCommandErrorStartEntry()
    ensures "command_error_start" in New().strings
    ensures New().strings["command_error_start"] == INSERTS[39].1
  {
    CommandErrorStartNotReinserted();
    BuildLastInsertWins(INSERTS, 39);
  }

  /** A text made of a placeholder-free prefix and one trailing placeholder formats to the prefix and the argument. */
  lemma GetFmtTrailing(l: Localization, key: string, lang: Language, prefix: string, arg: string)
    requires key in l.strings && l.strings[key].In(lang) == prefix + PLACEHOLDER
    requires forall j :: 0 <= j < |prefix| ==> prefix[j] != PLACEHOLDER[0]
    ensures l.GetFmt(key, lang, arg) == prefix + arg
  {
    GetPresent(l, key, lang);
    ReplaceTrailing(prefix, PLACEHOLDER, arg);
  }

  /** A text with one placeholder formats to the text around it with the argument in its place. */
  lemma GetFmtSingle(l: Localization, key: string, lang: Language, prefix: string, suffix: string, arg: string)
    requires key in l.strings && l.strings[key].In(lang) == prefix + PLACEHOLDER + suffix
    requires forall j :: 0 <= j < |prefix| ==> prefix[j] != PLACEHOLDER[0]
    requires !Contains(suffix, PLACEHOLDER)
    ensures l.GetFmt(key, lang, arg) == prefix + arg + suffix
  {
    GetPresent(l, key, lang);
    ReplaceOne(prefix, PLACEHOLDER, arg, suffix);
  }

  /** No insert after the one of "uninstall_confirmation" (index 54) uses that key again. */
  lemma UninstallConfirmationNotReinserted()
    ensures INSERTS[54] == ("uninstall_confirmation",
      Translations("{}\n\nEnter - Подтвердить\nEsc - Отменить", "{}\n\nEnter - Confirm\nEsc - Cancel"))
    ensures forall j :: 54 < j < |INSERTS| ==> INSERTS[j].0 != "uninstall_confirmation"
  {
  }

  /** The table holds the entry inserted for "uninstall_confirmation". */
  lemma NewUninstallConfirmationEntry()
    ensures "uninstall_confirmation" in New().strings
    ensures New().strings["uninstall_confirmation"]
      == Translations("{}\n\nEnter - Подтвердить\nEsc - Отменить", "{}\n\nEnter - Confirm\nEsc - Cancel")
  {
    UninstallConfirmationNotReinserted();
    BuildLastInsertWins(INSERTS, 54);
  }

  /** The Russian text of "uninstall_confirmation" is the placeholder followed by the key help. */
  lemma UninstallConfirmationRussian()
    ensures "{}\n\nEnter - Подтвердить\nEsc - Отменить" == PLACEHOLDER + "\n\nEnter - Подтвердить\nEsc - Отменить"
  {
  }

  /** The English text of "uninstall_confirmation" is the placeholder followed by the key help. */
  lemma UninstallConfirmationEnglish()
    ensures "{}\n\nEnter - Confirm\nEsc - Cancel" == PLACEHOLDER + "\n\nEnter - Confirm\nEsc - Cancel"
  {
  }

  /** The Russian key help after the placeholder of "uninstall_confirmation" holds no placeholder. */
  lemma UninstallConfirmationHelpRussian()
    ensures !Contains("\n\nEnter - Подтвердить\nEsc - Отменить", PLACEHOLDER)
  {
    NotContainsWithoutFirst("\n\nEnter - Подтвердить\nEsc - Отменить", PLACEHOLDER);
  }

  /** The English key help after the placeholder of "uninstall_confirmation" holds no placeholder. */
  lemma UninstallConfirmationHelpEnglish()
    ensures !Contains("\n\nEnter - Confirm\nEsc - Cancel", PLACEHOLDER)
  {
    NotContainsWithoutFirst("\n\nEnter - Confirm\nEsc - Cancel", PLACEHOLDER);
  }

  /** Any table holding the inserted "uninstall_confirmation" texts formats them with the argument first. */
  lemma UninstallConfirmationFormats(l: Localization, arg: string)
    requires "uninstall_confirmation" in l.strings
    requires l.strings["uninstall_confirmation"]
      == Translations("{}\n\nEnter - Подтвердить\nEsc - Отменить", "{}\n\nEnter - Confirm\nEsc - Cancel")
    ensures l.GetFmt("uninstall_confirmation", Russian, arg) == arg + "\n\nEnter - Подтвердить\nEsc - Отменить"
    ensures l.GetFmt("uninstall_confirmation", English, arg) == arg + "\n\nEnter - Confirm\nEsc - Cancel"
  {
    UninstallConfirmationRussian();
    UninstallConfirmationHelpRussian();
    GetFmtLeading(l, "uninstall_confirmation", Russian, "\n\nEnter - Подтвердить\nEsc - Отменить", arg);
    UninstallConfirmationEnglish();
    UninstallConfirmationHelpEnglish();
    GetFmtLeading(l, "uninstall_confirmation", English, "\n\nEnter - Confirm\nEsc - Cancel", arg);
  }

  /**
   * The uninstall confirmation puts the warning first and the key help after
   * it: a placeholder followed by text.
   */
  lemma NewUninstallConfirmation(arg: string)
    ensures New().GetFmt("uninstall_confirmation", Russian, arg) == arg + "\n\nEnter - Подтвердить\nEsc - Отменить"
    ensures New().GetFmt("uninstall_confirmation", English, arg) == arg + "\n\nEnter - Confirm\nEsc - Cancel"
  {
    NewUninstallConfirmationEntry();
    UninstallConfirmationFormats(New(), arg);
  }

  /** A text that is the placeholder followed by placeholder-free text formats to the argument followed by that text. */
  lemma GetFmtLeading(l: Localization, key: string, lang: Language, suffix: string, arg: string)
    requires key in l.strings && l.strings[key].In(lang) == PLACEHOLDER + suffix
    requires !Contains(suffix, PLACEHOLDER)
    ensures l.GetFmt(key, lang, arg) == arg + suffix
  {
    assert [] + PLACEHOLDER + suffix == PLACEHOLDER + suffix;
    GetFmtSingle(l, key, lang, [], suffix, arg);
  }

  /** A formatted entry: the prefix is kept and the placeholder becomes the argument. */
  lemma NewCommandErrorStart(arg: string)
    ensures New().GetFmt("command_error_start", Russian, arg) == "Ошибка запуска: " + arg
  {
    NewCommandErrorStartEntry();
    CommandErrorStartNotReinserted();
    CommandErrorStartPrefix();
    GetFmtTrailing(New(), "command_error_start", Russian, "Ошибка запуска: ", arg);
  }

  /** The Russian text of "command_error_start" is a placeholder-free prefix followed by the placeholder. */
  lemma CommandErrorStartPrefix()
    ensures "Ошибка запуска: {}" == "Ошибка запуска: " + PLACEHOLDER
    ensures forall j :: 0 <= j < |"Ошибка запуска: "| ==> "Ошибка запуска: "[j] != PLACEHOLDER[0]
  {
  }
}
