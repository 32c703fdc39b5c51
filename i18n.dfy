/** The two-language label table and the store holding the current
    language. */
module I18n {

  datatype Language = Te | En

  /** One row of the table: the English and the Telugu text. */
  datatype Entry = Entry(en: string, te: string) {
    function In(lang: Language): string {
      match lang
      case En => en
      case Te => te
    }
  }

  // The table, section by section as the labels are grouped; no key occurs
  // in two sections.

  const BrandingLabels: map<string, Entry> := map[
    "brand.name" := Entry("Jai Durga Bricks", "జై దుర్గా బ్రిక్స్"),
    "brand.shortName" := Entry("JD Bricks", "జే.డి బ్రిక్స్")
  ]

  const NavigationLabels: map<string, Entry> := map[
    "nav.home" := Entry("Home", "హోమ్"),
    "nav.workers" := Entry("Mens", "మనుషులు"),
    "nav.calculator" := Entry("Calculator", "క్యాల్క్యులేటర్")
  ]

  const AuthenticationLabels: map<string, Entry> := map[
    "auth.signIn" := Entry("Sign In", "సైన్ ఇన్"),
    "auth.email" := Entry("Email address", "ఇమెయిల్ చిరునామా"),
    "auth.password" := Entry("Password", "పాస్‌వర్డ్"),
    "auth.signingIn" := Entry("Signing in...", "సైన్ ఇన్ అవుతోంది..."),
    "auth.useMagicLink" := Entry("Sign in with Magic Link instead", "మ్యాజిక్ లింక్‌తో సైన్ ఇన్ చేయండి"),
    "auth.usePassword" := Entry("Sign in with Password instead", "పాస్‌వర్డ్‌తో సైన్ ఇన్ చేయండి"),
    "auth.sendMagicLink" := Entry("Send Magic Link", "మ్యాజిక్ లింక్ పంపండి"),
    "auth.checkEmail" := Entry("Check your email", "మీ ఇమెయిల్‌ని తనిఖీ చేయండి"),
    "auth.magicLinkSent" := Entry("We've sent a magic link to your email. Click on it to sign in.", "మేము మీ ఇమెయిల్‌కి మ్యాజిక్ లింక్‌ని పంపాము. సైన్ ఇన్ చేయడానికి దానిపై క్లిక్ చేయండి."),
    "auth.backToLogin" := Entry("Back to Login", "లాగిన్‌కి తిరిగి వెళ్ళండి"),
    "auth.signOut" := Entry("Sign Out", "సైన్ అవుట్")
  ]

  const WorkerManagementLabels: map<string, Entry> := map[
    "worker.add" := Entry("Add Mens", "మనుషులు ని జోడించండి"),
    "worker.name" := Entry("Name", "పేరు"),
    "worker.phone" := Entry("Phone Number", "ఫోన్ నంబర్"),
    "worker.debt" := Entry("Initial Debt", "ప్రారంభ అప్పు")
  ]

  const WorkTypesLabels: map<string, Entry> := map[
    "work.kundi" := Entry("Kundi Work", "కుండీ చేత"),
    "work.kundiOptions" := Entry("Kundi Type", "కుండీ రకం"),
    "work.kundiDriver" := Entry("Kundi Driver", "కుండీ చేత డ్రైవర్"),
    "work.brickCarry" := Entry("Brick Carrying", "ఇటుక లాగుడు"),
    "work.brickBaking" := Entry("Brick Baking", "ఆమా కాల్చడం"),
    "work.brickLoadTractor" := Entry("Brick Load - Tractor", "ఇటుక లోడ్ – ట్రాక్టర్"),
    "work.brickLoadVan" := Entry("Brick Load - Van", "ఇటుక లోడ్ – వ్యాన్"),
    "work.topWork" := Entry("Top Work", "పై పని")
  ]

  const TabsLabels: map<string, Entry> := map[
    "tab.thisWeek" := Entry("This Week Work", "ఈ వారం పని"),
    "tab.usage" := Entry("Usage", "వాడకం"),
    "tab.addUsage" := Entry("Add Usage", "వాడకం జోడించు"),
    "tab.totalWork" := Entry("Total Work", "మొత్తం పని"),
    "tab.addTodayWork" := Entry("Add Today's Work", " పని జోడించు")
  ]

  const CommonLabels: map<string, Entry> := map[
    "common.save" := Entry("Save", "సేవ్ చేయండి"),
    "common.add" := Entry("Add", "జోడించు"),
    "common.back" := Entry("Back", "వెనుకకు"),
    "common.cancel" := Entry("Cancel", "రద్దు చేయండి"),
    "common.date" := Entry("Date", "తేదీ"),
    "common.amount" := Entry("Amount", "మొత్తం"),
    "common.workType" := Entry("Work Type", "పని రకం"),
    "common.all" := Entry("All", "అన్నీ"),
    "common.driver" := Entry("Driver", "డ్రైవర్"),
    "common.work" := Entry("Work", "పని"),
    "common.brickCount" := Entry("Brick Count", "ఇటుక కౌంట్"),
    "common.fullDay" := Entry("Full Day", "పూర్తి రోజు"),
    "common.halfDay" := Entry("Half Day", "సగం రోజు"),
    "common.total" := Entry("Total", "మొత్తం"),
    "common.delete" := Entry("Delete", "తొలగించు"),
    "common.removeUser" := Entry("Remove User", "మనిషిని తొలగించు"),
    "common.selectUserToRemove" := Entry("Select a person to remove", "తొలగించడానికి ఒక వ్యక్తిని ఎంచుకోండి"),
    "common.search" := Entry("Search...", "వెతకండి..."),
    "common.noResults" := Entry("No results found", "ఫలితాలు కనుగొనబడలేదు"),
    "common.confirmDelete" := Entry("Confirm Delete", "తొలగించడాన్ని నిర్ధారించండి"),
    "common.deleteConfirmation" := Entry("Confirm Delete", "తొలగించడాన్ని నిర్ధారించండి"),
    "common.deleteWarning" := Entry("Are you sure you want to delete this person? This action cannot be undone.", "మీరు ఖచ్చితంగా ఈ మనిషిని తొలగించాలనుకుంటున్నారా? ఈ చర్య రద్దు చేయబడదు."),
    "common.confirmDeleteWorker" := Entry("Are you sure you want to delete this person? This action cannot be undone.", "మీరు ఖచ్చితంగా ఈ మనిషిని తొలగించాలనుకుంటున్నారా? ఈ చర్య రద్దు చేయబడదు."),
    "common.confirmDeleteWork" := Entry("Are you sure you want to delete this work record? This action cannot be undone.", "మీరు ఖచ్చితంగా ఈ పని రికార్డును తొలగించాలనుకుంటున్నారా? ఈ చర్య రద్దు చేయబడదు."),
    "common.confirmDeleteUsage" := Entry("Are you sure you want to delete this usage record? This action cannot be undone.", "మీరు ఖచ్చితంగా ఈ వాడకం రికార్డును తొలగించాలనుకుంటున్నారా? ఈ చర్య రద్దు చేయబడదు."),
    "common.showFilters" := Entry("Show Filters", "ఫిల్టర్‌లను చూపించు"),
    "common.hideFilters" := Entry("Hide Filters", "ఫిల్టర్‌లను దాచు"),
    "common.resetFilters" := Entry("Reset Filters", "ఫిల్టర్‌లను రీసెట్ చేయండి"),
    "common.actions" := Entry("Actions", "చర్యలు"),
    "common.backToHome" := Entry("Back to Home", "హోమ్‌కి తిరిగి")
  ]

  const ErrorMessagesLabels: map<string, Entry> := map[
    "error.workerNotFound" := Entry("Worker not found", "కార్మికుడు కనుగొనబడలేదు")
  ]

  const CalculatorLabels: map<string, Entry> := map[
    "calculator.title" := Entry("Calculator", "క్యాల్క్యులేటర్"),
    "calculator.clear" := Entry("AC", "AC")
  ]

  const Translations: map<string, Entry> := BrandingLabels + NavigationLabels + AuthenticationLabels + WorkerManagementLabels + WorkTypesLabels + TabsLabels + CommonLabels + ErrorMessagesLabels + CalculatorLabels

  /** Every row carries both texts. */
  predicate Filled(table: map<string, Entry>) {
    forall k | k in table :: table[k].en != "" && table[k].te != ""
  }

  lemma {:induction false} FilledUnion(a: map<string, Entry>, b: map<string, Entry>)
    requires Filled(a) && Filled(b)
    ensures Filled(a + b)
  {
    forall k | k in a + b ensures (a + b)[k].en != "" && (a + b)[k].te != "" {
      if k in b {
        assert (a + b)[k] == b[k];
      } else {
        assert (a + b)[k] == a[k];
      }
    }
  }

  // Each section has both texts in every row.

  lemma BrandingFilled()
    ensures Filled(BrandingLabels)
  {
  }

  lemma NavigationFilled()
    ensures Filled(NavigationLabels)
  {
  }

  lemma AuthenticationFilled()
    ensures Filled(AuthenticationLabels)
  {
  }

  lemma WorkerManagementFilled()
    ensures Filled(WorkerManagementLabels)
  {
  }

  lemma WorkTypesFilled()
    ensures Filled(WorkTypesLabels)
  {
  }

  lemma TabsFilled()
    ensures Filled(TabsLabels)
  {
  }

  lemma CommonFilled()
    ensures Filled(CommonLabels)
  {
  }

  lemma ErrorMessagesFilled()
    ensures Filled(ErrorMessagesLabels)
  {
  }

  lemma CalculatorFilled()
    ensures Filled(CalculatorLabels)
  {
  }

  lemma TableComplete()
    ensures Filled(Translations)
  {
    BrandingFilled();
    NavigationFilled();
    AuthenticationFilled();
    WorkerManagementFilled();
    WorkTypesFilled();
    TabsFilled();
    CommonFilled();
    ErrorMessagesFilled();
    CalculatorFilled();
    FilledUnion(BrandingLabels, NavigationLabels);
    FilledUnion(BrandingLabels + NavigationLabels, AuthenticationLabels);
    FilledUnion(BrandingLabels + NavigationLabels + AuthenticationLabels, WorkerManagementLabels);
    FilledUnion(BrandingLabels + NavigationLabels + AuthenticationLabels + WorkerManagementLabels, WorkTypesLabels);
    FilledUnion(BrandingLabels + NavigationLabels + AuthenticationLabels + WorkerManagementLabels + WorkTypesLabels, TabsLabels);
    FilledUnion(BrandingLabels + NavigationLabels + AuthenticationLabels + WorkerManagementLabels + WorkTypesLabels + TabsLabels, CommonLabels);
    FilledUnion(BrandingLabels + NavigationLabels + AuthenticationLabels + WorkerManagementLabels + WorkTypesLabels + TabsLabels + CommonLabels, ErrorMessagesLabels);
    FilledUnion(BrandingLabels + NavigationLabels + AuthenticationLabels + WorkerManagementLabels + WorkTypesLabels + TabsLabels + CommonLabels + ErrorMessagesLabels, CalculatorLabels);
  }

  /** Looking a key up: the entry's text in the given language, or the key
      itself when the key is unknown or its text is empty. */
  function Translate(table: map<string, Entry>, lang: Language, key: string): (r: string)
    ensures key in table && table[key].In(lang) != "" ==> r == table[key].In(lang)
    ensures key !in table || table[key].In(lang) == "" ==> r == key
    ensures r == "" ==> key == ""
  {
    if key in table && table[key].In(lang) != "" then table[key].In(lang) else key
  }

  /** For a key of the table the lookup never falls back: it is the row's
      text in the language asked for, and that text is never empty. */
  lemma KnownKeyTranslates(table: map<string, Entry>, lang: Language, key: string)
    requires Filled(table) && key in table
    ensures Translate(table, lang, key) == table[key].In(lang) != ""
  {
  }

  /** The store shared by all screens. */
  class LanguageStore {
    var language: Language

    constructor ()
      ensures language == Te
    {
      language := Te;
    }

    method SetLanguage(lang: Language)
      modifies this
      ensures language == lang
    {
      language := lang;
    }

    /** The label for `key` in the language current at the time of the call. */
    function T(key: string): (r: string)
      reads this
      ensures key in Translations ==> r == Translations[key].In(language) != ""
      ensures key !in Translations ==> r == key
    {
      var table := Translations;
      TableComplete();
      if key in table then
        KnownKeyTranslates(table, language, key);
        Translate(table, language, key)
      else
        Translate(table, language, key)
    }
  }
}
