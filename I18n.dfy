/**
 * The `t` lookup of client/contexts/I18nContext.tsx. Each language's table is
 * an object literal; where a key is written twice the later value is the one
 * the object holds. `t(key)` takes the current language's entry if it is
 * non-empty, else the English entry if non-empty, else the key's own name.
 */
module I18n {

  import opened Text
  import opened Translations

  /** The languages that have a table. */
  const SupportedLanguages: set<string> := {"en", "es", "fr", "hi"}

  /** The language codes the layout's language menu offers, in menu order. */
  const OfferedLanguages: seq<string> := ["en", "es", "fr", "hi", "ta", "te", "kn", "ml", "mr", "gu", "bn", "pa", "or", "as", "ur"]

  /** `table[key]`: the last entry written for the key, or undefined. */
  function Lookup(table: Table, key: Key): Option<string>
    decreases |table|
  {
    if table == [] then None
    else if table[|table| - 1].0 == key then Some(table[|table| - 1].1)
    else Lookup(table[..|table| - 1], key)
  }

  /** The entry found is the last one written for the key. */
  lemma {:induction false} LookupFindsLast(table: Table, key: Key, i: nat)
    requires i < |table| && table[i].0 == key
    requires forall j :: i < j < |table| ==> table[j].0 != key
    ensures Lookup(table, key) == Some(table[i].1)
    decreases |table|
  {
    if i < |table| - 1 {
      LookupFindsLast(table[..|table| - 1], key, i);
    }
  }

  /** A key is undefined exactly when no entry is written for it. */
  lemma {:induction false} LookupMissing(table: Table, key: Key)
    ensures Lookup(table, key).None? <==> forall j :: 0 <= j < |table| ==> table[j].0 != key
    decreases |table|
  {
    if table != [] {
      LookupMissing(table[..|table| - 1], key);
    }
  }

  /** Entries written later win: a key written in `b` is read from `b`, any other from `a`. */
  lemma {:induction false} LookupAppend(a: Table, b: Table, key: Key)
    ensures Lookup(a + b, key) == if Lookup(b, key).Some? then Lookup(b, key) else Lookup(a, key)
    decreases |b|
  {
    if b == [] {
      assert a + b == a;
    } else {
      LookupAppend(a, b[..|b| - 1], key);
      assert (a + b)[..|a + b| - 1] == a + b[..|b| - 1];
    }
  }

  /** An English key is read from the last section that writes it. */
  lemma EnglishBySection(key: Key)
    ensures Lookup(English, key) ==
              if Lookup(EnglishUi, key).Some? then Lookup(EnglishUi, key)
              else if Lookup(EnglishAdmin, key).Some? then Lookup(EnglishAdmin, key)
              else if Lookup(EnglishPatients, key).Some? then Lookup(EnglishPatients, key)
              else if Lookup(EnglishAuth, key).Some? then Lookup(EnglishAuth, key)
              else if Lookup(EnglishLanding, key).Some? then Lookup(EnglishLanding, key)
              else Lookup(EnglishCommon, key)
  {
    var s1 := EnglishCommon + EnglishLanding;
    var s2 := s1 + EnglishAuth;
    var s3 := s2 + EnglishPatients;
    var s4 := s3 + EnglishAdmin;
    LookupAppend(EnglishCommon, EnglishLanding, key);
    LookupAppend(s1, EnglishAuth, key);
    LookupAppend(s2, EnglishPatients, key);
    LookupAppend(s3, EnglishAdmin, key);
    LookupAppend(s4, EnglishUi, key);
  }

  /** `translations[language]`. */
  function TableOf(language: string): (r: Option<Table>)
    ensures r.Some? <==> language in SupportedLanguages
  {
    if language == "en" then Some(English)
    else if language == "es" then Some(Spanish)
    else if language == "fr" then Some(French)
    else if language == "hi" then Some(Hindi)
    else None
  }

  /** JavaScript truthiness of an entry: absent and empty entries are falsy. */
  predicate Truthy(entry: Option<string>)
  {
    entry.Some? && entry.value != ""
  }

  /** `table[key] || translations.en[key] || key`. */
  function Fallback(table: Table, key: Key): (r: string)
    ensures r != ""
    ensures Truthy(Lookup(table, key)) ==> r == Lookup(table, key).value
    ensures !Truthy(Lookup(table, key)) && Truthy(Lookup(English, key)) ==> r == Lookup(English, key).value
    ensures !Truthy(Lookup(table, key)) && !Truthy(Lookup(English, key)) ==> r == KeyName(key)
  {
    var own := Lookup(table, key);
    var english := Lookup(English, key);
    if Truthy(own) then own.value
    else if Truthy(english) then english.value
    else KeyName(key)
  }

  /**
   * `t(key)` as written: for a language without a table,
   * `translations[language][key]` reads a property of undefined and throws
   * (`None`).
   */
  function TAsWritten(language: string, key: Key): (r: Option<string>)
    ensures r.None? <==> language !in SupportedLanguages
    ensures r.Some? ==> r.value == Fallback(TableOf(language).value, key)
  {
    match TableOf(language)
    case None => None
    case Some(table) => Some(Fallback(table, key))
  }

  /** The language menu offers eleven languages without a table, for which `t` throws on every key. */
  lemma OfferedLanguagesWithoutTable(key: Key)
    ensures forall i :: 4 <= i < |OfferedLanguages| ==> OfferedLanguages[i] !in SupportedLanguages
    ensures "ta" in OfferedLanguages && TAsWritten("ta", key).None?
  {
    assert OfferedLanguages[4] == "ta";
  }

  /** `t(key)` reading a language without a table as English. */
  function T(language: string, key: Key): (r: string)
    ensures r != ""
    ensures language in SupportedLanguages ==> TAsWritten(language, key) == Some(r)
    ensures language !in SupportedLanguages ==> r == Fallback(English, key)
  {
    match TableOf(language)
    case None => Fallback(English, key)
    case Some(table) => Fallback(table, key)
  }

  /** A language without a table shows exactly what English shows. */
  lemma UnsupportedReadsAsEnglish(language: string, key: Key)
    requires language !in SupportedLanguages
    ensures T(language, key) == T("en", key)
  {
  }

  /** A key the current table lacks is shown in English. */
  lemma MissingKeyFallsBackToEnglish(language: string, key: Key)
    requires language in SupportedLanguages
    requires forall j :: 0 <= j < |TableOf(language).value| ==> TableOf(language).value[j].0 != key
    requires Truthy(Lookup(English, key))
    ensures T(language, key) == Lookup(English, key).value
  {
    LookupMissing(TableOf(language).value, key);
  }
}

/**
 * What the tables and `t` give for the keys the tables write more than once
 * or leave out.
 */
module I18nFacts {

  import opened Text
  import opened Translations
  import opened I18n

  /** English section Landing does not write `signIn`. */
  lemma SignInNotInEnglishLanding()
    ensures Lookup(EnglishLanding, SignIn).None?
  {
    LookupMissing(EnglishLanding, SignIn);
  }

  /** English section Auth does not write `signIn`. */
  lemma SignInNotInEnglishAuth()
    ensures Lookup(EnglishAuth, SignIn).None?
  {
    LookupMissing(EnglishAuth, SignIn);
  }

  /** English section Patients does not write `signIn`. */
  lemma SignInNotInEnglishPatients()
    ensures Lookup(EnglishPatients, SignIn).None?
  {
    LookupMissing(EnglishPatients, SignIn);
  }

  /** English section Admin does not write `signIn`. */
  lemma SignInNotInEnglishAdmin()
    ensures Lookup(EnglishAdmin, SignIn).None?
  {
    LookupMissing(EnglishAdmin, SignIn);
  }

  /** English section Ui does not write `signIn`. */
  lemma SignInNotInEnglishUi()
    ensures Lookup(EnglishUi, SignIn).None?
  {
    LookupMissing(EnglishUi, SignIn);
  }

  /** Section Common reads `signIn` as "Sign In". */
  lemma SignInInEnglishCommon()
    ensures Lookup(EnglishCommon, SignIn) == Some("Sign In")
  {
    LookupFindsLast(EnglishCommon, SignIn, 8);
  }

  /** The English `signIn` entry is "Sign In". */
  lemma EnglishSignInEntry()
    ensures Lookup(English, SignIn) == Some("Sign In")
  {
    SignInNotInEnglishLanding();
    SignInNotInEnglishAuth();
    SignInNotInEnglishPatients();
    SignInNotInEnglishAdmin();
    SignInNotInEnglishUi();
    SignInInEnglishCommon();
    EnglishBySection(SignIn);
  }

  /** The French table does not write `signIn`. */
  lemma FrenchLacksSignIn()
    ensures Lookup(French, SignIn).None?
  {
    LookupMissing(French, SignIn);
  }

  /** "fr" selects the French table. */
  lemma FrenchIsSupported()
    ensures TableOf("fr") == Some(French)
  {
  }

  /** The French table falls back to the English "Sign In" for `signIn`. */
  lemma FrenchFallsBackForSignIn()
    ensures Fallback(French, SignIn) == "Sign In"
  {
    FrenchLacksSignIn();
    EnglishSignInEntry();
  }

  /** French has no `signIn`, so it shows the English "Sign In". */
  lemma FrenchSignIn()
    ensures T("fr", SignIn) == "Sign In"
  {
    FrenchIsSupported();
    FrenchFallsBackForSignIn();
  }

  /** English section Landing does not write `logout`. */
  lemma LogoutNotInEnglishLanding()
    ensures Lookup(EnglishLanding, Logout).None?
  {
    LookupMissing(EnglishLanding, Logout);
  }

  /** English section Auth does not write `logout`. */
  lemma LogoutNotInEnglishAuth()
    ensures Lookup(EnglishAuth, Logout).None?
  {
    LookupMissing(EnglishAuth, Logout);
  }

  /** English section Patients does not write `logout`. */
  lemma LogoutNotInEnglishPatients()
    ensures Lookup(EnglishPatients, Logout).None?
  {
    LookupMissing(EnglishPatients, Logout);
  }

  /** English section Admin does not write `logout`. */
  lemma LogoutNotInEnglishAdmin()
    ensures Lookup(EnglishAdmin, Logout).None?
  {
    LookupMissing(EnglishAdmin, Logout);
  }

  /** English section Ui does not write `logout`. */
  lemma LogoutNotInEnglishUi()
    ensures Lookup(EnglishUi, Logout).None?
  {
    LookupMissing(EnglishUi, Logout);
  }

  /** Section Common reads `logout` as "Log Out". */
  lemma LogoutInEnglishCommon()
    ensures Lookup(EnglishCommon, Logout) == Some("Log Out")
  {
    LookupFindsLast(EnglishCommon, Logout, 27);
  }

  /** The English `logout` entry read is the later one, "Log Out". */
  lemma EnglishLogoutEntry()
    ensures Lookup(English, Logout) == Some("Log Out")
  {
    LogoutNotInEnglishLanding();
    LogoutNotInEnglishAuth();
    LogoutNotInEnglishPatients();
    LogoutNotInEnglishAdmin();
    LogoutNotInEnglishUi();
    LogoutInEnglishCommon();
    EnglishBySection(Logout);
  }

  /** `logout` is written twice in English; the later "Log Out" is the one shown. */
  lemma EnglishLogout()
    ensures T("en", Logout) == "Log Out"
  {
    EnglishLogoutEntry();
  }

  /** English section Patients does not write `createAccount`. */
  lemma CreateAccountNotInEnglishPatients()
    ensures Lookup(EnglishPatients, CreateAccount).None?
  {
    LookupMissing(EnglishPatients, CreateAccount);
  }

  /** English section Admin does not write `createAccount`. */
  lemma CreateAccountNotInEnglishAdmin()
    ensures Lookup(EnglishAdmin, CreateAccount).None?
  {
    LookupMissing(EnglishAdmin, CreateAccount);
  }

  /** English section Ui does not write `createAccount`. */
  lemma CreateAccountNotInEnglishUi()
    ensures Lookup(EnglishUi, CreateAccount).None?
  {
    LookupMissing(EnglishUi, CreateAccount);
  }

  /** Section Auth reads `createAccount` as "Create Account". */
  lemma CreateAccountInEnglishAuth()
    ensures Lookup(EnglishAuth, CreateAccount) == Some("Create Account")
  {
    LookupFindsLast(EnglishAuth, CreateAccount, 0);
  }

  /** Section Landing reads `createAccount` as "Create your account". */
  lemma CreateAccountInEnglishLanding()
    ensures Lookup(EnglishLanding, CreateAccount) == Some("Create your account")
  {
    LookupFindsLast(EnglishLanding, CreateAccount, 25);
  }

  /**
   * The English `createAccount` entry read is the later one, "Create Account":
   * the landing section's "Create your account" is overridden.
   */
  lemma EnglishCreateAccountEntry()
    ensures Lookup(EnglishLanding, CreateAccount) == Some("Create your account")
    ensures Lookup(English, CreateAccount) == Some("Create Account")
  {
    CreateAccountInEnglishLanding();
    CreateAccountNotInEnglishPatients();
    CreateAccountNotInEnglishAdmin();
    CreateAccountNotInEnglishUi();
    CreateAccountInEnglishAuth();
    EnglishBySection(CreateAccount);
  }

  /** `createAccount` is written in two sections; the later "Create Account" is the one shown. */
  lemma EnglishCreateAccount()
    ensures T("en", CreateAccount) == "Create Account"
  {
    EnglishCreateAccountEntry();
  }
}
