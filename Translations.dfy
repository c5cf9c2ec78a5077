/**
 * The translation tables of client/contexts/I18nContext.tsx, entry by entry
 * in the order written, duplicates included; the English table keeps the
 * source's sections.
 */
module Translations {

  /** The keys of the English table, in order of first appearance. */
  datatype Key =
     Dashboard | CodeMapping | Patients | Admin | Profile | Logout | Login | Signup | SignIn | Email |
     Password | FirstName | LastName | Save | Cancel | Edit | Delete | Search | Loading | Error |
     Success | Settings | Language | Theme | Light | Dark | System | BridgeTraditionalModern |
     MapNAMASTEtoICD11 | GetStarted | LearnMore | CodesMap | Users | Accuracy | KeyFeatures |
     CodesMappingDesc | PatientManagement | PatientManagementDesc | Security | SecurityDesc |
     FhirCompliance | FhirComplianceDesc | Analytics | AnalyticsDesc | AdminDashboard |
     AdminDashboardDesc | HowItWorks | Map | Export | CreateAccount | FindCodesDesc | MatchToICD11 |
     DownloadFHIR | ReadyToGetStarted | JoinHealthcareProviders | SignUpNow | WelcomeBack |
     JoinCareSyncManage | SignInAccount | DontHaveAccount | AlreadyHaveAccount | DemoCredentials |
     PatientRecords | CreatePatient | PatientList | BirthDate | Gender | Male | Female | Other |
     Diagnoses | HealthUpdates | ExportFHIR | AdminPanel | CodesList | MappingsList | Coverage |
     UsersList | ManageUsers | AddNewCode | UploadCodes | CreateNewPatient | ViewDetails |
     AddDiagnosis | RemoveDiagnosis | UpdateProfile | ChangePassword | AccountSettings

  /** The key as written in the tables. */
  function KeyName(k: Key): (r: string)
    ensures |r| > 0
  {
    match k
    case Dashboard => "dashboard"
    case CodeMapping => "codeMapping"
    case Patients => "patients"
    case Admin => "admin"
    case Profile => "profile"
    case Logout => "logout"
    case Login => "login"
    case Signup => "signup"
    case SignIn => "signIn"
    case Email => "email"
    case Password => "password"
    case FirstName => "firstName"
    case LastName => "lastName"
    case Save => "save"
    case Cancel => "cancel"
    case Edit => "edit"
    case Delete => "delete"
    case Search => "search"
    case Loading => "loading"
    case Error => "error"
    case Success => "success"
    case Settings => "settings"
    case Language => "language"
    case Theme => "theme"
    case Light => "light"
    case Dark => "dark"
    case System => "system"
    case BridgeTraditionalModern => "bridgeTraditionalModern"
    case MapNAMASTEtoICD11 => "mapNAMASTEtoICD11"
    case GetStarted => "getStarted"
    case LearnMore => "learnMore"
    case CodesMap => "codesMap"
    case Users => "users"
    case Accuracy => "accuracy"
    case KeyFeatures => "keyFeatures"
    case CodesMappingDesc => "codesMappingDesc"
    case PatientManagement => "patientManagement"
    case PatientManagementDesc => "patientManagementDesc"
    case Security => "security"
    case SecurityDesc => "securityDesc"
    case FhirCompliance => "fhirCompliance"
    case FhirComplianceDesc => "fhirComplianceDesc"
    case Analytics => "analytics"
    case AnalyticsDesc => "analyticsDesc"
    case AdminDashboard => "adminDashboard"
    case AdminDashboardDesc => "adminDashboardDesc"
    case HowItWorks => "howItWorks"
    case Map => "map"
    case Export => "export"
    case CreateAccount => "createAccount"
    case FindCodesDesc => "findCodesDesc"
    case MatchToICD11 => "matchToICD11"
    case DownloadFHIR => "downloadFHIR"
    case ReadyToGetStarted => "readyToGetStarted"
    case JoinHealthcareProviders => "joinHealthcareProviders"
    case SignUpNow => "signUpNow"
    case WelcomeBack => "welcomeBack"
    case JoinCareSyncManage => "joinCareSyncManage"
    case SignInAccount => "signInAccount"
    case DontHaveAccount => "dontHaveAccount"
    case AlreadyHaveAccount => "alreadyHaveAccount"
    case DemoCredentials => "demoCredentials"
    case PatientRecords => "patientRecords"
    case CreatePatient => "createPatient"
    case PatientList => "patientList"
    case BirthDate => "birthDate"
    case Gender => "gender"
    case Male => "male"
    case Female => "female"
    case Other => "other"
    case Diagnoses => "diagnoses"
    case HealthUpdates => "healthUpdates"
    case ExportFHIR => "exportFHIR"
    case AdminPanel => "adminPanel"
    case CodesList => "codesList"
    case MappingsList => "mappingsList"
    case Coverage => "coverage"
    case UsersList => "usersList"
    case ManageUsers => "manageUsers"
    case AddNewCode => "addNewCode"
    case UploadCodes => "uploadCodes"
    case CreateNewPatient => "createNewPatient"
    case ViewDetails => "viewDetails"
    case AddDiagnosis => "addDiagnosis"
    case RemoveDiagnosis => "removeDiagnosis"
    case UpdateProfile => "updateProfile"
    case ChangePassword => "changePassword"
    case AccountSettings => "accountSettings"
  }

  /** A table's entries in the order written, duplicates included. */
  type Table = seq<(Key, string)>

  /*
   * Each text is a named constant, so that a proof about one entry does not
   * have to unfold every string of the table. Where the English table writes
   * a key twice with different texts, the earlier, overridden text is marked.
   */

  /** The texts of the English table. */
  const EnDashboard := "Dashboard"
  const EnCodeMapping := "Code Mapping"
  const EnPatients := "Patients"
  const EnAdmin := "Admin"
  const EnProfile := "Profile"
  const EnLogoutOverridden := "Logout"
  const EnLogin := "Login"
  const EnSignup := "Sign Up"
  const EnSignIn := "Sign In"
  const EnEmail := "Email"
  const EnPassword := "Password"
  const EnFirstName := "First Name"
  const EnLastName := "Last Name"
  const EnSave := "Save"
  const EnCancel := "Cancel"
  const EnEdit := "Edit"
  const EnDelete := "Delete"
  const EnSearch := "Search"
  const EnLoading := "Loading..."
  const EnError := "Error"
  const EnSuccess := "Success"
  const EnSettings := "Settings"
  const EnLanguage := "Language"
  const EnTheme := "Theme"
  const EnLight := "Light"
  const EnDark := "Dark"
  const EnSystem := "System"
  const EnLogout := "Log Out"
  const EnBridgeTraditionalModern := "Bridge Traditional & Modern Medicine"
  const EnMapNAMASTEtoICD11 := "Map NAMASTE (Ayurveda, Siddha, Unani) diagnosis codes to ICD-11 with our secure, FHIR-compliant platform."
  const EnGetStarted := "Get Started"
  const EnLearnMore := "Learn More"
  const EnCodesMap := "Codes Mapped"
  const EnUsers := "Users"
  const EnAccuracy := "Accuracy"
  const EnKeyFeatures := "Key Features"
  const EnCodesMappingDesc := "Map NAMASTE codes to ICD-11 with confidence scores"
  const EnPatientManagement := "Patient Management"
  const EnPatientManagementDesc := "Store and manage patient records with diagnoses"
  const EnSecurity := "Security"
  const EnSecurityDesc := "Role-based access control and secure authentication"
  const EnFhirCompliance := "FHIR Compliance"
  const EnFhirComplianceDesc := "Export patient data in FHIR JSON format"
  const EnAnalytics := "Analytics"
  const EnAnalyticsDesc := "Track mapping coverage and patient health trends"
  const EnAdminDashboard := "Admin Dashboard"
  const EnAdminDashboardDesc := "Manage codes, mappings, and user access"
  const EnHowItWorks := "How It Works"
  const EnMap := "Map"
  const EnExport := "Export"
  const EnCreateAccountOverridden := "Create your account"
  const EnFindCodesDesc := "Find NAMASTE codes"
  const EnMatchToICD11 := "Match to ICD-11 codes"
  const EnDownloadFHIR := "Download FHIR JSON"
  const EnReadyToGetStarted := "Ready to Get Started?"
  const EnJoinHealthcareProviders := "Join hundreds of healthcare providers using Care Sync"
  const EnSignUpNow := "Sign Up Now"
  const EnCreateAccount := "Create Account"
  const EnWelcomeBack := "Welcome Back"
  const EnJoinCareSyncManage := "Join Care Sync to manage patient records"
  const EnSignInAccount := "Sign in to your Care Sync account"
  const EnDontHaveAccount := "Don't have an account?"
  const EnAlreadyHaveAccount := "Already have an account?"
  const EnDemoCredentials := "Demo credentials: demo@example.com / password123"
  const EnPatientRecords := "Patient Records"
  const EnCreatePatient := "Create Patient"
  const EnPatientList := "Patient List"
  const EnBirthDate := "Birth Date"
  const EnGender := "Gender"
  const EnMale := "Male"
  const EnFemale := "Female"
  const EnOther := "Other"
  const EnDiagnoses := "Diagnoses"
  const EnHealthUpdates := "Health Updates"
  const EnExportFHIR := "Export FHIR"
  const EnAdminPanel := "Admin Panel"
  const EnCodesList := "Codes List"
  const EnMappingsList := "Mappings List"
  const EnCoverage := "Coverage"
  const EnUsersList := "Users List"
  const EnManageUsers := "Manage Users"
  const EnAddNewCode := "Add New Code"
  const EnUploadCodes := "Upload Codes"
  const EnCreateNewPatient := "Create New Patient"
  const EnViewDetails := "View Details"
  const EnAddDiagnosis := "Add Diagnosis"
  const EnRemoveDiagnosis := "Remove Diagnosis"
  const EnUpdateProfile := "Update Profile"
  const EnChangePassword := "Change Password"
  const EnAccountSettings := "Account Settings"

  /** English, section "Common". */
  const EnglishCommon: Table := [
    (Dashboard, EnDashboard),
    (CodeMapping, EnCodeMapping),
    (Patients, EnPatients),
    (Admin, EnAdmin),
    (Profile, EnProfile),
    (Logout, EnLogoutOverridden),
    (Login, EnLogin),
    (Signup, EnSignup),
    (SignIn, EnSignIn),
    (Email, EnEmail),
    (Password, EnPassword),
    (FirstName, EnFirstName),
    (LastName, EnLastName),
    (Save, EnSave),
    (Cancel, EnCancel),
    (Edit, EnEdit),
    (Delete, EnDelete),
    (Search, EnSearch),
    (Loading, EnLoading),
    (Error, EnError),
    (Success, EnSuccess),
    (Settings, EnSettings),
    (Language, EnLanguage),
    (Theme, EnTheme),
    (Light, EnLight),
    (Dark, EnDark),
    (System, EnSystem),
    (Logout, EnLogout)
  ]

  /** English, section "Landing Page". */
  const EnglishLanding: Table := [
    (BridgeTraditionalModern, EnBridgeTraditionalModern),
    (MapNAMASTEtoICD11, EnMapNAMASTEtoICD11),
    (GetStarted, EnGetStarted),
    (LearnMore, EnLearnMore),
    (CodesMap, EnCodesMap),
    (Users, EnUsers),
    (Accuracy, EnAccuracy),
    (KeyFeatures, EnKeyFeatures),
    (CodeMapping, EnCodeMapping),
    (CodesMappingDesc, EnCodesMappingDesc),
    (PatientManagement, EnPatientManagement),
    (PatientManagementDesc, EnPatientManagementDesc),
    (Security, EnSecurity),
    (SecurityDesc, EnSecurityDesc),
    (FhirCompliance, EnFhirCompliance),
    (FhirComplianceDesc, EnFhirComplianceDesc),
    (Analytics, EnAnalytics),
    (AnalyticsDesc, EnAnalyticsDesc),
    (AdminDashboard, EnAdminDashboard),
    (AdminDashboardDesc, EnAdminDashboardDesc),
    (HowItWorks, EnHowItWorks),
    (Signup, EnSignup),
    (Search, EnSearch),
    (Map, EnMap),
    (Export, EnExport),
    (CreateAccount, EnCreateAccountOverridden),
    (FindCodesDesc, EnFindCodesDesc),
    (MatchToICD11, EnMatchToICD11),
    (DownloadFHIR, EnDownloadFHIR),
    (ReadyToGetStarted, EnReadyToGetStarted),
    (JoinHealthcareProviders, EnJoinHealthcareProviders),
    (SignUpNow, EnSignUpNow)
  ]

  /** English, section "Auth". */
  const EnglishAuth: Table := [
    (CreateAccount, EnCreateAccount),
    (WelcomeBack, EnWelcomeBack),
    (JoinCareSyncManage, EnJoinCareSyncManage),
    (SignInAccount, EnSignInAccount),
    (DontHaveAccount, EnDontHaveAccount),
    (AlreadyHaveAccount, EnAlreadyHaveAccount),
    (DemoCredentials, EnDemoCredentials)
  ]

  /** English, section "Patients". */
  const EnglishPatients: Table := [
    (PatientRecords, EnPatientRecords),
    (CreatePatient, EnCreatePatient),
    (PatientList, EnPatientList),
    (BirthDate, EnBirthDate),
    (Gender, EnGender),
    (Male, EnMale),
    (Female, EnFemale),
    (Other, EnOther),
    (Diagnoses, EnDiagnoses),
    (HealthUpdates, EnHealthUpdates),
    (ExportFHIR, EnExportFHIR)
  ]

  /** English, section "Admin". */
  const EnglishAdmin: Table := [
    (AdminPanel, EnAdminPanel),
    (CodesList, EnCodesList),
    (MappingsList, EnMappingsList),
    (Coverage, EnCoverage),
    (UsersList, EnUsersList),
    (ManageUsers, EnManageUsers),
    (AddNewCode, EnAddNewCode),
    (UploadCodes, EnUploadCodes)
  ]

  /** English, section "UI". */
  const EnglishUi: Table := [
    (CreateNewPatient, EnCreateNewPatient),
    (ViewDetails, EnViewDetails),
    (AddDiagnosis, EnAddDiagnosis),
    (RemoveDiagnosis, EnRemoveDiagnosis),
    (UpdateProfile, EnUpdateProfile),
    (ChangePassword, EnChangePassword),
    (AccountSettings, EnAccountSettings)
  ]

  /** The English table: its sections in the order written. */
  const English: Table := EnglishCommon + EnglishLanding + EnglishAuth + EnglishPatients + EnglishAdmin + EnglishUi

  /** The texts of the Spanish table. */
  const EsDashboard := "Panel de Control"
  const EsCodeMapping := "Mapeo de Códigos"
  const EsPatients := "Pacientes"
  const EsAdmin := "Administrador"
  const EsProfile := "Perfil"
  const EsLogout := "Cerrar Sesión"
  const EsEmail := "Correo Electrónico"
  const EsPassword := "Contraseña"
  const EsFirstName := "Nombre"
  const EsLastName := "Apellido"
  const EsSave := "Guardar"
  const EsCancel := "Cancelar"
  const EsEdit := "Editar"
  const EsDelete := "Eliminar"
  const EsSearch := "Búsqueda"
  const EsLoading := "Cargando..."
  const EsError := "Error"
  const EsSuccess := "Éxito"
  const EsSettings := "Configuración"
  const EsLanguage := "Idioma"
  const EsTheme := "Tema"
  const EsLight := "Claro"
  const EsDark := "Oscuro"
  const EsSystem := "Sistema"
  const EsBridgeTraditionalModern := "Conectar Medicina Tradicional y Moderna"
  const EsMapNAMASTEtoICD11 := "Asigne códigos de diagnóstico NAMASTE (Ayurveda, Siddha, Unani) a ICD-11 con nuestra plataforma segura y compatible con FHIR."

  /** The Spanish table. */
  const Spanish: Table := [
    (Dashboard, EsDashboard),
    (CodeMapping, EsCodeMapping),
    (Patients, EsPatients),
    (Admin, EsAdmin),
    (Profile, EsProfile),
    (Logout, EsLogout),
    (Email, EsEmail),
    (Password, EsPassword),
    (FirstName, EsFirstName),
    (LastName, EsLastName),
    (Save, EsSave),
    (Cancel, EsCancel),
    (Edit, EsEdit),
    (Delete, EsDelete),
    (Search, EsSearch),
    (Loading, EsLoading),
    (Error, EsError),
    (Success, EsSuccess),
    (Settings, EsSettings),
    (Language, EsLanguage),
    (Theme, EsTheme),
    (Light, EsLight),
    (Dark, EsDark),
    (System, EsSystem),
    (BridgeTraditionalModern, EsBridgeTraditionalModern),
    (MapNAMASTEtoICD11, EsMapNAMASTEtoICD11)
  ]

  /** The texts of the French table. */
  const FrDashboard := "Tableau de Bord"
  const FrCodeMapping := "Mappage des Codes"
  const FrPatients := "Patients"
  const FrAdmin := "Administrateur"
  const FrProfile := "Profil"
  const FrLogout := "Déconnexion"
  const FrEmail := "E-mail"
  const FrPassword := "Mot de passe"
  const FrFirstName := "Prénom"
  const FrLastName := "Nom"
  const FrSave := "Enregistrer"
  const FrCancel := "Annuler"
  const FrEdit := "Modifier"
  const FrDelete := "Supprimer"
  const FrSearch := "Recherche"
  const FrLoading := "Chargement..."
  const FrError := "Erreur"
  const FrSuccess := "Succès"
  const FrSettings := "Paramètres"
  const FrLanguage := "Langue"
  const FrTheme := "Thème"
  const FrLight := "Clair"
  const FrDark := "Sombre"
  const FrSystem := "Système"

  /** The French table. */
  const French: Table := [
    (Dashboard, FrDashboard),
    (CodeMapping, FrCodeMapping),
    (Patients, FrPatients),
    (Admin, FrAdmin),
    (Profile, FrProfile),
    (Logout, FrLogout),
    (Email, FrEmail),
    (Password, FrPassword),
    (FirstName, FrFirstName),
    (LastName, FrLastName),
    (Save, FrSave),
    (Cancel, FrCancel),
    (Edit, FrEdit),
    (Delete, FrDelete),
    (Search, FrSearch),
    (Loading, FrLoading),
    (Error, FrError),
    (Success, FrSuccess),
    (Settings, FrSettings),
    (Language, FrLanguage),
    (Theme, FrTheme),
    (Light, FrLight),
    (Dark, FrDark),
    (System, FrSystem)
  ]

  /** The texts of the Hindi table. */
  const HiDashboard := "डैशबोर्ड"
  const HiCodeMapping := "कोड मैपिंग"
  const HiPatients := "रोगी"
  const HiAdmin := "व्यवस्थापक"
  const HiProfile := "प्रोफ़ाइल"
  const HiLogout := "लॉग आउट"
  const HiEmail := "ईमेल"
  const HiPassword := "पासवर्ड"
  const HiFirstName := "पहला नाम"
  const HiLastName := "अंतिम नाम"
  const HiSave := "सहेजें"
  const HiCancel := "रद्द करें"
  const HiEdit := "संपादित करें"
  const HiDelete := "हटाएं"
  const HiSearch := "खोज"
  const HiLoading := "लोड हो रहा है..."
  const HiError := "त्रुटि"
  const HiSuccess := "सफलता"
  const HiSettings := "सेटिंग"
  const HiLanguage := "भाषा"
  const HiTheme := "विषय"
  const HiLight := "हल्का"
  const HiDark := "गहरा"
  const HiSystem := "सिस्टम"

  /** The Hindi table. */
  const Hindi: Table := [
    (Dashboard, HiDashboard),
    (CodeMapping, HiCodeMapping),
    (Patients, HiPatients),
    (Admin, HiAdmin),
    (Profile, HiProfile),
    (Logout, HiLogout),
    (Email, HiEmail),
    (Password, HiPassword),
    (FirstName, HiFirstName),
    (LastName, HiLastName),
    (Save, HiSave),
    (Cancel, HiCancel),
    (Edit, HiEdit),
    (Delete, HiDelete),
    (Search, HiSearch),
    (Loading, HiLoading),
    (Error, HiError),
    (Success, HiSuccess),
    (Settings, HiSettings),
    (Language, HiLanguage),
    (Theme, HiTheme),
    (Light, HiLight),
    (Dark, HiDark),
    (System, HiSystem)
  ]
}
