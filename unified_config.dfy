/** `UnifiedConfig`: the access levels of the web application and, per
    level, the features switched on, the look of the page and the navigation
    menu; plus the settings read from the environment when the class is
    defined. */
module UnifiedConfig {
  import opened Common
  import ConfigEnv

  // ---------------------------------------------------------------------------
  // Levels
  // ---------------------------------------------------------------------------

  /** `UserLevel`. */
  datatype UserLevel = Public | Beta | Developer | Admin

  function LevelValue(l: UserLevel): string
  {
    match l
    case Public => "public"
    case Beta => "beta"
    case Developer => "developer"
    case Admin => "admin"
  }

  /** The order PUBLIC < BETA < DEVELOPER < ADMIN. */
  function Rank(l: UserLevel): (r: nat)
    ensures r <= 3
    ensures r == 0 <==> l == Public
    ensures r == 3 <==> l == Admin
  {
    match l
    case Public => 0
    case Beta => 1
    case Developer => 2
    case Admin => 3
  }

  /** The session entries `get_user_level` looks at, by truthiness. */
  predicate Flag(session: map<string, bool>, k: string)
  {
    k in session && session[k]
  }

  /** `get_user_level(session_state)`. */
  function GetUserLevel(session: map<string, bool>): UserLevel
  {
    if Flag(session, "admin_authenticated") then Admin
    else if Flag(session, "developer_authenticated") then Developer
    else if Flag(session, "beta_authenticated") then Beta
    else Public
  }

  /** Admin wins over developer, developer over beta, beta over public: the
      level is the highest one whose flag is set. */
  lemma UserLevelPrecedence(session: map<string, bool>)
    ensures GetUserLevel(session) == Admin <==> Flag(session, "admin_authenticated")
    ensures GetUserLevel(session) == Developer <==>
      !Flag(session, "admin_authenticated") && Flag(session, "developer_authenticated")
    ensures GetUserLevel(session) == Beta <==>
      !Flag(session, "admin_authenticated") && !Flag(session, "developer_authenticated") && Flag(session, "beta_authenticated")
    ensures GetUserLevel(session) == Public <==>
      !Flag(session, "admin_authenticated") && !Flag(session, "developer_authenticated") && !Flag(session, "beta_authenticated")
  {
  }

  // ---------------------------------------------------------------------------
  // Features
  // ---------------------------------------------------------------------------

  datatype Feature =
    | CharacterDisplay | BasicUi | ImageUpload
    | AiChat | EmotionLearning | AdvancedImageAnalysis
    | ObsIntegration | StreamingFeatures | ApiAccess | DebugInfo
    | UserManagement | SystemSettings | Analytics | LogViewer

  /** The features in the order `get_available_features` lists them. */
  const AllFeatures: seq<Feature> := [
    CharacterDisplay, BasicUi, ImageUpload,
    AiChat, EmotionLearning, AdvancedImageAnalysis,
    ObsIntegration, StreamingFeatures, ApiAccess, DebugInfo,
    UserManagement, SystemSettings, Analytics, LogViewer]

  function FeatureKey(f: Feature): string
  {
    match f
    case CharacterDisplay => "character_display"
    case BasicUi => "basic_ui"
    case ImageUpload => "image_upload"
    case AiChat => "ai_chat"
    case EmotionLearning => "emotion_learning"
    case AdvancedImageAnalysis => "advanced_image_analysis"
    case ObsIntegration => "obs_integration"
    case StreamingFeatures => "streaming_features"
    case ApiAccess => "api_access"
    case DebugInfo => "debug_info"
    case UserManagement => "user_management"
    case SystemSettings => "system_settings"
    case Analytics => "analytics"
    case LogViewer => "log_viewer"
  }

  const BetaAndUp: seq<string> := ["beta", "developer", "admin"]
  const DeveloperAndUp: seq<string> := ["developer", "admin"]

  /** One entry of `get_available_features(user_level)`. */
  function FeatureEnabled(l: UserLevel, f: Feature): bool
  {
    match f
    case CharacterDisplay | BasicUi | ImageUpload => true
    case AiChat | EmotionLearning | AdvancedImageAnalysis => LevelValue(l) in BetaAndUp
    case ObsIntegration | StreamingFeatures | ApiAccess | DebugInfo => LevelValue(l) in DeveloperAndUp
    case UserManagement | SystemSettings | Analytics | LogViewer => LevelValue(l) == "admin"
  }

  /** The feature dictionary, in its key order. */
  function AvailableFeatures(l: UserLevel): (d: seq<(string, bool)>)
    ensures |d| == |AllFeatures|
    ensures forall i :: 0 <= i < |d| ==> d[i] == (FeatureKey(AllFeatures[i]), FeatureEnabled(l, AllFeatures[i]))
  {
    Map(AllFeatures, f => (FeatureKey(f), FeatureEnabled(l, f)))
  }

  /** Every level gets the same keys in the same order, and the three basic
      features are on for everyone. */
  lemma SameFeatureKeys(a: UserLevel, b: UserLevel)
    ensures forall i :: 0 <= i < |AllFeatures| ==> AvailableFeatures(a)[i].0 == AvailableFeatures(b)[i].0
    ensures AvailableFeatures(a)[0].1 && AvailableFeatures(a)[1].1 && AvailableFeatures(a)[2].1
    ensures AvailableFeatures(a)[..3] == [("character_display", true), ("basic_ui", true), ("image_upload", true)]
  {
  }

  /** A feature a level has is had by every higher level; the beta features
      need beta, the developer features developer, the admin features admin. */
  lemma FeaturesMonotone(a: UserLevel, b: UserLevel, f: Feature)
    requires Rank(a) <= Rank(b)
    ensures FeatureEnabled(a, f) ==> FeatureEnabled(b, f)
    ensures f in {AiChat, EmotionLearning, AdvancedImageAnalysis} ==> (FeatureEnabled(a, f) <==> Rank(a) >= 1)
    ensures f in {ObsIntegration, StreamingFeatures, ApiAccess, DebugInfo} ==> (FeatureEnabled(a, f) <==> Rank(a) >= 2)
    ensures f in {UserManagement, SystemSettings, Analytics, LogViewer} ==> (FeatureEnabled(a, f) <==> a == Admin)
  {
    assert LevelValue(a) in BetaAndUp <==> Rank(a) >= 1 by {
      assert "public" !in BetaAndUp;
    }
    assert LevelValue(b) in BetaAndUp <==> Rank(b) >= 1 by {
      assert "public" !in BetaAndUp;
    }
    assert LevelValue(a) in DeveloperAndUp <==> Rank(a) >= 2 by {
      assert "public" !in DeveloperAndUp && "beta" !in DeveloperAndUp;
    }
    assert LevelValue(b) in DeveloperAndUp <==> Rank(b) >= 2 by {
      assert "public" !in DeveloperAndUp && "beta" !in DeveloperAndUp;
    }
  }

  // ---------------------------------------------------------------------------
  // Page look
  // ---------------------------------------------------------------------------

  datatype UiConfig = UiConfig(
    theme: string,
    sidebarExpanded: bool,
    showAdvancedOptions: bool,
    showTechnicalDetails: bool,
    headerColor: string,
    titleSuffix: string)

  /** `get_ui_config(user_level)`: every level has an entry. */
  function GetUiConfig(l: UserLevel): UiConfig
  {
    match l
    case Public => UiConfig("light", false, false, false, "#667eea", "")
    case Beta => UiConfig("light", true, true, false, "#ff6b6b", " - ベータ版")
    case Developer => UiConfig("dark", true, true, true, "#4ecdc4", " - 開発者版")
    case Admin => UiConfig("dark", true, true, true, "#f39c12", " - 管理者版")
  }

  /** Only developers and admins see technical details (and the dark theme);
      only the public page has a collapsed sidebar and no advanced options;
      every level has its own header colour. */
  lemma UiConfigByLevel(a: UserLevel, b: UserLevel)
    ensures GetUiConfig(a).showTechnicalDetails <==> Rank(a) >= 2
    ensures GetUiConfig(a).theme == (if Rank(a) >= 2 then "dark" else "light")
    ensures GetUiConfig(a).sidebarExpanded == GetUiConfig(a).showAdvancedOptions == (a != Public)
    ensures a != b ==> GetUiConfig(a).headerColor != GetUiConfig(b).headerColor
  {
  }

  // ---------------------------------------------------------------------------
  // Navigation
  // ---------------------------------------------------------------------------

  datatype MenuItem = MenuItem(icon: string, title: string, page: string)

  const BaseMenu: seq<MenuItem> := [
    MenuItem("🏠", "ホーム", "home"),
    MenuItem("👤", "キャラクター", "character"),
    MenuItem("🎨", "画像分析", "image")]
  const BetaMenu: seq<MenuItem> := [
    MenuItem("💬", "AI会話", "chat"),
    MenuItem("📊", "統計", "stats")]
  const DeveloperMenu: seq<MenuItem> := [
    MenuItem("🎥", "OBS連携", "obs"),
    MenuItem("📺", "配信管理", "streaming"),
    MenuItem("⚙️", "設定", "settings")]
  const AdminMenu: seq<MenuItem> := [
    MenuItem("👥", "ユーザー管理", "users"),
    MenuItem("📋", "ログ", "logs")]

  /** `get_navigation_menu(user_level)`: the base items, extended by the beta,
      developer and admin items the level qualifies for. */
  function NavigationMenu(l: UserLevel): seq<MenuItem>
  {
    var m1 := BaseMenu + (if LevelValue(l) in BetaAndUp then BetaMenu else []);
    var m2 := m1 + (if LevelValue(l) in DeveloperAndUp then DeveloperMenu else []);
    m2 + (if LevelValue(l) == "admin" then AdminMenu else [])
  }

  /** The menu of every level, written out. */
  lemma MenuOfLevel(l: UserLevel)
    ensures NavigationMenu(l) == match l
      case Public => BaseMenu
      case Beta => BaseMenu + BetaMenu
      case Developer => BaseMenu + BetaMenu + DeveloperMenu
      case Admin => BaseMenu + BetaMenu + DeveloperMenu + AdminMenu
  {
    assert "public" !in BetaAndUp && "public" !in DeveloperAndUp && "beta" !in DeveloperAndUp;
  }

  function MenuLength(l: UserLevel): nat
  {
    match l
    case Public => 3
    case Beta => 5
    case Developer => 8
    case Admin => 10
  }

  /** The menus have 3, 5, 8 and 10 items, and a lower level's menu is the
      start of every higher level's menu. */
  lemma MenusNest(a: UserLevel, b: UserLevel)
    requires Rank(a) <= Rank(b)
    ensures |NavigationMenu(a)| == MenuLength(a)
    ensures |NavigationMenu(a)| <= |NavigationMenu(b)|
    ensures NavigationMenu(b)[..|NavigationMenu(a)|] == NavigationMenu(a)
  {
    MenuOfLevel(a);
    MenuOfLevel(b);
    var full := BaseMenu + BetaMenu + DeveloperMenu + AdminMenu;
    assert NavigationMenu(b) == full[..MenuLength(b)];
    assert NavigationMenu(a) == full[..MenuLength(a)];
  }

  function Pages(menu: seq<MenuItem>): seq<string>
  {
    Map(menu, (item: MenuItem) => item.page)
  }

  /** No page appears twice in any menu. */
  lemma MenuPagesDistinct(l: UserLevel)
    ensures Distinct(Pages(NavigationMenu(l)))
  {
    var full := BaseMenu + BetaMenu + DeveloperMenu + AdminMenu;
    var n := MenuLength(l);
    FullMenuPagesDistinct();
    MenuOfLevel(l);
    assert NavigationMenu(l) == full[..n];
    var pages := Pages(full);
    var sub := Pages(full[..n]);
    forall i, j | 0 <= i < j < |sub| ensures sub[i] != sub[j] {
      assert sub[i] == pages[i] && sub[j] == pages[j];
    }
  }

  /** The ten pages of the administrator's menu differ: no two share both
      their first letter and their length. */
  lemma FullMenuPagesDistinct()
    ensures Distinct(Pages(BaseMenu + BetaMenu + DeveloperMenu + AdminMenu))
  {
    var pages := Pages(BaseMenu + BetaMenu + DeveloperMenu + AdminMenu);
    assert pages == ["home", "character", "image", "chat", "stats", "obs", "streaming", "settings", "users", "logs"];
    forall i, j | 0 <= i < j < |pages| ensures pages[i] != pages[j] {
      assert |pages[i]| != |pages[j]| || pages[i][0] != pages[j][0];
    }
  }

  // ---------------------------------------------------------------------------
  // Settings read from the environment
  // ---------------------------------------------------------------------------

  datatype Settings = Settings(
    debug: bool,
    environment: string,
    betaPassword: string,
    developerPassword: string,
    adminPassword: string,
    openaiApiKey: string,
    ollamaBaseUrl: string)

  /** `get_passwords`: the Streamlit secrets when they can be read (`None` when
      reading them raises), else the environment, with the built-in defaults. */
  function Passwords(env: map<string, string>, secrets: Option<map<string, string>>): (p: (string, string, string))
  {
    var src := if secrets.Some? then secrets.value else env;
    (ConfigEnv.GetEnv(src, "BETA_PASSWORD", "ruri_beta_2024"),
     ConfigEnv.GetEnv(src, "DEVELOPER_PASSWORD", "ruri_dev_2024"),
     ConfigEnv.GetEnv(src, "ADMIN_PASSWORD", "ruri_admin_2024"))
  }

  /** The class attributes, evaluated once from the environment. */
  function SettingsFrom(env: map<string, string>, secrets: Option<map<string, string>>): Settings
  {
    var p := Passwords(env, secrets);
    Settings(
      ConfigEnv.EnvFlag(env, "DEBUG", "False"),
      ConfigEnv.GetEnv(env, "ENVIRONMENT", "development"),
      p.0, p.1, p.2,
      ConfigEnv.GetEnv(env, "OPENAI_API_KEY", ""),
      ConfigEnv.GetEnv(env, "OLLAMA_BASE_URL", "http://localhost:11434"))
  }

  /** `is_production`. */
  predicate IsProduction(s: Settings)
  {
    s.environment == "production"
  }

  /** Production mode needs `ENVIRONMENT=production` to be set (it defaults to
      development); debugging is off unless `DEBUG` is set; a readable
      secrets store decides all three passwords, and a missing entry falls
      back to its default rather than to the environment. */
  lemma ProductionAndPasswords(env: map<string, string>, secrets: Option<map<string, string>>)
    ensures IsProduction(SettingsFrom(env, secrets)) <==> "ENVIRONMENT" in env && env["ENVIRONMENT"] == "production"
    ensures "ENVIRONMENT" !in env ==> SettingsFrom(env, secrets).environment == "development"
    ensures "DEBUG" !in env ==> !SettingsFrom(env, secrets).debug
    ensures secrets.Some? && "BETA_PASSWORD" !in secrets.value ==> SettingsFrom(env, secrets).betaPassword == "ruri_beta_2024"
    ensures secrets.None? && "ADMIN_PASSWORD" in env ==> SettingsFrom(env, secrets).adminPassword == env["ADMIN_PASSWORD"]
  {
  }
}
