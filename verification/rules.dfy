/**
 * The built-in safety rules of `config.py`: an ordered table from glob
 * pattern to a verdict (a safety level and a human-readable reason).
 * Order matters, because classification takes the first matching rule.
 *
 * Each entry is named by a `RuleId`; its pattern, level and reason are
 * given by the functions `Pattern`, `LevelOf` and `ReasonOf`.
 */
module Rules {
  import PosixPath

  /** The safety levels the application distinguishes. */
  datatype Level = Green | Orange | Red | Grey

  /** The level as it is spelled in the verdict dictionaries. */
  function LevelName(l: Level): string
  {
    match l
    case Green => "green"
    case Orange => "orange"
    case Red => "red"
    case Grey => "grey"
  }

  /** A classification result: `{"safety": ..., "reason": ...}`. */
  datatype Verdict = Verdict(level: Level, reason: string)

  /** The entries of `PREDEFINED_RULES`, named after what their patterns cover. */
  datatype RuleId =
    | UserCaches | SafariCache | ChromeCache | FirefoxCache | SystemCaches
    | TemporaryFolders | Tmp | AppSupportTemp | Downloads | Desktop
    | Trash | PrivateVarLog | UserLogs | SafariDownloadsList | SafariHistory
    | MobileBackups | Documents | Pictures | Movies | Music
    | UserLibrary | Preferences | ApplicationSupport | Keychains | Mail
    | Calendars | Contacts | UsrLocal | Opt | VarDb
    | VarLog | VarTmp | SystemRoot | RootLibrary | Bin
    | Sbin | UsrBin | UsrSbin | UsrLib | UsrLibexec
    | UsrShare | Boot | Etc | Dev | Proc
    | Applications | Utilities | VarRoot | VarVm | VarRun
    | VarSpool | LoginKeychain | LoginWindowPrefs | TmpFiles | CacheFiles
    | LogFiles | DsStore | ThumbsDb | DocFiles | DocxFiles
    | PdfFiles | TxtFiles | RtfFiles | JpgFiles | JpegFiles
    | PngFiles | GifFiles | Mp4Files | MovFiles | Mp3Files
    | WavFiles | DylibFiles | Frameworks | KernelExtensions | AppBundles
    | BundleExecutables

  /**
   * `PREDEFINED_RULES` in declaration order, written as the six sections of
   * the dictionary one after the other.
   */
  const PredefinedRules: seq<RuleId> :=
    SafeLocations + CautionLocations + ProtectedLocations
    + SafeFileTypes + CautionFileTypes + ProtectedFileTypes

  /** Locations that are generally safe to clear (green). */
  const SafeLocations: seq<RuleId> := [
    UserCaches, SafariCache, ChromeCache, FirefoxCache, SystemCaches,
    TemporaryFolders, Tmp, AppSupportTemp, Downloads, Desktop,
    Trash, PrivateVarLog, UserLogs, SafariDownloadsList, SafariHistory
  ]

  /** Locations that hold user data or settings (orange). */
  const CautionLocations: seq<RuleId> := [
    MobileBackups, Documents, Pictures, Movies, Music,
    UserLibrary, Preferences, ApplicationSupport, Keychains, Mail,
    Calendars, Contacts, UsrLocal, Opt, VarDb,
    VarLog, VarTmp
  ]

  /** System locations and critical user files (red). */
  const ProtectedLocations: seq<RuleId> := [
    SystemRoot, RootLibrary, Bin, Sbin, UsrBin,
    UsrSbin, UsrLib, UsrLibexec, UsrShare, Boot,
    Etc, Dev, Proc, Applications, Utilities,
    VarRoot, VarVm, VarRun, VarSpool, LoginKeychain,
    LoginWindowPrefs
  ]

  /** Names of disposable files (green). */
  const SafeFileTypes: seq<RuleId> := [
    TmpFiles, CacheFiles, LogFiles, DsStore, ThumbsDb
  ]

  /** Document and media file types (orange). */
  const CautionFileTypes: seq<RuleId> := [
    DocFiles, DocxFiles, PdfFiles, TxtFiles, RtfFiles,
    JpgFiles, JpegFiles, PngFiles, GifFiles, Mp4Files,
    MovFiles, Mp3Files, WavFiles
  ]

  /** Libraries, bundles and executables (red). */
  const ProtectedFileTypes: seq<RuleId> := [
    DylibFiles, Frameworks, KernelExtensions, AppBundles, BundleExecutables
  ]

  /** Where a pattern is anchored: `~/`, `/`, or nowhere (a relative pattern). */
  datatype Anchor = AtHome | AtRoot | Anywhere

  /** A pattern as its anchor and its `/`-separated segments. */
  datatype Shape = Shape(anchor: Anchor, segments: seq<string>)

  /** The pattern text a shape spells: the anchor, then the segments joined by `/`. */
  function Text(s: Shape): string
  {
    match s.anchor
    case AtHome => "~/" + PosixPath.Join(s.segments)
    case AtRoot => "/" + PosixPath.Join(s.segments)
    case Anywhere => PosixPath.Join(s.segments)
  }

  /**
   * The pattern of each rule, segment by segment: the table's
   * `~/Library/Caches/` followed by a star is `Shape(AtHome, ["Library", "Caches", "*"])`.
   */
  function ShapeOf(id: RuleId): Shape
  {
    match id
    case UserCaches => Shape(AtHome, ["Library", "Caches", "*"])
    case SafariCache => Shape(AtHome, ["Library", "Caches", "com.apple.Safari", "*"])
    case ChromeCache => Shape(AtHome, ["Library", "Caches", "com.google.Chrome", "*"])
    case FirefoxCache => Shape(AtHome, ["Library", "Caches", "com.mozilla.firefox", "*"])
    case SystemCaches => Shape(AtRoot, ["System", "Library", "Caches", "*"])
    case TemporaryFolders => Shape(AtRoot, ["private", "var", "folders", "*", "C", "*"])
    case Tmp => Shape(AtRoot, ["tmp", "*"])
    case AppSupportTemp => Shape(AtHome, ["Library", "Application Support", "*", "Temp", "*"])
    case Downloads => Shape(AtHome, ["Downloads", "*"])
    case Desktop => Shape(AtHome, ["Desktop", "*"])
    case Trash => Shape(AtHome, [".Trash", "*"])
    case PrivateVarLog => Shape(AtRoot, ["private", "var", "log", "*"])
    case UserLogs => Shape(AtHome, ["Library", "Logs", "*"])
    case SafariDownloadsList => Shape(AtHome, ["Library", "Safari", "Downloads.plist"])
    case SafariHistory => Shape(AtHome, ["Library", "Safari", "History.db*"])
    case MobileBackups => Shape(AtHome, ["Library", "Application Support", "MobileSync", "Backup", "*"])
    case Documents => Shape(AtHome, ["Documents", "*"])
    case Pictures => Shape(AtHome, ["Pictures", "*"])
    case Movies => Shape(AtHome, ["Movies", "*"])
    case Music => Shape(AtHome, ["Music", "*"])
    case UserLibrary => Shape(AtHome, ["Library", "*"])
    case Preferences => Shape(AtHome, ["Library", "Preferences", "*"])
    case ApplicationSupport => Shape(AtHome, ["Library", "Application Support", "*"])
    case Keychains => Shape(AtHome, ["Library", "Keychains", "*"])
    case Mail => Shape(AtHome, ["Library", "Mail", "*"])
    case Calendars => Shape(AtHome, ["Library", "Calendars", "*"])
    case Contacts => Shape(AtHome, ["Library", "Contacts", "*"])
    case UsrLocal => Shape(AtRoot, ["usr", "local", "*"])
    case Opt => Shape(AtRoot, ["opt", "*"])
    case VarDb => Shape(AtRoot, ["var", "db", "*"])
    case VarLog => Shape(AtRoot, ["var", "log", "*"])
    case VarTmp => Shape(AtRoot, ["var", "tmp", "*"])
    case SystemRoot => Shape(AtRoot, ["System", "*"])
    case RootLibrary => Shape(AtRoot, ["Library", "*"])
    case Bin => Shape(AtRoot, ["bin", "*"])
    case Sbin => Shape(AtRoot, ["sbin", "*"])
    case UsrBin => Shape(AtRoot, ["usr", "bin", "*"])
    case UsrSbin => Shape(AtRoot, ["usr", "sbin", "*"])
    case UsrLib => Shape(AtRoot, ["usr", "lib", "*"])
    case UsrLibexec => Shape(AtRoot, ["usr", "libexec", "*"])
    case UsrShare => Shape(AtRoot, ["usr", "share", "*"])
    case Boot => Shape(AtRoot, ["boot", "*"])
    case Etc => Shape(AtRoot, ["etc", "*"])
    case Dev => Shape(AtRoot, ["dev", "*"])
    case Proc => Shape(AtRoot, ["proc", "*"])
    case Applications => Shape(AtRoot, ["Applications", "*"])
    case Utilities => Shape(AtRoot, ["Applications", "Utilities", "*"])
    case VarRoot => Shape(AtRoot, ["var", "root", "*"])
    case VarVm => Shape(AtRoot, ["var", "vm", "*"])
    case VarRun => Shape(AtRoot, ["var", "run", "*"])
    case VarSpool => Shape(AtRoot, ["var", "spool", "*"])
    case LoginKeychain => Shape(AtHome, ["Library", "Keychains", "login.keychain*"])
    case LoginWindowPrefs => Shape(AtHome, ["Library", "Preferences", "com.apple.loginwindow.plist"])
    case TmpFiles => Shape(Anywhere, ["*.tmp"])
    case CacheFiles => Shape(Anywhere, ["*.cache"])
    case LogFiles => Shape(Anywhere, ["*.log"])
    case DsStore => Shape(Anywhere, ["*", ".DS_Store"])
    case ThumbsDb => Shape(Anywhere, ["*", "Thumbs.db"])
    case DocFiles => Shape(Anywhere, ["*.doc"])
    case DocxFiles => Shape(Anywhere, ["*.docx"])
    case PdfFiles => Shape(Anywhere, ["*.pdf"])
    case TxtFiles => Shape(Anywhere, ["*.txt"])
    case RtfFiles => Shape(Anywhere, ["*.rtf"])
    case JpgFiles => Shape(Anywhere, ["*.jpg"])
    case JpegFiles => Shape(Anywhere, ["*.jpeg"])
    case PngFiles => Shape(Anywhere, ["*.png"])
    case GifFiles => Shape(Anywhere, ["*.gif"])
    case Mp4Files => Shape(Anywhere, ["*.mp4"])
    case MovFiles => Shape(Anywhere, ["*.mov"])
    case Mp3Files => Shape(Anywhere, ["*.mp3"])
    case WavFiles => Shape(Anywhere, ["*.wav"])
    case DylibFiles => Shape(Anywhere, ["*.dylib"])
    case Frameworks => Shape(Anywhere, ["*.framework", "*"])
    case KernelExtensions => Shape(Anywhere, ["*.kext", "*"])
    case AppBundles => Shape(Anywhere, ["*.app", "*"])
    case BundleExecutables => Shape(Anywhere, ["*", "Contents", "MacOS", "*"])
  }

  /** The glob pattern of a rule, as written in the table. */
  function Pattern(id: RuleId): string
  {
    Text(ShapeOf(id))
  }

  /** The safety level a rule assigns. */
  function LevelOf(id: RuleId): Level
  {
    match id
    case UserCaches | SafariCache | ChromeCache | FirefoxCache
      | SystemCaches | TemporaryFolders | Tmp | AppSupportTemp
      | Downloads | Desktop | Trash | PrivateVarLog
      | UserLogs | SafariDownloadsList | SafariHistory | TmpFiles
      | CacheFiles | LogFiles | DsStore | ThumbsDb
      => Green
    case MobileBackups | Documents | Pictures | Movies
      | Music | UserLibrary | Preferences | ApplicationSupport
      | Keychains | Mail | Calendars | Contacts
      | UsrLocal | Opt | VarDb | VarLog
      | VarTmp | DocFiles | DocxFiles | PdfFiles
      | TxtFiles | RtfFiles | JpgFiles | JpegFiles
      | PngFiles | GifFiles | Mp4Files | MovFiles
      | Mp3Files | WavFiles
      => Orange
    case SystemRoot | RootLibrary | Bin | Sbin
      | UsrBin | UsrSbin | UsrLib | UsrLibexec
      | UsrShare | Boot | Etc | Dev
      | Proc | Applications | Utilities | VarRoot
      | VarVm | VarRun | VarSpool | LoginKeychain
      | LoginWindowPrefs | DylibFiles | Frameworks | KernelExtensions
      | AppBundles | BundleExecutables
      => Red
  }

  /** The explanation shown with a rule's verdict. */
  function ReasonOf(id: RuleId): string
  {
    match id
    case UserCaches => "Application cache files. Generally safe to delete."
    case SafariCache => "Safari browser cache. Safe to delete, will be regenerated."
    case ChromeCache => "Chrome browser cache. Safe to delete, will be regenerated."
    case FirefoxCache => "Firefox browser cache. Safe to delete, will be regenerated."
    case SystemCaches => "System cache files. Safe to delete, macOS will regenerate as needed."
    case TemporaryFolders => "Temporary cache files. Safe to delete."
    case Tmp => "Temporary files. Safe to delete."
    case AppSupportTemp => "Application temporary files. Safe to delete."
    case Downloads => "User-downloaded files. User should verify before deleting."
    case Desktop => "User desktop files. User should verify before deleting."
    case Trash => "Items in trash. Safe to delete permanently."
    case PrivateVarLog => "System log files. Generally safe to delete but useful for troubleshooting."
    case UserLogs => "User application logs. Generally safe to delete."
    case SafariDownloadsList => "Safari downloads list. Safe to delete."
    case SafariHistory => "Safari browsing history. Safe to delete if you don't need history."
    case MobileBackups => "iOS device backups. Safe to delete if you have recent cloud backups, but deletion is permanent."
    case Documents => "User documents. Important files - be careful when deleting."
    case Pictures => "User photos and images. Important files - be careful when deleting."
    case Movies => "User videos. Important files - be careful when deleting."
    case Music => "User music files. Important files - be careful when deleting."
    case UserLibrary => "Contains important user settings and data. Be very careful."
    case Preferences => "Application preferences. Deleting may reset app settings."
    case ApplicationSupport => "Application support files and user data. May contain important information."
    case Keychains => "Keychain files containing passwords and certificates. Be very careful."
    case Mail => "Mail data and settings. Deleting will remove email data."
    case Calendars => "Calendar data. Deleting will remove calendar events."
    case Contacts => "Contact data. Deleting will remove address book entries."
    case UsrLocal => "User-installed software and libraries. May be safe to delete specific items."
    case Opt => "Third-party software installations. Check before deleting."
    case VarDb => "System databases. Some files may be safe to delete, others are critical."
    case VarLog => "System log files. Generally safe but useful for troubleshooting."
    case VarTmp => "Temporary files that persist across reboots. Usually safe but check contents."
    case SystemRoot => "Critical macOS system files. Do not delete."
    case RootLibrary => "System library files. Critical for macOS operation."
    case Bin => "Essential system binaries. Do not delete."
    case Sbin => "System administration binaries. Do not delete."
    case UsrBin => "User system binaries. Do not delete."
    case UsrSbin => "User system administration binaries. Do not delete."
    case UsrLib => "System libraries. Do not delete."
    case UsrLibexec => "System executables. Do not delete."
    case UsrShare => "System shared files. Do not delete."
    case Boot => "Boot files. Do not delete."
    case Etc => "System configuration files. Do not delete."
    case Dev => "Device files. Do not delete."
    case Proc => "Process information. Do not delete."
    case Applications => "Installed applications. Do not delete this folder directly."
    case Utilities => "System utility applications. Do not delete."
    case VarRoot => "Root user directory. Do not delete."
    case VarVm => "Virtual memory files. Do not delete."
    case VarRun => "Runtime system files. Do not delete."
    case VarSpool => "System spool files. Do not delete."
    case LoginKeychain => "Main user keychain. Contains all saved passwords. Do not delete."
    case LoginWindowPrefs => "Login window preferences. Critical for user login."
    case TmpFiles => "Temporary file. Generally safe to delete."
    case CacheFiles => "Cache file. Safe to delete, will be regenerated if needed."
    case LogFiles => "Log file. Generally safe to delete but useful for troubleshooting."
    case DsStore => "macOS folder view settings. Safe to delete, will be regenerated."
    case ThumbsDb => "Windows thumbnail cache. Safe to delete on macOS."
    case DocFiles => "Document file. User should verify before deleting."
    case DocxFiles => "Document file. User should verify before deleting."
    case PdfFiles => "PDF document. User should verify before deleting."
    case TxtFiles => "Text file. User should verify before deleting."
    case RtfFiles => "Rich text file. User should verify before deleting."
    case JpgFiles => "Image file. User should verify before deleting."
    case JpegFiles => "Image file. User should verify before deleting."
    case PngFiles => "Image file. User should verify before deleting."
    case GifFiles => "Image file. User should verify before deleting."
    case Mp4Files => "Video file. User should verify before deleting."
    case MovFiles => "Video file. User should verify before deleting."
    case Mp3Files => "Audio file. User should verify before deleting."
    case WavFiles => "Audio file. User should verify before deleting."
    case DylibFiles => "Dynamic library. Critical for application operation. Do not delete."
    case Frameworks => "macOS framework. Critical for system/application operation. Do not delete."
    case KernelExtensions => "Kernel extension. Critical system component. Do not delete."
    case AppBundles => "Application bundle. Deleting will remove the entire application."
    case BundleExecutables => "Application executable. Critical for application operation."
  }

  /** The verdict a rule gives: `PREDEFINED_RULES[pattern]`. */
  function VerdictOf(id: RuleId): Verdict
  {
    Verdict(LevelOf(id), ReasonOf(id))
  }

  /** No rule of the table says "grey": every rule decides green, orange or red. */
  lemma RulesAreDecided(id: RuleId)
    ensures LevelOf(id) != Grey
  {
  }
}
