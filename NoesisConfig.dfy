/**
 * The wrapper's configuration object (Config/NoesisConfig.cs): built with the game's
 * window, graphics device manager and XAML paths, then set up with input timings and
 * one resource provider, and validated before the UI starts.
 */
module Configuration {
  import opened Wrappers
  import SystemInputSettings
  import NoesisView

  datatype GraphicsProfile = Reach | HiDef

  /** The game's graphics device manager; its profile can be changed after the configuration is built. */
  class GraphicsDeviceManager {
    var graphicsProfile: GraphicsProfile

    constructor (graphicsProfile: GraphicsProfile)
      ensures this.graphicsProfile == graphicsProfile
    {
      this.graphicsProfile := graphicsProfile;
    }
  }

  /** The game window; only its identity matters here. */
  datatype GameWindow = GameWindow(id: nat)

  /** A callback that creates a provider manager; only its identity matters here. */
  datatype ProviderManagerFactory = ProviderManagerFactory(id: nat)

  /** The argument the constructor rejects first. */
  datatype ArgumentError = RootXamlFilePathMissing | GameWindowMissing | GraphicsMissing

  /** The reason `Validate` rejects a configuration. */
  datatype ValidationError = NoResourceProvider | InputNotSetUp | ProfileNotHiDef

  /** A path with every '/' turned into '\'. */
  function BackslashPath(path: string): (r: string)
    ensures |r| == |path|
    ensures forall i :: 0 <= i < |path| ==> r[i] == if path[i] == '/' then '\\' else path[i]
  {
    if path == [] then []
    else BackslashPath(path[..|path| - 1]) + [if path[|path| - 1] == '/' then '\\' else path[|path| - 1]]
  }

  /** A normalised path holds no '/', and normalising it again changes nothing. */
  lemma BackslashPathIsNormal(path: string)
    ensures '/' !in BackslashPath(path)
    ensures BackslashPath(BackslashPath(path)) == BackslashPath(path)
  {
    var r := BackslashPath(path);
    assert forall i :: 0 <= i < |r| ==> r[i] != '/';
  }

  /** The first argument the constructor rejects: an empty or missing root path, then a missing window, then missing graphics. */
  function ConstructorCheck(gameWindow: Option<GameWindow>, hasGraphics: bool, rootXamlFilePath: Option<string>): (r: Option<ArgumentError>)
    ensures r.None? <==> gameWindow.Some? && hasGraphics && rootXamlFilePath.Some? && rootXamlFilePath.value != ""
    ensures r == Some(RootXamlFilePathMissing) <==> rootXamlFilePath.None? || rootXamlFilePath.value == ""
    ensures r == Some(GameWindowMissing) <==> rootXamlFilePath.Some? && rootXamlFilePath.value != "" && gameWindow.None?
  {
    if rootXamlFilePath.None? || rootXamlFilePath.value == "" then Some(RootXamlFilePathMissing)
    else if gameWindow.None? then Some(GameWindowMissing)
    else if !hasGraphics then Some(GraphicsMissing)
    else Option.None
  }

  class NoesisConfig {
    var isInputSet: bool
    const gameWindow: GameWindow
    const graphics: GraphicsDeviceManager
    const rootXamlFilePath: string
    const themeXamlFilePath: Option<string>
    const checkIfElementIgnoresHitTest: Option<NoesisView.Element -> bool>
    const currentTotalGameTime: int
    var createNoesisProviderManagerDelegate: Option<ProviderManagerFactory>
    var inputKeyRepeatDelaySeconds: real
    var inputKeyRepeatIntervalSeconds: real
    var inputMouseDoubleClickIntervalSeconds: real
    var noesisFileSystemProviderRootFolderPath: Option<string>

    /** Stores the arguments, with both XAML paths normalised to backslashes; the root path is checked by `NewNoesisConfig`. */
    constructor (gameWindow: GameWindow, graphics: GraphicsDeviceManager, rootXamlFilePath: string,
                 themeXamlFilePath: Option<string>, currentTotalGameTime: int,
                 checkIfElementIgnoresHitTest: Option<NoesisView.Element -> bool>)
      ensures this.gameWindow == gameWindow && this.graphics == graphics
      ensures this.rootXamlFilePath == BackslashPath(rootXamlFilePath)
      ensures this.themeXamlFilePath == if themeXamlFilePath.Some? then Some(BackslashPath(themeXamlFilePath.value)) else Option.None
      ensures this.currentTotalGameTime == currentTotalGameTime && this.checkIfElementIgnoresHitTest == checkIfElementIgnoresHitTest
      ensures !isInputSet && createNoesisProviderManagerDelegate == Option.None && noesisFileSystemProviderRootFolderPath == Option.None
      ensures inputKeyRepeatDelaySeconds == 0.0 && inputKeyRepeatIntervalSeconds == 0.0 && inputMouseDoubleClickIntervalSeconds == 0.0
    {
      this.gameWindow := gameWindow;
      this.graphics := graphics;
      this.rootXamlFilePath := BackslashPath(rootXamlFilePath);
      this.themeXamlFilePath := if themeXamlFilePath.Some? then Some(BackslashPath(themeXamlFilePath.value)) else Option.None;
      this.currentTotalGameTime := currentTotalGameTime;
      this.checkIfElementIgnoresHitTest := checkIfElementIgnoresHitTest;
      isInputSet := false;
      createNoesisProviderManagerDelegate := Option.None;
      noesisFileSystemProviderRootFolderPath := Option.None;
      inputKeyRepeatDelaySeconds := 0.0;
      inputKeyRepeatIntervalSeconds := 0.0;
      inputMouseDoubleClickIntervalSeconds := 0.0;
    }

    /** Stores the three timings and marks input as set up. */
    method SetupInput(keyRepeatDelaySeconds: real := 0.2, keyRepeatIntervalSeconds: real := 0.05,
                      mouseDoubleClickIntervalSeconds: real := 0.25)
      modifies this
      ensures isInputSet
      ensures inputKeyRepeatDelaySeconds == keyRepeatDelaySeconds && inputKeyRepeatIntervalSeconds == keyRepeatIntervalSeconds
      ensures inputMouseDoubleClickIntervalSeconds == mouseDoubleClickIntervalSeconds
      ensures createNoesisProviderManagerDelegate == old(createNoesisProviderManagerDelegate)
      ensures noesisFileSystemProviderRootFolderPath == old(noesisFileSystemProviderRootFolderPath)
    {
      inputKeyRepeatDelaySeconds := keyRepeatDelaySeconds;
      inputKeyRepeatIntervalSeconds := keyRepeatIntervalSeconds;
      inputMouseDoubleClickIntervalSeconds := mouseDoubleClickIntervalSeconds;
      isInputSet := true;
    }

    /** Sets input up from the operating system's settings, read by the caller. */
    method SetupInputFromWindows(system: SystemInputSettings.SystemValues)
      modifies this
      ensures isInputSet
      ensures var t := SystemInputSettings.GetSystemInputSettings(system);
        && inputKeyRepeatDelaySeconds == t.keyRepeatDelaySeconds
        && inputKeyRepeatIntervalSeconds == t.keyRepeatIntervalSeconds
        && inputMouseDoubleClickIntervalSeconds == t.mouseDoubleClickIntervalSeconds
      ensures 0.25 <= inputKeyRepeatDelaySeconds <= 1.0 && 1.0 / 30.0 <= inputKeyRepeatIntervalSeconds <= 0.4
      ensures createNoesisProviderManagerDelegate == old(createNoesisProviderManagerDelegate)
      ensures noesisFileSystemProviderRootFolderPath == old(noesisFileSystemProviderRootFolderPath)
    {
      var t := SystemInputSettings.GetSystemInputSettings(system);
      SystemInputSettings.RepeatDelayRange(system);
      SystemInputSettings.RepeatIntervalRange(system, system);
      SetupInput(t.keyRepeatDelaySeconds, t.keyRepeatIntervalSeconds, t.mouseDoubleClickIntervalSeconds);
    }

    /** Chooses a provider-manager factory, dropping any folder path. */
    method SetupProviderManager(createNoesisProviderDelegate: Option<ProviderManagerFactory>)
      modifies this
      ensures createNoesisProviderManagerDelegate == createNoesisProviderDelegate
      ensures noesisFileSystemProviderRootFolderPath == Option.None
      ensures isInputSet == old(isInputSet)
      ensures inputKeyRepeatDelaySeconds == old(inputKeyRepeatDelaySeconds)
      ensures inputKeyRepeatIntervalSeconds == old(inputKeyRepeatIntervalSeconds)
      ensures inputMouseDoubleClickIntervalSeconds == old(inputMouseDoubleClickIntervalSeconds)
      ensures HasProvider() <==> createNoesisProviderDelegate.Some?
    {
      createNoesisProviderManagerDelegate := createNoesisProviderDelegate;
      noesisFileSystemProviderRootFolderPath := Option.None;
    }

    /** Chooses a folder to load every resource from, dropping any factory. */
    method SetupProviderSimpleFolder(folderPath: Option<string>)
      modifies this
      ensures noesisFileSystemProviderRootFolderPath == folderPath
      ensures createNoesisProviderManagerDelegate == Option.None
      ensures isInputSet == old(isInputSet)
      ensures inputKeyRepeatDelaySeconds == old(inputKeyRepeatDelaySeconds)
      ensures inputKeyRepeatIntervalSeconds == old(inputKeyRepeatIntervalSeconds)
      ensures inputMouseDoubleClickIntervalSeconds == old(inputMouseDoubleClickIntervalSeconds)
      ensures HasProvider() <==> folderPath.Some? && folderPath.value != ""
    {
      noesisFileSystemProviderRootFolderPath := folderPath;
      createNoesisProviderManagerDelegate := Option.None;
    }

    /** A resource provider is configured: a factory, or a non-empty folder path. */
    predicate HasProvider()
      reads this
    {
      createNoesisProviderManagerDelegate.Some?
      || (noesisFileSystemProviderRootFolderPath.Some? && noesisFileSystemProviderRootFolderPath.value != "")
    }

    /** The checks before start-up, in order: a provider, then input, then the HiDef profile; the first failure is reported. */
    method Validate() returns (r: Option<ValidationError>)
      ensures r.None? <==> HasProvider() && isInputSet && graphics.graphicsProfile == HiDef
      ensures r == Some(NoResourceProvider) <==> !HasProvider()
      ensures r == Some(InputNotSetUp) <==> HasProvider() && !isInputSet
      ensures r == Some(ProfileNotHiDef) <==> HasProvider() && isInputSet && graphics.graphicsProfile != HiDef
    {
      if createNoesisProviderManagerDelegate.None?
         && (noesisFileSystemProviderRootFolderPath.None? || noesisFileSystemProviderRootFolderPath.value == "") {
        return Some(NoResourceProvider);
      }
      if !isInputSet {
        return Some(InputNotSetUp);
      }
      if graphics.graphicsProfile != HiDef {
        return Some(ProfileNotHiDef);
      }
      return Option.None;
    }
  }

  /**
   * The constructor with its argument checks: a missing window or graphics manager and
   * a missing or empty root path are rejected, in the order of `ConstructorCheck`.
   */
  method NewNoesisConfig(gameWindow: Option<GameWindow>, graphics: Option<GraphicsDeviceManager>,
                         rootXamlFilePath: Option<string>, themeXamlFilePath: Option<string>,
                         currentTotalGameTime: int, checkIfElementIgnoresHitTest: Option<NoesisView.Element -> bool>)
    returns (r: Result<NoesisConfig, ArgumentError>)
    ensures var check := ConstructorCheck(gameWindow, graphics.Some?, rootXamlFilePath);
      && (check.Some? ==> r == Failure(check.value))
      && (check.None? ==> r.Success? && fresh(r.value) && r.value.rootXamlFilePath == BackslashPath(rootXamlFilePath.value)
                          && r.value.graphics == graphics.value && !r.value.isInputSet && !r.value.HasProvider())
  {
    var check := ConstructorCheck(gameWindow, graphics.Some?, rootXamlFilePath);
    if check.Some? {
      return Failure(check.value);
    }
    var config := new NoesisConfig(gameWindow.value, graphics.value, rootXamlFilePath.value, themeXamlFilePath,
                                   currentTotalGameTime, checkIfElementIgnoresHitTest);
    return Success(config);
  }
}
