/**
 * The shape every hook's `main` shares: decide from the payload whether the
 * event triggers, play the hook's sound if it does, print a confirmation
 * when playback reports success, and exit 0 whatever happened, catching any
 * exception at the top level and printing it to standard error.
 */
module Dispatch {
  import opened Wrappers
  import opened Playback

  /** The trigger decision: a boolean, or the message of the exception raised while deciding. */
  datatype Verdict = Decided(trigger: bool) | Errored(error: string)

  /** Everything one hook invocation does that an observer can see. */
  datatype HookRun = HookRun(
    requested: Option<string>,  // the file passed to play_audio, if it was called
    tried: seq<Backend>,        // the backends play_audio tried
    stdout: seq<string>,
    stderr: seq<string>,
    exitCode: int)

  /**
   * `directory / name` for `pathlib` paths: a directory that already ends in
   * a separator (the root) is not given a second one, and the current
   * directory, which `pathlib` prints as `.` (and reads `""` as), contributes
   * nothing.
   */
  function JoinPath(directory: string, name: string): (r: string)
    ensures directory == "" || directory == "." ==> r == name
    ensures directory != "" && directory[|directory| - 1] == '/' ==> r == directory + name
    ensures directory != "" && directory != "." && directory[|directory| - 1] != '/' ==> r == directory + "/" + name
    ensures name != "" ==> r != "" && r[|r| - 1] == name[|name| - 1]
  {
    if directory == "" || directory == "." then name
    else if directory[|directory| - 1] == '/' then directory + name
    else directory + "/" + name
  }

  /** `s` ends with `suffix`. */
  predicate EndsWith(s: string, suffix: string)
  {
    |suffix| <= |s| && s[|s| - |suffix|..] == suffix
  }

  /** `Path.home() / '.dotfiles' / 'soundtrack' / asset`, for `home` the string of `Path.home()`. */
  function SoundtrackPath(home: string, asset: string): (r: string)
    ensures EndsWith(r, "/soundtrack/" + asset)
  {
    var dotfiles := JoinPath(home, ".dotfiles");
    var soundtrack := JoinPath(dotfiles, "soundtrack");
    assert soundtrack == dotfiles + "/" + "soundtrack";
    var r := JoinPath(soundtrack, asset);
    assert r == dotfiles + ("/soundtrack/" + asset);
    r
  }

  /**
   * The root gets no doubled separator, the current directory gives a relative
   * path, and any other home directory gets one separator per step.
   */
  lemma SoundtrackPathShape(home: string, asset: string)
    ensures home == "/" ==> SoundtrackPath(home, asset) == "/.dotfiles/soundtrack/" + asset
    ensures home == "." ==> SoundtrackPath(home, asset) == ".dotfiles/soundtrack/" + asset
    ensures home != "" && home != "." && home[|home| - 1] != '/' ==>
              SoundtrackPath(home, asset) == home + "/.dotfiles/soundtrack/" + asset
  {
    if home == "/" {
      SoundtrackPathAtRoot(asset);
    } else if home == "." {
      SoundtrackPathAtCurrentDir(asset);
    } else if home != "" && home[|home| - 1] != '/' {
      SoundtrackPathUnderHome(home, asset);
    }
  }

  lemma SoundtrackPathAtRoot(asset: string)
    ensures SoundtrackPath("/", asset) == "/.dotfiles/soundtrack/" + asset
  {
    var dotfiles := JoinPath("/", ".dotfiles");
    assert dotfiles == "/.dotfiles";
    var soundtrack := JoinPath(dotfiles, "soundtrack");
    assert soundtrack == "/.dotfiles/soundtrack";
  }

  lemma SoundtrackPathAtCurrentDir(asset: string)
    ensures SoundtrackPath(".", asset) == ".dotfiles/soundtrack/" + asset
  {
    var dotfiles := JoinPath(".", ".dotfiles");
    assert dotfiles == ".dotfiles";
    var soundtrack := JoinPath(dotfiles, "soundtrack");
    assert soundtrack == ".dotfiles/soundtrack";
  }

  lemma SoundtrackPathUnderHome(home: string, asset: string)
    requires home != "" && home != "." && home[|home| - 1] != '/'
    ensures SoundtrackPath(home, asset) == home + "/.dotfiles/soundtrack/" + asset
  {
    var dotfiles := JoinPath(home, ".dotfiles");
    assert dotfiles == home + "/" + ".dotfiles";
    var soundtrack := JoinPath(dotfiles, "soundtrack");
    assert soundtrack == dotfiles + "/" + "soundtrack";
    assert soundtrack + "/" + asset == home + "/.dotfiles/soundtrack/" + asset;
  }

  /** What standard error receives from a triggered hook: `play_audio`'s
      diagnostics, then the top-level handler's line if afplay raised. */
  function PlaybackStderr(path: string, audio: AudioSystem, errorPrefix: string): (r: seq<string>)
    ensures |r| <= 1
    ensures audio.fileExists && audio.afplay.LaunchError? ==> r == [errorPrefix + audio.afplay.reason]
    ensures !(audio.fileExists && audio.afplay.LaunchError?) ==> r == DiagnosticsOn(path, audio)
  {
    DiagnosticsOn(path, audio)
      + (if audio.fileExists && audio.afplay.LaunchError? then [errorPrefix + audio.afplay.reason] else [])
  }

  /**
   * The body of `main` after the trigger decision: `errorPrefix` starts the
   * line the top-level `except` prints, `successLine` is the confirmation.
   */
  method RunHook(verdict: Verdict, path: string, audio: AudioSystem, successLine: string, errorPrefix: string)
    returns (run: HookRun)
    ensures run.exitCode == 0
    ensures run.requested == if verdict == Decided(true) then Some(path) else None
    ensures run.stdout == if verdict == Decided(true) then BannerOn(audio) + (if PlaysOn(audio) then [successLine] else []) else []
    ensures run.tried == if verdict == Decided(true) then TriedOn(audio) else []
    ensures verdict == Decided(true) ==> run.stderr == PlaybackStderr(path, audio, errorPrefix)
    ensures verdict.Errored? ==> run.stderr == [errorPrefix + verdict.error]
    ensures verdict == Decided(false) ==> run.stderr == []
  {
    run := HookRun(None, [], [], [], 0);
    match verdict {
      case Errored(error) =>
        run := run.(stderr := [errorPrefix + error]);
      case Decided(trigger) =>
        if trigger {
          var result, tried, stdout, stderr := PlayAudio(path, audio);
          run := run.(requested := Some(path), tried := tried, stdout := stdout, stderr := stderr);
          match result {
            case Raised(error) =>
              run := run.(stderr := run.stderr + [errorPrefix + error]);
            case Returned(ok) =>
              if ok {
                run := run.(stdout := run.stdout + [successLine]);
              }
          }
        }
    }
  }
}
