/**
 * `play_audio`, which every hook carries a copy of: check that the file
 * exists, try `afplay` in a background process, then pygame on a daemon
 * thread. The three calls into the system are inputs here.
 */
module Playback {

  datatype Backend = Afplay | Pygame

  /** What `subprocess.Popen(['afplay', path])` does. */
  datatype Launch =
    | Launched
      /** FileNotFoundError: no `afplay` on this system, caught */
    | NotInstalled
      /** any other OSError, which `play_audio_macos` does not catch */
    | LaunchError(reason: string)

  /** The outcomes of the system calls the playback chain makes. */
  datatype AudioSystem = AudioSystem(
    fileExists: bool,     // audio_path.exists()
    afplay: Launch,       // the afplay launch
    pygameStarts: bool,   // pygame imports and the daemon thread starts
    pygameBanner: seq<string>)  // what `import pygame` prints: its support banner, or nothing

  /** What `play_audio` does: return a boolean, or let an exception through. */
  datatype Playing = Returned(ok: bool) | Raised(error: string)

  /** Whether playback reports success on this system. */
  predicate PlaysOn(audio: AudioSystem)
  {
    audio.fileExists && (audio.afplay.Launched? || (audio.afplay.NotInstalled? && audio.pygameStarts))
  }

  /** The backends `play_audio` tries on this system, in order. */
  function TriedOn(audio: AudioSystem): (r: seq<Backend>)
    ensures r == [] <==> !audio.fileExists
    ensures r != [] ==> r[0] == Afplay
    ensures Pygame in r <==> audio.fileExists && audio.afplay.NotInstalled?
  {
    if !audio.fileExists then []
    else if audio.afplay.NotInstalled? then [Afplay, Pygame]
    else [Afplay]
  }

  /**
   * What `play_audio` prints to standard output on this system: the banner
   * `import pygame` prints, when the fallback is tried.
   */
  function BannerOn(audio: AudioSystem): (r: seq<string>)
    ensures Pygame in TriedOn(audio) ==> r == audio.pygameBanner
    ensures Pygame !in TriedOn(audio) ==> r == []
  {
    if audio.fileExists && audio.afplay.NotInstalled? then audio.pygameBanner else []
  }

  /** The diagnostic lines `play_audio` prints to standard error on this system. */
  function DiagnosticsOn(path: string, audio: AudioSystem): (r: seq<string>)
    ensures |r| <= 1
    ensures r != [] <==> !audio.fileExists || (audio.afplay.NotInstalled? && !audio.pygameStarts)
  {
    if !audio.fileExists then ["Audio file not found: " + path]
    else if audio.afplay.NotInstalled? && !audio.pygameStarts then
      ["Failed to play audio - no suitable audio backend found"]
    else []
  }

  /**
   * `play_audio(path)`: `tried` lists the backends it tried, in order,
   * `stdout` what importing pygame printed and `stderr` the diagnostic lines.
   */
  method PlayAudio(path: string, audio: AudioSystem)
    returns (result: Playing, tried: seq<Backend>, stdout: seq<string>, stderr: seq<string>)
    // a missing file: failure, no backend tried
    ensures !audio.fileExists ==> result == Returned(false) && tried == [] && stderr == ["Audio file not found: " + path]
    // afplay is always tried first when the file exists; pygame only when afplay was not found
    ensures tried == TriedOn(audio)
    // standard output: only pygame's import banner, and only when pygame is tried
    ensures stdout == BannerOn(audio)
    // success exactly when a backend started; an exception only from afplay
    ensures result.Returned? ==> (result.ok <==> PlaysOn(audio))
    ensures result.Raised? <==> audio.fileExists && audio.afplay.LaunchError?
    ensures result.Raised? ==> result.error == audio.afplay.reason
    // the failure message only when both backends were unavailable; nothing on success or an exception
    ensures stderr == DiagnosticsOn(path, audio)
    ensures result.Returned? && result.ok ==> stderr == []
    ensures result.Raised? ==> stderr == []
  {
    if !audio.fileExists {
      return Returned(false), [], [], ["Audio file not found: " + path];
    }
    tried := [Afplay];
    match audio.afplay {
      case Launched =>
        return Returned(true), tried, [], [];
      case LaunchError(reason) =>
        return Raised(reason), tried, [], [];
      case NotInstalled =>
    }
    tried := tried + [Pygame];
    stdout := audio.pygameBanner;
    if audio.pygameStarts {
      return Returned(true), tried, stdout, [];
    }
    return Returned(false), tried, stdout, ["Failed to play audio - no suitable audio backend found"];
  }
}
