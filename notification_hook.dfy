/**
 * The notification hook: play Jinx's "Everybody Panic" when the host tool
 * raises a notification whose message looks like a permission request.
 */
module NotificationHook {
  import opened Wrappers
  import opened JsonPayload
  import opened Playback
  import opened Dispatch

  /** The words that mark a permission request, in the order they are tried. */
  const Keywords: seq<string> := [
    "permission", "approve", "allow", "confirm", "waiting for", "awaiting", "input",
    "approve this", "allow this"]

  const JinxAsset: string := "Jinx-Everybody-Panic.mp3"
  const JinxLine: string := "\U{1F6A8} Jinx says: Permission needed!"
  const ErrorPrefix: string := "Notification hook error: "

  /** `c.lower()` for an ASCII letter; every other character is kept. */
  function LowerChar(c: char): char
  {
    if 'A' <= c <= 'Z' then (c as int + 32) as char else c
  }

  function UpperChar(c: char): char
  {
    if 'a' <= c <= 'z' then (c as int - 32) as char else c
  }

  /** `s.lower()` */
  function Lower(s: string): (r: string)
    ensures |r| == |s| && forall i :: 0 <= i < |s| ==> r[i] == LowerChar(s[i])
  {
    seq(|s|, i requires 0 <= i < |s| => LowerChar(s[i]))
  }

  /** `word` occurs in `text` starting at position `i`. */
  predicate OccursAt(text: string, word: string, i: int)
  {
    0 <= i && i + |word| <= |text| && text[i..i + |word|] == word
  }

  /** `word in text` for strings: `word` occurs at some position of `text`. */
  function Contains(text: string, word: string): (r: bool)
    ensures r <==> exists i :: OccursAt(text, word, i)
  {
    if |word| > |text| then false
    else if text[..|word|] == word then assert OccursAt(text, word, 0); true
    else
      var r := Contains(text[1..], word);
      assert r ==> exists i :: OccursAt(text, word, i) by {
        if r {
          var i :| OccursAt(text[1..], word, i);
          assert text[1..][i..i + |word|] == text[i + 1..i + 1 + |word|];
          assert OccursAt(text, word, i + 1);
        }
      }
      assert (exists i :: OccursAt(text, word, i)) ==> r by {
        if exists i :: OccursAt(text, word, i) {
          var i :| OccursAt(text, word, i);
          assert i != 0;
          assert text[1..][i - 1..i - 1 + |word|] == text[i..i + |word|];
          assert OccursAt(text[1..], word, i - 1);
        }
      }
      r
  }

  /** `any(keyword in text for keyword in keywords)` */
  function AnyKeyword(text: string, keywords: seq<string>): (r: bool)
    ensures r <==> exists k :: k in keywords && Contains(text, k)
  {
    if keywords == [] then false
    else
      var r := Contains(text, keywords[0]) || AnyKeyword(text, keywords[1..]);
      assert (exists k :: k in keywords && Contains(text, k)) ==> r by {
        if exists k :: k in keywords && Contains(text, k) {
          var k :| k in keywords && Contains(text, k);
          if k != keywords[0] {
            assert k in keywords[1..];
          }
        }
      }
      r
  }

  /** `is_permission_request(message)` for a string message. */
  function PermissionText(message: string): (r: bool)
    ensures r <==> exists k, i :: k in Keywords && OccursAt(Lower(message), k, i)
  {
    message != "" && AnyKeyword(Lower(message), Keywords)
  }

  /**
   * `is_permission_request(message)` for whatever the payload holds: a falsy
   * value is not a request; a truthy value that is not a string has no
   * `lower` and raises.
   */
  function IsPermissionRequest(message: Json): (r: Verdict)
    ensures r == Decided(true) <==> message.JString? && PermissionText(message.s)
    ensures r.Errored? <==> Truthy(message) && !message.JString?
    ensures r.Errored? ==> r.error == NoAttribute(message, "lower")
  {
    if !Truthy(message) then Decided(false)
    else if message.JString? then Decided(PermissionText(message.s))
    else Errored(NoAttribute(message, "lower"))
  }

  /** Reading the payload and applying the predicate to its `message` field. */
  function Decide(stdin: Stdin): (r: Verdict)
    ensures r == Decided(true) <==> exists s :: ReadField(stdin, "message") == Found(JString(s)) && PermissionText(s)
    ensures r.Errored? <==>
              ReadField(stdin, "message").Failed?
              || (Truthy(ReadField(stdin, "message").value) && !ReadField(stdin, "message").value.JString?)
    ensures r.Errored? && ReadField(stdin, "message").Found? ==>
              r.error == NoAttribute(ReadField(stdin, "message").value, "lower")
  {
    match ReadField(stdin, "message")
    case Failed(error) => Errored(error)
    case Found(message) => IsPermissionRequest(message)
  }

  /** `main` of the notification hook. */
  method NotificationMain(stdin: Stdin, home: string, audio: AudioSystem) returns (run: HookRun)
    ensures run.exitCode == 0
    ensures run.requested.Some? <==>
              exists s :: ReadField(stdin, "message") == Found(JString(s)) && PermissionText(s)
    ensures run.requested.Some? ==> run.requested.value == SoundtrackPath(home, JinxAsset)
    ensures run.stdout == if run.requested.Some? then BannerOn(audio) + (if PlaysOn(audio) then [JinxLine] else []) else []
    // a triggered run: the backends tried, `play_audio`'s diagnostics and an afplay exception, if any
    ensures run.requested.Some? ==>
              run.tried == TriedOn(audio) && run.stderr == PlaybackStderr(run.requested.value, audio, ErrorPrefix)
    // malformed JSON, or a payload that is not an object: reported, no sound attempted
    ensures stdin.Malformed? ==> run == HookRun(None, [], [], [ErrorPrefix + stdin.reason], 0)
    ensures stdin.Document? && !stdin.value.JObject? ==>
              run == HookRun(None, [], [], [ErrorPrefix + NoAttribute(stdin.value, "get")], 0)
    // a truthy message that is not a string has no `lower`: reported, no sound attempted
    ensures ReadField(stdin, "message").Found? && Truthy(ReadField(stdin, "message").value)
            && !ReadField(stdin, "message").value.JString? ==>
              run == HookRun(None, [], [], [ErrorPrefix + NoAttribute(ReadField(stdin, "message").value, "lower")], 0)
    // a message that is read and is not a permission request: nothing happens
    ensures Decide(stdin) == Decided(false) ==> run == HookRun(None, [], [], [], 0)
    // no payload at all: the message defaults to '' and nothing happens
    ensures stdin.Terminal? ==> run == HookRun(None, [], [], [], 0)
  {
    var verdict := Decide(stdin);
    run := RunHook(verdict, SoundtrackPath(home, JinxAsset), audio, JinxLine, ErrorPrefix);
  }

  // ----- properties of the trigger -----

  /** An empty message is never a permission request. */
  lemma EmptyMessageNeverTriggers()
    ensures !PermissionText("")
    ensures IsPermissionRequest(JString("")) == Decided(false)
  {
  }

  /** Messages that differ only in the case of ASCII letters get the same answer. */
  lemma {:induction false} CaseInsensitive(a: string, b: string)
    requires |a| == |b| && forall i :: 0 <= i < |a| ==> LowerChar(a[i]) == LowerChar(b[i])
    ensures PermissionText(a) == PermissionText(b)
  {
    assert Lower(a) == Lower(b);
  }

  /** `s.upper()` for ASCII letters. */
  function Upper(s: string): (r: string)
    ensures |r| == |s| && forall i :: 0 <= i < |s| ==> r[i] == UpperChar(s[i])
  {
    seq(|s|, i requires 0 <= i < |s| => UpperChar(s[i]))
  }

  /** Shouting a message does not change whether it triggers. */
  lemma UpperCaseSameVerdict(message: string)
    ensures PermissionText(Upper(message)) == PermissionText(message)
  {
    var u := Upper(message);
    forall i | 0 <= i < |u| ensures LowerChar(u[i]) == LowerChar(message[i]) {
    }
    CaseInsensitive(u, message);
  }

  /** A word found inside a longer word found at the same place. */
  lemma {:induction false} PrefixContained(text: string, word: string, longer: string)
    requires |word| <= |longer| && longer[..|word|] == word
    requires Contains(text, longer)
    ensures Contains(text, word)
  {
    var i :| OccursAt(text, longer, i);
    assert text[i..i + |word|] == text[i..i + |longer|][..|word|];
    assert OccursAt(text, word, i);
  }

  /**
   * 'approve this' and 'allow this' add nothing: every message that contains
   * one of them also contains 'approve' or 'allow'.
   */
  lemma {:induction false} LastTwoKeywordsRedundant(text: string)
    ensures AnyKeyword(text, Keywords) == AnyKeyword(text, Keywords[..7])
  {
    if AnyKeyword(text, Keywords) {
      var k :| k in Keywords && Contains(text, k);
      if k == "approve this" {
        PrefixContained(text, "approve", k);
        assert Keywords[..7][1] == "approve";
      } else if k == "allow this" {
        PrefixContained(text, "allow", k);
        assert Keywords[..7][2] == "allow";
      } else {
        assert k in Keywords[..7];
      }
    }
  }

  lemma ConfirmTriggers()
    ensures PermissionText("Please confirm this action")
  {
    var m := "Please confirm this action";
    assert Lower(m)[7..14] == "confirm";
    assert OccursAt(Lower(m), "confirm", 7);
    assert Keywords[3] == "confirm";
  }

  /** Every letter of a word found in `text` is a letter of `text`. */
  lemma {:induction false} OccurrenceLetters(text: string, word: string)
    ensures Contains(text, word) ==> forall c :: c in word ==> c in text
  {
    if Contains(text, word) {
      var i :| OccursAt(text, word, i);
      forall c | c in word ensures c in text {
        var j :| 0 <= j < |word| && word[j] == c;
        assert text[i + j] == text[i..i + |word|][j];
      }
    }
  }

  /** Every keyword holds an 'a' or an 'i', so a text without either never triggers. */
  lemma {:induction false} NeedsAOrI(text: string)
    requires 'a' !in text && 'i' !in text
    ensures !AnyKeyword(text, Keywords)
  {
    forall k | k in Keywords ensures !Contains(text, k) {
      OccurrenceLetters(text, k);
      assert 'a' in k || 'i' in k;
    }
  }

  lemma HelloDoesNotTrigger()
    ensures !PermissionText("Hello world")
  {
    var m := "Hello world";
    assert forall j :: 0 <= j < |m| ==> m[j] != 'a' && m[j] != 'A' && m[j] != 'i' && m[j] != 'I';
    NeedsAOrI(Lower(m));
  }

  /**
   * Python's `str.upper` maps the dotless 'ı' (U+0131) to 'I', so
   * `'ınput'.upper()` is `'INPUT'`: the first does not trigger, the second
   * does. The keyword test is case-insensitive for ASCII letters only.
   */
  lemma DotlessIUpperCaseTriggers()
    ensures !PermissionText("\U{131}nput")
    ensures PermissionText("INPUT")
  {
    var m := "\U{131}nput";
    assert forall j :: 0 <= j < |m| ==> m[j] != 'a' && m[j] != 'A' && m[j] != 'i' && m[j] != 'I';
    NeedsAOrI(Lower(m));
    assert Lower("INPUT") == "input";
    assert OccursAt(Lower("INPUT"), "input", 0);
    assert Keywords[6] == "input";
  }
}
