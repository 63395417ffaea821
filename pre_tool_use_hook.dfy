/**
 * The pre-tool-use hook: play Teemo's "On Duty" when the tool about to run
 * is the Task tool, which starts a subagent.
 */
module PreToolUseHook {
  import opened Wrappers
  import opened JsonPayload
  import opened Playback
  import opened Dispatch

  const TaskTool: string := "Task"
  const TeemoAsset: string := "Teemo-On-Duty.mp3"
  /** The confirmation line exactly as the script spells it (an icon garbled by a wrong text encoding). */
  const TeemoLine: string := "\U{F8FF}\U{FC}\U{EE}\U{E7} Teemo: Subagent on duty!"
  const ErrorPrefix: string := "PreToolUse hook error: "

  /** `is_task_tool(tool_name)`: Python `==`, so only the string "Task" itself. */
  function IsTaskTool(toolName: Json): (r: bool)
    ensures r <==> toolName.JString? && toolName.s == "Task"
  {
    toolName == JString(TaskTool)
  }

  /** Reading the payload and applying the predicate to its `tool_name` field. */
  function Decide(stdin: Stdin): (r: Verdict)
    ensures r == Decided(true) <==> ReadField(stdin, "tool_name") == Found(JString(TaskTool))
    ensures r.Errored? <==> ReadField(stdin, "tool_name").Failed?
    ensures r.Errored? ==> r.error == ReadField(stdin, "tool_name").error
  {
    match ReadField(stdin, "tool_name")
    case Failed(error) => Errored(error)
    case Found(toolName) => Decided(IsTaskTool(toolName))
  }

  /** `main` of the pre-tool-use hook. */
  method PreToolUseMain(stdin: Stdin, home: string, audio: AudioSystem) returns (run: HookRun)
    ensures run.exitCode == 0
    ensures run.requested.Some? <==> ReadField(stdin, "tool_name") == Found(JString("Task"))
    ensures run.requested.Some? ==> run.requested.value == SoundtrackPath(home, TeemoAsset)
    ensures run.stdout == if run.requested.Some? then BannerOn(audio) + (if PlaysOn(audio) then [TeemoLine] else []) else []
    // a triggered run: the backends tried, `play_audio`'s diagnostics and an afplay exception, if any
    ensures run.requested.Some? ==>
              run.tried == TriedOn(audio) && run.stderr == PlaybackStderr(run.requested.value, audio, ErrorPrefix)
    // any other tool: nothing happens
    ensures Decide(stdin) == Decided(false) ==> run == HookRun(None, [], [], [], 0)
    // malformed JSON or a payload that is not an object: reported, no sound attempted
    ensures stdin.Malformed? ==> run == HookRun(None, [], [], [ErrorPrefix + stdin.reason], 0)
    ensures stdin.Document? && !stdin.value.JObject? ==>
              run == HookRun(None, [], [], [ErrorPrefix + NoAttribute(stdin.value, "get")], 0)
    // a missing tool_name defaults to '' and nothing happens
    ensures stdin.Document? && stdin.value.JObject? &&
            (forall i :: 0 <= i < |stdin.value.members| ==> stdin.value.members[i].0 != "tool_name") ==>
              run == HookRun(None, [], [], [], 0)
  {
    var verdict := Decide(stdin);
    run := RunHook(verdict, SoundtrackPath(home, TeemoAsset), audio, TeemoLine, ErrorPrefix);
  }

  /** The comparison is case-sensitive. */
  lemma OtherSpellingsDoNotTrigger()
    ensures !IsTaskTool(JString("task")) && !IsTaskTool(JString("TASK")) && !IsTaskTool(JString(""))
  {
  }
}
