/** The player route (src/app/play/page.tsx): the stored adventure is read
    once, and the screen is a function of the scene map and the current id. */
module Play {
  import opened Adventure

  /** What the player renders. */
  datatype Screen = Loading | NotFound(id: string) | Showing(text: string, buttons: seq<Choice>)

  /** Screen selection with exact, case-sensitive key lookup. */
  function ScreenOf(scenes: SceneMap, current: string): (r: Screen)
    ensures r == Loading <==> |scenes| == 0
    ensures r.NotFound? <==> |scenes| != 0 && current !in scenes
    ensures r.NotFound? ==> r.id == current
    ensures r.Showing? <==> |scenes| != 0 && current in scenes
    ensures r.Showing? ==> r.text == scenes[current].text && r.buttons == scenes[current].choices
  {
    if |scenes| == 0 then Loading
    else if current !in scenes then NotFound(current)
    else Showing(scenes[current].text, scenes[current].choices)
  }

  /** Screen selection as written, where `!scenes[current]` also lets the
      names of Object.prototype through; such a value has no `choices`, and
      rendering `choices.map` throws (None). */
  function ScreenAsWritten(scenes: SceneMap, current: string): (r: Option<Screen>)
    ensures r.None? <==> |scenes| != 0 && current !in scenes && current in InheritedNames
  {
    if |scenes| == 0 then Some(Loading)
    else match JsLookup(scenes, current)
      case Undefined => Some(NotFound(current))
      case OwnScene(s) => Some(Showing(s.text, s.choices))
      case InheritedMember(_) => None
  }

  /** A choice whose target is "constructor" crashes the player instead of
      reporting that no such scene exists. */
  lemma InheritedNameCrashesPlayer()
    ensures var scenes := map["start" := Scene("Hi", [Choice("Go", "constructor")])];
            ScreenAsWritten(scenes, "constructor").None? &&
            ScreenOf(scenes, "constructor") == NotFound("constructor")
  {
  }

  /** Away from the inherited names the page as written selects the same
      screen as the intended lookup. */
  lemma ScreenAsWrittenAgrees(scenes: SceneMap, current: string)
    requires current !in InheritedNames
    ensures ScreenAsWritten(scenes, current) == Some(ScreenOf(scenes, current))
  {
  }

  /** What the mount effect finds under the `adventureData` storage key. */
  datatype Stored = Absent | Malformed | Parsed(scenes: SceneMap)

  class PlayerPage {
    var scenes: SceneMap
    var currentScene: string

    constructor ()
      ensures scenes == map[] && currentScene == "start"
      ensures Screen() == Loading
    {
      scenes := map[];
      currentScene := "start";
    }

    function Screen(): Screen
      reads this
    {
      ScreenOf(scenes, currentScene)
    }

    /** The mount effect: parsed data replaces the map; absent or malformed
        data leaves it as it was (so an empty map keeps the page Loading). */
    method Mount(stored: Stored)
      modifies this`scenes
      ensures stored.Parsed? ==> scenes == stored.scenes
      ensures !stored.Parsed? ==> scenes == old(scenes) && Screen() == old(Screen())
    {
      match stored
      case Parsed(parsed) => scenes := parsed;
      case _ =>
    }

    /** A choice button: its target becomes the current id verbatim. */
    method HandleChoice(nextScene: string)
      modifies this`currentScene
      ensures currentScene == nextScene
      ensures Screen() == ScreenOf(old(scenes), nextScene)
      ensures |scenes| != 0 ==> (Screen() == NotFound(nextScene) <==> nextScene !in scenes)
    {
      currentScene := nextScene;
    }

    /** The not-found screen's button; with no "start" scene it leads back to
        a not-found screen for "start", never to anything else. */
    method ReturnToStart()
      modifies this`currentScene
      ensures currentScene == "start"
      ensures Screen() == ScreenOf(old(scenes), "start")
      ensures |scenes| != 0 && "start" !in scenes ==> Screen() == NotFound("start")
      ensures "start" in scenes ==> Screen() == Showing(scenes["start"].text, scenes["start"].choices)
    {
      currentScene := "start";
    }
  }
}
