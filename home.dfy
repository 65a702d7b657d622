/** The landing page (src/app/page.tsx): scene navigation over a fetched
    scene map, two reserved battle tokens and a turn-based battle whose
    timer continuations are explicit methods. */
module Home {
  import opened Adventure

  const PlayerMaxHealth := 100

  datatype Turn = Player | Enemy

  /** The page's `battle` record, replaced as a whole on every update. */
  datatype BattleState = BattleState(
    inBattle: bool,
    playerHealth: int,
    enemyMaxHealth: int,
    enemyHealth: int,
    enemyName: string,
    battleLog: seq<string>,
    turn: Turn)
  {
    /** Both health values stay within their bars. */
    predicate Valid()
    {
      0 <= playerHealth <= PlayerMaxHealth && 0 <= enemyHealth <= enemyMaxHealth
    }

    /** The attack button's test as written: shown in battle, enabled on the
        player's turn while the enemy stands. */
    predicate AttackEnabledAsWritten()
    {
      inBattle && turn == Player && enemyHealth > 0
    }

    /** The intended test: a defeated player cannot attack either. */
    predicate AttackEnabled()
    {
      AttackEnabledAsWritten() && playerHealth > 0
    }
  }

  /** The record the page starts with, before any battle. */
  const IdleBattle := BattleState(false, PlayerMaxHealth, 0, 0, "", [], Player)

  /** `Math.max(0, x)`. */
  function Max0(x: int): (r: int)
    ensures r >= 0 && r >= x
    ensures r == x || r == 0
  {
    if x < 0 then 0 else x
  }

  // The battle log's lines.

  function AppearsMessage(enemyName: string): string
  {
    "A " + enemyName + " appears!"
  }

  function AttackMessage(damage: nat): string
  {
    "You attack for " + NatToString(damage) + " damage!"
  }

  function VictoryMessage(enemyName: string): string
  {
    "You defeated the " + enemyName + "!"
  }

  function EnemyAttackMessage(enemyName: string, damage: nat): string
  {
    "The " + enemyName + " attacks for " + NatToString(damage) + " damage!"
  }

  const DefeatMessage := "You were defeated! Game Over."

  /** The state `startBattle(enemyName, enemyHealth)` installs. */
  predicate IsFreshBattle(b: BattleState, enemyName: string, enemyHealth: int)
  {
    b.inBattle && b.playerHealth == PlayerMaxHealth &&
    b.enemyMaxHealth == enemyHealth && b.enemyHealth == enemyHealth &&
    b.enemyName == enemyName && b.battleLog == [AppearsMessage(enemyName)] &&
    b.turn == Player
  }

  /** The timer continuation an action schedules. */
  datatype Pending = NoTimer | Retaliation | VictoryEnd | DefeatEnd

  /** Navigation an action asks of the router or the window. */
  datatype Effect = NoEffect | PushSceneQuery(scene: string) | LeaveTo(path: string)

  /** What the page renders. */
  datatype View = Loading | BattleView(battle: BattleState) | Exploring(scene: Scene) | RenderError(sceneId: string)

  class HomePage {
    var scenes: SceneMap
    var currentScene: string
    var battle: BattleState

    ghost predicate Valid()
      reads this
    {
      battle.Valid()
    }

    constructor ()
      ensures Valid()
      ensures scenes == map[] && currentScene == "left1" && battle == IdleBattle
    {
      scenes := map[];
      currentScene := "left1";
      battle := IdleBattle;
    }

    /** The fetched `/scenes.json` replaces the empty map. */
    method ScenesFetched(data: SceneMap)
      requires Valid()
      modifies this`scenes
      ensures Valid()
      ensures scenes == data
    {
      scenes := data;
    }

    /** The `?scene=` effect: a non-empty parameter naming a scene of the map
        becomes the current scene; anything else leaves it alone. */
    method AdoptDeepLink(sceneParam: Option<string>)
      requires Valid()
      modifies this`currentScene
      ensures Valid()
      ensures Adopts(scenes, sceneParam) ==> currentScene == sceneParam.value
      ensures !Adopts(scenes, sceneParam) ==> currentScene == old(currentScene)
    {
      if Adopts(scenes, sceneParam) {
        currentScene := sceneParam.value;
      }
    }

    method StartBattle(enemyName: string, enemyHealth: int)
      requires enemyHealth >= 0
      modifies this`battle
      ensures Valid()
      ensures IsFreshBattle(battle, enemyName, enemyHealth)
    {
      battle := BattleState(true, PlayerMaxHealth, enemyHealth, enemyHealth, enemyName,
                            [AppearsMessage(enemyName)], Player);
    }

    /** The player's attack with a roll of `damage`; the victory line is added
        exactly when the enemy is brought to zero, and only then is the
        enemy's retaliation not scheduled. */
    method PlayerAttack(damage: nat) returns (next: Pending)
      requires Valid() && battle.AttackEnabled()
      requires 10 <= damage <= 29
      modifies this`battle
      ensures Valid()
      ensures battle.enemyHealth == Max0(old(battle.enemyHealth) - damage)
      ensures 0 <= battle.enemyHealth < old(battle.enemyHealth)
      ensures battle.battleLog ==
                old(battle.battleLog) + [AttackMessage(damage)] +
                (if battle.enemyHealth == 0 then [VictoryMessage(battle.enemyName)] else [])
      ensures battle.turn == Enemy
      ensures battle.inBattle && battle.playerHealth == old(battle.playerHealth)
      ensures battle.enemyMaxHealth == old(battle.enemyMaxHealth) && battle.enemyName == old(battle.enemyName)
      ensures next == if battle.enemyHealth == 0 then VictoryEnd else Retaliation
    {
      var newEnemyHealth := Max0(battle.enemyHealth - damage);
      var log := battle.battleLog + [AttackMessage(damage)];
      next := NoTimer;
      if newEnemyHealth <= 0 {
        log := log + [VictoryMessage(battle.enemyName)];
        next := VictoryEnd;
      }
      battle := battle.(enemyHealth := newEnemyHealth, battleLog := log, turn := Enemy);
      if newEnemyHealth > 0 {
        next := Retaliation;
      }
    }

    /** The enemy's scheduled attack with a roll of `damage`, applied to the
        current record; the page as written reads an older one, see
        RetaliationAsWritten. */
    method EnemyAttack(damage: nat) returns (next: Pending)
      requires Valid()
      requires 5 <= damage <= 19
      modifies this`battle
      ensures Valid()
      ensures battle.playerHealth == Max0(old(battle.playerHealth) - damage)
      ensures battle.battleLog ==
                old(battle.battleLog) + [EnemyAttackMessage(battle.enemyName, damage)] +
                (if battle.playerHealth == 0 then [DefeatMessage] else [])
      ensures battle.turn == Player
      ensures battle.enemyHealth == old(battle.enemyHealth) && battle.enemyMaxHealth == old(battle.enemyMaxHealth)
      ensures battle.inBattle == old(battle.inBattle) && battle.enemyName == old(battle.enemyName)
      ensures next == if battle.playerHealth == 0 then DefeatEnd else NoTimer
      ensures old(battle.inBattle) && battle.enemyHealth > 0 ==> battle.AttackEnabledAsWritten()
      // After a fatal roll the turn is handed back, so the button's test as
      // written is open again, while the intended test stays closed.
      ensures old(battle.inBattle) && battle.enemyHealth > 0 && battle.playerHealth == 0 ==>
                battle.AttackEnabledAsWritten() && !battle.AttackEnabled()
    {
      var newPlayerHealth := Max0(battle.playerHealth - damage);
      var log := battle.battleLog + [EnemyAttackMessage(battle.enemyName, damage)];
      next := NoTimer;
      if newPlayerHealth <= 0 {
        log := log + [DefeatMessage];
        next := DefeatEnd;
      }
      battle := battle.(playerHealth := newPlayerHealth, battleLog := log, turn := Player);
    }

    /** The continuation two seconds after a victory. */
    method FinishVictory() returns (effect: Effect)
      requires Valid()
      modifies this`battle, this`currentScene
      ensures Valid()
      ensures battle == old(battle).(inBattle := false, battleLog := [])
      ensures currentScene == "door_appears"
      ensures effect == PushSceneQuery("door_appears")
    {
      battle := battle.(inBattle := false, battleLog := []);
      currentScene := "door_appears";
      effect := PushSceneQuery("door_appears");
    }

    /** The continuation two seconds after a defeat. */
    method FinishDefeat() returns (effect: Effect)
      requires Valid()
      modifies this`battle, this`currentScene
      ensures Valid()
      ensures battle == old(battle).(inBattle := false, battleLog := [], playerHealth := PlayerMaxHealth)
      ensures currentScene == "start"
      ensures effect == PushSceneQuery("start")
    {
      currentScene := "start";
      battle := battle.(inBattle := false, battleLog := [], playerHealth := PlayerMaxHealth);
      effect := PushSceneQuery("start");
    }

    /** A choice button: two battle tokens, two tokens that leave the page,
        and every other id becomes the current scene unchecked. */
    method HandleChoice(nextScene: string) returns (effect: Effect)
      requires Valid()
      modifies this`battle, this`currentScene
      ensures Valid() && scenes == old(scenes)
      ensures nextScene == "spider_battle" ==>
                IsFreshBattle(battle, "Giant Spider", 60) && currentScene == old(currentScene) && effect == NoEffect
      ensures nextScene == "left_battle" ==>
                IsFreshBattle(battle, "Shadow Wraith", 75) && currentScene == old(currentScene) && effect == NoEffect
      ensures nextScene == "make_your_own" ==>
                battle == old(battle) && currentScene == old(currentScene) && effect == LeaveTo("/code")
      ensures nextScene == "go_home" ==>
                battle == old(battle) && currentScene == old(currentScene) && effect == LeaveTo("/")
      ensures nextScene !in {"spider_battle", "left_battle", "make_your_own", "go_home"} ==>
                battle == old(battle) && currentScene == nextScene && effect == PushSceneQuery(nextScene)
    {
      if nextScene == "spider_battle" {
        StartBattle("Giant Spider", 60);
        effect := NoEffect;
      } else if nextScene == "left_battle" {
        StartBattle("Shadow Wraith", 75);
        effect := NoEffect;
      } else if nextScene == "make_your_own" {
        effect := LeaveTo("/code");
      } else if nextScene == "go_home" {
        effect := LeaveTo("/");
      } else {
        currentScene := nextScene;
        effect := PushSceneQuery(nextScene);
      }
    }

    /** What the page renders; outside a battle a current id with no scene
        makes the page read `text` of undefined. */
    function CurrentView(): (v: View)
      reads this
      ensures v == Loading <==> |scenes| == 0
      ensures v.BattleView? <==> |scenes| != 0 && battle.inBattle
      ensures v.BattleView? ==> v.battle == battle
      ensures v.Exploring? <==> |scenes| != 0 && !battle.inBattle && currentScene in scenes
      ensures v.Exploring? ==> v.scene == scenes[currentScene]
      ensures v.RenderError? ==> v.sceneId == currentScene
    {
      if |scenes| == 0 then Loading
      else if battle.inBattle then BattleView(battle)
      else if currentScene in scenes then Exploring(scenes[currentScene])
      else RenderError(currentScene)
    }
  }

  /** The `?scene=` check as written: `sceneParam && scenes[sceneParam]`
      also accepts a name every plain object inherits. */
  predicate AdoptsAsWritten(scenes: SceneMap, sceneParam: Option<string>)
  {
    sceneParam.Some? && sceneParam.value != "" && JsLookup(scenes, sceneParam.value).Truthy()
  }

  /** The deep-link check the page intends: the parameter is a key. */
  predicate Adopts(scenes: SceneMap, sceneParam: Option<string>)
  {
    sceneParam.Some? && sceneParam.value != "" && sceneParam.value in scenes
  }

  /** `?scene=constructor` is adopted although no scene has that id. */
  lemma InheritedNameAdopted()
    ensures var scenes := map["start" := Scene("Hi", [])];
            AdoptsAsWritten(scenes, Some("constructor")) && !Adopts(scenes, Some("constructor"))
  {
  }

  /** Off the inherited names the two checks agree, and the intended one
      never adopts an id without a scene. */
  lemma AdoptsAgreesOffPrototype(scenes: SceneMap, sceneParam: Option<string>)
    requires sceneParam.Some? ==> sceneParam.value !in InheritedNames
    ensures AdoptsAsWritten(scenes, sceneParam) == Adopts(scenes, sceneParam)
    ensures Adopts(scenes, sceneParam) ==> sceneParam.value in scenes
  {
  }

  /** After a fatal enemy roll the button as written is still enabled for
      the two seconds before the defeat continuation: the beaten player can
      attack on, and even win. */
  lemma DefeatedPlayerCanStillAttack()
    ensures var b := BattleState(true, 5, 60, 30, "Giant Spider", [], Enemy);
            var after := b.(playerHealth := Max0(b.playerHealth - 5), turn := Player);
            b.Valid() && after.Valid() && after.playerHealth == 0 &&
            after.AttackEnabledAsWritten() && !after.AttackEnabled()
  {
  }

  /** `enemyAttack` as written: it is the closure of the render in which
      the player attacked, so it reads `captured`, the record before that
      attack, and writes its log and health over the `current` one. */
  function RetaliationAsWritten(captured: BattleState, current: BattleState, damage: nat): (r: BattleState)
    ensures r.playerHealth == Max0(captured.playerHealth - damage)
    ensures |r.battleLog| == |captured.battleLog| + (if r.playerHealth == 0 then 2 else 1)
    ensures r.battleLog[..|captured.battleLog|] == captured.battleLog
    ensures r.battleLog[|captured.battleLog|] == EnemyAttackMessage(captured.enemyName, damage)
    ensures r.playerHealth == 0 ==> r.battleLog[|captured.battleLog| + 1] == DefeatMessage
    ensures r.enemyHealth == current.enemyHealth && r.turn == Player
  {
    var newPlayerHealth := Max0(captured.playerHealth - damage);
    var log := captured.battleLog + [EnemyAttackMessage(captured.enemyName, damage)] +
               (if newPlayerHealth <= 0 then [DefeatMessage] else []);
    current.(playerHealth := newPlayerHealth, battleLog := log, turn := Player)
  }

  /** The first exchange of a spider battle: the retaliation as written
      overwrites the log without the player's attack line. */
  lemma RetaliationDropsAttackLine()
    ensures var opening := BattleState(true, 100, 60, 60, "Giant Spider", [AppearsMessage("Giant Spider")], Player);
            var attacked := opening.(enemyHealth := 50, battleLog := opening.battleLog + [AttackMessage(10)], turn := Enemy);
            var after := RetaliationAsWritten(opening, attacked, 5);
            after.battleLog == [AppearsMessage("Giant Spider"), EnemyAttackMessage("Giant Spider", 5)] &&
            AttackMessage(10) !in after.battleLog
  {
  }
}
