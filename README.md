# Text adventure: player, battle and editor model

A Dafny model of the logic in a browser "choose your own adventure" builder:

- **`Adventure`** (`adventure.dfy`): the adventure document, a map from scene id to a scene. A scene has text and an ordered list of choices, and each choice has a label and a target id. The module also models two JavaScript behaviours the pages depend on:
  - decimal formatting of a whole number inside a template literal (`NatToString`, with its inverse `DigitsValue`);
  - `scenes[id]` on a plain object (`JsLookup`). Such an object also answers to the names it inherits from `Object.prototype`.
- **`Home`** (`home.dfy`): the landing page `src/app/page.tsx`, modelled as a class `HomePage`.
  - Its fields are the fetched scene map, `currentScene` (initially `"left1"`) and the `battle` record.
  - `HandleChoice` sends `spider_battle` and `left_battle` to battles. `make_your_own` and `go_home` leave the page. Every other id becomes the current scene without an existence check.
  - A battle moves through `StartBattle`, `PlayerAttack` and `EnemyAttack`. Health is clamped with `max(0, …)`, the turn alternates, and the log is append-only.
  - Each `setTimeout` continuation is an explicit method: `EnemyAttack` (the retaliation), `FinishVictory` and `FinishDefeat`. An action returns a `Pending` value that names the continuation it scheduled.
  - Navigation is returned as an `Effect` value instead of being performed: `router.push('?scene=…')` or `window.location.href = …`. `AdoptDeepLink` models the `?scene=` effect.
- **`Play`** (`play.dfy`): the player route `src/app/play/page.tsx`.
  - `ScreenOf` selects the screen from the scene map and the current id. The screen is Loading when the map is empty, NotFound(id) when the id is missing, and otherwise the scene's text with one button per choice.
  - Class `PlayerPage` holds the map and the current id. Its methods are the mount effect, the choice handler and "Return to Start".
- **`Editor`** (`editor.dfy`): the editor `src/app/code/page.tsx`.
  - Pure functions model the scene node's edits: `HandleTextChange`, `AddChoice`, `UpdateChoice` and `DeleteChoice`. `DeleteChoice` is the index `filter`, proved equal to a splice.
  - `ReplaceData` models the node `onChange` mapper.
  - Class `EditorPage` holds `nodes` and `nodeIdCounter`. `AddNode` generates ids `"scene" + counter`. Its invariant keeps node ids pairwise distinct and never equal to the next generated id. The proof goes through injectivity of decimal formatting.
  - `BuildScenes`/`StartPlay` model the `forEach` loop of `startPlay`. It builds the scene map whose keys are exactly the node ids, the colour-picker node included.

Damage rolls are parameters bounded by the source's formulas: `floor(random*20)+10` gives 10..29 for the player and `floor(random*15)+5` gives 5..19 for the enemy. The node position, also random, is not modelled.

## Model

| member | source | states |
|---|---|---|
| Adventure.NatToString | src/app/page.tsx:111 | a template literal prints a whole number as a non-empty string of digits that begins with '0' only for zero |
| Adventure.DigitsValueOfNatToString | src/app/code/page.tsx:301 | reading the printed digits back gives the number again |
| Adventure.NatToStringInjective | src/app/code/page.tsx:301 | different numbers print as different strings |
| Adventure.JsLookup | src/app/play/page.tsx:52 | `scenes[id]` is a scene exactly for the object's own keys; it is truthy also for the names inherited from Object.prototype, and undefined otherwise |
| Home.Max0 | src/app/page.tsx:110 | `Math.max(0, x)` is non-negative, at least x, and either x or 0 |
| Home.HomePage.constructor | src/app/page.tsx:32-42 | the page starts on scene "left1" with an empty map and an idle battle record (player 100, enemy 0, empty log, player's turn) |
| Home.HomePage.ScenesFetched | src/app/page.tsx:44-48 | the fetched map replaces the scene map |
| Home.HomePage.AdoptDeepLink | src/app/page.tsx:89-94 | a non-empty `?scene=` value becomes the current scene exactly when it is a key of the map; otherwise nothing changes |
| Home.HomePage.StartBattle | src/app/page.tsx:96-106 | in battle, player at 100, enemy health and maximum both the given value, player's turn, a log of exactly "A {name} appears!" |
| Home.HomePage.PlayerAttack | src/app/page.tsx:108-132 | with the attack enabled and a roll in 10..29: enemy health becomes max(0, h - d) and strictly drops; the log gains the attack line, plus the victory line exactly when the enemy reaches 0; turn passes to the enemy; player health, maximum and name are unchanged; retaliation is scheduled exactly when the enemy still stands, the victory end otherwise |
| Home.HomePage.EnemyAttack | src/app/page.tsx:134-154 | with a roll in 5..19: player health becomes max(0, h - d) and stays in 0..100; the log gains the enemy line, plus "You were defeated! Game Over." exactly when the player reaches 0, which is also exactly when the defeat end is scheduled; turn returns to the player; enemy health untouched; after a fatal roll while the enemy stands, the button's test as written is open again but the intended test is closed |
| Home.HomePage.FinishVictory | src/app/page.tsx:115-119 | leaves battle mode, clears the log, keeps the rest of the record, moves to "door_appears" and pushes `?scene=door_appears` |
| Home.HomePage.FinishDefeat | src/app/page.tsx:141-145 | moves to "start", leaves battle mode, clears the log, restores player health to 100 and pushes `?scene=start` |
| Home.HomePage.HandleChoice | src/app/page.tsx:156-171 | "spider_battle" starts ("Giant Spider", 60) and "left_battle" starts ("Shadow Wraith", 75), both keeping the current scene; "make_your_own" and "go_home" change nothing and leave for "/code" and "/"; any other id becomes the current scene unchecked and is pushed as `?scene=` |
| Home.HomePage.CurrentView | src/app/page.tsx:173-177 | Loading exactly when the map is empty; the battle screen, showing the current record, exactly when in battle; the current scene exactly when it is a key; otherwise the render fails on the missing scene |
| Home.InheritedNameAdopted | src/app/page.tsx:91 | as written, `?scene=constructor` is adopted though no scene has that id |
| Home.AdoptsAgreesOffPrototype | src/app/page.tsx:89-94 | away from inherited names the check as written and the intended key check agree |
| Home.DefeatedPlayerCanStillAttack | src/app/page.tsx:288-290 | as written, after a fatal enemy roll the attack button is still enabled |
| Home.RetaliationAsWritten | src/app/page.tsx:130-153 | the scheduled `enemyAttack` as written works from the record captured before the player's attack: player health is max(0, captured health - d); the captured log is kept as a prefix, the enemy line follows it, and the defeat line comes after exactly when the player reaches 0; enemy health is the current one and the turn returns to the player |
| Home.RetaliationDropsAttackLine | src/app/page.tsx:137 | in a first exchange the log after retaliation as written is the appearance line and the enemy line, without the player's attack line |
| Play.ScreenOf | src/app/play/page.tsx:34-140 | Loading exactly when the map is empty; NotFound(current) exactly when the map is non-empty and current is not a key (exact, case-sensitive); otherwise the scene's text and its choices in stored order |
| Play.ScreenAsWritten | src/app/play/page.tsx:52-54 | the screen as written fails to render exactly when the map is non-empty and current is an inherited name that is not a key |
| Play.InheritedNameCrashesPlayer | src/app/play/page.tsx:120 | a choice targeting "constructor" crashes the page as written where the intended lookup shows NotFound("constructor") |
| Play.ScreenAsWrittenAgrees | src/app/play/page.tsx:52-54 | away from inherited names the page as written shows the intended screen |
| Play.PlayerPage.constructor | src/app/play/page.tsx:14-15 | the player starts with an empty map on scene "start", hence on the Loading screen |
| Play.PlayerPage.Mount | src/app/play/page.tsx:17-27 | parsed stored data becomes the map; absent or malformed data leaves the map and the screen as they were |
| Play.PlayerPage.HandleChoice | src/app/play/page.tsx:29-31 | the target becomes the current id verbatim and the map is unchanged; with a non-empty map the screen is NotFound exactly when the target is not a key |
| Play.PlayerPage.ReturnToStart | src/app/play/page.tsx:71 | the current id becomes "start"; with "start" missing from a non-empty map the screen is NotFound("start") again, otherwise the start scene |
| Editor.AddChoice | src/app/code/page.tsx:107-111 | the list grows by one, the old list is a prefix, and the new last element is {text "New choice", nextScene ""} |
| Editor.SetField | src/app/code/page.tsx:116 | the named field takes the value and the other field is kept |
| Editor.UpdateChoice | src/app/code/page.tsx:113-119 | same length; only element i changes, and only in the named field |
| Editor.FilterOutIndexSplice | src/app/code/page.tsx:122 | the index filter equals the list with position i cut out, or the list itself when i is outside it |
| Editor.DeleteChoice | src/app/code/page.tsx:121-125 | for i in range: one shorter, elements before i kept, elements after i shifted down by one; otherwise the list is unchanged |
| Editor.ChoicesOf | src/app/code/page.tsx:100 | `data.choices || []`: the stored choices, or none when absent |
| Editor.HandleTextChange | src/app/code/page.tsx:102-105 | the new data has the new text; its choices and title are those of the old data |
| Editor.WithChoices | src/app/code/page.tsx:118 | the new data has the new choices; its text and title are those of the old data |
| Editor.ReplaceData | src/app/code/page.tsx:333-339 | same length and order; every id and kind kept; data replaced exactly on the nodes whose id equals nodeId |
| Editor.SceneOfData | src/app/code/page.tsx:314-317 | a node's scene has its text or "" when absent, and its choices or [] when absent |
| Editor.BuildStep | src/app/code/page.tsx:313-318 | one loop step keeps keys equal to the ids seen and each key holding the scene of its last node |
| Editor.BuildScenes | src/app/code/page.tsx:311-318 | the keys are exactly the node ids, and each key holds the scene of the last node with that id |
| Editor.SceneIdInjective | src/app/code/page.tsx:301 | different counter values generate different ids |
| Editor.SceneIdNotInitial | src/app/code/page.tsx:269-301 | no generated id is "start" or "color-picker" |
| Editor.FreshSceneId | src/app/code/page.tsx:294-308 | an id issued below the counter differs from the id the counter generates next |
| Editor.EditorPage.constructor | src/app/code/page.tsx:267-294 | the editor starts with the "start" and "color-picker" nodes and counter 2, with distinct ids |
| Editor.EditorPage.AddNode | src/app/code/page.tsx:300-309 | appends a scene node with id "scene" + counter, text "New scene text..." and no choices, then increments the counter; the new id is absent from the old nodes and ids stay pairwise distinct |
| Editor.EditorPage.OnChange | src/app/code/page.tsx:333-339 | the nodes become the mapped list, the set of ids is unchanged and the id invariant holds |
| Editor.EditorPage.StartPlay | src/app/code/page.tsx:311-318 | the scene map's keys are exactly the node ids, including "color-picker", and each id maps to its own node's scene |

## Left out

- Rendering, styling, ReactFlow (`addEdge`, `onConnect`, `useNodesState`), the colour-picker widget, and the accent-colour and tab-title state are all left out. They are UI or a library outside this model. Deletion and dragging of nodes by ReactFlow are also not modelled. Deletion would keep ids distinct.
- `Math.random` is left out. Damage rolls are bounded parameters, and node positions are not modelled.
- Timers are reduced to the order of events. The 1000 ms and 2000 ms delays are not modelled. Each continuation is a method that the caller invokes after the action that returned its `Pending` value.
- Transport is left out:
  - `fetch('/scenes.json')` is the `ScenesFetched` parameter;
  - `localStorage` and `JSON.parse` are the `Stored` parameter of `Mount`. `Stored.Parsed` carries only well-formed scenes. Parsed data that is not such a map is not modelled: a non-object, a key whose value is falsy (with `{"start": null}` line 54 shows the not-found screen although "start" is a key), or a scene without `choices` (line 120 then throws);
  - `JSON.stringify`, `encodeURIComponent` and `window.open` in `startPlay` are not modelled. `StartPlay` returns the map instead.
- No encode/decode round trip is modelled. The editor sends its data in a query string, but the player reads local storage, so the code has no round trip.
- Home.HomePage.HandleChoice: `router.push` is modelled as a pushed scene id. How the browser parses an unencoded id with `&` or `#` back into `?scene=` is not modelled.
- Home.HomePage.EnemyAttack: applies the retaliation to the current record. The page as written applies it to the record captured before the attack. See `RetaliationAsWritten` and the findings below.
- Home.HomePage.PlayerAttack: requires the intended guard, which also checks that the player is alive. The button as written omits that check. See the findings below.
- Editor.UpdateChoice: requires an index inside the list. Its only callers pass indices from `choices.map`. An index past the end would make a sparse array, which is not modelled.
- The scene node's local `text` and `choices` state is left out. The edits are modelled on the node data, and `HandleTextChange` takes whatever text the node sends. The local state does not always mirror the data:
  - the local text starts at `data.text || 'Enter scene text...'` (src/app/code/page.tsx:99), and the node types are rebuilt, remounting every scene node, whenever the accent colour or tab title changes (src/app/code/page.tsx:326-359);
  - so a node whose text was cleared to "" shows the placeholder after a remount, and its next blur (src/app/code/page.tsx:148-151) writes the placeholder into the data. This remount behaviour is not modelled.
- The cosmetic `bug.js` loader with its `BugController` and `SpiderController` is left out. So are the health-bar widths, which are float divisions.
- `src/app/start/page.tsx` is not part of this model. Its only logic is the choice assignment already modelled for the player.

## Findings

| source | as written | input that shows it | evidently intended | confidence | as-written member | corrected member |
|---|---|---|---|---|---|---|
| src/app/play/page.tsx:52-54 | `!scenes[currentScene]` is false for names inherited from Object.prototype, so the scene branch renders a function and `choices.map` throws | any non-empty map and a choice whose target is "constructor" | the "not found" screen for that id | not executed; high | Play.InheritedNameCrashesPlayer | Play.ScreenOf |
| src/app/page.tsx:91 | `sceneParam && scenes[sceneParam]` accepts inherited names | `?scene=constructor` with any scene map | adopt only keys of the map | not executed; high | Home.InheritedNameAdopted | Home.HomePage.AdoptDeepLink |
| src/app/page.tsx:290 | the attack button checks only the turn and the enemy's health | enemy roll of 5 at player health 5 with the enemy at 30: the player is at 0 and the button stays enabled until the defeat continuation fires | no attack once the player is defeated | not executed; medium | Home.DefeatedPlayerCanStillAttack | Home.HomePage.PlayerAttack |
| src/app/page.tsx:130-137 | the retaliation scheduled by `setTimeout(enemyAttack)` reads the `battle` of the render before the attack and overwrites the log | first attack of a spider battle with roll 10, enemy roll 5 | keep the player's attack line in the log | not executed; high | Home.RetaliationDropsAttackLine | Home.HomePage.EnemyAttack |
