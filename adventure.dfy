/** The adventure document shared by the landing page, the player and the
    editor, together with the two pieces of JavaScript behaviour every page
    relies on: `${n}` formatting of a whole number, and `scenes[id]` lookup
    on a plain object. */
module Adventure {

  datatype Option<T> = None | Some(value: T)

  /** A labelled button; `nextScene` is a scene id or a control token. */
  datatype Choice = Choice(text: string, nextScene: string)

  /** One node of narrative content; `choices` are in display order. */
  datatype Scene = Scene(text: string, choices: seq<Choice>)

  /** The adventure document: scene id to scene, ids case-sensitive. */
  type SceneMap = map<string, Scene>

  // ---------------------------------------------------------------------
  // Decimal formatting of non-negative whole numbers, as a template literal
  // prints them: no sign, no leading zero.

  predicate IsDigits(s: string)
  {
    forall i :: 0 <= i < |s| ==> '0' <= s[i] <= '9'
  }

  function DigitChar(d: nat): (c: char)
    requires d < 10
    ensures '0' <= c <= '9' && c as int - '0' as int == d
  {
    (d + '0' as int) as char
  }

  function NatToString(n: nat): (s: string)
    ensures |s| >= 1 && IsDigits(s)
    ensures s[0] == '0' <==> n == 0
    decreases n
  {
    if n < 10 then [DigitChar(n)] else NatToString(n / 10) + [DigitChar(n % 10)]
  }

  /** Reads a string of decimal digits back as the number it denotes. */
  function DigitsValue(s: string): nat
    requires IsDigits(s)
  {
    if s == [] then 0 else 10 * DigitsValue(s[..|s| - 1]) + (s[|s| - 1] as int - '0' as int)
  }

  /** Formatting and reading back are inverse. */
  lemma {:induction false} DigitsValueOfNatToString(n: nat)
    ensures DigitsValue(NatToString(n)) == n
  {
    if n >= 10 {
      var s := NatToString(n);
      assert s[..|s| - 1] == NatToString(n / 10);
      DigitsValueOfNatToString(n / 10);
    }
  }

  /** Distinct numbers print as distinct strings. */
  lemma NatToStringInjective(m: nat, n: nat)
    requires NatToString(m) == NatToString(n)
    ensures m == n
  {
    DigitsValueOfNatToString(m);
    DigitsValueOfNatToString(n);
  }

  // ---------------------------------------------------------------------
  // `scenes[id]` on a JavaScript object made by JSON parsing. Besides the
  // object's own keys, every name Object.prototype defines (sections 20.1.3
  // and B.2.2 of ECMAScript 2023) yields a truthy value that is not a scene.

  const InheritedNames: set<string> := {
    "constructor", "hasOwnProperty", "isPrototypeOf", "propertyIsEnumerable",
    "toLocaleString", "toString", "valueOf", "__proto__",
    "__defineGetter__", "__defineSetter__", "__lookupGetter__", "__lookupSetter__"
  }

  /** What `scenes[id]` evaluates to. */
  datatype Lookup = OwnScene(scene: Scene) | InheritedMember(name: string) | Undefined
  {
    /** JavaScript truthiness: objects and functions are truthy. */
    predicate Truthy() { !Undefined? }
  }

  function JsLookup(scenes: SceneMap, id: string): (r: Lookup)
    ensures r.OwnScene? <==> id in scenes
    ensures r.OwnScene? ==> r.scene == scenes[id]
    ensures r.InheritedMember? <==> id !in scenes && id in InheritedNames
    ensures r.Truthy() <==> id in scenes || id in InheritedNames
  {
    if id in scenes then OwnScene(scenes[id])
    else if id in InheritedNames then InheritedMember(id)
    else Undefined
  }
}
