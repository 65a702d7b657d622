/** The editor (src/app/code/page.tsx): the choice-list and text edits of a
    scene node, the node-list data mapper they report to, fresh scene ids
    from a counter, and the scene map built for playing. */
module Editor {
  import opened Adventure

  datatype NodeKind = SceneNode | ColorPickerNode

  /** A node's free-form `data` object; every field may be absent. */
  datatype NodeData = NodeData(text: Option<string>, choices: Option<seq<Choice>>, title: Option<string>)

  /** A graph node (its canvas position is not modelled). */
  datatype Node = Node(id: string, kind: NodeKind, data: NodeData)

  // ---------------------------------------------------------------------
  // Edits of one scene node.

  const NewChoice := Choice("New choice", "")

  /** `addChoice`: one blank choice at the end. */
  function AddChoice(choices: seq<Choice>): (r: seq<Choice>)
    ensures |r| == |choices| + 1
    ensures r[..|choices|] == choices
    ensures r[|choices|] == NewChoice
  {
    choices + [NewChoice]
  }

  /** The two fields the choice inputs edit. */
  datatype Field = TextField | NextSceneField

  function SetField(c: Choice, field: Field, value: string): (r: Choice)
    ensures field == TextField ==> r.text == value && r.nextScene == c.nextScene
    ensures field == NextSceneField ==> r.nextScene == value && r.text == c.text
  {
    match field
    case TextField => c.(text := value)
    case NextSceneField => c.(nextScene := value)
  }

  /** `updateChoice(index, field, value)`: only that field of that choice. */
  function UpdateChoice(choices: seq<Choice>, index: nat, field: Field, value: string): (r: seq<Choice>)
    requires index < |choices|
    ensures |r| == |choices|
    ensures forall k :: 0 <= k < |r| && k != index ==> r[k] == choices[k]
    ensures r[index] == SetField(choices[index], field, value)
  {
    choices[index := SetField(choices[index], field, value)]
  }

  /** `choices.filter((_, i) => i !== index)`, from position `from` on. */
  function FilterOutIndex(choices: seq<Choice>, index: int, from: nat): seq<Choice>
    requires from <= |choices|
    decreases |choices| - from
  {
    if from == |choices| then []
    else (if from != index then [choices[from]] else []) + FilterOutIndex(choices, index, from + 1)
  }

  /** The filter keeps everything after `from` except position `index`. */
  lemma {:induction false} FilterOutIndexSplice(choices: seq<Choice>, index: int, from: nat)
    requires from <= |choices|
    ensures FilterOutIndex(choices, index, from) ==
              if from <= index < |choices| then choices[from..index] + choices[index + 1..]
              else choices[from..]
    decreases |choices| - from
  {
    if from < |choices| {
      FilterOutIndexSplice(choices, index, from + 1);
      if from == index {
        assert choices[from..index] == [];
      } else if from < index < |choices| {
        assert choices[from..index] == [choices[from]] + choices[from + 1..index];
      } else {
        assert choices[from..] == [choices[from]] + choices[from + 1..];
      }
    }
  }

  /** `deleteChoice(index)`: exactly that choice goes, the rest keep their
      order; an index outside the list changes nothing. */
  function DeleteChoice(choices: seq<Choice>, index: int): (r: seq<Choice>)
    ensures 0 <= index < |choices| ==>
              |r| == |choices| - 1 &&
              (forall k :: 0 <= k < index ==> r[k] == choices[k]) &&
              (forall k :: index <= k < |r| ==> r[k] == choices[k + 1])
    ensures !(0 <= index < |choices|) ==> r == choices
  {
    FilterOutIndexSplice(choices, index, 0);
    FilterOutIndex(choices, index, 0)
  }

  /** `choices || []` for the node's data. */
  function ChoicesOf(data: NodeData): (r: seq<Choice>)
    ensures data.choices.Some? ==> r == data.choices.value
    ensures data.choices.None? ==> r == []
  {
    if data.choices.Some? then data.choices.value else []
  }

  /** `{ ...data, text: newText }`, sent by `handleTextChange`. */
  function HandleTextChange(data: NodeData, newText: string): (r: NodeData)
    ensures r.text == Some(newText)
    ensures r.choices == data.choices && r.title == data.title
  {
    data.(text := Some(newText))
  }

  /** `{ ...data, choices: newChoices }`, sent by the three choice edits. */
  function WithChoices(data: NodeData, newChoices: seq<Choice>): (r: NodeData)
    ensures ChoicesOf(r) == newChoices
    ensures r.text == data.text && r.title == data.title
  {
    data.(choices := Some(newChoices))
  }

  // ---------------------------------------------------------------------
  // The node list.

  /** The node `onChange` mapper: `data` is replaced on the nodes whose id
      is `nodeId`; ids, kinds, count and order are kept. */
  function ReplaceData(nodes: seq<Node>, nodeId: string, newData: NodeData): (r: seq<Node>)
    ensures |r| == |nodes|
    ensures forall k :: 0 <= k < |r| ==> r[k].id == nodes[k].id && r[k].kind == nodes[k].kind
    ensures forall k :: 0 <= k < |r| ==> r[k].data == if nodes[k].id == nodeId then newData else nodes[k].data
  {
    if nodes == [] then []
    else [if nodes[0].id == nodeId then nodes[0].(data := newData) else nodes[0]]
         + ReplaceData(nodes[1..], nodeId, newData)
  }

  predicate DistinctIds(nodes: seq<Node>)
  {
    forall i, j :: 0 <= i < j < |nodes| ==> nodes[i].id != nodes[j].id
  }

  function Ids(nodes: seq<Node>): set<string>
  {
    set k | 0 <= k < |nodes| :: nodes[k].id
  }

  /** The scene a node contributes: `text || ''` and `choices || []`. */
  function SceneOfData(data: NodeData): (s: Scene)
    ensures data.text.Some? ==> s.text == data.text.value
    ensures data.text.None? ==> s.text == ""
    ensures s.choices == ChoicesOf(data)
  {
    Scene(if data.text.Some? then data.text.value else "", ChoicesOf(data))
  }

  /** No node after position `i` and before position `end` has node i's id. */
  predicate LastWithIdBefore(nodes: seq<Node>, i: int, end: int)
    requires 0 <= i < end <= |nodes|
  {
    forall j :: i < j < end ==> nodes[j].id != nodes[i].id
  }

  /** One more node adds exactly its id to the ids seen so far. */
  lemma IdsOfLongerPrefix(nodes: seq<Node>, k: nat)
    requires k < |nodes|
    ensures Ids(nodes[..k + 1]) == Ids(nodes[..k]) + {nodes[k].id}
  {
  }

  /** What `startPlay`'s loop has built after the first `k` nodes. */
  ghost predicate BuiltUpTo(nodes: seq<Node>, k: nat, scenes: SceneMap)
    requires k <= |nodes|
  {
    scenes.Keys == Ids(nodes[..k]) &&
    forall i :: 0 <= i < k && LastWithIdBefore(nodes, i, k) ==>
      nodes[i].id in scenes && scenes[nodes[i].id] == SceneOfData(nodes[i].data)
  }

  /** One step of the loop extends what has been built by node `k`. */
  lemma BuildStep(nodes: seq<Node>, k: nat, scenes: SceneMap)
    requires k < |nodes| && BuiltUpTo(nodes, k, scenes)
    ensures BuiltUpTo(nodes, k + 1, scenes[nodes[k].id := SceneOfData(nodes[k].data)])
  {
    IdsOfLongerPrefix(nodes, k);
    var next := scenes[nodes[k].id := SceneOfData(nodes[k].data)];
    forall i | 0 <= i < k + 1 && LastWithIdBefore(nodes, i, k + 1)
      ensures nodes[i].id in next && next[nodes[i].id] == SceneOfData(nodes[i].data)
    {
      if i < k {
        assert nodes[k].id != nodes[i].id;
        assert LastWithIdBefore(nodes, i, k);
      }
    }
  }

  /** `startPlay`'s loop: every node id is a key, and a key holds the scene
      of the last node with that id. */
  method BuildScenes(nodes: seq<Node>) returns (scenes: SceneMap)
    ensures scenes.Keys == Ids(nodes)
    ensures forall i :: 0 <= i < |nodes| && LastWithIdBefore(nodes, i, |nodes|) ==>
              scenes[nodes[i].id] == SceneOfData(nodes[i].data)
  {
    scenes := map[];
    var k := 0;
    while k < |nodes|
      invariant 0 <= k <= |nodes|
      invariant BuiltUpTo(nodes, k, scenes)
    {
      BuildStep(nodes, k, scenes);
      scenes := scenes[nodes[k].id := SceneOfData(nodes[k].data)];
      k := k + 1;
    }
    assert nodes[..k] == nodes;
  }

  // ---------------------------------------------------------------------
  // Fresh scene ids.

  function SceneId(n: nat): string
  {
    "scene" + NatToString(n)
  }

  /** Different counter values give different ids. */
  lemma SceneIdInjective(m: nat, n: nat)
    requires SceneId(m) == SceneId(n)
    ensures m == n
  {
    assert NatToString(m) == SceneId(m)[5..];
    assert NatToString(n) == SceneId(n)[5..];
    NatToStringInjective(m, n);
  }

  /** No generated id is one of the two ids the editor starts with. */
  lemma SceneIdNotInitial(n: nat)
    ensures SceneId(n) != "start" && SceneId(n) != "color-picker"
  {
    assert SceneId(n)[1] == 'c';
    assert SceneId(n)[0] == 's';
  }

  const InitialNodes: seq<Node> := [
    Node("start", SceneNode,
         NodeData(Some("Welcome to your adventure!\n\nWhat do you want to do?"),
                  Some([Choice("Explore the forest", "forest"), Choice("Enter the cave", "cave")]),
                  None)),
    Node("color-picker", ColorPickerNode, NodeData(None, None, Some("My Adventure")))
  ]

  /** The text and choices `addNode` gives a new scene. */
  const NewSceneData := NodeData(Some("New scene text..."), Some([]), None)

  /** `id` is an initial id or one generated from a counter below `counter`. */
  ghost predicate Issued(id: string, counter: nat)
  {
    id == "start" || id == "color-picker" || exists n: nat :: 2 <= n < counter && id == SceneId(n)
  }

  /** An id issued below `counter` is not the id `counter` generates. */
  lemma FreshSceneId(id: string, counter: nat)
    requires Issued(id, counter)
    ensures id != SceneId(counter)
  {
    if id == "start" || id == "color-picker" {
      SceneIdNotInitial(counter);
    } else {
      var n: nat :| 2 <= n < counter && id == SceneId(n);
      if id == SceneId(counter) {
        SceneIdInjective(n, counter);
      }
    }
  }

  class EditorPage {
    var nodes: seq<Node>
    var nodeIdCounter: nat

    /** Node ids are pairwise distinct and none is the next generated id. */
    ghost predicate Valid()
      reads this
    {
      nodeIdCounter >= 2 &&
      DistinctIds(nodes) &&
      forall k :: 0 <= k < |nodes| ==> Issued(nodes[k].id, nodeIdCounter)
    }

    constructor ()
      ensures Valid()
      ensures nodes == InitialNodes && nodeIdCounter == 2
    {
      nodes := InitialNodes;
      nodeIdCounter := 2;
    }

    /** `addNode`: a new scene node with the counter's id, then the counter
        moves on; the new id is unlike every id already present. */
    method AddNode()
      requires Valid()
      modifies this
      ensures Valid()
      ensures nodes == old(nodes) + [Node(SceneId(old(nodeIdCounter)), SceneNode, NewSceneData)]
      ensures nodeIdCounter == old(nodeIdCounter) + 1
      ensures SceneId(old(nodeIdCounter)) !in Ids(old(nodes))
    {
      var id := SceneId(nodeIdCounter);
      forall k | 0 <= k < |nodes|
        ensures nodes[k].id != id && Issued(nodes[k].id, nodeIdCounter + 1)
      {
        FreshSceneId(nodes[k].id, nodeIdCounter);
      }
      nodes := nodes + [Node(id, SceneNode, NewSceneData)];
      nodeIdCounter := nodeIdCounter + 1;
    }

    /** The `onChange` callback a scene node calls with its new data. */
    method OnChange(nodeId: string, newData: NodeData)
      requires Valid()
      modifies this`nodes
      ensures Valid()
      ensures nodes == ReplaceData(old(nodes), nodeId, newData)
      ensures Ids(nodes) == Ids(old(nodes))
    {
      nodes := ReplaceData(nodes, nodeId, newData);
    }

    /** `startPlay`'s scene map: one entry per node, color picker included. */
    method StartPlay() returns (scenes: SceneMap)
      requires Valid()
      ensures scenes.Keys == Ids(nodes)
      ensures forall k :: 0 <= k < |nodes| ==> scenes[nodes[k].id] == SceneOfData(nodes[k].data)
    {
      scenes := BuildScenes(nodes);
    }
  }
}
