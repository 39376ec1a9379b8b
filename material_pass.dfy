/**
 * The material pass of the loaded model (src/components/Scene.tsx,
 * `applyMaterialSettings`): every standard material of every mesh in the
 * scene is cloned the first time it is seen, so that a material shared
 * between meshes is never changed in place, and then receives the global
 * roughness and metalness and the colour of the part the mesh belongs to.
 */
module MaterialPass {
  import opened Values
  import opened PartColors

  /** What the pass reads and writes of one material. */
  datatype MatState = MatState(standard: bool, roughness: real, metalness: real, color: Value,
                               isCloned: bool, needsUpdate: bool)

  /**
   * A `[0, 1]` material property after the pass: a numeric, non-NaN setting
   * is clamped into the unit interval and replaces the current value; any
   * other setting leaves the current value alone.
   */
  function UnitSetting(setting: Option<Value>, current: real): (r: real)
    ensures FiniteNumber(setting).None? ==> r == current
    ensures FiniteNumber(setting).Some? ==> 0.0 <= r <= 1.0
    ensures FiniteNumber(setting).Some? && 0.0 <= FiniteNumber(setting).value <= 1.0 ==> r == FiniteNumber(setting).value
    ensures FiniteNumber(setting).Some? && FiniteNumber(setting).value < 0.0 ==> r == 0.0
    ensures FiniteNumber(setting).Some? && 1.0 < FiniteNumber(setting).value ==> r == 1.0
  {
    match FiniteNumber(setting)
    case Some(v) => Clamp(0.0, 1.0, v)
    case None => current
  }

  /** The colour the pass writes into a material of the node `name`, if any. */
  function ColorFor(s: Settings, name: string): (c: Option<Value>)
    ensures c.Some? <==> ResolvePart(SelectedModel(s), name).Some? &&
                         Truthy(Lookup(s, ColorKey(ResolvePart(SelectedModel(s), name).value)))
    ensures c.Some? ==> c.value == s[ColorKey(ResolvePart(SelectedModel(s), name).value)]
  {
    PartColor(s, ResolvePart(SelectedModel(s), name))
  }

  /** One material slot of the mesh `name` after the pass. */
  function SlotAfterPass(m: MatState, s: Settings, name: string): (r: MatState)
    ensures !m.standard ==> r == m
    ensures r.standard == m.standard
    ensures m.standard ==> r.isCloned && r.needsUpdate
    ensures m.standard ==> r.roughness == UnitSetting(Lookup(s, "roughness"), m.roughness)
    ensures m.standard ==> r.metalness == UnitSetting(Lookup(s, "metalness"), m.metalness)
    ensures r.color != m.color ==> m.standard && ColorFor(s, name).Some?
    ensures m.standard && ColorFor(s, name).Some? ==> r.color == ColorFor(s, name).value
  {
    if !m.standard then m
    else
      var c := ColorFor(s, name);
      m.(roughness := UnitSetting(Lookup(s, "roughness"), m.roughness),
         metalness := UnitSetting(Lookup(s, "metalness"), m.metalness),
         color := if c.Some? then c.value else m.color,
         isCloned := true,
         needsUpdate := true)
  }

  /** What the pass sees of one scene node: its name, whether it is a mesh, and its material slots. */
  datatype NodeState = NodeState(name: string, isMesh: bool, slots: seq<MatState>)

  /** One node after the pass: a mesh has every slot processed, any other node is left as it is. */
  function NodeAfterPass(n: NodeState, s: Settings): (r: NodeState)
    ensures r.name == n.name && r.isMesh == n.isMesh && |r.slots| == |n.slots|
    ensures !n.isMesh ==> r == n
    ensures n.isMesh ==> forall j :: 0 <= j < |n.slots| ==> r.slots[j] == SlotAfterPass(n.slots[j], s, n.name)
  {
    if n.isMesh then n.(slots := seq(|n.slots|, j requires 0 <= j < |n.slots| => SlotAfterPass(n.slots[j], s, n.name)))
    else n
  }

  /** A node whose every slot has been processed slot by slot is the node after the pass. */
  lemma SlotwiseIsNodeAfterPass(n: NodeState, s: Settings, after: seq<MatState>)
    requires n.isMesh && |after| == |n.slots|
    requires forall k :: 0 <= k < |after| ==> after[k] == SlotAfterPass(n.slots[k], s, n.name)
    ensures n.(slots := after) == NodeAfterPass(n, s)
  {
  }

  /** Running the pass again with the same settings changes nothing. */
  lemma PassIsIdempotent(n: NodeState, s: Settings)
    ensures NodeAfterPass(NodeAfterPass(n, s), s) == NodeAfterPass(n, s)
  {
    var once := NodeAfterPass(n, s);
    assert NodeAfterPass(once, s).slots == once.slots;
  }

  /** After one pass every standard material of a mesh carries the clone mark, so a later pass clones nothing. */
  lemma PassMarksEveryStandardMaterial(n: NodeState, s: Settings, j: nat)
    requires n.isMesh && j < |n.slots| && n.slots[j].standard
    ensures NodeAfterPass(n, s).slots[j].isCloned
  {
  }

  /**
   * Because the pass mutates its clones in place, a later pass whose colour
   * for a part is falsy keeps the colour an earlier pass wrote: clearing a
   * part colour does not bring back the model's own colour.
   */
  lemma ClearedColorIsKept(m: MatState, s1: Settings, s2: Settings, name: string)
    requires ColorFor(s2, name).None?
    ensures SlotAfterPass(SlotAfterPass(m, s1, name), s2, name).color == SlotAfterPass(m, s1, name).color
  {
  }

  /** A numeric roughness or metalness of a later pass wins over whatever an earlier pass wrote. */
  lemma LaterNumericSettingWins(m: MatState, s1: Settings, s2: Settings, name: string)
    requires m.standard
    requires FiniteNumber(Lookup(s2, "roughness")).Some? && FiniteNumber(Lookup(s2, "metalness")).Some?
    ensures SlotAfterPass(SlotAfterPass(m, s1, name), s2, name).roughness == SlotAfterPass(m, s2, name).roughness
    ensures SlotAfterPass(SlotAfterPass(m, s1, name), s2, name).metalness == SlotAfterPass(m, s2, name).metalness
  {
  }

  /** With the 2-piece model selected, the third and fourth part colours have no effect on any material. */
  lemma TwoPieceIgnoresThirdAndFourthColors(m: MatState, s: Settings, name: string, c3: Value, c4: Value)
    requires SelectedModel(s) == TwoPiece
    ensures SlotAfterPass(m, s["part3Color" := c3]["part4Color" := c4], name) == SlotAfterPass(m, s, name)
  {
    var t := s["part3Color" := c3]["part4Color" := c4];
    assert Lookup(t, "selectedModel") == Lookup(s, "selectedModel");
    assert SelectedModel(t) == TwoPiece;
    assert Lookup(t, "roughness") == Lookup(s, "roughness");
    assert Lookup(t, "metalness") == Lookup(s, "metalness");
    assert Lookup(t, ColorKey(Part1)) == Lookup(s, ColorKey(Part1));
    assert Lookup(t, ColorKey(Part2)) == Lookup(s, ColorKey(Part2));
  }

  /** A material; `isCloned` stands for `userData.isCloned`, `owner` and `ownerSlot` record which slot a clone was made for. */
  class Material {
    const standard: bool
    var roughness: real
    var metalness: real
    var color: Value
    var isCloned: bool
    var needsUpdate: bool
    ghost var owner: Node?
    ghost var ownerSlot: nat

    constructor (standard: bool, roughness: real, metalness: real, color: Value, isCloned: bool)
      ensures State() == MatState(standard, roughness, metalness, color, isCloned, false)
      ensures owner == null
    {
      this.standard := standard;
      this.roughness := roughness;
      this.metalness := metalness;
      this.color := color;
      this.isCloned := isCloned;
      needsUpdate := false;
      owner := null;
      ownerSlot := 0;
    }

    /** `material.clone()`: a new material with the same properties. */
    constructor Clone(src: Material)
      ensures State() == src.State().(needsUpdate := false)
      ensures owner == null
    {
      standard := src.standard;
      roughness := src.roughness;
      metalness := src.metalness;
      color := src.color;
      isCloned := src.isCloned;
      needsUpdate := false;
      owner := null;
      ownerSlot := 0;
    }

    function State(): MatState
      reads this
    {
      MatState(standard, roughness, metalness, color, isCloned, needsUpdate)
    }
  }

  /** The states of a sequence of materials. */
  function States(ms: seq<Material>): (r: seq<MatState>)
    reads set m | m in ms
    ensures |r| == |ms| && forall j :: 0 <= j < |ms| ==> r[j] == ms[j].State()
  {
    seq(|ms|, j reads set m | m in ms requires 0 <= j < |ms| => ms[j].State())
  }

  /**
   * A scene node. `child.material` is either one material (possibly null)
   * or an array of materials; `isList` says which.
   */
  class Node {
    const name: string
    const isMesh: bool
    const isList: bool
    var single: Material?
    const list: array<Material>

    constructor (name: string, isMesh: bool, single: Material?, list: array<Material>, isList: bool)
      ensures this.name == name && this.isMesh == isMesh && this.single == single
      ensures this.list == list && this.isList == isList
    {
      this.name := name;
      this.isMesh := isMesh;
      this.single := single;
      this.list := list;
      this.isList := isList;
    }

    /** The array this node's material slots live in, if it has one. */
    function ListFrame(): set<object> {
      if isList then {list} else {}
    }

    /** `Array.isArray(child.material) ? child.material : [child.material]`, with a null material giving no slot. */
    function Slots(): (r: seq<Material>)
      reads this, ListFrame()
      ensures isList ==> r == list[..]
      ensures !isList ==> (|r| == 1 <==> single != null) && |r| <= 1
      ensures !isList && single != null ==> r[0] == single
    {
      if isList then list[..] else if single != null then [single] else []
    }

    function Materials(): set<Material>
      reads this, ListFrame()
    {
      set m | m in Slots()
    }

    function State(): NodeState
      reads this, ListFrame(), Materials()
    {
      NodeState(name, isMesh, States(Slots()))
    }

    /** The materials that are this node's own clones. */
    function Owned(): set<Material>
      reads this, ListFrame(), Materials()
    {
      set m | m in Materials() && m.standard && m.isCloned
    }

    /** Every marked standard material in a slot of this node was cloned for exactly that slot, so none is shared. */
    ghost predicate OwnsItsClones()
      reads this, ListFrame(), Materials()
    {
      forall j :: 0 <= j < |Slots()| && Slots()[j].standard && Slots()[j].isCloned ==>
        Slots()[j].owner == this && Slots()[j].ownerSlot == j
    }
  }

  /**
   * The body of `materials.forEach` for the slot `slot` of `node`: an
   * unmarked standard material is replaced by a marked clone, and the
   * material in the slot then takes the settings.
   */
  method ProcessSlot(material: Material, s: Settings, name: string, ghost node: Node, ghost slot: nat)
    returns (result: Material)
    requires material.standard && material.isCloned ==> material.owner == node && material.ownerSlot == slot
    modifies if material.standard && material.isCloned then {material} else {}
    ensures result.State() == SlotAfterPass(old(material.State()), s, name)
    ensures !material.standard || old(material.isCloned) ==> result == material
    ensures material.standard && !old(material.isCloned) ==> fresh(result)
    ensures result.standard && result.isCloned ==> result.owner == node && result.ownerSlot == slot
  {
    result := material;
    if material.standard {
      if !material.isCloned {
        result := new Material.Clone(material);
        result.isCloned := true;
        result.owner := node;
        result.ownerSlot := slot;
      }
      match FiniteNumber(Lookup(s, "roughness")) {
        case Some(v) => result.roughness := Clamp(0.0, 1.0, v);
        case None =>
      }
      match FiniteNumber(Lookup(s, "metalness")) {
        case Some(v) => result.metalness := Clamp(0.0, 1.0, v);
        case None =>
      }
      var c := ColorFor(s, name);
      if c.Some? {
        result.color := c.value;
      }
      result.needsUpdate := true;
    }
  }

  /**
   * Clone-once, slot by slot: on a mesh, an unmarked standard material has
   * been replaced in its own slot by a new object; every other slot, and
   * every slot of a node that is not a mesh, holds the object it held before.
   */
  twostate predicate CloneOnce(node: Node)
    reads node, node.ListFrame(), node.Materials()
  {
    |node.Slots()| == |old(node.Slots())| &&
    forall j :: 0 <= j < |node.Slots()| ==>
      if node.isMesh && old(node.Slots()[j].standard && !node.Slots()[j].isCloned) then fresh(node.Slots()[j])
      else node.Slots()[j] == old(node.Slots()[j])
  }

  /**
   * A node whose standard materials were all marked before a visit holds
   * the same objects after it: a second pass allocates nothing new.
   */
  twostate lemma MarkedNodeKeepsItsObjects(node: Node)
    requires CloneOnce(node)
    requires old(forall j :: 0 <= j < |node.Slots()| && node.Slots()[j].standard ==> node.Slots()[j].isCloned)
    ensures node.Slots() == old(node.Slots())
  {
  }

  /**
   * One visit of `traverse`: a mesh has each of its material slots
   * processed in order, and a clone is written back into the slot it
   * replaces; any other node is left alone.
   */
  method ApplyToNode(node: Node, s: Settings)
    requires node.OwnsItsClones()
    modifies node, node.ListFrame(), node.Owned()
    ensures node.State() == NodeAfterPass(old(node.State()), s)
    ensures node.OwnsItsClones()
    ensures CloneOnce(node)
  {
    if !node.isMesh {
      return;
    }
    if node.isList {
      ApplyToList(node, s);
    } else {
      ApplyToSingle(node, s);
    }
  }

  /** `materials.forEach` over the array in `child.material`, writing each clone back at its index. */
  method ApplyToList(node: Node, s: Settings)
    requires node.isMesh && node.isList && node.OwnsItsClones()
    modifies node.list, node.Owned()
    ensures node.State() == NodeAfterPass(old(node.State()), s)
    ensures node.OwnsItsClones()
    ensures forall j :: 0 <= j < node.list.Length ==>
              if old(node.list[j].standard && !node.list[j].isCloned) then fresh(node.list[j]) else node.list[j] == old(node.list[j])
  {
    ghost var before := node.list[..];
    ghost var states := States(before);
    assert old(node.State()).slots == states;
    var j := 0;
    while j < node.list.Length
      invariant 0 <= j <= node.list.Length
      invariant forall k :: j <= k < node.list.Length ==> node.list[k] == before[k]
      invariant forall k :: j <= k < node.list.Length ==> node.list[k].State() == states[k]
      invariant forall k :: 0 <= k < j ==> node.list[k].State() == SlotAfterPass(states[k], s, node.name)
      invariant forall k :: 0 <= k < j ==>
                  if states[k].standard && !states[k].isCloned then fresh(node.list[k]) else node.list[k] == before[k]
      invariant ListOwnsItsClones(node)
    {
      ProcessListSlot(node, s, j);
      j := j + 1;
    }
    SlotwiseIsNodeAfterPass(old(node.State()), s, States(node.list[..]));
  }

  /** The single material in `child.material`, replaced by its clone when one is made; a null material is skipped. */
  method ApplyToSingle(node: Node, s: Settings)
    requires node.isMesh && !node.isList && node.OwnsItsClones()
    modifies node, node.Owned()
    ensures node.State() == NodeAfterPass(old(node.State()), s)
    ensures node.OwnsItsClones()
    ensures (node.single == null) == (old(node.single) == null)
    ensures if old(node.single != null && node.single.standard && !node.single.isCloned) then fresh(node.single)
            else node.single == old(node.single)
  {
    if node.single != null {
      assert node.Slots()[0] == node.single;
      var m := ProcessSlot(node.single, s, node.name, node, 0);
      node.single := m;
      assert States(node.Slots()) == NodeAfterPass(old(node.State()), s).slots;
    }
  }

  /** Marks every clone in the array of `node` as made for the slot it sits in. */
  ghost predicate ListOwnsItsClones(node: Node)
    reads node.list, set k | 0 <= k < node.list.Length :: node.list[k]
  {
    forall k :: 0 <= k < node.list.Length && node.list[k].standard && node.list[k].isCloned ==>
      node.list[k].owner == node && node.list[k].ownerSlot == k
  }

  /** One iteration of `forEach` over an array: process the material at `j` and write the result back at `j`. */
  method ProcessListSlot(node: Node, s: Settings, j: nat)
    requires j < node.list.Length && ListOwnsItsClones(node)
    modifies node.list, if node.list[j].standard && node.list[j].isCloned then {node.list[j]} else {}
    ensures node.list[j].State() == SlotAfterPass(old(node.list[j].State()), s, node.name)
    ensures if old(node.list[j].standard && !node.list[j].isCloned) then fresh(node.list[j]) else node.list[j] == old(node.list[j])
    ensures forall k :: 0 <= k < node.list.Length && k != j ==> node.list[k] == old(node.list[k])
    ensures forall k :: 0 <= k < node.list.Length && k != j ==> node.list[k].State() == old(node.list[k].State())
    ensures ListOwnsItsClones(node)
  {
    var m := ProcessSlot(node.list[j], s, node.name, node, j);
    node.list[j] := m;
  }

  /** A marked standard material in a slot of a node that owns its clones was cloned for that node. */
  lemma OwnerOfMarked(n: Node, m: Material)
    requires n.OwnsItsClones() && m in n.Materials() && m.standard && m.isCloned
    ensures m.owner == n
  {
    var j :| 0 <= j < |n.Slots()| && n.Slots()[j] == m;
  }

  /** Two different nodes that own their clones share no material the pass may change. */
  lemma OwnedNotShared(a: Node, b: Node)
    requires a != b && a.OwnsItsClones() && b.OwnsItsClones()
    ensures forall m :: m in a.Owned() ==> m !in b.Materials()
  {
    forall m | m in a.Owned() && m in b.Materials()
      ensures false
    {
      OwnerOfMarked(a, m);
      OwnerOfMarked(b, m);
    }
  }

  /** The scene as `traverse` visits it: distinct nodes, no array of materials held by two nodes, no clone shared. */
  ghost predicate SceneOk(scene: seq<Node>)
    reads set i | 0 <= i < |scene| :: scene[i]
    reads set i, o | 0 <= i < |scene| && o in scene[i].ListFrame() :: o
    reads set i, m | 0 <= i < |scene| && m in scene[i].Materials() :: m
  {
    (forall i, j :: 0 <= i < j < |scene| ==> scene[i] != scene[j]) &&
    (forall i, j :: 0 <= i < j < |scene| && scene[i].isList && scene[j].isList ==> scene[i].list != scene[j].list) &&
    (forall i :: 0 <= i < |scene| ==> scene[i].OwnsItsClones())
  }

  /** A node none of whose objects changed still owns its clones. */
  twostate lemma UntouchedNodeOwnsItsClones(n: Node)
    requires old(n.OwnsItsClones())
    requires unchanged(n) && unchanged(n.ListFrame()) && unchanged(n.Materials())
    ensures n.OwnsItsClones()
  {
    assert n.Slots() == old(n.Slots());
  }

  /** The visit of the node at position `i`: every other node is left exactly as it was. */
  method ApplyToSceneNode(scene: seq<Node>, i: nat, s: Settings)
    requires i < |scene| && SceneOk(scene)
    modifies scene[i], scene[i].ListFrame(), scene[i].Owned()
    ensures scene[i].State() == NodeAfterPass(old(scene[i].State()), s)
    ensures CloneOnce(scene[i])
    ensures SceneOk(scene)
    ensures forall k :: 0 <= k < |scene| && k != i ==>
              unchanged(scene[k]) && unchanged(scene[k].ListFrame()) && unchanged(scene[k].Materials())
    ensures forall k :: 0 <= k < |scene| && k != i ==> scene[k].State() == old(scene[k].State())
  {
    forall k | 0 <= k < |scene| && k != i
      ensures forall m :: m in scene[i].Owned() ==> m !in scene[k].Materials()
    {
      OwnedNotShared(scene[i], scene[k]);
    }
    ApplyToNode(scene[i], s);
    forall k | 0 <= k < |scene| && k != i
      ensures scene[k].OwnsItsClones()
    {
      UntouchedNodeOwnsItsClones(scene[k]);
    }
  }

  /**
   * `applyMaterialSettings`: `gltf.scene.traverse` over every node, given
   * in traversal order. Each node ends as the pass describes it, and only
   * the nodes, their material arrays and their own clones are written, so
   * a material shared between meshes keeps its properties.
   */
  method ApplyMaterialSettings(scene: seq<Node>, s: Settings)
    requires SceneOk(scene)
    modifies set i | 0 <= i < |scene| :: scene[i]
    modifies set i, o | 0 <= i < |scene| && o in scene[i].ListFrame() :: o
    modifies set i, m | 0 <= i < |scene| && m in scene[i].Owned() :: m
    ensures forall i :: 0 <= i < |scene| ==> scene[i].State() == NodeAfterPass(old(scene[i].State()), s)
    ensures SceneOk(scene)
  {
    var i := 0;
    while i < |scene|
      invariant 0 <= i <= |scene|
      invariant SceneOk(scene)
      invariant forall k :: 0 <= k < i ==> scene[k].State() == NodeAfterPass(old(scene[k].State()), s)
      invariant forall k :: i <= k < |scene| ==>
                  unchanged(scene[k]) && unchanged(scene[k].ListFrame()) && unchanged(scene[k].Materials())
    {
      assert scene[i].Owned() == old(scene[i].Owned());
      ApplyToSceneNode(scene, i, s);
      i := i + 1;
    }
  }
}
