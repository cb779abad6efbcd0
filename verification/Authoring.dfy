/** Author actions on the world graph: what each does, and what any sequence of them keeps. */
module Authoring {
  import opened Base
  import opened Text

  const MAX_PIECE_KIND_LEN: nat := 64
  const MAX_RESOURCE_NAME_LEN: nat := 64
  const COORD_LIMIT: real := 1000000.0
  const AMOUNT_MAX: nat := 1_000_000
  const INTERVAL_MAX: nat := 10_000

  datatype Shape = Circle | Square | Triangle | Diamond | Hexagon
  datatype Coord = Finite(value: real) | NotFinite
  datatype Node = Node(id: u32, x: Coord, y: Coord, shape: Shape)
  datatype Path = Path(id: u32, from: u32, to: u32)
  datatype MoverState = Empty | Waiting(at: u32) | Traveling(path: u32)
  datatype Mover = Mover(id: u32, homePath: u32, state: MoverState)
  datatype Resource = Resource(id: u32, name: string, color: nat)
  datatype Rate = Rate(id: u32, resource: u32, amount: u64, interval: u32)

  datatype Graph = Graph(
    nodes: map<u32, Node>, paths: map<u32, Path>, movers: map<u32, Mover>,
    resources: map<u32, Resource>, inventory: map<u32, u64>,
    producers: map<u32, Rate>, consumers: map<u32, Rate>)

  datatype Action =
    | NoOp
    | PlacePiece(kind: string, x: Coord, y: Coord)
    | ConnectPieces(from: u32, to: u32)
    | RemovePiece(id: u32)
    | DefineResource(name: string, color: nat)
    | AddProducer(resource: string, amount: u64, interval: u32)
    | AddConsumer(resource: string, amount: u64, interval: u32)
    | SetGoal(goal: string)

  datatype Reason =
    | EmptyName | NameTooLong | BadName | UnknownKind | BadPosition | IdsExhausted
    | SelfPath | UnknownFrom | UnknownTo | PathExists | UnknownNode | PieceInUse
    | ResourceExists | UnknownResource | BadAmount | BadInterval | UnknownGoal
  datatype Outcome = Applied | NoChange | Rejected(reason: Reason)

  datatype GraphEvent = NodeHighlighted(node: u32) | PathPulsed(path: u32)

  // ---- Text ----

  function Lower(c: char): char {
    if 'A' <= c <= 'Z' then c - 'A' + 'a' else c
  }

  /** Lower-cased, with each separator turned into an underscore. */
  function Normalized(s: string, separators: set<char>): string {
    var t := Trim(s);
    seq(|t|, i requires 0 <= i < |t| => if Lower(t[i]) in separators then '_' else Lower(t[i]))
  }

  function ShapeOf(kind: string): Option<Shape> {
    var k := Normalized(kind, {'-', ':'});
    if k in ["node", "circle", "node_circle"] then Some(Circle)
    else if k in ["square", "node_square"] then Some(Square)
    else if k in ["triangle", "node_triangle"] then Some(Triangle)
    else if k in ["diamond", "node_diamond"] then Some(Diamond)
    else if k in ["hexagon", "node_hexagon"] then Some(Hexagon)
    else None
  }

  predicate InRange(c: Coord) { c.Finite? && -COORD_LIMIT <= c.value <= COORD_LIMIT }

  // ---- The smallest id not in use ----

  ghost predicate IsNext(used: set<u32>, r: Option<u32>) {
    match r
    case None => forall u: u32 :: u in used
    case Some(c) => c !in used && forall u: u32 :: u < c ==> u in used
  }

  lemma NextUnique(used: set<u32>, a: Option<u32>, b: Option<u32>)
    requires IsNext(used, a) && IsNext(used, b)
    ensures a == b
  {
  }

  /** The first id from c on that is not in use. */
  ghost function NextFrom(used: set<u32>, c: u32): (r: Option<u32>)
    requires forall u: u32 :: u < c ==> u in used
    ensures IsNext(used, r)
    decreases U32_RANGE - c
  {
    if c !in used then Some(c)
    else if c == U32_RANGE - 1 then None
    else NextFrom(used, c + 1)
  }

  ghost function NextId(used: set<u32>): (r: Option<u32>)
    ensures IsNext(used, r)
  {
    NextFrom(used, 0)
  }

  ghost predicate Ascending(ids: seq<u32>) { forall i, j :: 0 <= i < j < |ids| ==> ids[i] < ids[j] }

  /** Walks the ids in order and stops at the first gap; at the top of the range there is nothing left to hand out. */
  method NextDense(ids: seq<u32>) returns (r: Option<u32>)
    requires Ascending(ids)
    ensures r.None? ==> forall u: u32 :: u in ids
    ensures r.Some? ==> r.value !in ids && forall u: u32 :: u < r.value ==> u in ids
  {
    var candidate: u32 := 0;
    var i := 0;
    while i < |ids|
      invariant i <= |ids|
      invariant forall u: u32 :: u < candidate ==> u in ids[..i]
      invariant forall j :: 0 <= j < i ==> ids[j] < candidate
    {
      var id := ids[i];
      if id == candidate {
        if candidate == U32_RANGE - 1 {
          forall u: u32 ensures u in ids {
            if u < candidate { assert u in ids[..i]; }
          }
          return None;
        }
        candidate := candidate + 1;
      } else if id > candidate {
        break;
      }
      assert ids[..i + 1] == ids[..i] + [id];
      i := i + 1;
    }
    forall u: u32 | u < candidate ensures u in ids {
      assert u in ids[..i];
    }
    return Some(candidate);
  }

  ghost predicate LeastIn(x: u32, s: set<u32>) { x in s && forall y :: y in s ==> x <= y }

  lemma {:induction false} LeastMember(s: set<u32>) returns (least: u32)
    requires s != {}
    ensures LeastIn(least, s)
  {
    var x :| x in s;
    if s == {x} {
      least := x;
    } else {
      var m := LeastMember(s - {x});
      least := if x < m then x else m;
      forall y | y in s ensures least <= y {
        assert y == x || y in s - {x};
      }
    }
  }

  /** The keys of an ordered map, smallest first. */
  method KeysInOrder(keys: set<u32>) returns (ids: seq<u32>)
    ensures Ascending(ids) && forall u :: u in ids <==> u in keys
  {
    ids := [];
    var rest := keys;
    while rest != {}
      invariant rest <= keys && Ascending(ids)
      invariant forall u :: u in ids <==> u in keys - rest
      invariant ids != [] ==> forall v :: v in rest ==> ids[|ids| - 1] < v
      decreases rest
    {
      ghost var least := LeastMember(rest);
      var x :| x in rest && forall y :: y in rest ==> x <= y;
      Extends(ids, x);
      ids := ids + [x];
      rest := rest - {x};
    }
  }

  lemma Extends(ids: seq<u32>, x: u32)
    requires Ascending(ids) && (ids != [] ==> ids[|ids| - 1] < x)
    ensures Ascending(ids + [x]) && forall u :: u in ids + [x] <==> u in ids || u == x
  {
    forall i | 0 <= i < |ids| ensures ids[i] < x {
      if i < |ids| - 1 { assert ids[i] < ids[|ids| - 1]; }
    }
  }

  method NextUnused(keys: set<u32>) returns (r: Option<u32>)
    ensures r == NextId(keys)
  {
    var ids := KeysInOrder(keys);
    r := NextDense(ids);
    NextUnique(keys, r, NextId(keys));
  }

  // ---- What each action does ----

  ghost function Incident(g: Graph, id: u32): set<u32> {
    set p | p in g.paths && (g.paths[p].from == id || g.paths[p].to == id)
  }

  /** A mover waits at the node, travels a path that would go, or has its home on one. */
  predicate Uses(m: Mover, id: u32, incident: set<u32>) {
    m.state == Waiting(id) || (m.state.Traveling? && m.state.path in incident) || m.homePath in incident
  }

  ghost predicate InUse(g: Graph, id: u32) {
    exists m :: m in g.movers && Uses(g.movers[m], id, Incident(g, id))
  }

  predicate Named(g: Graph, name: string) {
    exists r :: r in g.resources && g.resources[r].name == name
  }

  function NameReason(name: string): Option<Reason> {
    if name == "" then Some(EmptyName)
    else if |name| > MAX_RESOURCE_NAME_LEN then Some(NameTooLong)
    else if exists i :: 0 <= i < |name| && !NameChar(name[i]) then Some(BadName)
    else None
  }

  function RateReason(amount: u64, interval: u32): Option<Reason> {
    if amount == 0 || amount > AMOUNT_MAX then Some(BadAmount)
    else if interval == 0 || interval > INTERVAL_MAX then Some(BadInterval)
    else None
  }

  /** The id a resource of that name goes by; names are unique in a sound graph. */
  ghost function IdOf(g: Graph, name: string): (r: u32)
    requires Named(g, name)
    ensures exists k :: k in g.resources && g.resources[k].name == name && g.resources[k].id == r
  {
    var k :| k in g.resources && g.resources[k].name == name;
    g.resources[k].id
  }

  ghost function Objection(g: Graph, a: Action): Option<Reason> {
    match a
    case NoOp => None
    case PlacePiece(kind, x, y) =>
      if Trim(kind) == "" then Some(EmptyName)
      else if |kind| > MAX_PIECE_KIND_LEN then Some(NameTooLong)
      else if ShapeOf(kind).None? then Some(UnknownKind)
      else if !InRange(x) || !InRange(y) then Some(BadPosition)
      else if NextId(g.nodes.Keys).None? then Some(IdsExhausted)
      else None
    case ConnectPieces(from, to) =>
      if from == to then Some(SelfPath)
      else if from !in g.nodes then Some(UnknownFrom)
      else if to !in g.nodes then Some(UnknownTo)
      else if exists p :: p in g.paths && g.paths[p].from == from && g.paths[p].to == to then Some(PathExists)
      else if NextId(g.paths.Keys).None? then Some(IdsExhausted)
      else None
    case RemovePiece(id) => if id !in g.nodes then Some(UnknownNode) else if InUse(g, id) then Some(PieceInUse) else None
    case DefineResource(name, _) =>
      if NameReason(name).Some? then NameReason(name)
      else if Named(g, name) then Some(ResourceExists)
      else if NextId(g.resources.Keys).None? then Some(IdsExhausted)
      else None
    case AddProducer(resource, amount, interval) =>
      if !Named(g, resource) then Some(UnknownResource)
      else if RateReason(amount, interval).Some? then RateReason(amount, interval)
      else if NextId(g.producers.Keys).None? then Some(IdsExhausted)
      else None
    case AddConsumer(resource, amount, interval) =>
      if !Named(g, resource) then Some(UnknownResource)
      else if RateReason(amount, interval).Some? then RateReason(amount, interval)
      else if NextId(g.consumers.Keys).None? then Some(IdsExhausted)
      else None
    case SetGoal(goal) => if Normalized(goal, {'-'}) == "loop_forever" then None else Some(UnknownGoal)
  }

  /** What an action without objection makes of the graph. */
  ghost function Effect(g: Graph, a: Action): Graph
    requires Objection(g, a).None?
  {
    match a
    case NoOp => g
    case PlacePiece(kind, x, y) =>
      var id := NextId(g.nodes.Keys).value;
      g.(nodes := g.nodes[id := Node(id, x, y, ShapeOf(kind).value)])
    case ConnectPieces(from, to) =>
      var id := NextId(g.paths.Keys).value;
      g.(paths := g.paths[id := Path(id, from, to)])
    case RemovePiece(id) => g.(nodes := g.nodes - {id}, paths := g.paths - Incident(g, id))
    case DefineResource(name, color) =>
      var id := NextId(g.resources.Keys).value;
      g.(resources := g.resources[id := Resource(id, name, color)], inventory := g.inventory[id := 0])
    case AddProducer(resource, amount, interval) =>
      var id := NextId(g.producers.Keys).value;
      g.(producers := g.producers[id := Rate(id, IdOf(g, resource), amount, interval)])
    case AddConsumer(resource, amount, interval) =>
      var id := NextId(g.consumers.Keys).value;
      g.(consumers := g.consumers[id := Rate(id, IdOf(g, resource), amount, interval)])
    case SetGoal(_) => g
  }

  ghost function Perform(g: Graph, a: Action): Graph {
    if Objection(g, a).None? then Effect(g, a) else g
  }

  ghost function OutcomeOf(g: Graph, a: Action): Outcome {
    match Objection(g, a)
    case Some(reason) => Rejected(reason)
    case None => if a.NoOp? || a.SetGoal? then NoChange else Applied
  }

  // ---- What every action keeps ----

  ghost predicate KeyedByIds(g: Graph) {
    && (forall k :: k in g.nodes ==> g.nodes[k].id == k)
    && (forall k :: k in g.paths ==> g.paths[k].id == k)
    && (forall k :: k in g.movers ==> g.movers[k].id == k)
    && (forall k :: k in g.resources ==> g.resources[k].id == k)
    && (forall k :: k in g.producers ==> g.producers[k].id == k)
    && (forall k :: k in g.consumers ==> g.consumers[k].id == k)
  }

  ghost predicate PathsEnd(g: Graph) {
    forall p :: p in g.paths ==> g.paths[p].from in g.nodes && g.paths[p].to in g.nodes
  }

  ghost predicate MoversStand(g: Graph) {
    forall m :: m in g.movers ==>
      && g.movers[m].homePath in g.paths
      && (g.movers[m].state.Waiting? ==> g.movers[m].state.at in g.nodes)
      && (g.movers[m].state.Traveling? ==> g.movers[m].state.path in g.paths)
  }

  ghost predicate ResourcesHold(g: Graph) {
    && (forall r, s :: r in g.resources && s in g.resources && g.resources[r].name == g.resources[s].name ==> r == s)
    && g.inventory.Keys == g.resources.Keys
    && (forall k :: k in g.producers ==> g.producers[k].resource in g.resources)
    && (forall k :: k in g.consumers ==> g.consumers[k].resource in g.resources)
  }

  /** Every reference in the graph resolves, names are unique, and maps are keyed by the ids they hold. */
  ghost predicate Sound(g: Graph) { KeyedByIds(g) && PathsEnd(g) && MoversStand(g) && ResourcesHold(g) }

  /** No two paths run between the same nodes in the same direction. */
  ghost predicate NoParallels(g: Graph) {
    forall p, q :: p in g.paths && q in g.paths && g.paths[p].from == g.paths[q].from && g.paths[p].to == g.paths[q].to ==> p == q
  }

  lemma RemoveKeeps(g: Graph, id: u32)
    requires Sound(g) && !InUse(g, id)
    ensures Sound(g.(nodes := g.nodes - {id}, paths := g.paths - Incident(g, id)))
  {
    var h := g.(nodes := g.nodes - {id}, paths := g.paths - Incident(g, id));
    forall p | p in h.paths ensures h.paths[p].from in h.nodes && h.paths[p].to in h.nodes {
      assert p !in Incident(g, id);
    }
    forall m | m in h.movers
      ensures h.movers[m].homePath in h.paths
      ensures h.movers[m].state.Waiting? ==> h.movers[m].state.at in h.nodes
      ensures h.movers[m].state.Traveling? ==> h.movers[m].state.path in h.paths
    {
      assert !Uses(g.movers[m], id, Incident(g, id));
    }
  }

  lemma PlaceKeeps(g: Graph, n: Node)
    requires Sound(g) && n.id !in g.nodes
    ensures Sound(g.(nodes := g.nodes[n.id := n]))
  {
  }

  lemma ConnectKeeps(g: Graph, p: Path)
    requires Sound(g) && p.id !in g.paths && p.from in g.nodes && p.to in g.nodes
    ensures Sound(g.(paths := g.paths[p.id := p]))
  {
  }

  lemma DefineKeeps(g: Graph, r: Resource)
    requires Sound(g) && r.id !in g.resources && !Named(g, r.name)
    ensures Sound(g.(resources := g.resources[r.id := r], inventory := g.inventory[r.id := 0]))
  {
    var h := g.(resources := g.resources[r.id := r], inventory := g.inventory[r.id := 0]);
    assert h.inventory.Keys == h.resources.Keys;
    RoadsSame(g, h);
    hide PathsEnd, MoversStand;
  }

  lemma RoadsSame(g: Graph, h: Graph)
    requires g.nodes == h.nodes && g.paths == h.paths && g.movers == h.movers
    ensures (PathsEnd(g) <==> PathsEnd(h)) && (MoversStand(g) <==> MoversStand(h))
  {
  }

  lemma RatesKeyed(g: Graph, h: Graph, r: Rate)
    requires KeyedByIds(g)
    requires h == g.(producers := g.producers[r.id := r]) || h == g.(consumers := g.consumers[r.id := r])
    ensures KeyedByIds(h)
  {
  }

  lemma ProducerKeeps(g: Graph, r: Rate)
    requires Sound(g) && r.resource in g.resources
    ensures Sound(g.(producers := g.producers[r.id := r]))
  {
    var h := g.(producers := g.producers[r.id := r]);
    RoadsSame(g, h);
    RatesKeyed(g, h, r);
    hide PathsEnd, MoversStand, KeyedByIds;
  }

  lemma ConsumerKeeps(g: Graph, r: Rate)
    requires Sound(g) && r.resource in g.resources
    ensures Sound(g.(consumers := g.consumers[r.id := r]))
  {
    var h := g.(consumers := g.consumers[r.id := r]);
    RoadsSame(g, h);
    RatesKeyed(g, h, r);
    hide PathsEnd, MoversStand, KeyedByIds;
  }

  lemma IdIsKey(g: Graph, name: string)
    requires Sound(g) && Named(g, name)
    ensures IdOf(g, name) in g.resources
  {
  }

  lemma PerformKeeps(g: Graph, a: Action)
    requires Sound(g)
    ensures Sound(Perform(g, a))
  {
    hide Sound, ShapeOf, Incident, InUse, NextId, IsNext;
    if Objection(g, a).None? {
      FreshIds(g, a);
      match a
      case NoOp =>
      case SetGoal(_) =>
      case PlacePiece(kind, x, y) => PlaceKeeps(g, Node(NextId(g.nodes.Keys).value, x, y, ShapeOf(kind).value));
      case ConnectPieces(from, to) => ConnectKeeps(g, Path(NextId(g.paths.Keys).value, from, to));
      case RemovePiece(id) => RemoveKeeps(g, id);
      case DefineResource(name, color) => DefineKeeps(g, Resource(NextId(g.resources.Keys).value, name, color));
      case AddProducer(resource, amount, interval) =>
        IdIsKey(g, resource);
        ProducerKeeps(g, Rate(NextId(g.producers.Keys).value, IdOf(g, resource), amount, interval));
      case AddConsumer(resource, amount, interval) =>
        IdIsKey(g, resource);
        ConsumerKeeps(g, Rate(NextId(g.consumers.Keys).value, IdOf(g, resource), amount, interval));
    }
  }

  lemma FreshIds(g: Graph, a: Action)
    ensures NextId(g.nodes.Keys).Some? ==> NextId(g.nodes.Keys).value !in g.nodes
    ensures NextId(g.paths.Keys).Some? ==> NextId(g.paths.Keys).value !in g.paths
    ensures NextId(g.resources.Keys).Some? ==> NextId(g.resources.Keys).value !in g.resources
  {
  }

  lemma PerformKeepsSimple(g: Graph, a: Action)
    requires NoParallels(g)
    ensures NoParallels(Perform(g, a))
  {
  }

  ghost function PerformAll(g: Graph, actions: seq<Action>): Graph {
    if actions == [] then g else Perform(PerformAll(g, actions[..|actions| - 1]), actions[|actions| - 1])
  }

  /** Any sequence of author actions, accepted or not, leaves a sound graph sound. */
  lemma {:induction false} AnyActionsKeepSound(g: Graph, actions: seq<Action>)
    requires Sound(g)
    ensures Sound(PerformAll(g, actions))
    ensures NoParallels(g) ==> NoParallels(PerformAll(g, actions))
  {
    hide Sound, NoParallels, Perform;
    if actions != [] {
      var before := PerformAll(g, actions[..|actions| - 1]);
      AnyActionsKeepSound(g, actions[..|actions| - 1]);
      PerformKeeps(before, actions[|actions| - 1]);
      if NoParallels(g) { PerformKeepsSimple(before, actions[|actions| - 1]); }
    }
  }

  /** A piece just placed can be taken back: nothing stands on it yet, and the graph is what it was. */
  lemma PlaceThenRemove(g: Graph, kind: string, x: Coord, y: Coord)
    requires Sound(g) && OutcomeOf(g, PlacePiece(kind, x, y)).Applied?
    ensures NextId(g.nodes.Keys).Some?
    ensures var id := NextId(g.nodes.Keys).value; var placed := Perform(g, PlacePiece(kind, x, y));
      OutcomeOf(placed, RemovePiece(id)) == Applied && Perform(placed, RemovePiece(id)) == g
  {
    var id := NextId(g.nodes.Keys).value;
    var placed := Perform(g, PlacePiece(kind, x, y));
    assert Incident(placed, id) == {};
    assert placed.nodes - {id} == g.nodes;
    assert placed.paths - {} == g.paths;
  }

  // ---- Where everything comes from ----

  predicate PlacedBy(a: Action, n: Node) { a.PlacePiece? && n.x == a.x && n.y == a.y && ShapeOf(a.kind) == Some(n.shape) }

  predicate Names(g: Graph, id: u32, name: string) { id in g.resources && g.resources[id].name == name }

  predicate Kept<T(==)>(was: map<u32, T>, k: u32, x: T) { k in was && was[k] == x }

  ghost predicate NodesAsked(g0: Graph, g: Graph, asked: seq<Action>) {
    && (forall k :: k in g.nodes ==> Kept(g0.nodes, k, g.nodes[k]) || exists a :: a in asked && PlacedBy(a, g.nodes[k]))
    && (forall k :: k in g0.nodes && !Kept(g.nodes, k, g0.nodes[k]) ==> RemovePiece(k) in asked)
  }

  ghost predicate PathsAsked(g0: Graph, g: Graph, asked: seq<Action>) {
    && (forall k :: k in g.paths ==> Kept(g0.paths, k, g.paths[k]) || ConnectPieces(g.paths[k].from, g.paths[k].to) in asked)
    && (forall k :: k in g0.paths && !Kept(g.paths, k, g0.paths[k]) ==> RemovePiece(g0.paths[k].from) in asked || RemovePiece(g0.paths[k].to) in asked)
  }

  ghost predicate ResourcesAsked(g0: Graph, g: Graph, asked: seq<Action>) {
    && (forall k :: k in g.resources ==> Kept(g0.resources, k, g.resources[k]) || DefineResource(g.resources[k].name, g.resources[k].color) in asked)
    && (forall k :: k in g0.resources ==> Kept(g.resources, k, g0.resources[k]))
  }

  ghost predicate MadeFor(g: Graph, r: Rate, asked: seq<Action>) {
    exists name :: Names(g, r.resource, name) && AddProducer(name, r.amount, r.interval) in asked
  }

  ghost predicate UsedFor(g: Graph, r: Rate, asked: seq<Action>) {
    exists name :: Names(g, r.resource, name) && AddConsumer(name, r.amount, r.interval) in asked
  }

  ghost predicate RatesAsked(g0: Graph, g: Graph, asked: seq<Action>) {
    && (forall k :: k in g.producers ==> Kept(g0.producers, k, g.producers[k]) || MadeFor(g, g.producers[k], asked))
    && (forall k :: k in g.consumers ==> Kept(g0.consumers, k, g.consumers[k]) || UsedFor(g, g.consumers[k], asked))
    && (forall k :: k in g0.producers ==> Kept(g.producers, k, g0.producers[k]))
    && (forall k :: k in g0.consumers ==> Kept(g.consumers, k, g0.consumers[k]))
  }

  lemma NodesStep(g0: Graph, g: Graph, asked: seq<Action>, a: Action)
    requires NodesAsked(g0, g, asked)
    ensures NodesAsked(g0, Perform(g, a), asked + [a])
  {
    hide NextFrom, ShapeOf, Incident, InUse;
    assert a in asked + [a];
    if a.PlacePiece? && Objection(g, a).None? { assert PlacedBy(a, Node(NextId(g.nodes.Keys).value, a.x, a.y, ShapeOf(a.kind).value)); }
  }

  lemma PathsStep(g0: Graph, g: Graph, asked: seq<Action>, a: Action)
    requires PathsAsked(g0, g, asked)
    ensures PathsAsked(g0, Perform(g, a), asked + [a])
  {
    hide NextFrom, ShapeOf, InUse;
    assert a in asked + [a];
  }

  lemma ResourcesStep(g0: Graph, g: Graph, asked: seq<Action>, a: Action)
    requires ResourcesAsked(g0, g, asked)
    ensures ResourcesAsked(g0, Perform(g, a), asked + [a])
    ensures forall id, name :: Names(g, id, name) ==> Names(Perform(g, a), id, name)
  {
    hide NextFrom, ShapeOf, InUse, Incident;
    assert a in asked + [a];
  }

  lemma StillFor(g: Graph, h: Graph, r: Rate, asked: seq<Action>, a: Action)
    requires forall id, name :: Names(g, id, name) ==> Names(h, id, name)
    ensures MadeFor(g, r, asked) ==> MadeFor(h, r, asked + [a])
    ensures UsedFor(g, r, asked) ==> UsedFor(h, r, asked + [a])
  {
    hide Names;
  }

  lemma NewRate(g: Graph, h: Graph, asked: seq<Action>, a: Action)
    requires Sound(g) && (a.AddProducer? || a.AddConsumer?) && Objection(g, a).None?
    requires forall id, name :: Names(g, id, name) ==> Names(h, id, name)
    ensures a.AddProducer? ==> forall id :: MadeFor(h, Rate(id, IdOf(g, a.resource), a.amount, a.interval), asked + [a])
    ensures a.AddConsumer? ==> forall id :: UsedFor(h, Rate(id, IdOf(g, a.resource), a.amount, a.interval), asked + [a])
  {
    assert a in asked + [a] && Names(g, IdOf(g, a.resource), a.resource);
    hide Sound, IdOf, Names;
  }

  lemma RatesAre(g: Graph, a: Action)
    ensures var h := Perform(g, a);
      && (a.AddProducer? && Objection(g, a).None? ==>
            var id := NextId(g.producers.Keys).value;
            id !in g.producers && h.consumers == g.consumers && h.producers == g.producers[id := Rate(id, IdOf(g, a.resource), a.amount, a.interval)])
      && (a.AddConsumer? && Objection(g, a).None? ==>
            var id := NextId(g.consumers.Keys).value;
            id !in g.consumers && h.producers == g.producers && h.consumers == g.consumers[id := Rate(id, IdOf(g, a.resource), a.amount, a.interval)])
      && ((!a.AddProducer? && !a.AddConsumer?) || Objection(g, a).Some? ==> h.producers == g.producers && h.consumers == g.consumers)
  {
    hide NextFrom, ShapeOf, InUse, Incident, IdOf;
  }

  lemma RatesStep(g0: Graph, g: Graph, asked: seq<Action>, a: Action)
    requires Sound(g) && RatesAsked(g0, g, asked)
    requires forall id, name :: Names(g, id, name) ==> Names(Perform(g, a), id, name)
    ensures RatesAsked(g0, Perform(g, a), asked + [a])
  {
    hide Sound, Objection, Perform, MadeFor, UsedFor, Names, NextId, IsNext;
    var h := Perform(g, a);
    RatesAre(g, a);
    forall r { StillFor(g, h, r, asked, a); }
    if (a.AddProducer? || a.AddConsumer?) && Objection(g, a).None? { NewRate(g, h, asked, a); }
  }

  /**
   * After any sequence of author actions everything in the graph was there before, unchanged, or was asked for with
   * just these values; a producer or consumer goes by the resource it was asked for; and only pieces asked to be
   * removed, with their paths, are gone.
   */
  lemma {:induction false} OnlyAsked(g: Graph, actions: seq<Action>)
    requires Sound(g)
    ensures var end := PerformAll(g, actions);
      NodesAsked(g, end, actions) && PathsAsked(g, end, actions) && ResourcesAsked(g, end, actions) && RatesAsked(g, end, actions)
  {
    hide Sound, Perform;
    if actions != [] {
      hide NodesAsked, PathsAsked, ResourcesAsked, RatesAsked;
      var front, last := actions[..|actions| - 1], actions[|actions| - 1];
      var before := PerformAll(g, front);
      OnlyAsked(g, front);
      AnyActionsKeepSound(g, front);
      NodesStep(g, before, front, last);
      PathsStep(g, before, front, last);
      ResourcesStep(g, before, front, last);
      RatesStep(g, before, front, last);
      assert front + [last] == actions;
    }
  }
}
