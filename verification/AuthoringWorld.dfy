/** The world the author actions change in place, against the functions of Authoring. */
module AuthoringWorld {
  import opened Base
  import opened Text
  import opened Authoring

  class World {
    var nodes: map<u32, Node>
    var paths: map<u32, Path>
    var movers: map<u32, Mover>
    var resources: map<u32, Resource>
    var inventory: map<u32, u64>
    var producers: map<u32, Rate>
    var consumers: map<u32, Rate>
    var events: seq<GraphEvent>

    function View(): Graph
      reads this
    {
      Graph(nodes, paths, movers, resources, inventory, producers, consumers)
    }

    method PlacePiece(kind: string, x: Coord, y: Coord) returns (o: Outcome)
      modifies this`nodes, this`events
      ensures View() == Perform(old(View()), Action.PlacePiece(kind, x, y)) && o == OutcomeOf(old(View()), Action.PlacePiece(kind, x, y))
      ensures o.Applied? ==> NextId(old(nodes).Keys).Some? && events == old(events) + [NodeHighlighted(NextId(old(nodes).Keys).value)]
      ensures !o.Applied? ==> events == old(events)
    {
      hide NextId, Trim, Normalized, InUse, Incident;
      if Trim(kind) == "" { return Rejected(EmptyName); }
      if |kind| > MAX_PIECE_KIND_LEN { return Rejected(NameTooLong); }
      var shape := ShapeOf(kind);
      if shape.None? { return Rejected(UnknownKind); }
      if !InRange(x) || !InRange(y) { return Rejected(BadPosition); }
      var id := NextUnused(nodes.Keys);
      if id.None? { return Rejected(IdsExhausted); }
      nodes := nodes[id.value := Node(id.value, x, y, shape.value)];
      events := events + [NodeHighlighted(id.value)];
      return Applied;
    }

    method ConnectPieces(from: u32, to: u32) returns (o: Outcome)
      modifies this`paths, this`events
      ensures View() == Perform(old(View()), Action.ConnectPieces(from, to)) && o == OutcomeOf(old(View()), Action.ConnectPieces(from, to))
      ensures o.Applied? ==> NextId(old(paths).Keys).Some? && events == old(events) + [PathPulsed(NextId(old(paths).Keys).value)]
      ensures !o.Applied? ==> events == old(events)
    {
      hide NextId, Trim, Normalized, InUse, Incident;
      if from == to { return Rejected(SelfPath); }
      if from !in nodes { return Rejected(UnknownFrom); }
      if to !in nodes { return Rejected(UnknownTo); }
      var joined := Joined(from, to);
      if joined { return Rejected(PathExists); }
      var id := NextUnused(paths.Keys);
      if id.None? { return Rejected(IdsExhausted); }
      paths := paths[id.value := Path(id.value, from, to)];
      events := events + [PathPulsed(id.value)];
      return Applied;
    }

    method Joined(from: u32, to: u32) returns (b: bool)
      ensures b == exists p :: p in paths && paths[p].from == from && paths[p].to == to
    {
      var rest := paths.Keys;
      while rest != {}
        invariant rest <= paths.Keys
        invariant forall p :: p in paths && p !in rest ==> !(paths[p].from == from && paths[p].to == to)
        decreases rest
      {
        var p :| p in rest;
        if paths[p].from == from && paths[p].to == to { return true; }
        rest := rest - {p};
      }
      return false;
    }

    method IncidentPaths(id: u32) returns (incident: set<u32>)
      ensures incident == Incident(View(), id)
    {
      incident := {};
      var rest := paths.Keys;
      while rest != {}
        invariant rest <= paths.Keys
        invariant incident == set p | p in paths && p !in rest && (paths[p].from == id || paths[p].to == id)
        decreases rest
      {
        var p :| p in rest;
        rest := rest - {p};
        if paths[p].from == id || paths[p].to == id { incident := incident + {p}; }
      }
    }

    /** Every mover is asked before anything is removed. */
    method RemovePiece(id: u32) returns (o: Outcome)
      modifies this`nodes, this`paths
      ensures View() == Perform(old(View()), Action.RemovePiece(id)) && o == OutcomeOf(old(View()), Action.RemovePiece(id))
    {
      hide NextId, Trim, Normalized, Incident;
      if id !in nodes { return Rejected(UnknownNode); }
      var incident := IncidentPaths(id);
      var rest := movers.Keys;
      while rest != {}
        invariant rest <= movers.Keys
        invariant forall m :: m in movers && m !in rest ==> !Uses(movers[m], id, incident)
        decreases rest
      {
        var m :| m in rest;
        rest := rest - {m};
        match movers[m].state {
          case Waiting(at) => if at == id { assert Uses(movers[m], id, incident); return Rejected(PieceInUse); }
          case Traveling(path) => if path in incident { assert Uses(movers[m], id, incident); return Rejected(PieceInUse); }
          case Empty =>
        }
        if movers[m].homePath in incident { assert Uses(movers[m], id, incident); return Rejected(PieceInUse); }
      }
      paths := paths - incident;
      nodes := nodes - {id};
      return Applied;
    }

    method FindResource(name: string) returns (id: Option<u32>)
      ensures id.None? <==> !Named(View(), name)
      ensures id.Some? ==> exists k :: k in resources && resources[k].name == name && resources[k].id == id.value
    {
      var keys := KeysInOrder(resources.Keys);
      for i := 0 to |keys|
        invariant forall j :: 0 <= j < i ==> resources[keys[j]].name != name
      {
        assert keys[i] in resources;
        if resources[keys[i]].name == name { return Some(resources[keys[i]].id); }
      }
      return None;
    }

    method DefineResource(name: string, color: nat) returns (o: Outcome)
      modifies this`resources, this`inventory
      ensures View() == Perform(old(View()), Action.DefineResource(name, color)) && o == OutcomeOf(old(View()), Action.DefineResource(name, color))
    {
      hide NextId, Trim, Normalized, InUse, Incident, NameReason, Named;
      if NameReason(name).Some? { return Rejected(NameReason(name).value); }
      var known := FindResource(name);
      if known.Some? { return Rejected(ResourceExists); }
      var id := NextUnused(resources.Keys);
      if id.None? { return Rejected(IdsExhausted); }
      resources := resources[id.value := Resource(id.value, name, color)];
      inventory := inventory[id.value := 0];
      return Applied;
    }

    lemma OneOfThatName(name: string, id: u32)
      requires Sound(View()) && exists k :: k in resources && resources[k].name == name && resources[k].id == id
      ensures Named(View(), name) && IdOf(View(), name) == id
    {
    }

    method AddProducer(resource: string, amount: u64, interval: u32) returns (o: Outcome)
      requires Sound(View())
      modifies this`producers
      ensures View() == Perform(old(View()), Action.AddProducer(resource, amount, interval))
      ensures o == OutcomeOf(old(View()), Action.AddProducer(resource, amount, interval))
    {
      hide NextId, Trim, Normalized, InUse, Incident, Named, Sound;
      var rid := FindResource(resource);
      if rid.None? { return Rejected(UnknownResource); }
      OneOfThatName(resource, rid.value);
      if RateReason(amount, interval).Some? { return Rejected(RateReason(amount, interval).value); }
      var id := NextUnused(producers.Keys);
      if id.None? { return Rejected(IdsExhausted); }
      producers := producers[id.value := Rate(id.value, rid.value, amount, interval)];
      return Applied;
    }

    method AddConsumer(resource: string, amount: u64, interval: u32) returns (o: Outcome)
      requires Sound(View())
      modifies this`consumers
      ensures View() == Perform(old(View()), Action.AddConsumer(resource, amount, interval))
      ensures o == OutcomeOf(old(View()), Action.AddConsumer(resource, amount, interval))
    {
      hide NextId, Trim, Normalized, InUse, Incident, Named, Sound;
      var rid := FindResource(resource);
      if rid.None? { return Rejected(UnknownResource); }
      OneOfThatName(resource, rid.value);
      if RateReason(amount, interval).Some? { return Rejected(RateReason(amount, interval).value); }
      var id := NextUnused(consumers.Keys);
      if id.None? { return Rejected(IdsExhausted); }
      consumers := consumers[id.value := Rate(id.value, rid.value, amount, interval)];
      return Applied;
    }

    /** Whatever the action, a sound world stays sound, and a rejection leaves it untouched. */
    method ApplyAction(a: Action) returns (o: Outcome)
      requires Sound(View())
      modifies this
      ensures View() == Perform(old(View()), a) && o == OutcomeOf(old(View()), a)
      ensures Sound(View())
      ensures !o.Applied? ==> View() == old(View()) && events == old(events)
    {
      hide NextId, Trim, Normalized, InUse, Incident, Named, Sound, Effect, Objection;
      PerformKeeps(View(), a);
      Refusals(View(), a);
      match a {
        case NoOp => o := NoChange;
        case PlacePiece(kind, x, y) => o := PlacePiece(kind, x, y);
        case ConnectPieces(from, to) => o := ConnectPieces(from, to);
        case RemovePiece(id) => o := RemovePiece(id);
        case DefineResource(name, color) => o := DefineResource(name, color);
        case AddProducer(resource, amount, interval) => o := AddProducer(resource, amount, interval);
        case AddConsumer(resource, amount, interval) => o := AddConsumer(resource, amount, interval);
        case SetGoal(goal) => o := if Normalized(goal, {'-'}) == "loop_forever" then NoChange else Rejected(UnknownGoal);
      }
    }

    lemma Refusals(g: Graph, a: Action)
      ensures !OutcomeOf(g, a).Applied? ==> Perform(g, a) == g
      ensures a.NoOp? ==> OutcomeOf(g, a) == NoChange
      ensures a.SetGoal? ==> OutcomeOf(g, a) == if Normalized(a.goal, {'-'}) == "loop_forever" then NoChange else Rejected(UnknownGoal)
    {
    }
  }
}
