/**
  The dashboard's chain-network reducer. A `SetChainNetworks` action
  replaces the whole network; an `UpdateChainNetworks` action merges its
  nodes into the known ones by name, appends the nodes not yet known, then
  appends and removes connections. The per-node deep merge is a parameter.
  Node attributes `A` and connections `C` are compared structurally.
 */
module ChainNetworks {
  import opened Prelude

  datatype ChainNode<A> = ChainNode(name: string, attributes: A)

  datatype Networks<A, C> = Networks(nodes: seq<ChainNode<A>>, connections: seq<C>)

  /** The payload of `UpdateChainNetworks`; absent and empty edit lists mean the same. */
  datatype NetworksUpdate<A, C> = NetworksUpdate(
    nodes: seq<ChainNode<A>>,
    connectionsAdded: Option<seq<C>>,
    connectionsRemoved: Option<seq<C>>)

  datatype ChainNetworksState<A, C> = ChainNetworksState(chainNetworks: Option<Networks<A, C>>)

  datatype Action<A, C> =
    | SetChainNetworks(data: Networks<A, C>)
    | UpdateChainNetworks(update: NetworksUpdate<A, C>)
    | OtherAction

  /** The per-node deep merge: the known node and the action's node of the same name. */
  type Merge<!A> = (ChainNode<A>, ChainNode<A>) -> ChainNode<A>

  function InitialState<A, C>(): (s: ChainNetworksState<A, C>)
    ensures s.chainNetworks.None?
  {
    ChainNetworksState(None)
  }

  predicate HasName<A>(nodes: seq<ChainNode<A>>, name: string) {
    exists k :: 0 <= k < |nodes| && nodes[k].name == name
  }

  function Names<A>(nodes: seq<ChainNode<A>>): set<string> {
    set k | 0 <= k < |nodes| :: nodes[k].name
  }

  /** `_.find` by name: the first node with the given name. */
  function FindByName<A>(nodes: seq<ChainNode<A>>, name: string): (r: Option<nat>)
    ensures r.None? <==> !HasName(nodes, name)
    ensures r.Some? ==>
      r.value < |nodes| && nodes[r.value].name == name
      && forall j :: 0 <= j < r.value ==> nodes[j].name != name
    decreases |nodes|
  {
    if nodes == [] then None
    else if nodes[0].name == name then Some(0)
    else
      var rest := FindByName(nodes[1..], name);
      assert HasName(nodes, name) ==> HasName(nodes[1..], name) by {
        if HasName(nodes, name) {
          var k :| 0 <= k < |nodes| && nodes[k].name == name;
          assert nodes[1..][k - 1].name == name;
        }
      }
      match rest
      case None => None
      case Some(i) => Some(i + 1)
  }

  /** `_.differenceBy(xs, ys, "name")`: the nodes of `xs`, in order, whose name no node of `ys` has. */
  function DifferenceByName<A(==)>(xs: seq<ChainNode<A>>, ys: seq<ChainNode<A>>): (r: seq<ChainNode<A>>)
    ensures forall k :: 0 <= k < |r| ==> r[k] in xs && !HasName(ys, r[k].name)
    ensures forall k :: 0 <= k < |xs| && !HasName(ys, xs[k].name) ==> xs[k] in r
    ensures |r| <= |xs|
    decreases |xs|
  {
    if xs == [] then []
    else (if HasName(ys, xs[0].name) then [] else [xs[0]]) + DifferenceByName(xs[1..], ys)
  }

  /** The `_.map` over the known nodes: each one merged with the first action node of its name, if any. */
  function UpdatedNodes<A>(known: seq<ChainNode<A>>, incoming: seq<ChainNode<A>>, merge: Merge<A>): seq<ChainNode<A>>
  {
    seq(|known|, i requires 0 <= i < |known| =>
      match FindByName(incoming, known[i].name)
      case None => known[i]
      case Some(k) => merge(known[i], incoming[k]))
  }

  /** `_.differenceWith(xs, ys, _.isEqual)`: the elements of `xs`, in order, equal to no element of `ys`. */
  function DifferenceWith<C(==)>(xs: seq<C>, ys: seq<C>): (r: seq<C>)
    ensures forall k :: 0 <= k < |r| ==> r[k] in xs && r[k] !in ys
    ensures forall k :: 0 <= k < |xs| && xs[k] !in ys ==> xs[k] in r
    ensures |r| <= |xs|
    decreases |xs|
  {
    if xs == [] then []
    else (if xs[0] in ys then [] else [xs[0]]) + DifferenceWith(xs[1..], ys)
  }

  function AddConnections<C>(known: seq<C>, added: Option<seq<C>>): seq<C>
  {
    if added.Some? && |added.value| > 0 then known + added.value else known
  }

  function RemoveConnections<C(==)>(connections: seq<C>, removed: Option<seq<C>>): seq<C>
  {
    if removed.Some? && |removed.value| > 0 then DifferenceWith(connections, removed.value) else connections
  }

  /** The network an update leaves behind. */
  function ApplyUpdate<A(==), C(==)>(networks: Networks<A, C>, update: NetworksUpdate<A, C>, merge: Merge<A>): Networks<A, C>
  {
    var newNodes := DifferenceByName(update.nodes, networks.nodes);
    var updatedNodes := UpdatedNodes(networks.nodes, update.nodes, merge);
    var addedConnections := AddConnections(networks.connections, update.connectionsAdded);
    var removedConnections := RemoveConnections(addedConnections, update.connectionsRemoved);
    Networks(updatedNodes + newNodes, removedConnections)
  }

  /** `chainNetworksReducer`; a missing state is the initial one. */
  function Reduce<A(==), C(==)>(state: Option<ChainNetworksState<A, C>>, action: Action<A, C>, merge: Merge<A>): ChainNetworksState<A, C>
  {
    var s := if state.Some? then state.value else InitialState();
    match action
    case SetChainNetworks(data) => s.(chainNetworks := Some(data))
    case UpdateChainNetworks(update) =>
      (match s.chainNetworks
       case None => s
       case Some(networks) => s.(chainNetworks := Some(ApplyUpdate(networks, update, merge))))
    case OtherAction => s
  }

  /** `SetChainNetworks` replaces the network with the action's, whatever was there. */
  lemma SetChainNetworksReplaces<A, C>(state: Option<ChainNetworksState<A, C>>, data: Networks<A, C>, merge: Merge<A>)
    ensures Reduce(state, SetChainNetworks(data), merge) == ChainNetworksState(Some(data))
  {
  }

  /** An update before any network is known changes nothing. */
  lemma UpdateWithoutNetworksKeepsState<A, C>(s: ChainNetworksState<A, C>, update: NetworksUpdate<A, C>, merge: Merge<A>)
    requires s.chainNetworks.None?
    ensures Reduce(Some(s), UpdateChainNetworks(update), merge) == s
  {
  }

  /** Any other action returns the state it was given, or the initial state. */
  lemma OtherActionKeepsState<A, C>(state: Option<ChainNetworksState<A, C>>, merge: Merge<A>)
    ensures Reduce(state, OtherAction, merge) == if state.Some? then state.value else InitialState()
  {
  }

  /**
    The nodes after an update: the known nodes in their order, each merged
    with the first action node of its name when there is one and otherwise
    unchanged, followed by the action nodes whose names were not known.
   */
  lemma UpdatedNodesLayout<A, C>(networks: Networks<A, C>, update: NetworksUpdate<A, C>, merge: Merge<A>)
    ensures var known := networks.nodes;
      var appended := DifferenceByName(update.nodes, known);
      var r := ApplyUpdate(networks, update, merge).nodes;
      && |r| == |known| + |appended|
      && (forall i :: 0 <= i < |known| && !HasName(update.nodes, known[i].name) ==> r[i] == known[i])
      && (forall i :: 0 <= i < |known| && HasName(update.nodes, known[i].name) ==>
            r[i] == merge(known[i], update.nodes[FindByName(update.nodes, known[i].name).value]))
      && (forall j :: 0 <= j < |appended| ==> r[|known| + j] == appended[j])
  {
    var known := networks.nodes;
    var appended := DifferenceByName(update.nodes, known);
    var updated := UpdatedNodes(known, update.nodes, merge);
    var r := ApplyUpdate(networks, update, merge).nodes;
    assert r == updated + appended;
    forall i | 0 <= i < |known|
      ensures r[i] == updated[i]
      ensures r[i] == match FindByName(update.nodes, known[i].name)
        case None => known[i]
        case Some(k) => merge(known[i], update.nodes[k])
    {
    }
  }

  /** The appended nodes come from the action and carry names no known node had. */
  lemma NewNodesAreFresh<A, C>(networks: Networks<A, C>, update: NetworksUpdate<A, C>)
    ensures var appended := DifferenceByName(update.nodes, networks.nodes);
      forall k :: 0 <= k < |appended| ==> appended[k] in update.nodes && appended[k].name !in Names(networks.nodes)
  {
    var appended := DifferenceByName(update.nodes, networks.nodes);
    forall k | 0 <= k < |appended|
      ensures appended[k].name !in Names(networks.nodes)
    {
      NamesHasName(networks.nodes, appended[k].name);
    }
  }

  lemma NamesHasName<A>(nodes: seq<ChainNode<A>>, name: string)
    ensures name in Names(nodes) <==> HasName(nodes, name)
  {
    if HasName(nodes, name) {
      var k :| 0 <= k < |nodes| && nodes[k].name == name;
      assert nodes[k].name in Names(nodes);
    }
  }

  /**
    The merge keeps the name when it merges two nodes of the same name,
    which are the only pairs the reducer merges.
   */
  predicate KeepsName<A>(known: seq<ChainNode<A>>, incoming: seq<ChainNode<A>>, merge: Merge<A>) {
    forall i, k :: 0 <= i < |known| && 0 <= k < |incoming| && known[i].name == incoming[k].name ==>
      merge(known[i], incoming[k]).name == known[i].name
  }

  /** A merge that takes the action node's fields, as an overwriting deep merge does, keeps the name. */
  lemma OverwritingMergeKeepsName<A>(known: seq<ChainNode<A>>, incoming: seq<ChainNode<A>>)
    ensures KeepsName(known, incoming, (a: ChainNode<A>, b: ChainNode<A>) => b)
  {
  }

  /** Under such a merge, each known node keeps its name through the update. */
  lemma UpdatedNodeKeepsName<A>(known: seq<ChainNode<A>>, incoming: seq<ChainNode<A>>, merge: Merge<A>, i: nat)
    requires KeepsName(known, incoming, merge) && i < |known|
    ensures UpdatedNodes(known, incoming, merge)[i].name == known[i].name
  {
    var found := FindByName(incoming, known[i].name);
    if found.Some? {
      assert incoming[found.value].name == known[i].name;
    }
  }

  /** The names of two lists one after the other are the names of each. */
  lemma NamesAppend<A>(a: seq<ChainNode<A>>, b: seq<ChainNode<A>>)
    ensures Names(a + b) == Names(a) + Names(b)
  {
    forall name | name in Names(a)
      ensures name in Names(a + b)
    {
      var k :| 0 <= k < |a| && a[k].name == name;
      assert (a + b)[k].name == name;
    }
    forall name | name in Names(a + b)
      ensures name in Names(a) + Names(b)
    {
      var k :| 0 <= k < |a + b| && (a + b)[k].name == name;
      if k < |a| {
        assert a[k].name == name;
      } else {
        assert b[k - |a|].name == name;
      }
    }
    forall name | name in Names(b)
      ensures name in Names(a + b)
    {
      var k :| 0 <= k < |b| && b[k].name == name;
      assert (a + b)[|a| + k].name == name;
    }
  }

  /** Under a merge that keeps names, the merged known nodes carry exactly the known names. */
  lemma UpdatedNodesNames<A>(known: seq<ChainNode<A>>, incoming: seq<ChainNode<A>>, merge: Merge<A>)
    requires KeepsName(known, incoming, merge)
    ensures Names(UpdatedNodes(known, incoming, merge)) == Names(known)
  {
    var updated := UpdatedNodes(known, incoming, merge);
    forall i | 0 <= i < |known|
      ensures updated[i].name == known[i].name
    {
      UpdatedNodeKeepsName(known, incoming, merge, i);
    }
    forall name | name in Names(updated)
      ensures name in Names(known)
    {
      var k :| 0 <= k < |updated| && updated[k].name == name;
      assert known[k].name == name;
    }
    forall name | name in Names(known)
      ensures name in Names(updated)
    {
      var k :| 0 <= k < |known| && known[k].name == name;
      assert updated[k].name == name;
    }
  }

  /** The appended nodes carry action names, and every action name not known among them. */
  lemma AppendedNames<A>(incoming: seq<ChainNode<A>>, known: seq<ChainNode<A>>)
    ensures Names(DifferenceByName(incoming, known)) <= Names(incoming)
    ensures Names(incoming) - Names(known) <= Names(DifferenceByName(incoming, known))
  {
    var appended := DifferenceByName(incoming, known);
    forall name | name in Names(appended)
      ensures name in Names(incoming)
    {
      var m :| 0 <= m < |appended| && appended[m].name == name;
      var j :| 0 <= j < |incoming| && incoming[j] == appended[m];
      assert incoming[j].name == name;
    }
    forall name | name in Names(incoming) - Names(known)
      ensures name in Names(appended)
    {
      var j :| 0 <= j < |incoming| && incoming[j].name == name;
      NamesHasName(known, name);
      var m :| 0 <= m < |appended| && appended[m] == incoming[j];
      assert appended[m].name == name;
    }
  }

  /**
    With a merge that keeps the known node's name, the names after an
    update are exactly the known names together with the action's names.
   */
  lemma UpdatedNames<A, C>(networks: Networks<A, C>, update: NetworksUpdate<A, C>, merge: Merge<A>)
    requires KeepsName(networks.nodes, update.nodes, merge)
    ensures Names(ApplyUpdate(networks, update, merge).nodes) == Names(networks.nodes) + Names(update.nodes)
  {
    var known := networks.nodes;
    var appended := DifferenceByName(update.nodes, known);
    var updated := UpdatedNodes(known, update.nodes, merge);
    assert ApplyUpdate(networks, update, merge).nodes == updated + appended;
    NamesAppend(updated, appended);
    UpdatedNodesNames(known, update.nodes, merge);
    AppendedNames(update.nodes, known);
  }

  /**
    A connection survives an update exactly when it was known or added,
    and is not among the removed ones.
   */
  lemma UpdatedConnections<A, C>(networks: Networks<A, C>, update: NetworksUpdate<A, C>, merge: Merge<A>, c: C)
    ensures var added := update.connectionsAdded;
      var removed := update.connectionsRemoved;
      c in ApplyUpdate(networks, update, merge).connections <==>
        && (c in networks.connections || (added.Some? && c in added.value))
        && !(removed.Some? && c in removed.value)
  {
    var added := AddConnections(networks.connections, update.connectionsAdded);
    if update.connectionsRemoved.Some? && |update.connectionsRemoved.value| > 0 {
      DifferenceWithMembership(added, update.connectionsRemoved.value, c);
    }
  }

  lemma DifferenceWithMembership<C>(xs: seq<C>, ys: seq<C>, c: C)
    ensures c in DifferenceWith(xs, ys) <==> c in xs && c !in ys
  {
    var r := DifferenceWith(xs, ys);
    if c in xs && c !in ys {
      var k :| 0 <= k < |xs| && xs[k] == c;
      assert xs[k] in r;
    }
  }

  /**
    A connection occurs in the result as often as in the known and added
    lists together, or not at all when it is removed: repeats are kept.
   */
  lemma UpdatedConnectionsCount<A, C>(networks: Networks<A, C>, update: NetworksUpdate<A, C>, merge: Merge<A>, c: C)
    ensures var added := update.connectionsAdded;
      var removed := update.connectionsRemoved;
      multiset(ApplyUpdate(networks, update, merge).connections)[c] ==
        if removed.Some? && c in removed.value then 0
        else multiset(networks.connections)[c] + (if added.Some? then multiset(added.value)[c] else 0)
  {
    var added := AddConnections(networks.connections, update.connectionsAdded);
    if update.connectionsRemoved.Some? && |update.connectionsRemoved.value| > 0 {
      DifferenceWithCount(added, update.connectionsRemoved.value, c);
    }
  }

  /**
    With removals, the surviving known connections keep their order and
    are followed by the surviving added ones, in their order.
   */
  lemma UpdatedConnectionsOrder<A, C>(networks: Networks<A, C>, update: NetworksUpdate<A, C>, merge: Merge<A>)
    requires update.connectionsRemoved.Some? && |update.connectionsRemoved.value| > 0
    ensures var removed := update.connectionsRemoved.value;
      var added := if update.connectionsAdded.Some? then update.connectionsAdded.value else [];
      ApplyUpdate(networks, update, merge).connections ==
        DifferenceWith(networks.connections, removed) + DifferenceWith(added, removed)
  {
    var removed := update.connectionsRemoved.value;
    var added := if update.connectionsAdded.Some? then update.connectionsAdded.value else [];
    DifferenceWithAppend(networks.connections, added, removed);
    assert added == [] ==> networks.connections + added == networks.connections;
    assert DifferenceWith([], removed) == [];
  }

  /** Removal distributes over concatenation: it keeps the order of what it keeps. */
  lemma {:induction false} DifferenceWithAppend<C>(xs: seq<C>, zs: seq<C>, ys: seq<C>)
    ensures DifferenceWith(xs + zs, ys) == DifferenceWith(xs, ys) + DifferenceWith(zs, ys)
    decreases |xs|
  {
    if xs == [] {
      assert xs + zs == zs;
    } else {
      assert (xs + zs)[1..] == xs[1..] + zs;
      DifferenceWithAppend(xs[1..], zs, ys);
    }
  }

  /** On one element, removal keeps it exactly when no removed element equals it. */
  lemma DifferenceWithSingle<C>(x: C, ys: seq<C>)
    ensures DifferenceWith([x], ys) == if x in ys then [] else [x]
  {
    assert [x][1..] == [];
  }

  /** Removal keeps every occurrence of what it keeps, and none of what it removes. */
  lemma {:induction false} DifferenceWithCount<C>(xs: seq<C>, ys: seq<C>, c: C)
    ensures multiset(DifferenceWith(xs, ys))[c] == if c in ys then 0 else multiset(xs)[c]
    decreases |xs|
  {
    if xs != [] {
      var head := if xs[0] in ys then [] else [xs[0]];
      var rest := DifferenceWith(xs[1..], ys);
      assert multiset(DifferenceWith(xs, ys))[c] == multiset(head)[c] + multiset(rest)[c] by {
        assert DifferenceWith(xs, ys) == head + rest;
      }
      assert multiset(xs)[c] == multiset([xs[0]])[c] + multiset(xs[1..])[c] by {
        assert xs == [xs[0]] + xs[1..];
      }
      assert multiset(head)[c] == if c in ys then 0 else multiset([xs[0]])[c];
      DifferenceWithCount(xs[1..], ys, c);
    }
  }

  /** `_.differenceBy` distributes over concatenation: new nodes keep the action's order. */
  lemma {:induction false} DifferenceByNameAppend<A>(xs: seq<ChainNode<A>>, zs: seq<ChainNode<A>>, ys: seq<ChainNode<A>>)
    ensures DifferenceByName(xs + zs, ys) == DifferenceByName(xs, ys) + DifferenceByName(zs, ys)
    decreases |xs|
  {
    if xs == [] {
      assert xs + zs == zs;
    } else {
      assert (xs + zs)[1..] == xs[1..] + zs;
      DifferenceByNameAppend(xs[1..], zs, ys);
    }
  }

  /** On one node, `_.differenceBy` keeps it exactly when no node of `ys` has its name. */
  lemma DifferenceByNameSingle<A>(x: ChainNode<A>, ys: seq<ChainNode<A>>)
    ensures DifferenceByName([x], ys) == if HasName(ys, x.name) then [] else [x]
  {
    assert [x][1..] == [];
  }

  /** Every occurrence of an action node with an unknown name is appended, repeats included. */
  lemma {:induction false} DifferenceByNameCount<A>(xs: seq<ChainNode<A>>, ys: seq<ChainNode<A>>, n: ChainNode<A>)
    ensures multiset(DifferenceByName(xs, ys))[n] == if HasName(ys, n.name) then 0 else multiset(xs)[n]
    decreases |xs|
  {
    if xs != [] {
      var head := if HasName(ys, xs[0].name) then [] else [xs[0]];
      var rest := DifferenceByName(xs[1..], ys);
      assert multiset(DifferenceByName(xs, ys))[n] == multiset(head)[n] + multiset(rest)[n] by {
        assert DifferenceByName(xs, ys) == head + rest;
      }
      assert multiset(xs)[n] == multiset([xs[0]])[n] + multiset(xs[1..])[n] by {
        assert xs == [xs[0]] + xs[1..];
      }
      assert multiset(head)[n] == if HasName(ys, n.name) then 0 else multiset([xs[0]])[n];
      DifferenceByNameCount(xs[1..], ys, n);
    }
  }

  /** Without removals the connections are the known ones followed by the added ones, in order. */
  lemma ConnectionsAppendInOrder<A, C>(networks: Networks<A, C>, update: NetworksUpdate<A, C>, merge: Merge<A>)
    requires update.connectionsRemoved.None? || update.connectionsRemoved == Some([])
    ensures ApplyUpdate(networks, update, merge).connections ==
      networks.connections + (if update.connectionsAdded.Some? then update.connectionsAdded.value else [])
  {
  }

  /** Removing nothing keeps every connection, in order. */
  lemma {:induction false} DifferenceWithNothing<C>(xs: seq<C>)
    ensures DifferenceWith(xs, []) == xs
    decreases |xs|
  {
    if xs != [] {
      DifferenceWithNothing(xs[1..]);
      assert xs == [xs[0]] + xs[1..];
    }
  }

  /** An empty edit list is the same as an absent one. */
  lemma EmptyEditListsAreAbsent<A, C>(networks: Networks<A, C>, nodes: seq<ChainNode<A>>, merge: Merge<A>)
    ensures ApplyUpdate(networks, NetworksUpdate(nodes, Some([]), Some([])), merge)
         == ApplyUpdate(networks, NetworksUpdate(nodes, None, None), merge)
  {
  }
}
