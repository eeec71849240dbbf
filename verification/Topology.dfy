/**
 How the constructors of the networks connect their switches.  Elsewhere a connection is named after
 the switch at its lower end, and a forwarding link after its even end; here the tables are built as
 the source builds them, and shown to connect exactly the switches those names say.
 */
module Topology {
  import opened Prelude
  import opened Layout
  import opened Networks

  /** A connection, by its key in the table of tree connections or of forwarding links. */
  datatype Connection = Outer | Tree(key: Id) | Forwarding(key: Id)

  /** The connections of one switch: to its parent, to its two children, and sideways. */
  datatype Ports = Ports(up: Connection, left: Connection, right: Connection, link: Option<Connection>)

  predicate InTable(levels: nat, id: Id) {
    id.0 < levels && id.1 < Pow2(id.0)
  }

  /** The first and the last switch of a level have no forwarding link. */
  predicate HasLink(id: Id) {
    0 < id.1 < Pow2(id.0) - 1
  }

  /** A link is made when its even end is connected. */
  predicate LinkMade(id: Id, i: nat, j: nat) {
    HasLink(id) && (id.0 < i || (id.0 == i && EvenEnd(id.1) < j))
  }

  /** What switch id is connected to when the switches before (i, j), level by level, have been connected. */
  ghost function PortsAt(id: Id, i: nat, j: nat): Ports {
    Ports(if id.0 == 0 then Outer else Tree((id.0 - 1, id.1)), Tree((id.0, 2 * id.1)), Tree((id.0, 2 * id.1 + 1)),
          if LinkMade(id, i, j) then Some(Forwarding((id.0, EvenEnd(id.1)))) else None)
  }

  predicate Connected(levels: nat, id: Id, i: nat, j: nat) {
    InTable(levels, id) && (id.0 < i || (id.0 == i && id.1 < j))
  }

  ghost predicate BuiltUpTo(ports: map<Id, Ports>, levels: nat, i: nat, j: nat) {
    && (forall id: Id :: id in ports <==> Connected(levels, id, i, j))
    && (forall id: Id :: id in ports ==> ports[id] == PortsAt(id, i, j))
  }

  /** Connecting (i, j) changes the ports of its left neighbour only, when the two share a link. */
  lemma PortsNext(id: Id, i: nat, j: nat)
    requires id.0 < i || (id.0 == i && id.1 < j)
    ensures PortsAt(id, i, j + 1) ==
      if i > 0 && j > 0 && j % 2 == 0 && j < Pow2(i) && id == (i, j - 1)
      then PortsAt(id, i, j).(link := Some(Forwarding((i, j)))) else PortsAt(id, i, j)
  {
  }

  lemma OwnPorts(i: nat, j: nat)
    requires j < Pow2(i)
    ensures PortsAt((i, j), i, j + 1) ==
      Ports(if i == 0 then Outer else Tree((i - 1, j)), Tree((i, 2 * j)), Tree((i, 2 * j + 1)),
            if i > 0 && j > 0 && j % 2 == 0 then Some(Forwarding((i, j))) else None)
  {
  }

  /** Connects switch (i, j), and its left neighbour when the two share a link. */
  method Connect(ports: map<Id, Ports>, levels: nat, i: nat, j: nat, width: nat) returns (more: map<Id, Ports>)
    requires i < levels && width == Pow2(i) && j < width && BuiltUpTo(ports, levels, i, j)
    ensures BuiltUpTo(more, levels, i, j + 1)
  {
    hide PortsAt;
    var up := if i == 0 then Outer else Tree((i - 1, j));
    var own := Ports(up, Tree((i, 2 * j)), Tree((i, 2 * j + 1)), None);
    more := ports;
    if i > 0 && j > 0 && j % 2 == 0 {
      assert Connected(levels, (i, j - 1), i, j);
      own := own.(link := Some(Forwarding((i, j))));
      more := more[(i, j - 1) := more[(i, j - 1)].(link := Some(Forwarding((i, j))))];
    }
    more := more[(i, j) := own];
    OwnPorts(i, j);
    forall id: Id | id in more
      ensures more[id] == PortsAt(id, i, j + 1)
    {
      if id != (i, j) {
        assert Connected(levels, id, i, j);
        PortsNext(id, i, j);
      }
    }
  }

  method BuildPorts(levels: nat) returns (ports: map<Id, Ports>)
    ensures BuiltUpTo(ports, levels, levels, 0)
  {
    hide PortsAt;
    ports := map[];
    var i, width := 0, 1;
    while i < levels
      invariant i <= levels && width == Pow2(i) && BuiltUpTo(ports, levels, i, 0)
    {
      var j := 0;
      while j < width
        invariant j <= width && BuiltUpTo(ports, levels, i, j)
      {
        ports := Connect(ports, levels, i, j, width);
        j := j + 1;
      }
      RowBuilt(ports, levels, i);
      i := i + 1;
      width := width * 2;
    }
  }

  lemma RowBuilt(ports: map<Id, Ports>, levels: nat, i: nat)
    requires BuiltUpTo(ports, levels, i, Pow2(i))
    ensures BuiltUpTo(ports, levels, i + 1, 0)
  {
    hide PortsAt;
    forall id: Id
      ensures Connected(levels, id, i, Pow2(i)) <==> Connected(levels, id, i + 1, 0)
      ensures Connected(levels, id, i, Pow2(i)) ==> PortsAt(id, i, Pow2(i)) == PortsAt(id, i + 1, 0)
    {
      if Connected(levels, id, i, Pow2(i)) {
        RowPorts(id, i);
      }
    }
  }

  lemma RowPorts(id: Id, i: nat)
    requires id.0 <= i && id.1 < Pow2(id.0)
    ensures PortsAt(id, i, Pow2(i)) == PortsAt(id, i + 1, 0)
  {
  }

  lemma InPorts(ports: map<Id, Ports>, levels: nat, id: Id)
    requires BuiltUpTo(ports, levels, levels, 0) && InTable(levels, id)
    ensures id in ports && ports[id] == PortsAt(id, levels, 0)
  {
    hide PortsAt;
    assert Connected(levels, id, levels, 0);
  }

  /** A switch hangs below another one, on its left or on its right, exactly when it is that child of it. */
  lemma TreeEdges(ports: map<Id, Ports>, levels: nat, child: Id, parent: Id)
    requires BuiltUpTo(ports, levels, levels, 0) && InTable(levels, child) && InTable(levels, parent)
    ensures child in ports && parent in ports
    ensures ports[child].up == ports[parent].left <==> child.0 == parent.0 + 1 && child.1 == 2 * parent.1
    ensures ports[child].up == ports[parent].right <==> child.0 == parent.0 + 1 && child.1 == 2 * parent.1 + 1
  {
    hide BuiltUpTo, LinkMade;
    InPorts(ports, levels, child);
    InPorts(ports, levels, parent);
  }

  /** Two switches share a forwarding link exactly when they are partners, and neither is at an edge of its level. */
  lemma LinkEdges(ports: map<Id, Ports>, levels: nat, a: Id, b: Id)
    requires BuiltUpTo(ports, levels, levels, 0) && InTable(levels, a) && InTable(levels, b) && a != b
    ensures a in ports && b in ports
    ensures ports[a].link.Some? && ports[a].link == ports[b].link <==> a.0 == b.0 && HasLink(a) && b.1 == Partner(a.1)
  {
    hide BuiltUpTo;
    InPorts(ports, levels, a);
    InPorts(ports, levels, b);
    assert a.0 > 0 ==> Pow2(a.0) % 2 == 0;
  }
}
