/**
 * Item transport between neighbouring tiles. A pipe links to the objects
 * next to it in its variant's directions. It then pushes its item along its
 * transport direction, or pulls one from a pipe that points back at it. An
 * inserter reads the objects on two chosen sides. It takes an item from the
 * receiving side and hands it to the sending side, flipping `rotated_over` at
 * each move. Every hand-off moves the item: the source is cleared as the
 * destination is set.
 */
module Transport {
  import opened Wrappers
  import opened Settings
  import opened PyNum
  import opened Collision
  import opened Machines
  import opened Alarms

  // ---- The object grid ----

  /** What a cell of `obj_map` holds: a pipe, an inserter, or another machine. */
  datatype Obj = PipeObj(pipe: Pipe) | InserterObj(inserter: Inserter) | MachineObj(machine: Machine)

  /** The object in a cell, as a reference. */
  function Ref(o: Obj): object
  {
    match o
    case PipeObj(p) => p
    case InserterObj(n) => n
    case MachineObj(mc) => mc
  }

  function PipeIn(o: Obj): set<Pipe>
  {
    if o.PipeObj? then {o.pipe} else {}
  }

  function InserterIn(o: Obj): set<Inserter>
  {
    if o.InserterObj? then {o.inserter} else {}
  }

  /** `obj_map`: the object on each tile; a tile that is not a key holds None. */
  type ObjMap = map<Coord, Obj>

  function Add(t: Coord, d: Offset): Coord
  {
    (t.0 + d.0, t.1 + d.1)
  }

  function Neg(d: Offset): Offset
  {
    (-d.0, -d.1)
  }

  /**
   * `obj_map[x, y]` read as numpy reads it: an index up to one map width
   * below zero counts back from the far edge, and one past an edge raises.
   */
  function ObjAt(m: ObjMap, x: int, y: int): (r: Result<Option<Obj>>)
    ensures r.Err? <==> !(-MAP_W <= x < MAP_W && -MAP_H <= y < MAP_H)
    ensures r.Err? ==> r.error == IndexError
    ensures 0 <= x < MAP_W && 0 <= y < MAP_H ==> r == Ok(if (x, y) in m then Some(m[(x, y)]) else None)
    ensures x == -1 && 0 <= y < MAP_H ==> r == Ok(if (MAP_W - 1, y) in m then Some(m[(MAP_W - 1, y)]) else None)
  {
    if -MAP_W <= x < MAP_W && -MAP_H <= y < MAP_H then
      var c := (NpIndex(x, MAP_W), NpIndex(y, MAP_H));
      Ok(if c in m then Some(m[c]) else None)
    else
      Err(IndexError)
  }

  // ---- Pipe directions ----

  /** A pipe variant: an index into `PIPE_TRANSPORT_DIRS`. */
  type Variant = i: nat | i < 11

  /** The keys of `obj_connections`: the variant's list, or its horizontal then its vertical list. */
  function Keys(v: Variant): seq<Offset>
  {
    PIPE_TRANSPORT_DIRS[v].All()
  }

  /** A step to one of the four neighbouring tiles. */
  predicate UnitStep(d: Offset)
  {
    Abs(d.0) + Abs(d.1) == 1
  }

  /** Every variant lists at least two distinct unit steps, and each junction has both axis lists. */
  lemma KeysAreSteps(v: Variant)
    ensures |Keys(v)| >= 2 && NoDup(Keys(v))
    ensures forall d :: d in Keys(v) ==> UnitStep(d)
    ensures PIPE_TRANSPORT_DIRS[v].Line? <==> v <= 5
    ensures PIPE_TRANSPORT_DIRS[v].Junction? ==>
      PIPE_TRANSPORT_DIRS[v].horizontal != [] && PIPE_TRANSPORT_DIRS[v].vertical != [] &&
      (forall d :: d in PIPE_TRANSPORT_DIRS[v].horizontal ==> d.0 != 0) &&
      (forall d :: d in PIPE_TRANSPORT_DIRS[v].vertical ==> d.0 == 0)
  {
    PipeVariants();
  }

  /** `transport_dir`: one direction, or one per axis for a junction. */
  datatype Heading = Single(dir: Offset) | PerAxis(horizontal: Offset, vertical: Offset)
  {
    /** The direction a step `d` is compared with: a junction picks by `d`'s axis. */
    function Along(d: Offset): Offset
    {
      match this
      case Single(x) => x
      case PerAxis(h, v) => if d.0 != 0 then h else v
    }
  }

  /** The default transport direction: the first key, or the first entry of each axis list. */
  function DefaultHeading(v: Variant): (h: Heading)
    ensures h.Single? <==> v <= 5
    ensures h.Single? ==> h.dir == Keys(v)[0]
    ensures h.PerAxis? ==>
      h.horizontal == PIPE_TRANSPORT_DIRS[v].horizontal[0] && h.vertical == PIPE_TRANSPORT_DIRS[v].vertical[0]
    ensures forall d :: h.Along(d) in Keys(v)
  {
    KeysAreSteps(v);
    match PIPE_TRANSPORT_DIRS[v]
    case Line(ds) => Single(ds[0])
    case Junction(hs, vs) => PerAxis(hs[0], vs[0])
  }

  // ---- Pipe links ----

  /**
   * `get_connected_objs`' rule for the step `d` from tile `t`: the object on
   * the tile reached, when that tile is strictly inside the map, unless it is
   * a pipe whose own keys do not hold the opposite step.
   */
  function Link(m: ObjMap, t: Coord, d: Offset): (r: Option<Obj>)
    ensures r.Some? ==> Add(t, d) in m && r.value == m[Add(t, d)]
    ensures r.Some? && r.value.PipeObj? ==> Neg(d) in Keys(r.value.pipe.variant)
  {
    var c := Add(t, d);
    if 0 < c.0 < MAP_W && 0 < c.1 < MAP_H && c in m && (m[c].PipeObj? ==> Neg(d) in Keys(m[c].pipe.variant)) then
      Some(m[c])
    else
      None
  }

  /** Row 0 and column 0 never link: the bounds test is strict on both sides. */
  lemma EdgesNeverLink(m: ObjMap, t: Coord, d: Offset)
    requires Add(t, d).0 == 0 || Add(t, d).1 == 0 || Add(t, d) !in m
    ensures Link(m, t, d).None?
  {
  }

  /** Two pipes inside the map whose keys hold opposite steps towards each other link both ways. */
  lemma LinksSymmetric(m: ObjMap, p: Pipe, q: Pipe, d: Offset)
    requires p.tileXY in m && m[p.tileXY] == PipeObj(p) && Add(p.tileXY, d) in m && m[Add(p.tileXY, d)] == PipeObj(q)
    requires Neg(d) in Keys(q.variant) && d in Keys(p.variant)
    requires 0 < p.tileXY.0 < MAP_W && 0 < p.tileXY.1 < MAP_H
    requires 0 < Add(p.tileXY, d).0 < MAP_W && 0 < Add(p.tileXY, d).1 < MAP_H
    ensures Link(m, p.tileXY, d) == Some(PipeObj(q))
    ensures Link(m, Add(p.tileXY, d), Neg(d)) == Some(PipeObj(p))
  {
    assert Add(Add(p.tileXY, d), Neg(d)) == p.tileXY;
    assert Neg(Neg(d)) == d;
  }

  /** The keys of `ks` that have an object in `c`, in order: the loop list of `transport`. */
  function {:induction false} LiveOf(ks: seq<Offset>, c: map<Offset, Obj>): (r: seq<Offset>)
    ensures forall d :: d in r <==> d in ks && d in c
    ensures NoDup(ks) ==> NoDup(r)
  {
    if ks == [] then []
    else
      var rest := LiveOf(ks[1..], c);
      assert forall d :: d in ks <==> d == ks[0] || d in ks[1..];
      if ks[0] in c then
        (assert NoDup(ks) ==> ks[0] !in ks[1..] && NoDup(ks[1..]);
         [ks[0]] + rest)
      else
        (assert NoDup(ks) ==> NoDup(ks[1..]);
         rest)
  }

  // ---- One pass of `transport`, on values ----

  datatype Kind = PipeKind | InserterKind | MachineKind

  /**
   * A linked neighbour as `transport` sees it:
   * - its kind and the item it holds (nothing for a machine);
   * - whether an inserter has turned over;
   * - `ahead`: the step to it is this pipe's transport direction;
   * - `feeding`: it is a pipe whose own direction points its item back here,
   *   at a tile this pipe does not push to.
   */
  datatype Peer = Peer(kind: Kind, item: Option<string>, rotatedOver: bool, ahead: bool, feeding: bool)

  /** The pipe's item, the neighbours after the pass, and the exception that stopped it, if any. */
  datatype Pass = Pass(held: Option<string>, peers: seq<Peer>, error: Option<Error>)

  /**
   * One iteration of `transport`'s loop. A truthy item goes to the neighbour
   * ahead: a pipe that holds nothing, or an inserter that holds nothing and
   * has turned over. A machine has no `item_holding` to test, so pushing to
   * one raises. With nothing held, the pipe pulls a feeding pipe's item.
   */
  function Step(held: Option<string>, p: Peer): (Option<string>, Peer, Option<Error>)
  {
    if Truthy(held) then
      if !p.ahead then (held, p, None)
      else
        match p.kind
        case PipeKind => if !Truthy(p.item) then (None, p.(item := held), None) else (held, p, None)
        case InserterKind =>
          if !Truthy(p.item) && p.rotatedOver then (None, p.(item := held), None) else (held, p, None)
        case MachineKind => (held, p, Some(AttributeError))
    else if p.kind == PipeKind && Truthy(p.item) && p.feeding then
      (p.item, p.(item := None), None)
    else
      (held, p, None)
  }

  /** The loop over the linked neighbours in order; once an iteration raises, the rest are left as they were. */
  function Run(held: Option<string>, ps: seq<Peer>): (r: Pass)
    ensures |r.peers| == |ps|
  {
    if ps == [] then Pass(held, [], None)
    else
      var o := Run(held, ps[..|ps| - 1]);
      var last := ps[|ps| - 1];
      if o.error.Some? then Pass(o.held, o.peers + [last], o.error)
      else
        var s := Step(o.held, last);
        Pass(s.0, o.peers + [s.1], s.2)
  }

  /** The loop one iteration further. */
  lemma RunSnoc(held: Option<string>, ps: seq<Peer>, i: nat)
    requires i < |ps|
    ensures Run(held, ps[..i + 1]) ==
      var o := Run(held, ps[..i]);
      if o.error.Some? then Pass(o.held, o.peers + [ps[i]], o.error)
      else Pass(Step(o.held, ps[i]).0, o.peers + [Step(o.held, ps[i]).1], Step(o.held, ps[i]).2)
  {
    assert ps[..i + 1][..i] == ps[..i];
  }

  /** After an iteration has raised, the remaining neighbours are passed over unchanged. */
  lemma {:induction false} RunAfterError(held: Option<string>, ps: seq<Peer>, k: nat)
    requires k <= |ps| && Run(held, ps[..k]).error.Some?
    ensures Run(held, ps) == Pass(Run(held, ps[..k]).held, Run(held, ps[..k]).peers + ps[k..], Run(held, ps[..k]).error)
    decreases |ps| - k
  {
    if k == |ps| {
      assert ps[..k] == ps;
      assert ps[k..] == [];
    } else {
      var o := Run(held, ps[..k]);
      assert ps[..k + 1][..k] == ps[..k];
      assert Run(held, ps[..k + 1]) == Pass(o.held, o.peers + [ps[k]], o.error);
      RunAfterError(held, ps, k + 1);
      assert o.peers + [ps[k]] + ps[k + 1..] == o.peers + ps[k..];
    }
  }

  /** The items a holder counts for: a truthy name once, anything else nothing. */
  function Units(o: Option<string>): multiset<string>
  {
    if Truthy(o) then multiset{o.value} else multiset{}
  }

  /** All items the neighbours hold. */
  function Stock(ps: seq<Peer>): multiset<string>
  {
    if ps == [] then multiset{} else Stock(ps[..|ps| - 1]) + Units(ps[|ps| - 1].item)
  }

  lemma StockAppend(ps: seq<Peer>, p: Peer)
    ensures Stock(ps + [p]) == Stock(ps) + Units(p.item)
  {
    assert (ps + [p])[..|ps|] == ps;
  }

  /** One iteration moves an item between the pipe and the neighbour, or changes nothing. */
  lemma StepConserves(held: Option<string>, p: Peer)
    ensures Units(Step(held, p).0) + Units(Step(held, p).1.item) == Units(held) + Units(p.item)
  {
    var s := Step(held, p);
    if s.0 == held && s.1 == p {
    } else if Truthy(held) {
      assert s.0 == None && s.1.item == held && !Truthy(p.item);
      assert Units(s.0) == multiset{} && Units(p.item) == multiset{};
    } else {
      assert s.0 == p.item && s.1.item == None && !Truthy(held);
      assert Units(s.1.item) == multiset{} && Units(held) == multiset{};
    }
  }

  /** The loop's last iteration, or its skipping after an exception, adds the neighbour's items to the count and moves none. */
  lemma ConserveLast(o: Pass, p: Peer)
    ensures var r := if o.error.Some? then Pass(o.held, o.peers + [p], o.error)
      else Pass(Step(o.held, p).0, o.peers + [Step(o.held, p).1], Step(o.held, p).2);
      Units(r.held) + Stock(r.peers) == Units(o.held) + Stock(o.peers) + Units(p.item)
  {
    if o.error.Some? {
      StockAppend(o.peers, p);
    } else {
      var s := Step(o.held, p);
      StockAppend(o.peers, s.1);
      StepConserves(o.held, p);
      calc {
        Units(s.0) + Stock(o.peers + [s.1]);
        Units(s.0) + (Stock(o.peers) + Units(s.1.item));
        (Units(s.0) + Units(s.1.item)) + Stock(o.peers);
        (Units(o.held) + Units(p.item)) + Stock(o.peers);
      }
    }
  }

  /** A pass moves items and never copies or loses one: the pipe and its neighbours hold the same items as before. */
  lemma {:induction false} RunConserves(held: Option<string>, ps: seq<Peer>)
    ensures Units(Run(held, ps).held) + Stock(Run(held, ps).peers) == Units(held) + Stock(ps)
  {
    if ps != [] {
      var k := |ps| - 1;
      RunConserves(held, ps[..k]);
      RunSnoc(held, ps, k);
      assert ps[..k + 1] == ps;
      StockAppend(ps[..k], ps[k]);
      ConserveLast(Run(held, ps[..k]), ps[k]);
    }
  }

  /** Which way a neighbour's item changed in one iteration, if at all. */
  predicate Moved(p: Peer, q: Peer)
  {
    q == p.(item := q.item) &&
    (q.item != p.item ==>
      (p.ahead && p.kind != MachineKind && !Truthy(p.item) && Truthy(q.item)) ||
      (p.kind == PipeKind && p.feeding && Truthy(p.item) && q.item.None?))
  }

  /**
   * A pass changes only the neighbours' items, and each one only by a rule:
   * it received an item while ahead and empty, or it was a feeding pipe whose
   * item was taken.
   */
  lemma {:induction false} RunMovesByRules(held: Option<string>, ps: seq<Peer>)
    ensures forall j :: 0 <= j < |ps| ==> Moved(ps[j], Run(held, ps).peers[j])
  {
    if ps != [] {
      var init := ps[..|ps| - 1];
      RunMovesByRules(held, init);
      var r := Run(held, ps);
      var o := Run(held, init);
      forall j | 0 <= j < |ps|
        ensures Moved(ps[j], r.peers[j])
      {
        if j < |ps| - 1 {
          assert r.peers[j] == o.peers[j] && ps[j] == init[j];
        }
      }
    }
  }

  /** A pass raises only at a machine ahead of the pipe, and the exception is an AttributeError. */
  lemma {:induction false} RunFailsOnlyAtMachines(held: Option<string>, ps: seq<Peer>)
    ensures Run(held, ps).error.Some? ==> Run(held, ps).error == Some(AttributeError)
    ensures (forall j :: 0 <= j < |ps| ==> !(ps[j].kind == MachineKind && ps[j].ahead)) ==> Run(held, ps).error.None?
  {
    if ps != [] {
      RunFailsOnlyAtMachines(held, ps[..|ps| - 1]);
    }
  }

  /** A pipe that holds a truthy item and has an empty pipe as its first neighbour ahead hands the item over there. */
  lemma PushReachesFirstEmptyPipe(held: Option<string>, ps: seq<Peer>, k: nat)
    requires k < |ps| && Truthy(held)
    requires forall j :: 0 <= j < k ==> !ps[j].ahead
    requires ps[k].ahead && ps[k].kind == PipeKind && !Truthy(ps[k].item)
    ensures Run(held, ps[..k + 1]).held.None? && Run(held, ps[..k + 1]).peers[k].item == held
  {
    RunIdleWhileNotAhead(held, ps, k);
    assert ps[..k + 1][..k] == ps[..k];
  }

  /** While no neighbour is ahead, a pipe holding a truthy item changes nothing. */
  lemma {:induction false} RunIdleWhileNotAhead(held: Option<string>, ps: seq<Peer>, k: nat)
    requires k <= |ps| && Truthy(held)
    requires forall j :: 0 <= j < k ==> !ps[j].ahead
    ensures Run(held, ps[..k]) == Pass(held, ps[..k], None)
  {
    if k > 0 {
      RunIdleWhileNotAhead(held, ps, k - 1);
      assert ps[..k][..k - 1] == ps[..k - 1];
      assert ps[..k - 1] + [ps[k - 1]] == ps[..k];
    }
  }

  // ---- Pipes ----

  class Pipe {
    const tileXY: Coord
    const variant: Variant
    /** The `move item` alarm: `transport` every 2000 ms, started at once and looping. */
    const moveAlarm: AlarmConfig
    var itemHolding: Option<string>
    /** The entries of `obj_connections` that hold an object. */
    var connections: map<Offset, Obj>
    var heading: Heading

    /** The links and transport direction `get_connected_objs` leaves for the grid `m`. */
    ghost predicate Connected(m: ObjMap)
      reads this`connections, this`heading
    {
      (forall d :: d in connections <==> d in Keys(variant) && Link(m, tileXY, d).Some?) &&
      (forall d :: d in connections ==> Link(m, tileXY, d) == Some(connections[d])) &&
      heading == DefaultHeading(variant)
    }

    /** `Pipe.__init__` at top-left `xy`: holding nothing, then linked to the grid `m`. */
    constructor (xy: Coord, variant: Variant, m: ObjMap)
      ensures tileXY == TileXY(xy) && this.variant == variant && itemHolding.None?
      ensures moveAlarm == AlarmConfig(2000, Some(Callback.Transport), true, true)
      ensures Connected(m)
    {
      tileXY := TileXY(xy);
      this.variant := variant;
      moveAlarm := AlarmConfig(2000, Some(Callback.Transport), true, true);
      itemHolding := None;
      connections := map[];
      heading := Single((0, 0));
      new;
      GetConnectedObjs(m);
    }

    /** `get_connected_objs`: each key links by `Link`, then the transport direction is reset to its default. */
    method GetConnectedObjs(m: ObjMap)
      modifies this`connections, this`heading
      ensures Connected(m)
    {
      var ks := Keys(variant);
      var conns: map<Offset, Obj> := map[];
      var i := 0;
      while i < |ks|
        invariant 0 <= i <= |ks|
        invariant forall d :: d in conns <==> d in ks[..i] && Link(m, tileXY, d).Some?
        invariant forall d :: d in conns ==> Link(m, tileXY, d) == Some(conns[d])
      {
        var d := ks[i];
        var r := LinkAt(m, d);
        if r.Some? {
          conns := conns[d := r.value];
        }
        assert ks[..i + 1] == ks[..i] + [d];
        i := i + 1;
      }
      assert ks[..i] == ks;
      connections := conns;
      heading := DefaultHeading(variant);
    }

    /** One key of `get_connected_objs`' loop: the object the step `d` links to, if any. */
    method LinkAt(m: ObjMap, d: Offset) returns (r: Option<Obj>)
      ensures r == Link(m, tileXY, d)
    {
      r := None;
      var c := (tileXY.0 + d.0, tileXY.1 + d.1);
      if 0 < c.0 < MAP_W && 0 < c.1 < MAP_H && c in m {
        var obj := m[c];
        match obj {
          case PipeObj(q) =>
            if Neg(d) in Keys(q.variant) {
              r := Some(obj);
            }
          case InserterObj(_) =>
            r := Some(obj);
          case MachineObj(_) =>
            r := Some(obj);
        }
      }
    }

    /** The keys `transport` walks: those of `obj_connections` holding an object. */
    function Live(): (ks: seq<Offset>)
      reads this`connections
      ensures forall d :: d in ks ==> d in connections
      ensures NoDup(ks)
    {
      KeysAreSteps(variant);
      LiveOf(Keys(variant), connections)
    }

    /** The objects linked to this pipe. */
    function Objs(): set<object>
      reads this`connections
    {
      set d | d in connections :: Ref(connections[d])
    }

    function LinkedPipes(): set<Pipe>
      reads this`connections
    {
      set d | d in connections && connections[d].PipeObj? :: connections[d].pipe
    }

    function LinkedInserters(): set<Inserter>
      reads this`connections
    {
      set d | d in connections && connections[d].InserterObj? :: connections[d].inserter
    }

    /**
     * Distinct links reach distinct pipes and inserters, none of them this
     * pipe: each stands on its own tile, and no machine covers two tiles next
     * to a pipe without covering the pipe's own tile.
     */
    ghost predicate Separate()
      reads this`connections
    {
      (forall d :: d in connections && connections[d].PipeObj? ==> connections[d].pipe != this) &&
      (forall d, e :: d in connections && e in connections && d != e && !connections[d].MachineObj? ==>
        Ref(connections[d]) != Ref(connections[e]))
    }

    /** How `transport` sees the neighbour linked by `d`, read off the current objects. */
    function PeerOf(d: Offset): Peer
      requires d in connections
      reads this`connections, this`heading, Ref(connections[d])
    {
      var ahead := d == heading.Along(d);
      match connections[d]
      case PipeObj(q) =>
        Peer(PipeKind, q.itemHolding, false, ahead, d == Neg(q.heading.Along(d)) && Add(tileXY, heading.Along(d)) != q.tileXY)
      case InserterObj(n) => Peer(InserterKind, n.itemHolding, n.rotatedOver, ahead, false)
      case MachineObj(_) => Peer(MachineKind, None, false, ahead, false)
    }

    function PeersOf(ks: seq<Offset>): (ps: seq<Peer>)
      requires forall d :: d in ks ==> d in connections
      reads this`connections, this`heading, Objs()
      ensures |ps| == |ks| && forall j :: 0 <= j < |ks| ==> ps[j] == PeerOf(ks[j])
    {
      if ks == [] then [] else [PeerOf(ks[0])] + PeersOf(ks[1..])
    }

    /** The linked neighbours, in the order `transport` walks them. */
    function Snapshot(): seq<Peer>
      reads this`connections, this`heading, Objs()
    {
      PeersOf(Live())
    }

    /** `send_item_to_inserter`: an inserter that holds nothing and has turned over takes the item; a machine has no `item_holding` and raises. */
    method SendItemToInserter(obj: Obj) returns (err: Option<Error>)
      requires !obj.PipeObj?
      modifies this`itemHolding, InserterIn(obj)`itemHolding
      ensures obj.MachineObj? ==> err == Some(AttributeError) && itemHolding == old(itemHolding)
      ensures obj.InserterObj? ==> err.None?
      ensures obj.InserterObj? && !Truthy(old(obj.inserter.itemHolding)) && old(obj.inserter.rotatedOver) ==>
        obj.inserter.itemHolding == old(itemHolding) && itemHolding.None?
      ensures obj.InserterObj? && !(!Truthy(old(obj.inserter.itemHolding)) && old(obj.inserter.rotatedOver)) ==>
        obj.inserter.itemHolding == old(obj.inserter.itemHolding) && itemHolding == old(itemHolding)
    {
      match obj
      case InserterObj(n) =>
        err := None;
        if !Truthy(n.itemHolding) && n.rotatedOver {
          n.itemHolding := itemHolding;
          itemHolding := None;
        }
      case MachineObj(_) =>
        err := Some(AttributeError);
    }

    /**
     * `transport`: one iteration per linked neighbour, in key order. The new
     * item of the pipe and of every neighbour, and the exception that
     * stopped the loop, are those of `Run` on the neighbours as they were.
     */
    method Transport() returns (err: Option<Error>)
      requires Separate()
      modifies this`itemHolding, LinkedPipes()`itemHolding, LinkedInserters()`itemHolding
      ensures Run(old(itemHolding), old(Snapshot())) == Pass(itemHolding, Snapshot(), err)
    {
      var ks := Live();
      ghost var ps := PeersOf(ks);
      ghost var h0 := itemHolding;
      ghost var cur := Pass(itemHolding, [], None);
      var i := 0;
      while i < |ks|
        invariant 0 <= i <= |ks| == |ps| && ks == Live()
        invariant cur == Run(h0, ps[..i]) && cur.error.None? && Walked(ps, i, cur)
      {
        err, cur := Advance(h0, ps, i, cur);
        if err.Some? {
          Stopped(h0, ps, i + 1, cur);
          return;
        }
        i := i + 1;
      }
      Stopped(h0, ps, i, cur);
      err := None;
    }

    /**
     * The walk after `i` iterations: the pipe holds `cur`'s item, the first
     * `i` neighbours are `cur`'s, and the rest are as they were in `ps`.
     */
    ghost predicate Walked(ps: seq<Peer>, i: nat, cur: Pass)
      reads this`itemHolding, this`connections, this`heading, Objs()
    {
      i <= |Live()| == |ps| && itemHolding == cur.held && |cur.peers| == i &&
      (forall j :: 0 <= j < i ==> PeerOf(Live()[j]) == cur.peers[j]) &&
      (forall j :: i <= j < |Live()| ==> PeerOf(Live()[j]) == ps[j])
    }

    /** One iteration of the walk: `Run` one neighbour further. */
    method Advance(ghost h0: Option<string>, ghost ps: seq<Peer>, i: nat, ghost cur: Pass) returns (err: Option<Error>, ghost next: Pass)
      requires Separate() && i < |ps| && Walked(ps, i, cur) && cur == Run(h0, ps[..i]) && cur.error.None?
      modifies this`itemHolding, LinkedPipes()`itemHolding, LinkedInserters()`itemHolding
      ensures next == Run(h0, ps[..i + 1]) && err == next.error && Walked(ps, i + 1, next)
    {
      RunSnoc(h0, ps, i);
      var ks := Live();
      var d := ks[i];
      err := Iteration(d);
      var s := Step(cur.held, ps[i]);
      next := Pass(s.0, cur.peers + [s.1], s.2);
    }

    /** A walk that raised after `i` iterations, or finished them all, leaves the state `Run` describes. */
    lemma Stopped(h0: Option<string>, ps: seq<Peer>, i: nat, cur: Pass)
      requires i <= |ps| && Walked(ps, i, cur) && cur == Run(h0, ps[..i]) && (cur.error.Some? || i == |ps|)
      ensures Snapshot() == Run(h0, ps).peers && itemHolding == Run(h0, ps).held && Run(h0, ps).error == cur.error
    {
      if i == |ps| {
        assert ps[..i] == ps;
      } else {
        RunAfterError(h0, ps, i);
      }
      SnapshotIs(Run(h0, ps).peers);
    }

    /** The snapshot, read off pointwise. */
    lemma SnapshotIs(qs: seq<Peer>)
      requires |qs| == |Live()| && forall j :: 0 <= j < |qs| ==> PeerOf(Live()[j]) == qs[j]
      ensures Snapshot() == qs
    {
    }

    /** Distinct keys in the walk reach distinct pipes and inserters. */
    lemma FrameAt(ks: seq<Offset>, i: nat)
      requires Separate() && NoDup(ks) && i < |ks|
      requires forall d :: d in ks ==> d in connections
      ensures forall j :: 0 <= j < |ks| && j != i && !connections[ks[i]].MachineObj? ==>
        Ref(connections[ks[j]]) != Ref(connections[ks[i]])
    {
    }

    /** One iteration of `transport`'s loop, for the neighbour linked by `d`. */
    method Iteration(d: Offset) returns (err: Option<Error>)
      requires d in connections && Separate()
      modifies this`itemHolding, PipeIn(connections[d])`itemHolding, InserterIn(connections[d])`itemHolding
      ensures (itemHolding, PeerOf(d), err) == Step(old(itemHolding), old(PeerOf(d)))
      ensures forall e :: e in connections && e != d ==> PeerOf(e) == old(PeerOf(e))
      ensures connections[d].PipeObj? ==> unchanged(connections[d].pipe`heading)
      ensures connections[d].InserterObj? ==> unchanged(connections[d].inserter`rotatedOver)
    {
      var dir := heading.Along(d);
      var obj := connections[d];
      err := None;
      if Truthy(itemHolding) {
        if d == dir {
          match obj
          case PipeObj(q) =>
            if !Truthy(q.itemHolding) {
              q.itemHolding := itemHolding;
              itemHolding := None;
            }
          case InserterObj(_) =>
            err := SendItemToInserter(obj);
          case MachineObj(_) =>
            err := SendItemToInserter(obj);
        }
      } else if obj.PipeObj? {
        var q := obj.pipe;
        var objDir := q.heading.Along(d);
        if Truthy(q.itemHolding) && d == Neg(objDir) && Add(tileXY, dir) != q.tileXY {
          itemHolding := q.itemHolding;
          q.itemHolding := None;
        }
      }
    }
  }

  // ---- Inserters ----

  /** The inserter kinds, which differ in speed only. */
  datatype InserterVariant = Basic | Burner | Electric | LongHanded

  function SpeedFactor(v: InserterVariant): real
  {
    match v
    case Basic => 1.0
    case Burner => 1.0
    case Electric => 1.5
    case LongHanded => 1.25
  }

  /** `rotate_speed`, the milliseconds of a turn at speed 1. */
  const ROTATE_SPEED := 1250

  /** The `transfer` alarm's length in whole milliseconds: the first tick count at which `rotate_speed / speed_factor` has elapsed. */
  function TransferLength(v: InserterVariant): int
  {
    match v
    case Basic => 1250
    case Burner => 1250
    case Electric => 834
    case LongHanded => 1000
  }

  /** On the game's whole-millisecond clock, the rounded length ends the alarm exactly when the fractional one does. */
  lemma TransferLengthExact(v: InserterVariant, elapsed: int)
    ensures elapsed >= TransferLength(v) <==> elapsed as real >= ROTATE_SPEED as real / SpeedFactor(v)
  {
    if v == Electric {
      assert ROTATE_SPEED as real / SpeedFactor(v) == 2500.0 / 3.0;
      if elapsed >= 834 {
        assert elapsed as real * 3.0 >= 2502.0;
      } else {
        assert elapsed as real * 3.0 <= 2499.0;
      }
    }
  }

  /** The inserter's alarms as constructed: `transfer` and `receive item` pass their method as `fn=`, `send item` as `function=`. */
  function InserterAlarmsAsWritten(v: InserterVariant): map<string, AlarmConfig>
  {
    map[
      "transfer" := Bind(TransferLength(v), [("fn", Fn(Callback.Transfer)), ("auto", Flag(true)), ("loop", Flag(true))]),
      "receive item" := Bind(200, [("fn", Fn(Callback.ReceiveItem)), ("auto", Flag(false)), ("loop", Flag(false))]),
      "send item" := Bind(100, [("function", Fn(Callback.SendItem)), ("auto", Flag(false)), ("loop", Flag(false))])
    ]
  }

  /** As written, `fn=` lands in the alarm's `kwargs`: the `transfer` and `receive item` alarms call nothing, so an inserter never moves an item. */
  lemma AlarmsAsWrittenCallNothing(v: InserterVariant)
    ensures InserterAlarmsAsWritten(v)["transfer"].callback.None?
    ensures InserterAlarmsAsWritten(v)["transfer"].auto && InserterAlarmsAsWritten(v)["transfer"].loop
    ensures InserterAlarmsAsWritten(v)["receive item"].callback.None?
    ensures InserterAlarmsAsWritten(v)["send item"].callback == Some(Callback.SendItem)
  {
  }

  /** The alarms with every method passed as `function=`, as the `send item` alarm already is. */
  function InserterAlarms(v: InserterVariant): map<string, AlarmConfig>
  {
    map[
      "transfer" := Bind(TransferLength(v), [("function", Fn(Callback.Transfer)), ("auto", Flag(true)), ("loop", Flag(true))]),
      "receive item" := Bind(200, [("function", Fn(Callback.ReceiveItem)), ("auto", Flag(false)), ("loop", Flag(false))]),
      "send item" := Bind(100, [("function", Fn(Callback.SendItem)), ("auto", Flag(false)), ("loop", Flag(false))])
    ]
  }

  /** Corrected, `transfer` runs every turn from the start, and the two hand-offs run once when started. */
  lemma AlarmsCallTheirMethods(v: InserterVariant)
    ensures InserterAlarms(v)["transfer"] == AlarmConfig(TransferLength(v), Some(Callback.Transfer), true, true)
    ensures InserterAlarms(v)["receive item"] == AlarmConfig(200, Some(Callback.ReceiveItem), false, false)
    ensures InserterAlarms(v)["send item"] == AlarmConfig(100, Some(Callback.SendItem), false, false)
  {
  }

  /** `tile_borders`: the horizontal and the vertical neighbours of a tile that lie on the map. */
  datatype Borders = Borders(xAxis: seq<Coord>, yAxis: seq<Coord>)

  function TileBorders(t: Coord): (b: Borders)
    ensures forall c :: c in b.xAxis <==> c.1 == t.1 && Abs(c.0 - t.0) == 1 && 0 <= c.0 < MAP_W
    ensures forall c :: c in b.yAxis <==> c.0 == t.0 && Abs(c.1 - t.1) == 1 && 0 <= c.1 < MAP_H
    ensures NoDup(b.xAxis) && NoDup(b.yAxis)
    ensures |b.xAxis| == 2 ==> b.xAxis[0].0 < b.xAxis[1].0
    ensures |b.yAxis| == 2 ==> b.yAxis[0].1 < b.yAxis[1].1
  {
    var xs := (if 0 <= t.0 - 1 < MAP_W then [(t.0 - 1, t.1)] else []) + (if 0 <= t.0 + 1 < MAP_W then [(t.0 + 1, t.1)] else []);
    var ys := (if 0 <= t.1 - 1 < MAP_H then [(t.0, t.1 - 1)] else []) + (if 0 <= t.1 + 1 < MAP_H then [(t.0, t.1 + 1)] else []);
    Borders(xs, ys)
  }

  /** The transport index after `n` presses of the key, starting from `i`. */
  function Presses(i: int, n: nat): int
  {
    if n == 0 then i else (Presses(i, n - 1) + 1) % |INSERTER_TRANSPORT_DIRS|
  }

  /** After the first press the index walks the seven direction pairs in turn: `n` presses land on `(i + n) % 7`. */
  lemma {:induction false} PressesCycle(i: int, n: nat)
    requires n >= 1
    ensures Presses(i, n) == (i + n) % 7
    ensures 0 <= Presses(i, n) < 7
  {
    InserterDirections();
    if n > 1 {
      PressesCycle(i, n - 1);
      assert (i + n - 1) % 7 + 1 == (i + n) % 7 || ((i + n - 1) % 7 == 6 && (i + n) % 7 == 0);
    }
  }

  /** `transfer`'s guard: both sides set, then the receiving cell and, only when it holds an object, the sending cell, each read as numpy reads it. */
  function Targets(m: ObjMap, t: Coord, rd: Option<Offset>, sd: Option<Offset>): (r: Result<Option<(Obj, Obj)>>)
    ensures rd.None? || sd.None? ==> r == Ok(None)
    ensures r.Ok? && r.value.Some? ==>
      rd.Some? && sd.Some? &&
      ObjAt(m, t.0 + rd.value.0, t.1 + rd.value.1) == Ok(Some(r.value.value.0)) &&
      ObjAt(m, t.0 + sd.value.0, t.1 + sd.value.1) == Ok(Some(r.value.value.1))
    ensures rd.Some? && ObjAt(m, t.0 + rd.value.0, t.1 + rd.value.1) == Ok(None) ==> r == Ok(None)
    ensures r.Err? ==> rd.Some? && sd.Some? && r.error == IndexError
  {
    if rd.None? || sd.None? then Ok(None)
    else
      match ObjAt(m, t.0 + rd.value.0, t.1 + rd.value.1)
      case Err(e) => Err(e)
      case Ok(None) => Ok(None)
      case Ok(Some(a)) =>
        match ObjAt(m, t.0 + sd.value.0, t.1 + sd.value.1)
        case Err(e) => Err(e)
        case Ok(None) => Ok(None)
        case Ok(Some(b)) => Ok(Some((a, b)))
  }

  /** `output` after one item is taken: one fewer, and no item once none is left. */
  function Taken(s: Stack): (r: Stack)
    ensures r.amount == s.amount - 1
    ensures r.item.None? <==> s.item.None? || s.amount == 1
  {
    Stack(if s.amount - 1 == 0 then None else s.item, s.amount - 1)
  }

  /** `fuel_input` after one item `x` is added: one more, holding `x` when it held nothing. */
  function Stored(s: Stack, x: Option<string>): (r: Stack)
    requires s.item.None? || s.item == x
    ensures r.amount == s.amount + 1
    ensures r.item == x
  {
    Stack(if s.item.None? then x else s.item, s.amount + 1)
  }

  /** Taking back an item just stored restores the stack, from empty or from a stack of that item. */
  lemma StoreThenTake(s: Stack, x: string)
    requires s == EMPTY_STACK || (s.item == Some(x) && s.amount >= 1)
    ensures Taken(Stored(s, Some(x))) == s
  {
  }

  class Inserter {
    const tileXY: Coord
    const variant: InserterVariant
    const tileBorders: Borders
    const alarms: map<string, AlarmConfig>
    var transportIdx: int
    var receiveDir: Option<Offset>
    var sendDir: Option<Offset>
    var receiveFrom: Option<Obj>
    var sendTo: Option<Obj>
    var rotatedOver: bool
    var itemHolding: Option<string>

    /** `Inserter.__init__` at top-left `xy`: no sides chosen, holding nothing, not turned over. */
    constructor (xy: Coord, variant: InserterVariant)
      ensures tileXY == TileXY(xy) && this.variant == variant
      ensures tileBorders == TileBorders(tileXY) && alarms == InserterAlarms(variant)
      ensures transportIdx == 0 && receiveDir.None? && sendDir.None?
      ensures receiveFrom.None? && sendTo.None? && !rotatedOver && itemHolding.None?
    {
      tileXY := TileXY(xy);
      this.variant := variant;
      tileBorders := TileBorders(TileXY(xy));
      alarms := InserterAlarms(variant);
      transportIdx := 0;
      receiveDir, sendDir := None, None;
      receiveFrom, sendTo := None, None;
      rotatedOver := false;
      itemHolding := None;
    }

    /** `config_transport_dir`: when the key is pressed over the inserter, the next direction pair becomes the receiving and the sending side. */
    method ConfigTransportDir(selected: bool)
      modifies this`transportIdx, this`receiveDir, this`sendDir
      ensures selected ==> transportIdx == Presses(old(transportIdx), 1)
      ensures selected ==>
        receiveDir == Some(INSERTER_TRANSPORT_DIRS[transportIdx][0]) && sendDir == Some(INSERTER_TRANSPORT_DIRS[transportIdx][1])
      ensures !selected ==> transportIdx == old(transportIdx) && receiveDir == old(receiveDir) && sendDir == old(sendDir)
    {
      if selected {
        InserterDirections();
        transportIdx := (transportIdx + 1) % |INSERTER_TRANSPORT_DIRS|;
        receiveDir := Some(INSERTER_TRANSPORT_DIRS[transportIdx][0]);
        sendDir := Some(INSERTER_TRANSPORT_DIRS[transportIdx][1]);
      }
    }

    /** `rotate`, as far as the model goes: the turned-over flag flips. */
    method Rotate()
      modifies this`rotatedOver
      ensures rotatedOver == !old(rotatedOver)
    {
      rotatedOver := !rotatedOver;
    }

    /**
     * `transfer`: with both sides holding objects, an inserter that holds
     * nothing targets the receiving side and starts `receive item`; one that
     * holds an item targets the sending side and starts `send item`. Either
     * way it ends turned over. Returns the alarm started, if any.
     */
    method Transfer(m: ObjMap) returns (r: Result<Option<Callback>>)
      modifies this`receiveFrom, this`sendTo, this`rotatedOver
      ensures var g := Targets(m, tileXY, receiveDir, sendDir);
        if g.Err? then r == Err(g.error) && receiveFrom == old(receiveFrom) && sendTo == old(sendTo) && rotatedOver == old(rotatedOver)
        else if g.value.None? then r == Ok(None) && receiveFrom == old(receiveFrom) && sendTo == old(sendTo) && rotatedOver == old(rotatedOver)
        else if !Truthy(itemHolding) then
          r == Ok(Some(Callback.ReceiveItem)) && receiveFrom == Some(g.value.value.0) && sendTo == old(sendTo) && rotatedOver
        else
          r == Ok(Some(Callback.SendItem)) && sendTo == Some(g.value.value.1) && receiveFrom == old(receiveFrom) && rotatedOver
    {
      var g := Targets(m, tileXY, receiveDir, sendDir);
      if g.Err? {
        return Err(g.error);
      }
      if g.value.None? {
        return Ok(None);
      }
      if !Truthy(itemHolding) {
        receiveFrom := Some(g.value.value.0);
        if !rotatedOver {
          Rotate();
        }
        r := Ok(Some(Callback.ReceiveItem));
      } else {
        sendTo := Some(g.value.value.1);
        if !rotatedOver {
          Rotate();
        }
        r := Ok(Some(Callback.SendItem));
      }
    }

    /** The pipe an inserter receives from, if it receives from one. */
    function SourcePipe(): set<Pipe>
      reads this`receiveFrom
    {
      if receiveFrom.Some? && receiveFrom.value.PipeObj? then {receiveFrom.value.pipe} else {}
    }

    function SourceMachine(): set<Machine>
      reads this`receiveFrom
    {
      if receiveFrom.Some? && receiveFrom.value.MachineObj? then {receiveFrom.value.machine} else {}
    }

    /** The source is a pipe holding a truthy item. */
    predicate PipeOffers()
      reads this`receiveFrom, SourcePipe()
    {
      receiveFrom.Some? && receiveFrom.value.PipeObj? && Truthy(receiveFrom.value.pipe.itemHolding)
    }

    /** The source is a machine whose output holds a truthy item. */
    predicate MachineOffers()
      reads this`receiveFrom, SourceMachine()
    {
      receiveFrom.Some? && receiveFrom.value.MachineObj? && receiveFrom.value.machine.output.Some? &&
      Truthy(receiveFrom.value.machine.output.value.item)
    }

    /**
     * `receive_item`: from a pipe, its truthy item moves here and the pipe is
     * emptied; from a machine with a truthy output item, one unit is taken.
     * Either way the inserter turns back. Anything else has no output and
     * nothing happens.
     */
    method ReceiveItem()
      modifies this`itemHolding, this`rotatedOver, SourcePipe()`itemHolding, SourceMachine()`output
      ensures old(PipeOffers()) ==>
        itemHolding == old(receiveFrom.value.pipe.itemHolding) && receiveFrom.value.pipe.itemHolding.None? &&
        rotatedOver == !old(rotatedOver)
      ensures old(MachineOffers()) ==>
        itemHolding == old(receiveFrom.value.machine.output.value.item) &&
        receiveFrom.value.machine.output == Some(Taken(old(receiveFrom.value.machine.output.value))) &&
        rotatedOver == !old(rotatedOver)
      ensures !old(PipeOffers()) && !old(MachineOffers()) ==>
        itemHolding == old(itemHolding) && rotatedOver == old(rotatedOver) &&
        (forall q :: q in SourcePipe() ==> q.itemHolding == old(q.itemHolding)) &&
        (forall mc :: mc in SourceMachine() ==> mc.output == old(mc.output))
    {
      match receiveFrom
      case Some(PipeObj(q)) =>
        if Truthy(q.itemHolding) {
          itemHolding := q.itemHolding;
          q.itemHolding := None;
          Rotate();
        }
      case Some(MachineObj(mc)) =>
        if mc.output.Some? && Truthy(mc.output.value.item) {
          itemHolding := mc.output.value.item;
          mc.output := Some(Taken(mc.output.value));
          Rotate();
        }
      case Some(InserterObj(_)) =>
      case None =>
    }

    function TargetPipe(): set<Pipe>
      reads this`sendTo
    {
      if sendTo.Some? && sendTo.value.PipeObj? then {sendTo.value.pipe} else {}
    }

    function TargetMachine(): set<Machine>
      reads this`sendTo
    {
      if sendTo.Some? && sendTo.value.MachineObj? then {sendTo.value.machine} else {}
    }

    /**
     * `send_item`: to an empty pipe, the item moves there; to a machine whose
     * `fuel_input` holds nothing or the same item, one unit is stored. Either
     * way the inserter drops the item and turns back. A target without
     * `fuel_input` (an inserter, a machine without a UI, or none) raises.
     */
    method SendItem() returns (err: Option<Error>)
      modifies this`itemHolding, this`rotatedOver, TargetPipe()`itemHolding, TargetMachine()`fuelInput
      ensures err.Some? <==> !(sendTo.Some? && (sendTo.value.PipeObj? || (sendTo.value.MachineObj? && old(sendTo.value.machine.fuelInput).Some?)))
      ensures err.Some? ==> err == Some(AttributeError) && itemHolding == old(itemHolding) && rotatedOver == old(rotatedOver)
      ensures sendTo.Some? && sendTo.value.PipeObj? ==>
        if !Truthy(old(sendTo.value.pipe.itemHolding)) then
          sendTo.value.pipe.itemHolding == old(itemHolding) && itemHolding.None? && rotatedOver == !old(rotatedOver)
        else
          unchanged(sendTo.value.pipe) && itemHolding == old(itemHolding) && rotatedOver == old(rotatedOver)
      ensures sendTo.Some? && sendTo.value.MachineObj? && old(sendTo.value.machine.fuelInput).Some? ==>
        var fi := old(sendTo.value.machine.fuelInput).value;
        if fi.item.None? || fi.item == old(itemHolding) then
          sendTo.value.machine.fuelInput == Some(Stored(fi, old(itemHolding))) && itemHolding.None? && rotatedOver == !old(rotatedOver)
        else
          unchanged(sendTo.value.machine) && itemHolding == old(itemHolding) && rotatedOver == old(rotatedOver)
    {
      err := None;
      match sendTo
      case Some(PipeObj(q)) =>
        if !Truthy(q.itemHolding) {
          q.itemHolding := itemHolding;
          itemHolding := None;
          Rotate();
        }
      case Some(MachineObj(mc)) =>
        if mc.fuelInput.None? {
          err := Some(AttributeError);
        } else {
          var fi := mc.fuelInput.value;
          if fi.item.None? || fi.item == itemHolding {
            mc.fuelInput := Some(Stored(fi, itemHolding));
            itemHolding := None;
            Rotate();
          }
        }
      case Some(InserterObj(_)) =>
        err := Some(AttributeError);
      case None =>
        err := Some(AttributeError);
    }
  }
}
