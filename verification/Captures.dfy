/** Which captured function literals a later write can replace: one preorder walk with a stack of frames. */
module Captures {
  import opened Wrappers

  type Span = nat

  /** A literal of the whole project: its file and its place there. */
  type Key = (string, Span)

  datatype WriteSet = WriteSet(names: set<string>, anything: bool)

  const NO_WRITES := WriteSet({}, false)

  predicate MayWrite(w: WriteSet, name: string) {
    w.anything || name in w.names
  }

  function Extend(w: WriteSet, other: WriteSet): WriteSet {
    WriteSet(w.names + other.names, w.anything || other.anything)
  }

  /** A binding a node makes in its frame; `literal` is the function literal it binds, if any. */
  datatype Binding = Binding(name: Option<string>, literal: Option<Span>)

  /** A statement or expression. The children of a function run in a frame of their own. */
  datatype Node = Node(binding: Option<Binding>, outward: WriteSet, isFunction: bool, children: seq<Node>)

  // ---------------------------------------------------------------------------------------------
  // Lexical frames
  // ---------------------------------------------------------------------------------------------

  function OwnBinding(node: Node): seq<Binding> {
    if node.binding.Some? then [node.binding.value] else []
  }

  /** The bindings these nodes make in the frame they run in, in source order. */
  function FrameBindings(nodes: seq<Node>): seq<Binding>
    decreases nodes
  {
    if nodes == [] then []
    else
      OwnBinding(nodes[0])
      + (if nodes[0].isFunction then [] else FrameBindings(nodes[0].children))
      + FrameBindings(nodes[1..])
  }

  /** Position `j` binds again the name position `i` bound to the literal. */
  predicate BoundAgain(bs: seq<Binding>, s: Span, i: nat, j: nat)
    requires i < j < |bs|
  {
    bs[i].name.Some? && bs[i].name == bs[j].name && bs[i].literal == Some(s)
  }

  ghost predicate ReboundIn(bs: seq<Binding>, s: Span) {
    exists i: nat, j: nat :: i < j < |bs| && BoundAgain(bs, s, i, j)
  }

  /** A name bound to the literal is bound again later in the same frame. */
  ghost predicate LexicallyRebound(nodes: seq<Node>, s: Span)
    decreases nodes, 1
  {
    ReboundIn(FrameBindings(nodes), s) || InnerRebound(nodes, s)
  }

  /** The same, in the frame of some function inside. */
  ghost predicate InnerRebound(nodes: seq<Node>, s: Span)
    decreases nodes, 0
  {
    && nodes != []
    && (|| (if nodes[0].isFunction then LexicallyRebound(nodes[0].children, s) else InnerRebound(nodes[0].children, s))
        || InnerRebound(nodes[1..], s))
  }

  /** Every name and literal bound together, at any depth. */
  function LiteralNames(nodes: seq<Node>): set<(string, Span)>
    decreases nodes
  {
    if nodes == [] then {}
    else OwnLiteral(nodes[0]) + LiteralNames(nodes[0].children) + LiteralNames(nodes[1..])
  }

  function OwnLiteral(node: Node): set<(string, Span)> {
    if node.binding.Some? && node.binding.value.name.Some? && node.binding.value.literal.Some?
    then {(node.binding.value.name.value, node.binding.value.literal.value)}
    else {}
  }

  /** What the nodes may write outside their frames, at any depth. */
  function OutwardWrites(nodes: seq<Node>): WriteSet
    decreases nodes
  {
    if nodes == [] then NO_WRITES
    else Extend(Extend(nodes[0].outward, OutwardWrites(nodes[0].children)), OutwardWrites(nodes[1..]))
  }

  predicate BindsUnnamed(bs: seq<Binding>) {
    exists i :: 0 <= i < |bs| && bs[i].name.None?
  }

  // ---------------------------------------------------------------------------------------------
  // Replaying one frame
  // ---------------------------------------------------------------------------------------------

  /** The literal each name currently holds, and the literals replaced so far. */
  datatype Frame = Frame(holds: map<string, Span>, rebound: set<Span>)

  function BindOne(f: Frame, b: Binding): Frame {
    if b.name.None? then f
    else
      var name := b.name.value;
      Frame(
        if b.literal.Some? then f.holds[name := b.literal.value] else f.holds - {name},
        if name in f.holds then f.rebound + {f.holds[name]} else f.rebound)
  }

  function Replay(f: Frame, bs: seq<Binding>): Frame {
    if bs == [] then f else BindOne(Replay(f, bs[..|bs| - 1]), bs[|bs| - 1])
  }

  lemma {:induction false} ReplayConcat(f: Frame, a: seq<Binding>, b: seq<Binding>)
    ensures Replay(f, a + b) == Replay(Replay(f, a), b)
  {
    if b == [] {
      assert a + b == a;
    } else {
      ReplayConcat(f, a, b[..|b| - 1]);
      assert (a + b)[..|a + b| - 1] == a + b[..|b| - 1];
    }
  }

  /** What was replaced before plays no part. */
  lemma {:induction false} ReplayShift(f: Frame, bs: seq<Binding>)
    ensures Replay(f, bs).holds == Replay(Frame(f.holds, {}), bs).holds
    ensures Replay(f, bs).rebound == f.rebound + Replay(Frame(f.holds, {}), bs).rebound
  {
    if bs != [] {
      ReplayShift(f, bs[..|bs| - 1]);
    }
  }

  const EMPTY_FRAME := Frame(map[], {})

  /** Position `i` is the last to bind its name. */
  predicate LastOf(bs: seq<Binding>, name: string, i: nat)
    requires i < |bs|
  {
    bs[i].name == Some(name) && forall j :: i < j < |bs| ==> bs[j].name != Some(name)
  }

  ghost predicate Holds(bs: seq<Binding>, name: string, s: Span) {
    exists i: nat :: i < |bs| && LastOf(bs, name, i) && bs[i].literal == Some(s)
  }

  lemma HoldsAppend(bs: seq<Binding>, b: Binding, name: string, s: Span)
    ensures Holds(bs + [b], name, s) <==>
      if b.name == Some(name) then b.literal == Some(s) else Holds(bs, name, s)
  {
    var longer := bs + [b];
    if i: nat :| i < |longer| && LastOf(longer, name, i) && longer[i].literal == Some(s) {
      if b.name == Some(name) {
        assert longer[|bs|].name == Some(name);
      } else {
        assert i < |bs|;
        assert forall j :: i < j < |bs| ==> longer[j] == bs[j];
        assert LastOf(bs, name, i);
      }
    }
    if b.name == Some(name) {
      assert LastOf(longer, name, |bs|);
    } else if i: nat :| i < |bs| && LastOf(bs, name, i) && bs[i].literal == Some(s) {
      assert LastOf(longer, name, i);
    }
  }

  lemma {:induction false} LastExists(bs: seq<Binding>, name: string, i: nat) returns (last: nat)
    requires i < |bs| && bs[i].name == Some(name)
    ensures i <= last < |bs| && LastOf(bs, name, last)
  {
    if bs[|bs| - 1].name == Some(name) {
      last := |bs| - 1;
    } else {
      last := LastExists(bs[..|bs| - 1], name, i);
    }
  }

  lemma ReboundAppend(bs: seq<Binding>, b: Binding, s: Span)
    ensures ReboundIn(bs + [b], s) <==>
      ReboundIn(bs, s) || (b.name.Some? && Holds(bs, b.name.value, s))
  {
    var longer := bs + [b];
    if i: nat, j: nat :| i < j < |longer| && BoundAgain(longer, s, i, j) {
      if j < |bs| {
        assert BoundAgain(bs, s, i, j);
      } else {
        var last := LastExists(bs, b.name.value, i);
        if last > i {
          assert BoundAgain(bs, s, i, last);
        }
      }
    }
    if i: nat, j: nat :| i < j < |bs| && BoundAgain(bs, s, i, j) {
      assert BoundAgain(longer, s, i, j);
    }
    if b.name.Some? && Holds(bs, b.name.value, s) {
      var i: nat :| i < |bs| && LastOf(bs, b.name.value, i) && bs[i].literal == Some(s);
      assert BoundAgain(longer, s, i, |bs|);
    }
  }

  /** Replaying a frame from nothing finds exactly the literals a later binding replaces. */
  lemma {:induction false} ReplayFindsRebound(bs: seq<Binding>)
    ensures forall name, s ::
      Holds(bs, name, s) <==> name in Replay(EMPTY_FRAME, bs).holds && Replay(EMPTY_FRAME, bs).holds[name] == s
    ensures forall s :: s in Replay(EMPTY_FRAME, bs).rebound <==> ReboundIn(bs, s)
  {
    if bs != [] {
      var before, last := bs[..|bs| - 1], bs[|bs| - 1];
      assert bs == before + [last];
      ReplayFindsRebound(before);
      forall name, s {
        HoldsAppend(before, last, name, s);
      }
      forall s {
        ReboundAppend(before, last, s);
      }
    }
  }

  /** The literals replaced in the frames of the functions inside. */
  function InnerReplay(nodes: seq<Node>): set<Span>
    decreases nodes
  {
    if nodes == [] then {}
    else OneInner(nodes[0]) + InnerReplay(nodes[1..])
  }

  function OneInner(node: Node): set<Span>
    decreases node
  {
    InnerReplay(node.children)
    + if node.isFunction then Replay(EMPTY_FRAME, FrameBindings(node.children)).rebound else {}
  }

  /** Frame by frame, replaying is the lexical reading. */
  lemma {:induction false} ReplayIsLexical(nodes: seq<Node>, s: Span)
    ensures s in InnerReplay(nodes) <==> InnerRebound(nodes, s)
    ensures s in Replay(EMPTY_FRAME, FrameBindings(nodes)).rebound + InnerReplay(nodes) <==> LexicallyRebound(nodes, s)
    decreases nodes
  {
    ReplayFindsRebound(FrameBindings(nodes));
    if nodes != [] {
      ReplayIsLexical(nodes[0].children, s);
      ReplayIsLexical(nodes[1..], s);
    }
  }

  // ---------------------------------------------------------------------------------------------
  // The walk
  // ---------------------------------------------------------------------------------------------

  function FrameAfter(holds: map<string, Span>, bs: seq<Binding>): map<string, Span> {
    Replay(Frame(holds, {}), bs).holds
  }

  function ReboundBy(holds: map<string, Span>, bs: seq<Binding>): set<Span> {
    Replay(Frame(holds, {}), bs).rebound
  }

  lemma ReplayOne(f: Frame, b: Binding)
    ensures Replay(f, [b]) == BindOne(f, b) && Replay(f, []) == f
  {
    assert [b][..0] == [];
  }

  /** The bindings a node makes in the frame it is in: its own and those below it, unless it is a function. */
  function UnderBindings(node: Node): seq<Binding> {
    if node.isFunction then [] else FrameBindings(node.children)
  }

  /** The frame after a node, and the literals the node and those below it replace in it. */
  function NodeAfter(holds: map<string, Span>, node: Node): map<string, Span> {
    FrameAfter(FrameAfter(holds, OwnBinding(node)), UnderBindings(node))
  }

  function NodeRebound(holds: map<string, Span>, node: Node): set<Span> {
    ReboundBy(holds, OwnBinding(node)) + ReboundBy(FrameAfter(holds, OwnBinding(node)), UnderBindings(node))
  }

  /** A frame's replay goes node by node. */
  lemma ReplayNodes(holds: map<string, Span>, nodes: seq<Node>)
    requires nodes != []
    ensures FrameAfter(holds, FrameBindings(nodes)) == FrameAfter(NodeAfter(holds, nodes[0]), FrameBindings(nodes[1..]))
    ensures ReboundBy(holds, FrameBindings(nodes))
      == NodeRebound(holds, nodes[0]) + ReboundBy(NodeAfter(holds, nodes[0]), FrameBindings(nodes[1..]))
  {
    var f := Frame(holds, {});
    var own, under, rest := OwnBinding(nodes[0]), UnderBindings(nodes[0]), FrameBindings(nodes[1..]);
    ReplayConcat(f, own, under);
    ReplayShift(Replay(f, own), under);
    ReplayConcat(f, own + under, rest);
    ReplayShift(Replay(f, own + under), rest);
    assert FrameBindings(nodes) == own + under + rest;
  }

  lemma UnnamedConcat(a: seq<Binding>, b: seq<Binding>)
    ensures BindsUnnamed(a + b) <==> BindsUnnamed(a) || BindsUnnamed(b)
  {
    if i :| 0 <= i < |b| && b[i].name.None? {
      assert (a + b)[|a| + i].name.None?;
    }
    if i :| 0 <= i < |a| && a[i].name.None? {
      assert (a + b)[i].name.None?;
    }
  }

  lemma UnnamedNodes(nodes: seq<Node>)
    requires nodes != []
    ensures BindsUnnamed(FrameBindings(nodes)) <==>
      || BindsUnnamed(OwnBinding(nodes[0]))
      || BindsUnnamed(UnderBindings(nodes[0]))
      || BindsUnnamed(FrameBindings(nodes[1..]))
  {
    UnnamedConcat(OwnBinding(nodes[0]), UnderBindings(nodes[0]));
    UnnamedConcat(OwnBinding(nodes[0]) + UnderBindings(nodes[0]), FrameBindings(nodes[1..]));
  }

  /** The literal is bound to a name that may be written from outside its frame. */
  ghost predicate Exposed(pairs: set<(string, Span)>, outward: WriteSet, all: bool, s: Span) {
    exists name :: (name, s) in pairs && (MayWrite(outward, name) || all)
  }

  lemma ExposedInsert(pairs: set<(string, Span)>, outward: WriteSet, all: bool, entry: (string, Span), s: Span)
    ensures Exposed(pairs + {entry}, outward, all, s) <==>
      Exposed(pairs, outward, all, s) || (s == entry.1 && (MayWrite(outward, entry.0) || all))
  {
    if s == entry.1 && (MayWrite(outward, entry.0) || all) {
      assert (entry.0, s) == entry;
    }
    if name :| (name, s) in pairs && (MayWrite(outward, name) || all) {
      assert (name, s) in pairs + {entry};
    }
  }

  class Collector {
    var frames: seq<map<string, Span>>
    var rebound: set<Span>
    var literalNames: set<(string, Span)>
    var globalUnnamed: bool
    var outward: WriteSet

    constructor ()
      ensures frames == [map[]] && rebound == {} && literalNames == {} && !globalUnnamed && outward == NO_WRITES
    {
      frames, rebound, literalNames, globalUnnamed, outward := [map[]], {}, {}, false, NO_WRITES;
    }

    /** Record a binding in the innermost frame. */
    method Bind(b: Binding)
      requires frames != []
      modifies `frames, `rebound, `literalNames
      ensures
        var f := BindOne(Frame(old(frames)[|old(frames)| - 1], {}), b);
        && frames == old(frames)[|old(frames)| - 1 := f.holds]
        && rebound == old(rebound) + f.rebound
      ensures literalNames == old(literalNames)
        + if b.name.Some? && b.literal.Some? then {(b.name.value, b.literal.value)} else {}
    {
      if b.name.Some? {
        var name := b.name.value;
        var frame: map<string, Span> := frames[|frames| - 1];
        if name in frame {
          rebound := rebound + {frame[name]};
          frame := frame - {name};
        }
        if b.literal.Some? {
          frame := frame[name := b.literal.value];
          literalNames := literalNames + {(name, b.literal.value)};
        }
        assert frame == BindOne(Frame(frames[|frames| - 1], {}), b).holds;
        frames := frames[|frames| - 1 := frame];
      }
    }

    /** One step of the walk: drop finished frames, record the node's binding, and open a frame for a function. */
    method Visit(node: Node, depth: nat)
      requires depth < |frames|
      modifies this
      ensures |frames| == depth + if node.isFunction then 2 else 1
      ensures frames[..depth] == old(frames)[..depth]
      ensures frames[depth] == FrameAfter(old(frames)[depth], OwnBinding(node))
      ensures node.isFunction ==> frames[depth + 1] == map[]
      ensures rebound == old(rebound) + ReboundBy(old(frames)[depth], OwnBinding(node))
      ensures literalNames == old(literalNames) + OwnLiteral(node)
      ensures globalUnnamed <==> old(globalUnnamed) || (depth == 0 && BindsUnnamed(OwnBinding(node)))
      ensures outward == Extend(old(outward), node.outward)
    {
      frames := frames[..depth + 1];
      if node.binding.Some? {
        ReplayOne(Frame(frames[depth], {}), node.binding.value);
        if depth == 0 && node.binding.value.name.None? {
          globalUnnamed := true;
        }
        Bind(node.binding.value);
      }
      outward := Extend(outward, node.outward);
      if node.isFunction {
        frames := frames + [map[]];
      }
    }

    /** The preorder walk over sibling nodes. */
    method Walk(nodes: seq<Node>, depth: nat)
      requires depth < |frames|
      modifies this
      decreases nodes
      ensures depth < |frames| && frames[..depth] == old(frames)[..depth]
      ensures frames[depth] == FrameAfter(old(frames)[depth], FrameBindings(nodes))
      ensures rebound == old(rebound) + ReboundBy(old(frames)[depth], FrameBindings(nodes)) + InnerReplay(nodes)
      ensures literalNames == old(literalNames) + LiteralNames(nodes)
      ensures globalUnnamed <==> old(globalUnnamed) || (depth == 0 && BindsUnnamed(FrameBindings(nodes)))
      ensures outward == Extend(old(outward), OutwardWrites(nodes))
    {
      if nodes != [] {
        ghost var holds := frames[depth];
        WalkNode(nodes[0], depth);
        ghost var found := rebound;
        Walk(nodes[1..], depth);
        ReplayNodes(holds, nodes);
        UnnamedNodes(nodes);
        assert rebound == found + ReboundBy(NodeAfter(holds, nodes[0]), FrameBindings(nodes[1..]))
          + InnerReplay(nodes[1..]);
        assert InnerReplay(nodes) == OneInner(nodes[0]) + InnerReplay(nodes[1..]);
      }
    }

    /** A node and everything below it. */
    method WalkNode(node: Node, depth: nat)
      requires depth < |frames|
      modifies this
      decreases node
      ensures depth < |frames| && frames[..depth] == old(frames)[..depth]
      ensures frames[depth] == NodeAfter(old(frames)[depth], node)
      ensures rebound == old(rebound) + NodeRebound(old(frames)[depth], node) + OneInner(node)
      ensures literalNames == old(literalNames) + OwnLiteral(node) + LiteralNames(node.children)
      ensures globalUnnamed <==>
        old(globalUnnamed) || (depth == 0 && (BindsUnnamed(OwnBinding(node)) || BindsUnnamed(UnderBindings(node))))
      ensures outward == Extend(Extend(old(outward), node.outward), OutwardWrites(node.children))
    {
      Visit(node, depth);
      ghost var entered := frames;
      if node.isFunction {
        Walk(node.children, depth + 1);
        assert frames[depth] == frames[..depth + 1][depth] == entered[depth];
        assert frames[..depth] == frames[..depth + 1][..depth] == entered[..depth + 1][..depth];
      } else {
        Walk(node.children, depth);
      }
    }

    /** Inventory the writes that can replace a captured literal. */
    method CollectCaptureWrites(stmts: seq<Node>)
      requires frames == [map[]] && rebound == {} && literalNames == {} && !globalUnnamed && outward == NO_WRITES
      modifies this
      ensures forall s :: s in rebound <==>
        || LexicallyRebound(stmts, s)
        || Exposed(LiteralNames(stmts), OutwardWrites(stmts), BindsUnnamed(FrameBindings(stmts)), s)
    {
      Walk(stmts, 0);
      forall s {
        ReplayIsLexical(stmts, s);
      }
      AddExposed();
    }

    /** Literals under a name that may be written from outside count as replaced. */
    method AddExposed()
      modifies `rebound
      ensures forall s :: s in rebound <==> s in old(rebound) || Exposed(literalNames, outward, globalUnnamed, s)
    {
      var left := literalNames;
      while left != {}
        invariant left <= literalNames
        invariant forall s :: s in rebound <==>
          s in old(rebound) || Exposed(literalNames - left, outward, globalUnnamed, s)
        decreases |left|
      {
        var entry :| entry in left;
        forall s {
          ExposedInsert(literalNames - left, outward, globalUnnamed, entry, s);
        }
        assert literalNames - (left - {entry}) == literalNames - left + {entry};
        if MayWrite(outward, entry.0) || globalUnnamed {
          rebound := rebound + {entry.1};
        }
        left := left - {entry};
      }
      assert literalNames - left == literalNames;
    }
  }
}
