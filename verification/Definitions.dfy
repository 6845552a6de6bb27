/**
 * The definition table: five interacting indexes over the function literals bound so far. It
 * refines a plain log of bindings, and appending a later file's table replays that file's log.
 */
module Definitions {

  import opened Wrappers
  import opened Seals

  /** Source identity of one function literal. */
  datatype FunctionId = FunctionId(path: string, start: nat, end: nat)

  datatype Param = Param(name: string, required: bool)

  datatype UserFn = UserFn(id: FunctionId, params: seq<Param>, returnSlot: nat)

  /** Same formal names, order and requiredness. */
  predicate FormalsAgree(f: UserFn, g: UserFn) {
    |f.params| == |g.params| && forall i :: 0 <= i < |f.params| ==> f.params[i] == g.params[i]
  }

  predicate Quoted(name: string) {
    |name| >= 2 && name[0] == name[|name| - 1] && name[0] in {'"', '\'', '`'}
  }

  /** The R name a raw spelling binds: quotes do not count. */
  function Semantic(name: string): string {
    if Quoted(name) then name[1..|name| - 1] else name
  }

  /** The spellings that bind the R name `name`. */
  function Spellings(name: string): set<string> {
    {name, "`" + name + "`", "'" + name + "'", "\"" + name + "\""}
  }

  lemma OwnSpelling(raw: string)
    ensures raw in Spellings(Semantic(raw))
  {
    if Quoted(raw) {
      var n := Semantic(raw);
      assert raw == [raw[0]] + n + [raw[0]];
    }
  }

  /** The prefixes of a spelling that end before a dot. */
  function MethodPrefixes(raw: string): set<string> {
    set i | 0 <= i < |raw| && raw[i] == '.' :: raw[..i]
  }

  // ---------------------------------------------------------------------------------------------
  // The log
  // ---------------------------------------------------------------------------------------------

  datatype Event = Bind(raw: string, f: UserFn) | Mark(name: string)

  type Log = seq<Event>

  /** Event `i` binds a spelling of the R name `name`. */
  ghost predicate Binds(log: Log, i: nat, name: string) {
    i < |log| && log[i].Bind? && Semantic(log[i].raw) == name
  }

  /** Event `i` is the last one that binds the spelling `raw`. */
  ghost predicate LastOf(log: Log, i: nat, raw: string) {
    && i < |log| && log[i].Bind? && log[i].raw == raw
    && forall j :: i < j < |log| && log[j].Bind? ==> log[j].raw != raw
  }

  /** Event `i` is the last one that binds the literal `id`. */
  ghost predicate LastBinding(log: Log, i: nat, id: FunctionId) {
    && i < |log| && log[i].Bind? && log[i].f.id == id
    && forall j :: i < j < |log| && log[j].Bind? ==> log[j].f.id != id
  }

  ghost predicate Bound(log: Log, raw: string) {
    exists i: nat :: LastOf(log, i, raw)
  }

  ghost predicate EverBound(log: Log, id: FunctionId) {
    exists i: nat :: LastBinding(log, i, id)
  }

  ghost predicate Marked(log: Log, name: string) {
    Mark(name) in log
  }

  /** Two literals of the name have different formals. */
  ghost predicate Disagree(log: Log, name: string) {
    exists i: nat, j: nat :: Binds(log, i, name) && Binds(log, j, name) && !FormalsAgree(log[i].f, log[j].f)
  }

  /** Two different literals bound the name. */
  ghost predicate Redefined(log: Log, name: string) {
    exists i: nat, j: nat :: Binds(log, i, name) && Binds(log, j, name) && log[i].f.id != log[j].f.id
  }

  /** One literal always has the same formals. */
  ghost predicate Coherent(log: Log) {
    forall i, j :: 0 <= i < |log| && 0 <= j < |log| && log[i].Bind? && log[j].Bind? && log[i].f.id == log[j].f.id ==>
      FormalsAgree(log[i].f, log[j].f)
  }

  // ---------------------------------------------------------------------------------------------
  // The table and what it says about the log
  // ---------------------------------------------------------------------------------------------

  datatype Table = Table(
    live: map<string, UserFn>,
    liveIds: map<FunctionId, string>,
    replaced: map<FunctionId, UserFn>,
    unstable: set<string>,
    redefined: set<string>,
    methodPrefixes: set<string>)

  /** The live entry of each spelling is its last binding. */
  ghost predicate LiveOk(t: Table, log: Log) {
    && (forall raw {:trigger raw in t.live} :: raw in t.live ==> Bound(log, raw))
    && (forall raw, i: nat {:trigger LastOf(log, i, raw)} :: LastOf(log, i, raw) ==>
         raw in t.live && t.live[raw] == log[i].f)
  }

  /** Any literal ever bound, by identity. */
  function Find(t: Table, id: FunctionId): Option<UserFn> {
    if id in t.liveIds then (if t.liveIds[id] in t.live then Some(t.live[t.liveIds[id]]) else None)
    else if id in t.replaced then Some(t.replaced[id])
    else None
  }

  /** A literal is found as it was last bound; it is live iff that last spelling was not bound again. */
  ghost predicate IdsOk(t: Table, log: Log) {
    && (forall id, i: nat {:trigger LastBinding(log, i, id)} :: LastBinding(log, i, id) ==>
          Find(t, id) == Some(log[i].f) && (id in t.liveIds <==> LastOf(log, i, log[i].raw))
            && (id in t.liveIds ==> t.liveIds[id] == log[i].raw))
    && (forall id {:trigger id in t.liveIds} {:trigger id in t.replaced} :: id in t.liveIds || id in t.replaced ==>
         EverBound(log, id))
  }

  /** An R name that is not itself spelled in quotes. */
  predicate Plain(name: string) {
    Semantic(name) == name
  }

  /** A plain name is unstable iff marked or two of its literals disagree, and redefined iff two literals bound it. */
  ghost predicate NamesOk(t: Table, log: Log) {
    && (forall name {:trigger name in t.unstable} :: Plain(name) ==>
         (name in t.unstable <==> Marked(log, name) || Disagree(log, name)))
    && (forall name {:trigger name in t.redefined} :: Plain(name) ==> (name in t.redefined <==> Redefined(log, name)))
  }

  ghost predicate PrefixesOk(t: Table) {
    forall p {:trigger p in t.methodPrefixes} :: p in t.methodPrefixes <==>
      exists raw :: raw in t.live && p in MethodPrefixes(raw)
  }

  ghost predicate Represents(t: Table, log: Log) {
    Coherent(log) && LiveOk(t, log) && IdsOk(t, log) && NamesOk(t, log) && PrefixesOk(t)
  }

  // ---------------------------------------------------------------------------------------------
  // Binding one spelling
  // ---------------------------------------------------------------------------------------------

  /** The live literals under any spelling of `name`, other than `id`. */
  function Others(t: Table, name: string, id: FunctionId): set<UserFn> {
    set s | s in Spellings(name) && s in t.live && t.live[s].id != id :: t.live[s]
  }

  /** Bind without recording which spelling names the literal. */
  function BindLive(t: Table, raw: string, f: UserFn): Table {
    var name := Semantic(raw);
    var others := Others(t, name, f.id);
    var displaced := raw in t.live && t.live[raw].id != f.id && t.live[raw].id in t.liveIds
      && t.liveIds[t.live[raw].id] == raw;
    Table(t.live[raw := f],
          if displaced then t.liveIds - {t.live[raw].id} else t.liveIds,
          if displaced then t.replaced[t.live[raw].id := t.live[raw]] else t.replaced,
          if exists other :: other in others && !FormalsAgree(other, f) then t.unstable + {name} else t.unstable,
          if others != {} then t.redefined + {name} else t.redefined,
          t.methodPrefixes + MethodPrefixes(raw))
  }

  function Bound1(t: Table, raw: string, f: UserFn): Table {
    var t1 := BindLive(t, raw, f);
    t1.(liveIds := t1.liveIds[f.id := raw])
  }

  lemma LastOfNext(log: Log, e: Event, i: nat, raw: string)
    ensures LastOf(log + [e], i, raw) <==>
              if e.Bind? && e.raw == raw then i == |log| else LastOf(log, i, raw)
  {
    var log' := log + [e];
    assert log'[|log|] == e;
    if LastOf(log', i, raw) && i < |log| {
      assert forall j :: i < j < |log| ==> log'[j] == log[j];
      assert LastOf(log, i, raw);
    }
  }

  lemma LastBindingNext(log: Log, e: Event, i: nat, id: FunctionId)
    ensures LastBinding(log + [e], i, id) <==>
              if e.Bind? && e.f.id == id then i == |log| else LastBinding(log, i, id)
  {
    var log' := log + [e];
    assert log'[|log|] == e;
    if LastBinding(log', i, id) && i < |log| {
      assert forall j :: i < j < |log| ==> log'[j] == log[j];
      assert LastBinding(log, i, id);
    }
  }

  lemma BindLiveOk(t: Table, log: Log, raw: string, f: UserFn)
    requires LiveOk(t, log)
    ensures LiveOk(Bound1(t, raw, f), log + [Bind(raw, f)])
  {
    var log' := log + [Bind(raw, f)];
    var t' := Bound1(t, raw, f);
    forall r, i: nat | LastOf(log', i, r) ensures r in t'.live && t'.live[r] == log'[i].f {
      LastOfNext(log, Bind(raw, f), i, r);
    }
    forall r | r in t'.live ensures Bound(log', r) {
      if r == raw {
        LastOfNext(log, Bind(raw, f), |log|, r);
      } else {
        var i: nat :| LastOf(log, i, r);
        LastOfNext(log, Bind(raw, f), i, r);
      }
    }
  }

  lemma BindIdsElsewhere(t: Table, log: Log, raw: string, f: UserFn, id: FunctionId, i: nat)
    requires LiveOk(t, log) && IdsOk(t, log) && LastBinding(log, i, id) && id != f.id
    ensures var t', log' := Bound1(t, raw, f), log + [Bind(raw, f)];
            Find(t', id) == Some(log[i].f) && (id in t'.liveIds <==> LastOf(log', i, log[i].raw))
              && (id in t'.liveIds ==> t'.liveIds[id] == log[i].raw)
  {
    LastOfNext(log, Bind(raw, f), i, log[i].raw);
    if LastOf(log, i, log[i].raw) {
      assert t.live[log[i].raw] == log[i].f;
    }
  }

  lemma BindIdsOk(t: Table, log: Log, raw: string, f: UserFn)
    requires LiveOk(t, log) && IdsOk(t, log)
    ensures IdsOk(Bound1(t, raw, f), log + [Bind(raw, f)])
  {
    var log' := log + [Bind(raw, f)];
    var t' := Bound1(t, raw, f);
    forall id, i: nat | LastBinding(log', i, id)
      ensures Find(t', id) == Some(log'[i].f) && (id in t'.liveIds <==> LastOf(log', i, log'[i].raw))
      ensures (id in t'.liveIds ==> t'.liveIds[id] == log'[i].raw)
    {
      LastBindingNext(log, Bind(raw, f), i, id);
      if id == f.id { LastOfNext(log, Bind(raw, f), i, raw); } else { BindIdsElsewhere(t, log, raw, f, id, i); }
    }
    forall id | id in t'.liveIds || id in t'.replaced ensures EverBound(log', id) {
      if id == f.id {
        LastBindingNext(log, Bind(raw, f), |log|, id);
      } else {
        assert id in t.liveIds || id in t.replaced;
        var i: nat :| LastBinding(log, i, id);
        LastBindingNext(log, Bind(raw, f), i, id);
      }
    }
  }

  /** The spellings of a plain name are those that bind it. */
  lemma PlainSpellings(name: string, raw: string)
    requires Plain(name)
    ensures raw in Spellings(name) <==> Semantic(raw) == name
  {
    OwnSpelling(raw);
    if raw in Spellings(name) && raw != name {
      var q := raw[0];
      assert raw == [q] + name + [q];
      assert raw[1..|raw| - 1] == name;
    }
  }

  /** A literal under some spelling of the name shows up as the live entry of that spelling or of its replacement. */
  lemma LiveOfBinding(t: Table, log: Log, name: string, i: nat) returns (j: nat)
    requires LiveOk(t, log) && Binds(log, i, name)
    ensures LastOf(log, j, log[i].raw) && log[i].raw in t.live && t.live[log[i].raw] == log[j].f && Binds(log, j, name)
  {
    j := LastOfExists(log, i);
  }

  lemma {:induction false} LastOfExists(log: Log, i: nat) returns (j: nat)
    requires i < |log| && log[i].Bind?
    ensures LastOf(log, j, log[i].raw)
    decreases |log| - i
  {
    if k :| i < k < |log| && log[k].Bind? && log[k].raw == log[i].raw {
      j := LastOfExists(log, k);
    } else {
      j := i;
    }
  }

  lemma OtherIsBound(t: Table, log: Log, name: string, id: FunctionId, other: UserFn) returns (j: nat)
    requires LiveOk(t, log) && Plain(name) && other in Others(t, name, id)
    ensures Binds(log, j, name) && log[j].f == other && other.id != id
  {
    var s :| s in Spellings(name) && s in t.live && t.live[s].id != id && t.live[s] == other;
    PlainSpellings(name, s);
    assert Bound(log, s);
    j :| LastOf(log, j, s);
  }

  lemma SameLiteral(log: Log, name: string, l: nat, k: nat)
    requires !Redefined(log, name) && Binds(log, l, name) && Binds(log, k, name)
    ensures log[l].f.id == log[k].f.id
  {
  }

  lemma BindRedefined(t: Table, log: Log, raw: string, f: UserFn, name: string)
    requires LiveOk(t, log) && NamesOk(t, log) && Plain(name)
    ensures name in Bound1(t, raw, f).redefined <==> Redefined(log + [Bind(raw, f)], name)
  {
    var log', others := log + [Bind(raw, f)], Others(t, Semantic(raw), f.id);
    assert forall i: nat :: i < |log| ==> (Binds(log', i, name) <==> Binds(log, i, name));
    if name == Semantic(raw) && others != {} {
      var other :| other in others;
      var j := OtherIsBound(t, log, name, f.id, other);
      assert Binds(log', j, name) && Binds(log', |log|, name);
    }
    if name in t.redefined {
      var i: nat, j: nat :| Binds(log, i, name) && Binds(log, j, name) && log[i].f.id != log[j].f.id;
      assert Binds(log', i, name) && Binds(log', j, name);
    }
    if Redefined(log', name) && name !in t.redefined {
      var i: nat, j: nat :| Binds(log', i, name) && Binds(log', j, name) && log'[i].f.id != log'[j].f.id;
      assert i == |log| || j == |log| by {
        assert i < |log| && j < |log| ==> Binds(log, i, name) && Binds(log, j, name);
      }
      var k := if i == |log| then j else i;
      var l := LiveOfBinding(t, log, name, k);
      PlainSpellings(name, log[k].raw);
      SameLiteral(log, name, l, k);
      assert log[l].f in others;
    }
  }

  lemma BindUnstableSound(t: Table, log: Log, raw: string, f: UserFn, name: string)
    requires LiveOk(t, log) && NamesOk(t, log) && Plain(name)
    requires name in Bound1(t, raw, f).unstable
    ensures Marked(log + [Bind(raw, f)], name) || Disagree(log + [Bind(raw, f)], name)
  {
    var log', others := log + [Bind(raw, f)], Others(t, Semantic(raw), f.id);
    assert forall i: nat :: i < |log| ==> (Binds(log', i, name) <==> Binds(log, i, name));
    if name !in t.unstable {
      var other :| other in others && !FormalsAgree(other, f);
      var j := OtherIsBound(t, log, name, f.id, other);
      assert Binds(log', j, name) && Binds(log', |log|, name);
    } else if Disagree(log, name) {
      var i: nat, j: nat :| Binds(log, i, name) && Binds(log, j, name) && !FormalsAgree(log[i].f, log[j].f);
      assert Binds(log', i, name) && Binds(log', j, name);
    } else {
      assert Mark(name) in log';
    }
  }

  /** A literal that disagrees with an earlier one of the same name disagrees with a live one. */
  lemma BindUnstableComplete(t: Table, log: Log, raw: string, f: UserFn, name: string, k: nat)
    requires LiveOk(t, log) && NamesOk(t, log) && Plain(name) && Coherent(log + [Bind(raw, f)])
    requires Semantic(raw) == name && Binds(log, k, name) && !FormalsAgree(log[k].f, f)
    ensures name in Bound1(t, raw, f).unstable
  {
    var log', others := log + [Bind(raw, f)], Others(t, name, f.id);
    if name !in t.unstable {
      var l := LiveOfBinding(t, log, name, k);
      PlainSpellings(name, log[k].raw);
      assert FormalsAgree(log[l].f, log[k].f) by { assert !Disagree(log, name); }
      assert log[l].f.id != f.id by { assert log'[l] == log[l] && log'[|log|].f == f; }
      assert log[l].f in others && !FormalsAgree(log[l].f, f);
    }
  }

  lemma BindUnstable(t: Table, log: Log, raw: string, f: UserFn, name: string)
    requires LiveOk(t, log) && NamesOk(t, log) && Plain(name) && Coherent(log + [Bind(raw, f)])
    ensures name in Bound1(t, raw, f).unstable <==>
      Marked(log + [Bind(raw, f)], name) || Disagree(log + [Bind(raw, f)], name)
  {
    var log' := log + [Bind(raw, f)];
    if name in Bound1(t, raw, f).unstable { BindUnstableSound(t, log, raw, f, name); }
    if Marked(log', name) { assert Marked(log, name); }
    if Disagree(log', name) && !Disagree(log, name) {
      var i: nat, j: nat :| Binds(log', i, name) && Binds(log', j, name) && !FormalsAgree(log'[i].f, log'[j].f);
      if i < |log| && j < |log| { assert Binds(log, i, name) && Binds(log, j, name); }
      var k := if i == |log| then j else i;
      assert k < |log| && Binds(log, k, name);
      BindUnstableComplete(t, log, raw, f, name, k);
    }
  }

  lemma BindPrefixes(t: Table, raw: string, f: UserFn)
    requires PrefixesOk(t)
    ensures PrefixesOk(Bound1(t, raw, f))
  {
    var t' := Bound1(t, raw, f);
    forall p ensures p in t'.methodPrefixes <==> exists r :: r in t'.live && p in MethodPrefixes(r) {
      if p in t.methodPrefixes {
        var r :| r in t.live && p in MethodPrefixes(r);
        assert r in t'.live;
      }
      if p in MethodPrefixes(raw) { assert raw in t'.live; }
    }
  }

  /** Binding keeps the table in step with the log. */
  lemma BindRepresents(t: Table, log: Log, raw: string, f: UserFn)
    requires Represents(t, log) && Coherent(log + [Bind(raw, f)])
    ensures Represents(Bound1(t, raw, f), log + [Bind(raw, f)])
  {
    BindLiveOk(t, log, raw, f);
    BindIdsOk(t, log, raw, f);
    BindPrefixes(t, raw, f);
    forall name | Plain(name)
      ensures name in Bound1(t, raw, f).redefined <==> Redefined(log + [Bind(raw, f)], name)
      ensures name in Bound1(t, raw, f).unstable <==>
        Marked(log + [Bind(raw, f)], name) || Disagree(log + [Bind(raw, f)], name)
    {
      BindRedefined(t, log, raw, f, name);
      BindUnstable(t, log, raw, f, name);
    }
  }

  // ---------------------------------------------------------------------------------------------
  // Merging a later table
  // ---------------------------------------------------------------------------------------------

  function ShiftFn(f: UserFn, offset: nat): UserFn {
    f.(returnSlot := f.returnSlot + offset)
  }

  ghost function ShiftLog(log: Log, offset: nat): (r: Log)
    ensures |r| == |log|
    ensures forall i :: 0 <= i < |log| ==>
      r[i] == if log[i].Bind? then Bind(log[i].raw, ShiftFn(log[i].f, offset)) else log[i]
  {
    seq(|log|,
        i requires 0 <= i < |log| => if log[i].Bind? then Bind(log[i].raw, ShiftFn(log[i].f, offset)) else log[i])
  }

  function ShiftTable(t: Table, offset: nat): Table {
    t.(live := map raw | raw in t.live :: ShiftFn(t.live[raw], offset),
    replaced := map id | id in t.replaced :: ShiftFn(t.replaced[id], offset))
  }

  /** No literal is bound in both logs: the logs come from different files. */
  ghost predicate Apart(log: Log, later: Log) {
    forall i, j :: 0 <= i < |log| && 0 <= j < |later| && log[i].Bind? && later[j].Bind? ==> log[i].f.id != later[j].f.id
  }

  lemma ShiftLasts(log: Log, offset: nat)
    ensures forall i: nat, raw {:trigger LastOf(ShiftLog(log, offset), i, raw)} {:trigger LastOf(log, i, raw)} ::
              LastOf(ShiftLog(log, offset), i, raw) <==> LastOf(log, i, raw)
    ensures forall i: nat, id {:trigger LastBinding(ShiftLog(log, offset), i, id)} {:trigger LastBinding(log, i, id)} ::
              LastBinding(ShiftLog(log, offset), i, id) <==> LastBinding(log, i, id)
  {
  }

  lemma ShiftLive(t: Table, log: Log, offset: nat)
    requires LiveOk(t, log)
    ensures LiveOk(ShiftTable(t, offset), ShiftLog(log, offset))
  {
    ShiftLasts(log, offset);
    var t', log' := ShiftTable(t, offset), ShiftLog(log, offset);
    forall raw | raw in t'.live ensures Bound(log', raw) {
      var i: nat :| LastOf(log, i, raw);
      assert LastOf(log', i, raw);
    }
    forall raw, i: nat | LastOf(log', i, raw) ensures raw in t'.live && t'.live[raw] == log'[i].f {
      assert LastOf(log, i, raw);
    }
  }

  lemma ShiftIds(t: Table, log: Log, offset: nat)
    requires LiveOk(t, log) && IdsOk(t, log)
    ensures IdsOk(ShiftTable(t, offset), ShiftLog(log, offset))
  {
    ShiftLasts(log, offset);
    var t', log' := ShiftTable(t, offset), ShiftLog(log, offset);
    forall id, i: nat | LastBinding(log', i, id)
      ensures Find(t', id) == Some(log'[i].f) && (id in t'.liveIds <==> LastOf(log', i, log'[i].raw))
      ensures (id in t'.liveIds ==> t'.liveIds[id] == log'[i].raw)
    {
      assert LastBinding(log, i, id);
      assert LastOf(log, i, log[i].raw) <==> LastOf(log', i, log'[i].raw);
    }
    forall id | id in t'.liveIds || id in t'.replaced ensures EverBound(log', id) {
      assert id in t.liveIds || id in t.replaced;
      var i: nat :| LastBinding(log, i, id);
      assert LastBinding(log', i, id);
    }
  }

  lemma ShiftRepresents(t: Table, log: Log, offset: nat)
    requires Represents(t, log)
    ensures Represents(ShiftTable(t, offset), ShiftLog(log, offset))
  {
    ShiftLive(t, log, offset);
    ShiftIds(t, log, offset);
    ShiftNames(t, log, offset);
  }

  lemma ShiftNames(t: Table, log: Log, offset: nat)
    requires NamesOk(t, log)
    ensures NamesOk(ShiftTable(t, offset), ShiftLog(log, offset))
  {
    var log' := ShiftLog(log, offset);
    forall name
      ensures Marked(log', name) <==> Marked(log, name)
      ensures Disagree(log', name) <==> Disagree(log, name)
      ensures Redefined(log', name) <==> Redefined(log, name)
    {
      assert forall i: nat :: Binds(log', i, name) <==> Binds(log, i, name);
      if Marked(log, name) {
        var i :| 0 <= i < |log| && log[i] == Mark(name);
        assert log'[i] == Mark(name);
      }
      if Marked(log', name) {
        var i :| 0 <= i < |log'| && log'[i] == Mark(name);
        assert log[i] == Mark(name);
      }
    }
  }

  /** The replaced entry of one literal while the names `done` are merged. */
  ghost predicate ReplacedSoFar(e: Table, done: set<string>, replaced: map<FunctionId, UserFn>, id: FunctionId) {
    if id in e.liveIds && e.liveIds[id] in done && e.liveIds[id] in e.live
    then id in replaced && replaced[id] == e.live[e.liveIds[id]]
    else (id in replaced <==> id in e.replaced) && (id in e.replaced ==> replaced[id] == e.replaced[id])
  }

  ghost predicate LiveIdsSoFar(e: Table, done: set<string>, liveIds: map<FunctionId, string>) {
    liveIds == map id | id in e.liveIds && e.liveIds[id] !in done :: e.liveIds[id]
  }

  ghost predicate SomePrefix(names: set<string>, p: string) {
    exists raw :: raw in names && p in MethodPrefixes(raw)
  }

  /** The earlier table `e` with the names `done` of the later table `l` merged in, in whatever order. */
  ghost predicate Merging(e: Table, l: Table, done: set<string>, t: Table) {
    && done <= l.live.Keys
    && t.live == (map raw | raw in e.live.Keys + done :: if raw in done then l.live[raw] else e.live[raw])
    && LiveIdsSoFar(e, done, t.liveIds)
    && (forall id {:trigger ReplacedSoFar(e, done, t.replaced, id)} :: ReplacedSoFar(e, done, t.replaced, id))
    && (forall p {:trigger p in t.methodPrefixes} :: p in t.methodPrefixes <==>
          p in e.methodPrefixes || SomePrefix(done, p))
  }

  /** Literals of the two tables meet under the name, or disagree there. */
  ghost predicate Meet(e: Table, l: Table, name: string, disagree: bool) {
    exists m, n :: m in e.live && n in l.live && Semantic(m) == name && Semantic(n) == name
      && (disagree ==> !FormalsAgree(e.live[m], l.live[n]))
  }

  /** Plain names are noted only if the later table notes them, or they were noted before, or literals meet. */
  ghost predicate NotedOnly(e: Table, l: Table, t: Table) {
    && (forall name {:trigger name in t.unstable} :: Plain(name) && name in t.unstable && name !in l.unstable ==>
         name in e.unstable || Meet(e, l, name, true))
    && (forall name {:trigger name in t.redefined} :: Plain(name) && name in t.redefined && name !in l.redefined ==>
         name in e.redefined || Meet(e, l, name, false))
  }

  /** The literals of `done` that meet earlier ones are noted. */
  ghost predicate NotedPairs(e: Table, l: Table, done: set<string>, t: Table) {
    && (forall m, n {:trigger e.live[m], l.live[n]} ::
          m in e.live && n in done && n in l.live && Semantic(m) == Semantic(n) && Plain(Semantic(n)) ==>
          Semantic(n) in t.redefined
            && (!FormalsAgree(e.live[m], l.live[n]) ==> Semantic(n) in t.unstable || Semantic(n) in l.unstable))
  }

  /** What the merge has noted about plain names so far, given what the later table already notes. */
  ghost predicate Noting(e: Table, l: Table, done: set<string>, t: Table) {
    NotedOnly(e, l, t) && e.unstable <= t.unstable && e.redefined <= t.redefined && NotedPairs(e, l, done, t)
  }

  /** What a represented table says of the literals now live. */
  ghost predicate LiveFacts(t: Table) {
    && (forall m, n {:trigger t.live[m], t.live[n]} ::
          m in t.live && n in t.live && Semantic(m) == Semantic(n) && Plain(Semantic(n)) ==>
          && (t.live[m].id != t.live[n].id ==> Semantic(n) in t.redefined)
          && (!FormalsAgree(t.live[m], t.live[n]) ==> Semantic(n) in t.unstable))
    && (forall id {:trigger id in t.liveIds} :: id in t.liveIds ==>
         t.liveIds[id] in t.live && t.live[t.liveIds[id]].id == id)
  }

  lemma RepresentedFacts(t: Table, log: Log)
    requires Represents(t, log)
    ensures LiveFacts(t)
  {
    forall m, n | m in t.live && n in t.live && Semantic(m) == Semantic(n) && Plain(Semantic(n))
      ensures t.live[m].id != t.live[n].id ==> Semantic(n) in t.redefined
      ensures !FormalsAgree(t.live[m], t.live[n]) ==> Semantic(n) in t.unstable
    {
      assert Bound(log, m) && Bound(log, n);
      var i: nat :| LastOf(log, i, m);
      var j: nat :| LastOf(log, j, n);
      assert Binds(log, i, Semantic(n)) && Binds(log, j, Semantic(n));
    }
    forall id | id in t.liveIds ensures t.liveIds[id] in t.live && t.live[t.liveIds[id]].id == id {
      assert EverBound(log, id);
      var i: nat :| LastBinding(log, i, id);
      assert LastOf(log, i, log[i].raw);
    }
  }

  /** The literals live in the two tables are different. */
  ghost predicate LiveApart(e: Table, l: Table) {
    forall m, n {:trigger e.live[m], l.live[n]} :: m in e.live && n in l.live ==> e.live[m].id != l.live[n].id
  }

  lemma MergeStep(e: Table, l: Table, done: set<string>, t: Table, n: string)
    requires Merging(e, l, done, t) && LiveFacts(e) && LiveApart(e, l) && n in l.live && n !in done
    ensures Merging(e, l, done + {n}, BindLive(t, n, l.live[n]))
  {
    MergeStepLive(e, l, done, t, n);
    MergeIds(e, l, done, t, n);
    forall p
      ensures p in BindLive(t, n, l.live[n]).methodPrefixes <==> p in e.methodPrefixes || SomePrefix(done + {n}, p)
    {
      MergeStepPrefix(e, l, done, t, n, p);
    }
  }

  lemma MergeStepLive(e: Table, l: Table, done: set<string>, t: Table, n: string)
    requires done <= l.live.Keys && n in l.live && n !in done
    requires t.live == (map raw | raw in e.live.Keys + done :: if raw in done then l.live[raw] else e.live[raw])
    ensures BindLive(t, n, l.live[n]).live ==
      (map raw | raw in e.live.Keys + (done + {n}) :: if raw in done + {n} then l.live[raw] else e.live[raw])
  {
  }

  lemma MergeStepPrefix(e: Table, l: Table, done: set<string>, t: Table, n: string, p: string)
    requires p in t.methodPrefixes <==> p in e.methodPrefixes || SomePrefix(done, p)
    requires n in l.live
    ensures p in BindLive(t, n, l.live[n]).methodPrefixes <==> p in e.methodPrefixes || SomePrefix(done + {n}, p)
  {
    if p in MethodPrefixes(n) {
      assert n in done + {n};
    }
    if raw :| raw in done && p in MethodPrefixes(raw) {
      assert raw in done + {n};
    }
  }

  lemma MergeDisplaces(e: Table, l: Table, done: set<string>, t: Table, n: string)
    requires Merging(e, l, done, t) && LiveFacts(e) && LiveApart(e, l) && n in l.live && n !in done
    ensures n in t.live ==> n in e.live && t.live[n] == e.live[n] && t.live[n].id != l.live[n].id
    ensures forall id {:trigger id in t.liveIds} :: id in e.liveIds && e.liveIds[id] == n ==>
              n in t.live && t.live[n].id == id && id in t.liveIds && t.liveIds[id] == n
  {
    assert n in t.live ==> n in e.live && t.live[n] == e.live[n];
  }

  lemma MergeReplaced(e: Table, done: set<string>, t: Table, n: string, f: UserFn, id: FunctionId)
    requires ReplacedSoFar(e, done, t.replaced, id) && n !in done
    requires n in t.live ==> n in e.live && t.live[n] == e.live[n] && t.live[n].id != f.id
    requires id in e.liveIds && e.liveIds[id] == n ==>
      n in t.live && t.live[n].id == id && id in t.liveIds && t.liveIds[id] == n
    requires id in t.liveIds ==> id in e.liveIds && t.liveIds[id] == e.liveIds[id]
    ensures ReplacedSoFar(e, done + {n}, BindLive(t, n, f).replaced, id)
  {
  }

  lemma MergeLiveIds(e: Table, done: set<string>, t: Table, n: string, f: UserFn)
    requires LiveIdsSoFar(e, done, t.liveIds) && n !in done
    requires n in t.live ==> t.live[n].id != f.id
    requires forall id {:trigger id in t.liveIds} :: id in e.liveIds && e.liveIds[id] == n ==>
      n in t.live && t.live[n].id == id
    ensures LiveIdsSoFar(e, done + {n}, BindLive(t, n, f).liveIds)
  {
    forall id ensures id in BindLive(t, n, f).liveIds <==> id in e.liveIds && e.liveIds[id] !in done + {n} {
      assert id in t.liveIds <==> id in e.liveIds && e.liveIds[id] !in done;
    }
  }

  lemma MergeIds(e: Table, l: Table, done: set<string>, t: Table, n: string)
    requires Merging(e, l, done, t) && LiveFacts(e) && LiveApart(e, l) && n in l.live && n !in done
    ensures LiveIdsSoFar(e, done + {n}, BindLive(t, n, l.live[n]).liveIds)
    ensures forall id {:trigger ReplacedSoFar(e, done + {n}, BindLive(t, n, l.live[n]).replaced, id)} ::
              ReplacedSoFar(e, done + {n}, BindLive(t, n, l.live[n]).replaced, id)
  {
    MergeDisplaces(e, l, done, t, n);
    MergeLiveIds(e, done, t, n, l.live[n]);
    forall id ensures ReplacedSoFar(e, done + {n}, BindLive(t, n, l.live[n]).replaced, id) {
      assert ReplacedSoFar(e, done, t.replaced, id);
      MergeReplaced(e, done, t, n, l.live[n], id);
    }
  }

  lemma NotingStep(e: Table, l: Table, done: set<string>, t: Table, n: string)
    requires Merging(e, l, done, t) && Noting(e, l, done, t) && LiveFacts(l) && LiveApart(e, l) && n in l.live
    requires n !in done
    ensures Noting(e, l, done + {n}, BindLive(t, n, l.live[n]))
  {
    BindNotes(t, n, l.live[n]);
    NotingStepOnly(e, l, done, t, n);
    NotingStepPairs(e, l, done, t, n);
  }

  lemma NotingStepOnly(e: Table, l: Table, done: set<string>, t: Table, n: string)
    requires Merging(e, l, done, t) && NotedOnly(e, l, t) && LiveFacts(l) && n in l.live && n !in done
    ensures NotedOnly(e, l, BindLive(t, n, l.live[n]))
  {
    BindNotes(t, n, l.live[n]);
    NotingStepUpper(e, l, done, t, n);
  }

  lemma NotingStepPairs(e: Table, l: Table, done: set<string>, t: Table, n: string)
    requires Merging(e, l, done, t) && Noting(e, l, done, t) && LiveFacts(l) && LiveApart(e, l) && n in l.live
    requires n !in done
    ensures NotedPairs(e, l, done + {n}, BindLive(t, n, l.live[n]))
  {
    BindNotes(t, n, l.live[n]);
    forall m | m in e.live && Semantic(m) == Semantic(n) && Plain(Semantic(n))
      ensures
        var t', f := BindLive(t, n, l.live[n]), l.live[n];
        Semantic(n) in t'.redefined
          && (!FormalsAgree(e.live[m], f) ==> Semantic(n) in t'.unstable || Semantic(n) in l.unstable)
    {
      NotingLower(e, l, done, t, n, m);
    }
  }

  /** Binding only adds notes, and only about its own name. */
  lemma BindNotes(t: Table, n: string, f: UserFn)
    ensures t.unstable <= BindLive(t, n, f).unstable <= t.unstable + {Semantic(n)}
    ensures t.redefined <= BindLive(t, n, f).redefined <= t.redefined + {Semantic(n)}
  {
  }

  lemma MergedAlready(e: Table, l: Table, done: set<string>, t: Table, s: string)
    requires Merging(e, l, done, t) && s in t.live
    ensures if s in done then t.live[s] == l.live[s] else s in e.live && t.live[s] == e.live[s]
  {
  }

  lemma NotingStepUpper(e: Table, l: Table, done: set<string>, t: Table, n: string)
    requires Merging(e, l, done, t) && LiveFacts(l) && n in l.live && n !in done
    ensures
      var t', name := BindLive(t, n, l.live[n]), Semantic(n);
      && (Plain(name) && name in t'.redefined && name !in t.redefined && name !in l.redefined ==>
            Meet(e, l, name, false))
      && (Plain(name) && name in t'.unstable && name !in t.unstable && name !in l.unstable ==> Meet(e, l, name, true))
  {
    var name, others := Semantic(n), Others(t, Semantic(n), l.live[n].id);
    if Plain(name) && others != {} && name !in l.redefined {
      NotingUpper(e, l, done, t, n, false);
    }
    if Plain(name) && (exists other :: other in others && !FormalsAgree(other, l.live[n])) && name !in l.unstable {
      NotingUpper(e, l, done, t, n, true);
    }
  }

  /** A newly noted name has live literals in both tables, or the later table noted it already. */
  lemma NotingUpper(e: Table, l: Table, done: set<string>, t: Table, n: string, disagree: bool)
    requires Merging(e, l, done, t) && LiveFacts(l) && n in l.live && n !in done && Plain(Semantic(n))
    requires exists other ::
      other in Others(t, Semantic(n), l.live[n].id) && (disagree ==> !FormalsAgree(other, l.live[n]))
    requires if disagree then Semantic(n) !in l.unstable else Semantic(n) !in l.redefined
    ensures Meet(e, l, Semantic(n), disagree)
  {
    var name, id := Semantic(n), l.live[n].id;
    var other :| other in Others(t, name, id) && (disagree ==> !FormalsAgree(other, l.live[n]));
    var s :| s in Spellings(name) && s in t.live && t.live[s].id != id && t.live[s] == other;
    PlainSpellings(name, s);
    MergedAlready(e, l, done, t, s);
    assert e.live[s] == other;
  }

  lemma NotingLower(e: Table, l: Table, done: set<string>, t: Table, n: string, m: string)
    requires Merging(e, l, done, t) && Noting(e, l, done, t) && LiveFacts(l) && LiveApart(e, l) && n in l.live
    requires n !in done
    requires m in e.live && Semantic(m) == Semantic(n) && Plain(Semantic(n))
    ensures Semantic(n) in BindLive(t, n, l.live[n]).redefined
    ensures !FormalsAgree(e.live[m], l.live[n]) ==>
      Semantic(n) in BindLive(t, n, l.live[n]).unstable || Semantic(n) in l.unstable
  {
    var f, name := l.live[n], Semantic(n);
    OwnSpelling(m);
    if m in done {
      assert name in t.redefined && (!FormalsAgree(e.live[m], l.live[m]) ==> name in t.unstable || name in l.unstable);
      assert !FormalsAgree(l.live[m], f) ==> name in l.unstable;
    } else {
      assert t.live[m] == e.live[m] && e.live[m].id != f.id;
      assert e.live[m] in Others(t, name, f.id);
    }
  }

  /** Everything merged, and the later table's own decisions taken over. */
  function Merged(t: Table, l: Table): Table {
    t.(liveIds := t.liveIds + l.liveIds, replaced := t.replaced + l.replaced,
    unstable := t.unstable + l.unstable, redefined := t.redefined + l.redefined)
  }

  lemma LastOfConcat(log: Log, later: Log, i: nat, raw: string)
    ensures LastOf(log + later, i, raw) <==>
              if i >= |log| then LastOf(later, i - |log|, raw) else LastOf(log, i, raw) && !Bound(later, raw)
  {
    var all := log + later;
    assert forall j :: 0 <= j < |later| ==> all[|log| + j] == later[j];
    if i < |log| && LastOf(log, i, raw) && !Bound(later, raw) {
      forall j | i < j < |all| && all[j].Bind? ensures all[j].raw != raw {
        if j >= |log| && all[j].raw == raw { var k := LastOfExists(later, j - |log|); }
      }
    }
    if i < |log| && LastOf(all, i, raw) {
      assert forall j :: i < j < |log| ==> all[j] == log[j];
    }
    if i >= |log| && LastOf(all, i, raw) {
      forall j | i - |log| < j < |later| && later[j].Bind?
        ensures later[j].raw != raw
      {
        assert all[|log| + j] == later[j];
      }
    }
  }

  lemma LastBindingConcat(log: Log, later: Log, i: nat, id: FunctionId)
    requires Apart(log, later)
    ensures LastBinding(log + later, i, id) <==>
              if i >= |log| then LastBinding(later, i - |log|, id) else LastBinding(log, i, id)
  {
    var all := log + later;
    assert forall j :: 0 <= j < |later| ==> all[|log| + j] == later[j];
    if i < |log| && LastBinding(all, i, id) {
      assert forall j :: i < j < |log| ==> all[j] == log[j];
    }
    if i >= |log| && LastBinding(all, i, id) {
      forall j | i - |log| < j < |later| && later[j].Bind?
        ensures later[j].f.id != id
      {
        assert all[|log| + j] == later[j];
      }
    }
  }

  lemma MergedLive(e: Table, eLog: Log, l: Table, lLog: Log, t: Table)
    requires LiveOk(e, eLog) && LiveOk(l, lLog) && Merging(e, l, l.live.Keys, t)
    ensures LiveOk(Merged(t, l), eLog + lLog)
  {
    var log, t' := eLog + lLog, Merged(t, l);
    forall raw, i: nat | LastOf(log, i, raw) ensures raw in t'.live && t'.live[raw] == log[i].f {
      LastOfConcat(eLog, lLog, i, raw);
    }
    forall raw | raw in t'.live ensures Bound(log, raw) {
      if raw in l.live {
        var i: nat :| LastOf(lLog, i, raw);
        LastOfConcat(eLog, lLog, |eLog| + i, raw);
      } else {
        var i: nat :| LastOf(eLog, i, raw);
        LastOfConcat(eLog, lLog, i, raw);
      }
    }
  }

  /** No literal of one log is known to the other's table. */
  lemma ApartIds(t: Table, log: Log, other: Log, id: FunctionId)
    requires IdsOk(t, log) && EverBound(other, id) && (Apart(log, other) || Apart(other, log))
    ensures id !in t.liveIds && id !in t.replaced
  {
    NotBothBound(log, other, id);
    assert id in t.liveIds || id in t.replaced ==> EverBound(log, id);
  }

  lemma NotBothBound(log: Log, other: Log, id: FunctionId)
    requires EverBound(other, id) && (Apart(log, other) || Apart(other, log))
    ensures !EverBound(log, id)
  {
    var i: nat :| LastBinding(other, i, id);
    forall j: nat ensures !LastBinding(log, j, id) {
    }
  }

  lemma MergedId(e: Table, eLog: Log, l: Table, lLog: Log, t: Table, id: FunctionId, i: nat)
    requires LiveOk(e, eLog) && IdsOk(e, eLog) && LiveFacts(e) && LiveOk(l, lLog) && IdsOk(l, lLog)
    requires Apart(eLog, lLog) && Merging(e, l, l.live.Keys, t) && LastBinding(eLog + lLog, i, id)
    ensures var t', log := Merged(t, l), eLog + lLog;
      Find(t', id) == Some(log[i].f) && (id in t'.liveIds <==> LastOf(log, i, log[i].raw))
        && (id in t'.liveIds ==> t'.liveIds[id] == log[i].raw)
  {
    LastBindingConcat(eLog, lLog, i, id);
    if i >= |eLog| {
      MergedLaterId(e, eLog, l, lLog, t, id, i);
    } else {
      MergedEarlierId(e, eLog, l, lLog, t, id, i);
    }
  }

  lemma MergedLaterId(e: Table, eLog: Log, l: Table, lLog: Log, t: Table, id: FunctionId, i: nat)
    requires IdsOk(e, eLog) && LiveOk(l, lLog) && IdsOk(l, lLog) && |eLog| <= i < |eLog + lLog|
    requires Apart(eLog, lLog) && Merging(e, l, l.live.Keys, t) && LastBinding(lLog, i - |eLog|, id)
    ensures var t', log := Merged(t, l), eLog + lLog;
      Find(t', id) == Some(log[i].f) && (id in t'.liveIds <==> LastOf(log, i, log[i].raw))
        && (id in t'.liveIds ==> t'.liveIds[id] == log[i].raw)
  {
    LastOfConcat(eLog, lLog, i, (eLog + lLog)[i].raw);
    assert EverBound(lLog, id);
    ApartIds(e, eLog, lLog, id);
  }

  lemma MergedEarlierId(e: Table, eLog: Log, l: Table, lLog: Log, t: Table, id: FunctionId, i: nat)
    requires LiveOk(e, eLog) && IdsOk(e, eLog) && LiveFacts(e) && LiveOk(l, lLog) && IdsOk(l, lLog)
    requires Apart(eLog, lLog) && Merging(e, l, l.live.Keys, t) && i < |eLog| && LastBinding(eLog, i, id)
    ensures var t', log := Merged(t, l), eLog + lLog;
      Find(t', id) == Some(log[i].f) && (id in t'.liveIds <==> LastOf(log, i, log[i].raw))
        && (id in t'.liveIds ==> t'.liveIds[id] == log[i].raw)
  {
    LastOfConcat(eLog, lLog, i, (eLog + lLog)[i].raw);
    assert EverBound(eLog, id);
    assert ReplacedSoFar(e, l.live.Keys, t.replaced, id);
    ApartIds(l, lLog, eLog, id);
    assert LastOf(eLog, i, eLog[i].raw) ==> e.live[eLog[i].raw] == eLog[i].f;
    assert Bound(lLog, eLog[i].raw) <==> eLog[i].raw in l.live;
  }

  lemma MergedIds(e: Table, eLog: Log, l: Table, lLog: Log, t: Table)
    requires LiveOk(e, eLog) && IdsOk(e, eLog) && LiveFacts(e) && LiveOk(l, lLog) && IdsOk(l, lLog)
    requires Apart(eLog, lLog) && Merging(e, l, l.live.Keys, t)
    ensures IdsOk(Merged(t, l), eLog + lLog)
  {
    var t', log := Merged(t, l), eLog + lLog;
    forall id, i: nat | LastBinding(log, i, id)
      ensures Find(t', id) == Some(log[i].f) && (id in t'.liveIds <==> LastOf(log, i, log[i].raw))
      ensures (id in t'.liveIds ==> t'.liveIds[id] == log[i].raw)
    {
      MergedId(e, eLog, l, lLog, t, id, i);
    }
    forall id | id in t'.liveIds || id in t'.replaced ensures EverBound(log, id) {
      MergedBound(e, eLog, l, lLog, t, id);
    }
  }

  lemma MergedBound(e: Table, eLog: Log, l: Table, lLog: Log, t: Table, id: FunctionId)
    requires IdsOk(e, eLog) && IdsOk(l, lLog) && Apart(eLog, lLog) && Merging(e, l, l.live.Keys, t)
    requires id in Merged(t, l).liveIds || id in Merged(t, l).replaced
    ensures EverBound(eLog + lLog, id)
  {
    if id in l.liveIds || id in l.replaced {
      var i: nat :| LastBinding(lLog, i, id);
      LastBindingConcat(eLog, lLog, |eLog| + i, id);
    } else {
      assert ReplacedSoFar(e, l.live.Keys, t.replaced, id);
      assert id in e.liveIds || id in e.replaced;
      var i: nat :| LastBinding(eLog, i, id);
      LastBindingConcat(eLog, lLog, i, id);
    }
  }

  /** The two logs side by side. */
  lemma ConcatBinds(log: Log, later: Log, i: nat, name: string)
    ensures Binds(log + later, i, name) <==> if i < |log| then Binds(log, i, name) else Binds(later, i - |log|, name)
  {
    assert i >= |log| && i < |log + later| ==> (log + later)[i] == later[i - |log|];
  }

  /** Literals bound on both sides meet in the live entries, unless one side has already noted the name. */
  lemma MergedCross(e: Table, eLog: Log, l: Table, lLog: Log, t: Table, name: string, i: nat, j: nat)
    requires LiveOk(e, eLog) && NamesOk(e, eLog) && LiveOk(l, lLog) && NamesOk(l, lLog) && Plain(name)
    requires Merging(e, l, l.live.Keys, t) && Noting(e, l, l.live.Keys, t) && Binds(eLog, i, name)
    requires Binds(lLog, j, name)
    ensures name in Merged(t, l).redefined
    ensures !FormalsAgree(eLog[i].f, lLog[j].f) ==> name in Merged(t, l).unstable
  {
    var p := LiveOfBinding(e, eLog, name, i);
    var q := LiveOfBinding(l, lLog, name, j);
    var m, n := eLog[i].raw, lLog[j].raw;
    assert e.live[m] == eLog[p].f && l.live[n] == lLog[q].f && Semantic(m) == Semantic(n) == name;
    assert !FormalsAgree(eLog[p].f, eLog[i].f) ==> Disagree(eLog, name);
    assert !FormalsAgree(lLog[q].f, lLog[j].f) ==> Disagree(lLog, name);
    assert name in t.redefined;
  }

  lemma RedefinedConcat(eLog: Log, lLog: Log, name: string)
    requires Redefined(eLog, name) || Redefined(lLog, name)
    ensures Redefined(eLog + lLog, name)
  {
    if i: nat, j: nat :| Binds(eLog, i, name) && Binds(eLog, j, name) && eLog[i].f.id != eLog[j].f.id {
      ConcatBinds(eLog, lLog, i, name);
      ConcatBinds(eLog, lLog, j, name);
    } else {
      var i: nat, j: nat :| Binds(lLog, i, name) && Binds(lLog, j, name) && lLog[i].f.id != lLog[j].f.id;
      ConcatBinds(eLog, lLog, |eLog| + i, name);
      ConcatBinds(eLog, lLog, |eLog| + j, name);
    }
  }

  /** What the merged log binds the name to apart, the merge notes. */
  lemma MergedRedefinedFound(e: Table, eLog: Log, l: Table, lLog: Log, t: Table, name: string, i: nat, j: nat)
    requires LiveOk(e, eLog) && NamesOk(e, eLog) && LiveOk(l, lLog) && NamesOk(l, lLog) && Plain(name)
    requires Apart(eLog, lLog)
    requires Merging(e, l, l.live.Keys, t) && Noting(e, l, l.live.Keys, t)
    requires Binds(eLog + lLog, i, name) && Binds(eLog + lLog, j, name) && i < j
    requires (eLog + lLog)[i].f.id != (eLog + lLog)[j].f.id
    ensures name in Merged(t, l).redefined
  {
    var n := |eLog|;
    ConcatBinds(eLog, lLog, i, name);
    ConcatBinds(eLog, lLog, j, name);
    if i < n && j >= n {
      MergedCross(e, eLog, l, lLog, t, name, i, j - n);
    } else if i >= n {
      assert Binds(lLog, i - n, name) && Binds(lLog, j - n, name);
    }
  }

  /** What the merge notes, two bindings of the merged log account for. */
  lemma MergedRedefinedOnly(e: Table, eLog: Log, l: Table, lLog: Log, t: Table, name: string)
    requires LiveOk(e, eLog) && NamesOk(e, eLog) && LiveOk(l, lLog) && NamesOk(l, lLog) && Plain(name)
    requires Apart(eLog, lLog)
    requires Merging(e, l, l.live.Keys, t) && Noting(e, l, l.live.Keys, t)
    requires name in Merged(t, l).redefined
    ensures Redefined(eLog + lLog, name)
  {
    if name in l.redefined || name in e.redefined {
      RedefinedConcat(eLog, lLog, name);
    } else {
      var i, j := MeetBinds(e, eLog, l, lLog, name, false);
      ConcatBinds(eLog, lLog, i, name);
      ConcatBinds(eLog, lLog, |eLog| + j, name);
    }
  }

  lemma MergedRedefined(e: Table, eLog: Log, l: Table, lLog: Log, t: Table, name: string)
    requires LiveOk(e, eLog) && NamesOk(e, eLog) && LiveOk(l, lLog) && NamesOk(l, lLog) && Plain(name)
    requires Apart(eLog, lLog)
    requires Merging(e, l, l.live.Keys, t) && Noting(e, l, l.live.Keys, t)
    ensures name in Merged(t, l).redefined <==> Redefined(eLog + lLog, name)
  {
    var log := eLog + lLog;
    if Redefined(log, name) {
      var i: nat, j: nat :| Binds(log, i, name) && Binds(log, j, name) && log[i].f.id != log[j].f.id;
      MergedRedefinedFound(e, eLog, l, lLog, t, name, if i < j then i else j, if i < j then j else i);
    }
    if name in Merged(t, l).redefined {
      MergedRedefinedOnly(e, eLog, l, lLog, t, name);
    }
  }

  lemma MeetBinds(e: Table, eLog: Log, l: Table, lLog: Log, name: string, disagree: bool) returns (i: nat, j: nat)
    requires LiveOk(e, eLog) && LiveOk(l, lLog) && Meet(e, l, name, disagree)
    ensures Binds(eLog, i, name) && Binds(lLog, j, name) && (disagree ==> !FormalsAgree(eLog[i].f, lLog[j].f))
  {
    var m, n :| m in e.live && n in l.live && Semantic(m) == name && Semantic(n) == name
            && (disagree ==> !FormalsAgree(e.live[m], l.live[n]));
    assert Bound(eLog, m) && Bound(lLog, n);
    i :| LastOf(eLog, i, m);
    j :| LastOf(lLog, j, n);
  }

  lemma DisagreeConcat(eLog: Log, lLog: Log, name: string)
    requires Disagree(eLog, name) || Disagree(lLog, name)
    ensures Disagree(eLog + lLog, name)
  {
    if i: nat, j: nat :| Binds(eLog, i, name) && Binds(eLog, j, name) && !FormalsAgree(eLog[i].f, eLog[j].f) {
      ConcatBinds(eLog, lLog, i, name);
      ConcatBinds(eLog, lLog, j, name);
    } else {
      var i: nat, j: nat :| Binds(lLog, i, name) && Binds(lLog, j, name) && !FormalsAgree(lLog[i].f, lLog[j].f);
      ConcatBinds(eLog, lLog, |eLog| + i, name);
      ConcatBinds(eLog, lLog, |eLog| + j, name);
    }
  }

  /** What the merged log binds the name to apart, the merge notes. */
  lemma MergedUnstableFound(e: Table, eLog: Log, l: Table, lLog: Log, t: Table, name: string, i: nat, j: nat)
    requires LiveOk(e, eLog) && NamesOk(e, eLog) && LiveOk(l, lLog) && NamesOk(l, lLog) && Plain(name)
    requires Merging(e, l, l.live.Keys, t) && Noting(e, l, l.live.Keys, t)
    requires Binds(eLog + lLog, i, name) && Binds(eLog + lLog, j, name) && i < j
    requires !FormalsAgree((eLog + lLog)[i].f, (eLog + lLog)[j].f)
    ensures name in Merged(t, l).unstable
  {
    var n := |eLog|;
    ConcatBinds(eLog, lLog, i, name);
    ConcatBinds(eLog, lLog, j, name);
    if i < n && j >= n {
      MergedCross(e, eLog, l, lLog, t, name, i, j - n);
    } else if i >= n {
      assert Binds(lLog, i - n, name) && Binds(lLog, j - n, name);
    }
  }

  /** What the merge notes, two bindings of the merged log account for. */
  lemma MergedUnstableOnly(e: Table, eLog: Log, l: Table, lLog: Log, t: Table, name: string)
    requires LiveOk(e, eLog) && NamesOk(e, eLog) && LiveOk(l, lLog) && NamesOk(l, lLog) && Plain(name)
    requires Merging(e, l, l.live.Keys, t) && Noting(e, l, l.live.Keys, t)
    requires name in Merged(t, l).unstable
    ensures Marked(eLog + lLog, name) || Disagree(eLog + lLog, name)
  {
    if name in l.unstable || name in e.unstable {
      if Disagree(eLog, name) || Disagree(lLog, name) {
        DisagreeConcat(eLog, lLog, name);
      }
    } else {
      var i, j := MeetBinds(e, eLog, l, lLog, name, true);
      ConcatBinds(eLog, lLog, i, name);
      ConcatBinds(eLog, lLog, |eLog| + j, name);
    }
  }

  lemma MergedUnstable(e: Table, eLog: Log, l: Table, lLog: Log, t: Table, name: string)
    requires LiveOk(e, eLog) && NamesOk(e, eLog) && LiveOk(l, lLog) && NamesOk(l, lLog) && Plain(name)
    requires Merging(e, l, l.live.Keys, t) && Noting(e, l, l.live.Keys, t)
    ensures name in Merged(t, l).unstable <==> Marked(eLog + lLog, name) || Disagree(eLog + lLog, name)
  {
    var log := eLog + lLog;
    if Disagree(log, name) {
      var i: nat, j: nat :| Binds(log, i, name) && Binds(log, j, name) && !FormalsAgree(log[i].f, log[j].f);
      MergedUnstableFound(e, eLog, l, lLog, t, name, if i < j then i else j, if i < j then j else i);
    }
    if name in Merged(t, l).unstable {
      MergedUnstableOnly(e, eLog, l, lLog, t, name);
    }
  }

  lemma MergedRepresents(e: Table, eLog: Log, l: Table, lLog: Log, t: Table)
    requires Represents(e, eLog) && Represents(l, lLog) && Apart(eLog, lLog)
    requires Merging(e, l, l.live.Keys, t) && Noting(e, l, l.live.Keys, t)
    ensures Represents(Merged(t, l), eLog + lLog)
  {
    RepresentedFacts(e, eLog);
    MergedLive(e, eLog, l, lLog, t);
    MergedIds(e, eLog, l, lLog, t);
    forall name | Plain(name)
      ensures name in Merged(t, l).redefined <==> Redefined(eLog + lLog, name)
      ensures name in Merged(t, l).unstable <==> Marked(eLog + lLog, name) || Disagree(eLog + lLog, name)
    {
      MergedRedefined(e, eLog, l, lLog, t, name);
      MergedUnstable(e, eLog, l, lLog, t, name);
    }
    MergedPrefixes(e, l, t);
  }

  lemma MergedPrefixes(e: Table, l: Table, t: Table)
    requires PrefixesOk(e) && Merging(e, l, l.live.Keys, t)
    ensures PrefixesOk(Merged(t, l))
  {
    var t' := Merged(t, l);
    forall p ensures p in t'.methodPrefixes <==> exists raw :: raw in t'.live && p in MethodPrefixes(raw) {
      if p in e.methodPrefixes {
        var raw :| raw in e.live && p in MethodPrefixes(raw);
        assert raw in t'.live;
      }
      if raw :| raw in l.live.Keys && p in MethodPrefixes(raw) { assert raw in t'.live; }
    }
  }

  // ---------------------------------------------------------------------------------------------
  // The class
  // ---------------------------------------------------------------------------------------------

  class Definitions {
    var live: map<string, UserFn>
    var liveIds: map<FunctionId, string>
    var replaced: map<FunctionId, UserFn>
    var unstable: set<string>
    var redefined: set<string>
    var methodPrefixes: set<string>
    /** Everything bound and marked so far, in order. */
    ghost var log: Log

    constructor ()
      ensures Valid() && log == []
    {
      live, liveIds, replaced, unstable, redefined, methodPrefixes := map[], map[], map[], {}, {}, {};
      log := [];
    }

    function State(): Table
      reads this
    {
      Table(live, liveIds, replaced, unstable, redefined, methodPrefixes)
    }

    ghost predicate Valid()
      reads this
    {
      Represents(State(), log)
    }

    /** Any literal ever bound, live or replaced, as it was last bound. */
    function Get(id: FunctionId): (r: Option<UserFn>)
      reads this
      requires Valid()
      ensures r.Some? <==> EverBound(log, id)
      ensures forall i: nat :: LastBinding(log, i, id) ==> r == Some(log[i].f)
      ensures r.Some? ==> r.value.id == id
    {
      FoundAsLastBound(State(), log, id);
      Find(State(), id)
    }

    /** Whether the spelling that last bound the literal still does; another spelling may, too. */
    predicate IsLive(id: FunctionId)
      reads this
      requires Valid()
      ensures IsLive(id) ==> EverBound(log, id)
      ensures forall i: nat :: LastBinding(log, i, id) ==> (IsLive(id) <==> LastOf(log, i, log[i].raw))
    {
      id in liveIds
    }

    /** Whether every binding of a plain name is a literal with the same formals. */
    predicate HasSingleContract(name: string)
      reads this
      requires Valid()
      ensures Plain(Semantic(name)) ==>
        (HasSingleContract(name) <==> !Marked(log, Semantic(name)) && !Disagree(log, Semantic(name)))
    {
      Semantic(name) !in unstable
    }

    /** Whether a plain name has a single contract and only one literal binds it. */
    predicate HasSingleDefinition(name: string)
      reads this
      requires Valid()
      ensures Plain(Semantic(name)) ==>
        (HasSingleDefinition(name) <==>
          !Marked(log, Semantic(name)) && !Disagree(log, Semantic(name)) && !Redefined(log, Semantic(name)))
    {
      HasSingleContract(name) && Semantic(name) !in redefined
    }

    /** Note that a non-literal or outward write may rebind `name`. */
    method MarkUnstable(name: string)
      requires Valid()
      modifies this
      ensures Valid() && log == old(log) + [Mark(name)]
    {
      ghost var t := State();
      unstable := unstable + {name};
      MarkRepresents(t, log, name);
      log := log + [Mark(name)];
    }

    /** Bind without recording which spelling names the literal; returns the replaced entry's return slot. */
    method BindOnly(raw: string, f: UserFn) returns (previous: Option<nat>)
      modifies this`live, this`liveIds, this`replaced, this`unstable, this`redefined, this`methodPrefixes
      ensures State() == BindLive(old(State()), raw, f)
      ensures previous == if raw in old(live) then Some(old(live)[raw].returnSlot) else None
    {
      var name := Semantic(raw);
      var others := Others(State(), name, f.id);
      if exists other :: other in others && !FormalsAgree(other, f) {
        unstable := unstable + {name};
      }
      if others != {} {
        redefined := redefined + {name};
      }
      methodPrefixes := methodPrefixes + MethodPrefixes(raw);
      if raw !in live {
        live := live[raw := f];
        return None;
      }
      var replacedFn := live[raw];
      live := live[raw := f];
      if replacedFn.id != f.id && replacedFn.id in liveIds && liveIds[replacedFn.id] == raw {
        liveIds := liveIds - {replacedFn.id};
        replaced := replaced[replacedFn.id := replacedFn];
      }
      return Some(replacedFn.returnSlot);
    }

    /** Bind `raw` to `f`, keeping a replaced literal addressable. */
    method Bind(raw: string, f: UserFn) returns (previous: Option<nat>)
      requires Valid() && Coherent(log + [Event.Bind(raw, f)])
      modifies this
      ensures Valid() && log == old(log) + [Event.Bind(raw, f)]
      ensures previous == if raw in old(live) then Some(old(live)[raw].returnSlot) else None
    {
      ghost var t := State();
      previous := BindOnly(raw, f);
      liveIds := liveIds[f.id := raw];
      BindRepresents(t, log, raw, f);
      log := log + [Event.Bind(raw, f)];
    }

    /** Bind every live entry of a later table, in any order. */
    method BindAll(later: map<string, UserFn>, slotOffset: nat, ghost e: Table, ghost eLog: Log, ghost l: Table,
          ghost lLog: Log)
      requires MergeReady(e, eLog, l, lLog, {}, State())
      requires l.live == map raw | raw in later :: ShiftFn(later[raw], slotOffset)
      modifies this`live, this`liveIds, this`replaced, this`unstable, this`redefined, this`methodPrefixes
      ensures MergeReady(e, eLog, l, lLog, l.live.Keys, State())
    {
      var names := later.Keys;
      ghost var done: set<string> := {};
      while names != {}
        invariant names !! done && names + done == later.Keys
        invariant MergeReady(e, eLog, l, lLog, done, State())
        decreases names
      {
        var name :| name in names;
        MergeNext(e, eLog, l, lLog, done, State(), name);
        var _ := BindOnly(name, ShiftFn(later[name], slotOffset));
        names, done := names - {name}, done + {name};
      }
      assert done == l.live.Keys;
    }

    /** Merge a later file's definitions, shifting its return slots into this table's. */
    method Append(later: Definitions, slotOffset: nat)
      requires Valid() && later.Valid() && later != this && Apart(log, later.log)
      modifies this
      ensures Valid() && log == old(log) + ShiftLog(later.log, slotOffset)
    {
      ghost var e, l, lLog := State(), ShiftTable(later.State(), slotOffset), ShiftLog(later.log, slotOffset);
      ShiftRepresents(later.State(), later.log, slotOffset);
      MergeStart(e, log, l, lLog);
      BindAll(later.live, slotOffset, e, log, l, lLog);
      MergeEnd(e, log, l, lLog, State());
      TakeOver(later, slotOffset);
      log := log + lLog;
    }

    /** The later table already decided which spelling names a literal bound twice. */
    method TakeOver(later: Definitions, slotOffset: nat)
      requires later != this
      modifies this`liveIds, this`replaced, this`unstable, this`redefined
      ensures State() == Merged(old(State()), ShiftTable(later.State(), slotOffset))
    {
      liveIds := liveIds + later.liveIds;
      replaced := replaced + map id | id in later.replaced :: ShiftFn(later.replaced[id], slotOffset);
      unstable := unstable + later.unstable;
      redefined := redefined + later.redefined;
    }
  }

  /**
   * A literal bound under two spellings and then replaced under the last one is no longer recorded
   * as live, although the first spelling still binds it.
   */
  lemma StillBoundButNotLive(shared: UserFn, other: UserFn)
    requires shared.id != other.id
    ensures var t := Bound1(Bound1(Bound1(Empty(), "f", shared), "g", shared), "g", other);
            t.live["f"] == shared && shared.id !in t.liveIds && Find(t, shared.id) == Some(shared)
  {
    var t := Bound1(Bound1(Empty(), "f", shared), "g", shared);
    assert t.live["g"] == shared && t.liveIds[shared.id] == "g";
  }

  function Empty(): Table {
    Table(map[], map[], map[], {}, {}, {})
  }

  /**
   * For an R name that is itself spelled in quotes, the notes depend on the order of the bindings:
   * the spelling `'x'` counts as one of the name `'x'`, but binds the name `x`.
   */
  lemma QuotedNameDependsOnOrder(f: UserFn, g: UserFn)
    requires f.id != g.id
    ensures "'x'" in Bound1(Bound1(Empty(), "'x'", f), "`'x'`", g).redefined
    ensures "'x'" !in Bound1(Bound1(Empty(), "`'x'`", g), "'x'", f).redefined
  {
    assert Semantic("`'x'`") == "'x'" && Semantic("'x'") == "x";
    var t := Bound1(Empty(), "'x'", f);
    assert t.live["'x'"] == f && f in Others(t, "'x'", g.id);
  }

  lemma FoundAsLastBound(t: Table, log: Log, id: FunctionId)
    requires Represents(t, log)
    ensures Find(t, id).Some? <==> EverBound(log, id)
    ensures Find(t, id).Some? ==> Find(t, id).value.id == id
    ensures forall i: nat :: LastBinding(log, i, id) ==> Find(t, id) == Some(log[i].f)
  {
    if EverBound(log, id) {
      var i: nat :| LastBinding(log, i, id);
    }
  }

  lemma MarkLasts(log: Log, name: string)
    ensures forall i: nat, raw {:trigger LastOf(log + [Mark(name)], i, raw)} {:trigger LastOf(log, i, raw)} ::
              LastOf(log + [Mark(name)], i, raw) <==> LastOf(log, i, raw)
    ensures forall i: nat, id {:trigger LastBinding(log + [Mark(name)], i, id)} {:trigger LastBinding(log, i, id)} ::
              LastBinding(log + [Mark(name)], i, id) <==> LastBinding(log, i, id)
  {
    forall i: nat, raw
      ensures LastOf(log + [Mark(name)], i, raw) <==> LastOf(log, i, raw)
    {
      LastOfNext(log, Mark(name), i, raw);
    }
    forall i: nat, id
      ensures LastBinding(log + [Mark(name)], i, id) <==> LastBinding(log, i, id)
    {
      LastBindingNext(log, Mark(name), i, id);
    }
  }

  lemma MarkIds(t: Table, log: Log, name: string)
    requires IdsOk(t, log)
    ensures IdsOk(t.(unstable := t.unstable + {name}), log + [Mark(name)])
  {
    MarkLasts(log, name);
    var t', log' := t.(unstable := t.unstable + {name}), log + [Mark(name)];
    forall id, i: nat | LastBinding(log', i, id)
      ensures Find(t', id) == Some(log'[i].f) && (id in t'.liveIds <==> LastOf(log', i, log'[i].raw))
      ensures (id in t'.liveIds ==> t'.liveIds[id] == log'[i].raw)
    {
      assert LastBinding(log, i, id);
    }
    forall id | id in t'.liveIds || id in t'.replaced ensures EverBound(log', id) {
      assert id in t.liveIds || id in t.replaced;
      var i: nat :| LastBinding(log, i, id);
      assert LastBinding(log', i, id);
    }
  }

  lemma MarkLive(t: Table, log: Log, name: string)
    requires LiveOk(t, log)
    ensures LiveOk(t.(unstable := t.unstable + {name}), log + [Mark(name)])
  {
    MarkLasts(log, name);
    forall raw | raw in t.live ensures Bound(log + [Mark(name)], raw) {
      var i: nat :| LastOf(log, i, raw);
      assert LastOf(log + [Mark(name)], i, raw);
    }
  }

  lemma MarkRepresents(t: Table, log: Log, name: string)
    requires Represents(t, log)
    ensures Represents(t.(unstable := t.unstable + {name}), log + [Mark(name)])
  {
    MarkLive(t, log, name);
    MarkIds(t, log, name);
    MarkNames(t, log, name);
  }

  lemma MarkNames(t: Table, log: Log, name: string)
    requires NamesOk(t, log)
    ensures NamesOk(t.(unstable := t.unstable + {name}), log + [Mark(name)])
  {
    var log' := log + [Mark(name)];
    forall n
      ensures Marked(log', n) <==> Marked(log, n) || n == name
      ensures Disagree(log', n) <==> Disagree(log, n)
      ensures Redefined(log', n) <==> Redefined(log, n)
    {
      assert forall i: nat :: Binds(log', i, n) <==> Binds(log, i, n);
      assert log'[|log|] == Mark(name);
    }
  }

  lemma LiveAreApart(e: Table, eLog: Log, l: Table, lLog: Log)
    requires LiveOk(e, eLog) && LiveOk(l, lLog) && Apart(eLog, lLog)
    ensures LiveApart(e, l)
  {
    forall m, n | m in e.live && n in l.live ensures e.live[m].id != l.live[n].id {
      assert Bound(eLog, m) && Bound(lLog, n);
      var i: nat :| LastOf(eLog, i, m);
      var j: nat :| LastOf(lLog, j, n);
    }
  }

  /**
   * The state of a merge, behind a quantifier that only a `Seal` term opens, so that the loop carries it as a whole.
   */
  ghost predicate MergeReady(e: Table, eLog: Log, l: Table, lLog: Log, done: set<string>, t: Table) {
    forall k {:trigger Seal(k)} :: Seal(k) ==>
      Represents(e, eLog) && Represents(l, lLog) && Apart(eLog, lLog) && Merging(e, l, done, t) && Noting(e, l, done, t)
  }

  lemma MergeStart(e: Table, eLog: Log, l: Table, lLog: Log)
    requires Represents(e, eLog) && Represents(l, lLog) && Apart(eLog, lLog)
    ensures MergeReady(e, eLog, l, lLog, {}, e)
  {
    assert Merging(e, l, {}, e) && Noting(e, l, {}, e);
  }

  lemma MergeNext(e: Table, eLog: Log, l: Table, lLog: Log, done: set<string>, t: Table, n: string)
    requires MergeReady(e, eLog, l, lLog, done, t) && n in l.live && n !in done
    ensures MergeReady(e, eLog, l, lLog, done + {n}, BindLive(t, n, l.live[n]))
  {
    assert Seal(0);
    RepresentedFacts(e, eLog);
    RepresentedFacts(l, lLog);
    LiveAreApart(e, eLog, l, lLog);
    MergeStep(e, l, done, t, n);
    NotingStep(e, l, done, t, n);
  }

  lemma MergeEnd(e: Table, eLog: Log, l: Table, lLog: Log, t: Table)
    requires MergeReady(e, eLog, l, lLog, l.live.Keys, t)
    ensures Represents(Merged(t, l), eLog + lLog)
  {
    assert Seal(0);
    MergedRepresents(e, eLog, l, lLog, t);
  }
}
