/** The linter object: four maps grown in place until nothing changes, then read
    off as a list of defects. */
module ChainLinter {
  import opened ChainRules
  import opened Text

  datatype Defect =
    | MissingInputVar(task: Task)
    | TemplateRefused(task: Task)
    | InputVarRefused(task: Task)
    | EntryRefused(task: Task)
    | EdgeRefused(from: Task, task: Task)

  /** The types a signature admits; every type when it lists none. */
  function AcceptSet(sig: Signature): DtSet {
    if sig.inputs == {} then ALL_TYPES else sig.inputs
  }

  predicate ReadsCarried(t: Task) { Blank(t.promptTemplate) && t.inputVar == "" }

  /** A nonempty type set, without `Any`, that shares nothing with what is accepted. */
  predicate Refused(sig: Signature, s: DtSet) {
    sig.inputs != {} && s != {} && Any !in s && s !! AcceptSet(sig)
  }

  /** The types that travel from `p` to `t`. */
  ghost function CarriedSet(table: Table, F: Facts, p: Task, t: Task): DtSet {
    (if SuccessTarget(p, t.id) then SuccessOut(table, F, p) else {})
      + (if FailureTarget(p, t.id) then FailureOut(table, F, p) else {})
  }

  /** Which defects the facts `F` amount to. */
  ghost predicate IsDefect(table: Table, tasks: seq<Task>, entry: DtSet, F: Facts, d: Defect)
    requires |tasks| > 0
  {
    var t := d.task;
    var sig := table(t.handler);
    && t in tasks
    && Reach(t.id) in F
    && match d
       case MissingInputVar(_) => t.inputVar != "" && t.inputVar != "input" && Avail(t.id, t.inputVar) !in F
       case TemplateRefused(_) => !Blank(t.promptTemplate) && sig.inputs != {} && String !in AcceptSet(sig)
       case InputVarRefused(_) => Blank(t.promptTemplate) && t.inputVar != "" && Refused(sig, VarSet(F, t.inputVar))
       case EntryRefused(_) => ReadsCarried(t) && t.id == tasks[0].id && sig.inputs != {} && Any !in entry && entry !! AcceptSet(sig)
       case EdgeRefused(p, _) => ReadsCarried(t) && p in tasks && Reach(p.id) in F && Refused(sig, CarriedSet(table, F, p, t))
  }

  /** Every closed set contains `F`. */
  ghost predicate BelowClosed(table: Table, tasks: seq<Task>, entry: DtSet, F: Facts)
    requires |tasks| > 0
  {
    forall C: Facts :: Closed(table, tasks, entry, C) ==> F <= C
  }

  /** A visit never leaves what every closed set contains. */
  lemma VisitStaysBelow(table: Table, tasks: seq<Task>, entry: DtSet, t: Task, F: Facts, F': Facts)
    requires |tasks| > 0 && t in tasks && Reach(t.id) in F
    requires BelowClosed(table, tasks, entry, F)
    requires forall f :: f in F' ==> f in F || Derives(table, F, t, f)
    ensures BelowClosed(table, tasks, entry, F')
  {
    forall C: Facts | Closed(table, tasks, entry, C) ensures F' <= C {
      assert ClosedAt(table, C, t);
      forall f | f in F' ensures f in C {
        if f !in F { DerivesMonotone(table, F, C, t, f); }
      }
    }
  }

  /** What every closed set contains is finite. */
  lemma FiniteBound(table: Table, tasks: seq<Task>, entry: DtSet) returns (U: set<Fact>)
    requires ValidChain(tasks)
    ensures forall F: Facts, f :: BelowClosed(table, tasks, entry, F) && f in F ==> f in U
  {
    U := Universe(tasks);
    UniverseClosed(table, tasks, entry);
    forall F: Facts, f | BelowClosed(table, tasks, entry, F) && f in F ensures f in U {
      assert f in UniverseFacts(tasks);
    }
  }

  /** Closed under the first `n` tasks. */
  ghost predicate ClosedUpTo(table: Table, tasks: seq<Task>, F: Facts, n: nat)
    requires n <= |tasks|
  {
    n == 0 || (ClosedUpTo(table, tasks, F, n - 1) && ClosedAt(table, F, tasks[n - 1]))
  }

  lemma {:induction false} ClosedThroughout(table: Table, tasks: seq<Task>, F: Facts, n: nat)
    requires n <= |tasks| && ClosedUpTo(table, tasks, F, n)
    ensures forall t :: t in tasks[..n] ==> ClosedAt(table, F, t)
    ensures n == |tasks| ==> forall t :: t in tasks ==> ClosedAt(table, F, t)
    decreases n
  {
    if n > 0 { ClosedThroughout(table, tasks, F, n - 1); }
    assert n == |tasks| ==> tasks[..n] == tasks;
  }

  ghost function Missing(U: set<Fact>, F: Facts): set<Fact> { set f | f in U && f !in F }

  lemma InitialFact(tasks: seq<Task>, entry: DtSet, f: Fact)
    requires |tasks| > 0
    ensures f in Initial(tasks, entry) <==>
            var e := tasks[0].id;
            match f
            case Reach(id) => id == e
            case InType(id, d) => id == e && d in entry
            case VarType(n, d) => n == "input" && d in entry
            case Avail(id, n) => id == e && n == "input"
  {}

  class Linter {
    const table: Table
    const tasks: seq<Task>
    const entry: DtSet
    var inSets: map<string, DtSet>
    var varSets: map<string, DtSet>
    var avail: map<string, set<string>>
    var reachable: set<string>

    ghost predicate Knows(f: Fact)
      reads this
    {
      match f
      case Reach(id) => id in reachable
      case InType(id, d) => id in inSets && d in inSets[id]
      case VarType(n, d) => n in varSets && d in varSets[n]
      case Avail(id, n) => id in avail && n in avail[id]
    }

    /** The abstract value of the four maps. */
    ghost function Known(): Facts
      reads this
    {
      iset f | Knows(f)
    }

    /** Every task has its `avail` entry, so no write meets a missing map. */
    ghost predicate Valid()
      reads this
    {
      ValidChain(tasks) && avail.Keys == Ids(tasks)
    }

    constructor (table: Table, tasks: seq<Task>, entry: DtSet)
      requires ValidChain(tasks)
      ensures Valid() && this.table == table && this.tasks == tasks && this.entry == entry
      ensures Known() == Initial(tasks, entry)
    {
      this.table, this.tasks, this.entry := table, tasks, entry;
      var e := tasks[0].id;
      inSets := map[e := entry];
      varSets := map["input" := entry];
      avail := map id | id in Ids(tasks) :: if id == e then {"input"} else {};
      reachable := {e};
      new;
      assert tasks[0] in tasks;
      forall f ensures Knows(f) <==> f in Initial(tasks, entry) {
        InitialFact(tasks, entry, f);
      }
    }

    function GetIn(id: string): (s: DtSet)
      reads this
      ensures s == InSet(Known(), id)
    {
      if id in inSets then inSets[id] else {}
    }

    function GetVar(name: string): (s: DtSet)
      reads this
      ensures s == VarSet(Known(), name)
    {
      if name in varSets then varSets[name] else {}
    }

    function Effective(t: Task): (s: DtSet)
      reads this
      ensures s == EffectiveInput(Known(), t)
    {
      if !Blank(t.promptTemplate) then {String}
      else if t.inputVar != "" then GetVar(t.inputVar)
      else GetIn(t.id)
    }

    twostate predicate Changed()
      reads this
    {
      exists f :: Knows(f) && !old(Knows(f))
    }

    method GrowVar(name: string, s: DtSet) returns (grew: bool)
      modifies this`varSets
      ensures forall f :: Knows(f) <==> old(Knows(f)) || (f.VarType? && f.name == name && f.ty in s)
      ensures grew <==> Changed()
    {
      var prior := GetVar(name);
      var merged := prior + s;
      grew := merged != prior;
      if grew {
        varSets := varSets[name := merged];
        ghost var d :| d in merged && d !in prior;
        assert Knows(VarType(name, d)) && !old(Knows(VarType(name, d)));
      } else {
        assert forall d :: d in s ==> d in prior;
      }
    }

    /** `GrowVar` when an earlier step may already have changed something. */
    method AndGrowVar(before: bool, name: string, s: DtSet) returns (grew: bool)
      modifies this`varSets
      ensures forall f :: Knows(f) <==> old(Knows(f)) || (f.VarType? && f.name == name && f.ty in s)
      ensures grew <==> before || Changed()
    {
      grew := GrowVar(name, s);
      grew := before || grew;
    }

    method GrowIn(id: string, s: DtSet) returns (grew: bool)
      modifies this`inSets
      ensures forall f :: Knows(f) <==> old(Knows(f)) || (f.InType? && f.id == id && f.ty in s)
      ensures grew <==> Changed()
    {
      var prior := GetIn(id);
      var merged := prior + s;
      grew := merged != prior;
      if grew {
        inSets := inSets[id := merged];
        ghost var d :| d in merged && d !in prior;
        assert Knows(InType(id, d)) && !old(Knows(InType(id, d)));
      } else {
        assert forall d :: d in s ==> d in prior;
      }
    }

    method GrowAvail(id: string, from: set<string>, extra: set<string>) returns (grew: bool)
      requires id in avail
      modifies this`avail
      ensures avail == old(avail)[id := old(avail)[id] + from + extra]
      ensures forall f :: Knows(f) <==> old(Knows(f)) || (f.Avail? && f.id == id && f.name in from + extra)
      ensures grew <==> Changed()
    {
      var prior := avail[id];
      var merged := prior + from + extra;
      grew := merged != prior;
      avail := avail[id := merged];
      if grew {
        ghost var n :| n in merged && n !in prior;
        assert Knows(Avail(id, n)) && !old(Knows(Avail(id, n)));
      } else {
        assert forall n :: n in from + extra ==> n in prior;
      }
    }

    method MarkReachable(id: string) returns (grew: bool)
      modifies this`reachable
      ensures forall f :: Knows(f) <==> old(Knows(f)) || f == Reach(id)
      ensures grew <==> Changed()
    {
      grew := id !in reachable;
      reachable := reachable + {id};
      assert Knows(Reach(id));
    }

    /** One edge into `g` carrying the types `s`; `extra` are the variables the source task adds. */
    method GrowEdge(t: Task, g: string, s: DtSet, extra: set<string>) returns (grew: bool)
      requires Valid() && t in tasks && g in Ids(tasks)
      modifies this`inSets, this`avail, this`reachable
      ensures Valid()
      ensures avail == old(avail)[g := old(avail[g]) + old(avail[t.id]) + extra]
      ensures forall f :: Knows(f) <==> old(Knows(f)) || OnEdge(g, s, old(avail[t.id]) + extra, f)
      ensures grew <==> Changed()
    {
      var a := GrowIn(g, s);
      label L:
      var b := GrowAvail(g, avail[t.id], extra);
      var c := MarkReachable(g);
      grew := a || b || c;
      if b { ghost var f :| Knows(f) && !old@L(Knows(f)); }
    }

    /** The variables a visit of `t` may leave behind. */
    method GrowVars(t: Task, sOut: DtSet, fOut: DtSet) returns (grew: bool)
      modifies this`varSets
      ensures forall f :: Knows(f) <==> old(Knows(f)) || LeftBehind(t, sOut, fOut, f)
      ensures grew <==> Changed()
    {
      grew := GrowVar(t.id, sOut);
      grew := AndGrowVar(grew, PREVIOUS, sOut);
      if t.onFailure != "" {
        grew := AndGrowVar(grew, t.id, fOut);
        grew := AndGrowVar(grew, PREVIOUS, fOut);
        grew := AndGrowVar(grew, LAST_ERROR, {String});
        grew := AndGrowVar(grew, ErrorVar(t), {String});
      }
    }

    /** `GrowEdge` along a success edge, when an earlier step may already have changed something. */
    method AndGrowTarget(before: bool, t: Task, g: string, sOut: DtSet, ghost names: set<string>) returns (grew: bool)
      requires Valid() && t in tasks && g in Ids(tasks)
      requires names == avail[t.id] + {t.id, PREVIOUS}
      modifies this`inSets, this`avail, this`reachable
      ensures Valid()
      ensures names == avail[t.id] + {t.id, PREVIOUS}
      ensures forall f :: Knows(f) <==> old(Knows(f)) || OnEdge(g, sOut, names, f)
      ensures grew <==> before || Changed()
    {
      grew := GrowEdge(t, g, sOut, {t.id, PREVIOUS});
      grew := before || grew;
    }

    /** The success edges of `t`. */
    method GrowSuccessEdges(t: Task, sOut: DtSet, ghost names: set<string>) returns (grew: bool)
      requires Valid() && t in tasks
      requires names == avail[t.id] + {t.id, PREVIOUS}
      modifies this`inSets, this`avail, this`reachable
      ensures Valid()
      ensures names == avail[t.id] + {t.id, PREVIOUS}
      ensures forall f :: Knows(f) <==> old(Knows(f)) || OnSuccess(t, sOut, names, f)
      ensures grew <==> Changed()
    {
      grew := false;
      var targets := SuccessTargets(t);
      for i := 0 to |targets|
        invariant Valid()
        invariant names == avail[t.id] + {t.id, PREVIOUS}
        invariant forall f :: Knows(f) <==> old(Knows(f)) || OnTargets(targets[..i], sOut, names, f)
        invariant grew <==> Changed()
      {
        label L:
        assert SuccessTarget(t, targets[i]);
        grew := AndGrowTarget(grew, t, targets[i], sOut, names);
        OneMoreTarget(targets, i, sOut, names);
      }
      assert targets[..|targets|] == targets;
    }

    /** Both kinds of edge of `t`, `here` being the variables available at `t`. */
    method GrowEdges(t: Task, sOut: DtSet, fOut: DtSet, ghost here: set<string>) returns (grew: bool)
      requires Valid() && t in tasks && here == avail[t.id]
      modifies this`inSets, this`avail, this`reachable
      ensures Valid()
      ensures forall f :: Knows(f) <==> old(Knows(f)) || OnEdges(t, sOut, fOut, here, f)
      ensures grew <==> Changed()
    {
      grew := false;
      if sOut != {} {
        grew := GrowSuccessEdges(t, sOut, here + {t.id, PREVIOUS});
      }
      label M:
      if t.onFailure != "" {
        var c := GrowEdge(t, t.onFailure, fOut, {t.id, PREVIOUS, LAST_ERROR, ErrorVar(t)});
        assert old@M(avail[t.id]) + {t.id, PREVIOUS, LAST_ERROR, ErrorVar(t)} == here + FailureNames(t);
        if c { ghost var f :| Knows(f) && !old@M(Knows(f)); }
        grew := grew || c;
      }
    }

    /** The body of the inner loop for one reachable task: it adds exactly what the rules derive. */
    method Visit(t: Task) returns (changed: bool)
      requires Valid() && t in tasks && t.id in reachable
      modifies this
      ensures Valid()
      ensures forall f :: Knows(f) <==> old(Knows(f)) || Derives(table, old(Known()), t, f)
      ensures changed <==> Changed()
    {
      ghost var F0 := Known();
      var eff := Effective(t);
      var sOut := SuccessTypes(table(t.handler), t, eff);
      ghost var here := avail[t.id];
      forall f ensures Derives(table, F0, t, f) <==>
                       LeftBehind(t, sOut, eff + sOut, f) || OnEdges(t, sOut, eff + sOut, here, f)
      {
        DerivesParts(table, F0, t, here, f);
      }
      changed := GrowVars(t, sOut, eff + sOut);
      label L:
      var c := GrowEdges(t, sOut, eff + sOut, here);
      if c { ghost var f :| Knows(f) && !old@L(Knows(f)); }
      changed := changed || c;
    }

    /** A visit, or nothing at all for a task not yet reached. */
    method VisitIfReachable(before: bool, t: Task) returns (changed: bool)
      requires Valid() && t in tasks && BelowClosed(table, tasks, entry, Known())
      modifies this
      ensures Valid() && BelowClosed(table, tasks, entry, Known())
      ensures old(Known()) <= Known() && (changed <==> before || Known() != old(Known()))
      ensures Known() == old(Known()) ==> ClosedAt(table, Known(), t)
    {
      changed := false;
      if t.id in reachable {
        ghost var F := Known();
        changed := Visit(t);
        VisitStaysBelow(table, tasks, entry, t, F, Known());
        if changed {
          ghost var f :| Knows(f) && !old(Knows(f));
          assert f in Known() && f !in F;
        }
      }
      changed := before || changed;
    }

    /** One pass over the chain. */
    method Pass() returns (changed: bool)
      requires Valid() && BelowClosed(table, tasks, entry, Known())
      modifies this
      ensures Valid() && BelowClosed(table, tasks, entry, Known())
      ensures old(Known()) <= Known() && (changed <==> Known() != old(Known()))
      ensures !changed ==> forall t :: t in tasks ==> ClosedAt(table, Known(), t)
    {
      changed := false;
      ghost var F := Known();
      for i := 0 to |tasks|
        invariant Valid() && BelowClosed(table, tasks, entry, Known())
        invariant F <= Known() && (changed <==> Known() != F)
        invariant !changed ==> ClosedUpTo(table, tasks, F, i)
      {
        changed := VisitIfReachable(changed, tasks[i]);
      }
      if !changed { ClosedThroughout(table, tasks, F, |tasks|); }
    }

    /** Passes over the chain until one changes nothing. On any chain, cycles included, it
        stops, and what it then knows is the least closed set of facts. */
    method Propagate()
      requires Valid() && Known() == Initial(tasks, entry)
      modifies this
      ensures Valid()
      ensures Least(table, tasks, entry, Known())
    {
      ghost var U := FiniteBound(table, tasks, entry);
      var changed := true;
      while changed
        invariant Valid()
        invariant Initial(tasks, entry) <= Known()
        invariant BelowClosed(table, tasks, entry, Known())
        invariant !changed ==> forall t :: t in tasks ==> ClosedAt(table, Known(), t)
        decreases Missing(U, Known()), changed
      {
        ghost var F := Known();
        changed := Pass();
        if changed {
          ghost var f :| f in Known() && f !in F;
          assert f in Missing(U, F) && f !in Missing(U, Known());
        }
      }
    }

    function Carried(p: Task, t: Task): (s: DtSet)
      reads this
      ensures s == CarriedSet(table, Known(), p, t)
    {
      var eff := Effective(p);
      var out := SuccessTypes(table(p.handler), p, eff);
      (if SuccessTarget(p, t.id) then out else {}) + (if FailureTarget(p, t.id) then eff + out else {})
    }

    /** The edges into `t` on which nothing acceptable can travel. */
    method CheckEdges(t: Task) returns (defects: seq<Defect>)
      ensures forall d :: d in defects <==>
                && d.EdgeRefused? && d.task == t && d.from in tasks && d.from.id in reachable
                && Refused(table(t.handler), CarriedSet(table, Known(), d.from, t))
    {
      defects := [];
      for i := 0 to |tasks|
        invariant forall d :: d in defects <==>
                    && d.EdgeRefused? && d.task == t && d.from in tasks[..i] && d.from.id in reachable
                    && Refused(table(t.handler), CarriedSet(table, Known(), d.from, t))
      {
        var p := tasks[i];
        if p.id in reachable && Refused(table(t.handler), Carried(p, t)) {
          defects := defects + [EdgeRefused(p, t)];
        }
      }
      assert tasks[..|tasks|] == tasks;
    }

    method CheckInputVar(t: Task) returns (defects: seq<Defect>)
      requires Valid() && t in tasks && t.id in reachable
      ensures forall d :: d in defects <==> d.MissingInputVar? && d.task == t && IsDefect(table, tasks, entry, Known(), d)
    {
      assert Avail(t.id, t.inputVar) in Known() <==> t.inputVar in avail[t.id];
      if t.inputVar == "" || t.inputVar == "input" || t.inputVar in avail[t.id] {
        defects := [];
      } else {
        defects := [MissingInputVar(t)];
      }
    }

    method CheckInputTypes(t: Task) returns (defects: seq<Defect>)
      requires Valid() && t in tasks && t.id in reachable
      ensures forall d :: d in defects <==> !d.MissingInputVar? && d.task == t && IsDefect(table, tasks, entry, Known(), d)
    {
      var sig := table(t.handler);
      var accepts := AcceptSet(sig);
      defects := [];
      if !Blank(t.promptTemplate) {
        if sig.inputs != {} && String !in accepts { defects := [TemplateRefused(t)]; }
        return;
      }
      if t.inputVar != "" {
        if Refused(sig, GetVar(t.inputVar)) { defects := [InputVarRefused(t)]; }
        return;
      }
      if sig.inputs == {} { return; }
      defects := CheckEdges(t);
      if t.id == tasks[0].id && Any !in entry && entry !! accepts { defects := [EntryRefused(t)] + defects; }
    }

    /** Reports exactly the defects the facts amount to. */
    method Check() returns (defects: seq<Defect>)
      requires Valid()
      ensures forall d :: d in defects <==> IsDefect(table, tasks, entry, Known(), d)
    {
      defects := [];
      for i := 0 to |tasks|
        invariant forall d :: d in defects <==> d.task in tasks[..i] && IsDefect(table, tasks, entry, Known(), d)
      {
        if tasks[i].id in reachable {
          var a := CheckInputVar(tasks[i]);
          var b := CheckInputTypes(tasks[i]);
          defects := defects + a + b;
        }
      }
      assert tasks[..|tasks|] == tasks;
    }
  }

  /** The structural checks: non-empty, distinct and proper IDs, targets that exist. */
  method ValidateChain(tasks: seq<Task>) returns (ok: bool)
    ensures ok <==> ValidChain(tasks)
  {
    if |tasks| == 0 { return false; }
    var ids: set<string> := {};
    for i := 0 to |tasks|
      invariant ids == set j | 0 <= j < i :: tasks[j].id
      invariant forall j, k :: 0 <= j < k < i ==> tasks[j].id != tasks[k].id
      invariant forall j :: 0 <= j < i ==> tasks[j].id != "" && tasks[j].id != TERM_END
    {
      var id := tasks[i].id;
      if id == "" || id == TERM_END {
        assert tasks[i] in tasks;
        return false;
      }
      if id in ids { return false; }
      ids := ids + {id};
    }
    assert ids == Ids(tasks);
    for i := 0 to |tasks|
      invariant forall j :: 0 <= j < i ==> TargetsKnown(tasks[j], ids)
    {
      ok := CheckTargets(tasks[i], ids);
      if !ok {
        assert tasks[i] in tasks;
        return;
      }
    }
    ok := true;
  }

  predicate TargetsKnown(t: Task, ids: set<string>) {
    && (t.onFailure == "" || t.onFailure in ids)
    && forall g :: g in t.gotos && g != "" && g != TERM_END ==> g in ids
  }

  method CheckTargets(t: Task, ids: set<string>) returns (ok: bool)
    ensures ok <==> TargetsKnown(t, ids)
  {
    if t.onFailure != "" && t.onFailure !in ids { return false; }
    for i := 0 to |t.gotos|
      invariant forall j :: 0 <= j < i && t.gotos[j] != "" && t.gotos[j] != TERM_END ==> t.gotos[j] in ids
    {
      var g := t.gotos[i];
      if g != "" && g != TERM_END && g !in ids { return false; }
    }
    ok := true;
  }

  datatype Verdict = Malformed | Linted(defects: seq<Defect>)

  /** The types the caller announces; none announced means any. */
  function EntrySet(entryTypes: seq<DataType>): DtSet {
    if entryTypes == [] then {Any} else set d | d in entryTypes
  }

  /** Refuses a malformed chain; of any other it reports exactly the defects of the least
      closed set of facts. */
  method LintChain(table: Table, tasks: seq<Task>, entryTypes: seq<DataType>) returns (v: Verdict)
    ensures v.Malformed? <==> !ValidChain(tasks)
    ensures v.Linted? ==> exists F: Facts :: Least(table, tasks, EntrySet(entryTypes), F)
                            && forall d :: d in v.defects <==> IsDefect(table, tasks, EntrySet(entryTypes), F, d)
  {
    var ok := ValidateChain(tasks);
    if !ok { return Malformed; }
    var entry: DtSet := {Any};
    if |entryTypes| > 0 {
      entry := {};
      for i := 0 to |entryTypes|
        invariant entry == set d | d in entryTypes[..i]
      {
        entry := entry + {entryTypes[i]};
      }
      assert entryTypes[..|entryTypes|] == entryTypes;
    }
    var l := new Linter(table, tasks, entry);
    l.Propagate();
    var defects := l.Check();
    ghost var F := l.Known();
    assert Least(table, tasks, EntrySet(entryTypes), F);
    v := Linted(defects);
  }

  /** The report does not depend on the order of the tasks behind the entry task. */
  lemma DefectsIgnoreOrder(table: Table, tasks: seq<Task>, tasks': seq<Task>, entry: DtSet, F: Facts, G: Facts, d: Defect)
    requires |tasks| > 0 && |tasks'| > 0 && tasks[0] == tasks'[0] && multiset(tasks) == multiset(tasks')
    requires Least(table, tasks, entry, F) && Least(table, tasks', entry, G)
    ensures IsDefect(table, tasks, entry, F, d) <==> IsDefect(table, tasks', entry, G, d)
  {
    LeastIgnoresOrder(table, tasks, tasks', entry, F, G);
    SameMembers(tasks, tasks');
  }

  function FailureNames(t: Task): set<string> { {t.id, PREVIOUS, LAST_ERROR, ErrorVar(t)} }

  /** `f` is among what the edges of `t` bring. */
  ghost predicate OnEdges(t: Task, sOut: DtSet, fOut: DtSet, here: set<string>, f: Fact) {
    || (sOut != {} && OnSuccess(t, sOut, here + {t.id, PREVIOUS}, f))
    || (t.onFailure != "" && OnEdge(t.onFailure, fOut, here + FailureNames(t), f))
  }

  /** A visit derives the variables left behind and what travels on the edges, nothing else. */
  lemma DerivesParts(table: Table, F: Facts, t: Task, here: set<string>, f: Fact)
    requires forall n :: n in here <==> Avail(t.id, n) in F
    ensures var sOut, fOut := SuccessOut(table, F, t), FailureOut(table, F, t);
            Derives(table, F, t, f) <==> LeftBehind(t, sOut, fOut, f) || OnEdges(t, sOut, fOut, here, f)
  {
    match f
    case Reach(_) =>
    case InType(_, _) =>
    case VarType(_, _) =>
    case Avail(_, _) =>
  }

  /** The distinct tasks `t`'s branches lead to, in branch order. */
  method SuccessTargets(t: Task) returns (targets: seq<string>)
    ensures forall g :: g in targets <==> SuccessTarget(t, g)
    ensures forall i, j :: 0 <= i < j < |targets| ==> targets[i] != targets[j]
  {
    targets := [];
    for i := 0 to |t.gotos|
      invariant forall g :: g in targets <==> g in t.gotos[..i] && g != "" && g != TERM_END
      invariant forall i, j :: 0 <= i < j < |targets| ==> targets[i] != targets[j]
    {
      var g := t.gotos[i];
      if g != "" && g != TERM_END && g !in targets {
        targets := targets + [g];
      }
    }
  }

  /** `f` is among the variable types a visit of `t` leaves behind. */
  ghost predicate LeftBehind(t: Task, sOut: DtSet, fOut: DtSet, f: Fact) {
    && f.VarType?
    && (|| ((f.name == t.id || f.name == PREVIOUS) && f.ty in sOut)
        || (t.onFailure != "" && (f.name == t.id || f.name == PREVIOUS) && f.ty in fOut)
        || (t.onFailure != "" && (f.name == LAST_ERROR || f.name == ErrorVar(t)) && f.ty == String))
  }

  /** `f` is among what edges to `targets` bring. */
  ghost predicate OnTargets(targets: seq<string>, s: DtSet, names: set<string>, f: Fact) {
    !f.VarType? && f.id in targets && OnEdge(f.id, s, names, f)
  }

  lemma OneMoreTarget(targets: seq<string>, i: nat, s: DtSet, names: set<string>)
    requires i < |targets|
    ensures forall f :: OnTargets(targets[..i + 1], s, names, f) <==>
                        OnTargets(targets[..i], s, names, f) || OnEdge(targets[i], s, names, f)
  {
    assert targets[..i + 1] == targets[..i] + [targets[i]];
  }

  /** `f` is among what the success edges of `t` bring to their targets. */
  ghost predicate OnSuccess(t: Task, s: DtSet, names: set<string>, f: Fact) {
    !f.VarType? && SuccessTarget(t, f.id) && OnEdge(f.id, s, names, f)
  }

  /** `f` is among what an edge into `g` with types `s` and variables `names` brings. */
  ghost predicate OnEdge(g: string, s: DtSet, names: set<string>, f: Fact) {
    match f
    case Reach(h) => h == g
    case InType(h, d) => h == g && d in s
    case VarType(_, _) => false
    case Avail(h, n) => h == g && n in names
  }
}
