/** Task chains and the dataflow rules the load-time linter applies to them.

    What the linter knows is a set of facts; the rules say which facts a visited
    task adds. Everything here is a plain value, so that the linter (`ChainLinter`)
    and the executor's runs (`ChainRuns`) are both measured against it. */
module ChainRules {
  import opened Text

  datatype DataType = Any | String | Int | JSON | ChatHistory | Nil

  type DtSet = set<DataType>

  /** How a handler's success type follows from its input; `Unlisted` is a mode
      the linter's switch does not name. */
  datatype OutputMode = Fixed | Passthrough | Dynamic | NoOutput | Unlisted

  /** `inputs` empty means every type is accepted. */
  datatype Signature = Signature(inputs: DtSet, mode: OutputMode, output: DataType)

  datatype Task = Task(id: string, handler: string, promptTemplate: string, outputTemplate: string,
                       inputVar: string, gotos: seq<string>, onFailure: string)

  /** The handler table, an arbitrary parameter here. */
  type Table = string -> Signature

  const TERM_END := "end"
  const PREVIOUS := "previous_output"
  const LAST_ERROR := "last_error"

  function Ids(tasks: seq<Task>): set<string> {
    set t | t in tasks :: t.id
  }

  /** What `validateChain` has established before the linter runs. */
  ghost predicate ValidChain(tasks: seq<Task>) {
    && |tasks| > 0
    && (forall i, j :: 0 <= i < j < |tasks| ==> tasks[i].id != tasks[j].id)
    && (forall t :: t in tasks ==>
          && t.id != "" && t.id != TERM_END
          && (t.onFailure == "" || t.onFailure in Ids(tasks))
          && (forall g :: g in t.gotos && g != "" && g != TERM_END ==> g in Ids(tasks)))
  }

  /** One thing the linter can know. */
  datatype Fact =
    | Reach(id: string)
    | InType(id: string, ty: DataType)
    | VarType(name: string, ty: DataType)
    | Avail(id: string, name: string)

  type Facts = iset<Fact>

  ghost function InSet(F: Facts, id: string): DtSet { set d: DataType | InType(id, d) in F }

  ghost function VarSet(F: Facts, name: string): DtSet { set d: DataType | VarType(name, d) in F }

  ghost function EffectiveInput(F: Facts, t: Task): DtSet {
    if !Blank(t.promptTemplate) then {String}
    else if t.inputVar != "" then VarSet(F, t.inputVar)
    else InSet(F, t.id)
  }

  /** The success types of a task whose effective input has the types `eff`. */
  function SuccessTypes(sig: Signature, t: Task, eff: DtSet): DtSet {
    match sig.mode
    case Fixed => {sig.output}
    case Passthrough => eff
    case Dynamic => if !Blank(t.outputTemplate) then {String} else {Any}
    case NoOutput => {}
    case Unlisted => {Any}
  }

  ghost function SuccessOut(table: Table, F: Facts, t: Task): DtSet {
    SuccessTypes(table(t.handler), t, EffectiveInput(F, t))
  }

  ghost function FailureOut(table: Table, F: Facts, t: Task): DtSet {
    EffectiveInput(F, t) + SuccessOut(table, F, t)
  }

  predicate SuccessTarget(t: Task, g: string) {
    g in t.gotos && g != "" && g != TERM_END
  }

  predicate FailureTarget(t: Task, g: string) {
    t.onFailure != "" && g == t.onFailure
  }

  function ErrorVar(t: Task): string { t.id + "_error" }

  /** One visit of the reachable task `t`, knowing `F`, adds `f`. */
  ghost predicate Derives(table: Table, F: Facts, t: Task, f: Fact) {
    match f
    case Reach(g) =>
      (SuccessTarget(t, g) && SuccessOut(table, F, t) != {}) || FailureTarget(t, g)
    case InType(g, d) =>
      (SuccessTarget(t, g) && d in SuccessOut(table, F, t)) || (FailureTarget(t, g) && d in FailureOut(table, F, t))
    case VarType(n, d) =>
      || ((n == t.id || n == PREVIOUS) && d in SuccessOut(table, F, t))
      || (t.onFailure != "" && (n == t.id || n == PREVIOUS) && d in FailureOut(table, F, t))
      || (t.onFailure != "" && (n == LAST_ERROR || n == ErrorVar(t)) && d == String)
    case Avail(g, n) =>
      || (SuccessTarget(t, g) && SuccessOut(table, F, t) != {} && (Avail(t.id, n) in F || n == t.id || n == PREVIOUS))
      || (FailureTarget(t, g) &&
          (Avail(t.id, n) in F || n == t.id || n == PREVIOUS || n == LAST_ERROR || n == ErrorVar(t)))
  }

  ghost predicate ClosedAt(table: Table, F: Facts, t: Task) {
    Reach(t.id) in F ==> forall f :: Derives(table, F, t, f) ==> f in F
  }

  /** What the linter knows before the first visit. */
  ghost function Initial(tasks: seq<Task>, entry: DtSet): Facts
    requires |tasks| > 0
  {
    var e := tasks[0].id;
    iset{Reach(e), Avail(e, "input")}
      + (iset d: DataType | d in entry :: InType(e, d))
      + (iset d: DataType | d in entry :: VarType("input", d))
  }

  ghost predicate Closed(table: Table, tasks: seq<Task>, entry: DtSet, F: Facts)
    requires |tasks| > 0
  {
    Initial(tasks, entry) <= F && forall t :: t in tasks ==> ClosedAt(table, F, t)
  }

  /** The least closed set of facts: what a chain's analysis means. */
  ghost predicate Least(table: Table, tasks: seq<Task>, entry: DtSet, F: Facts)
    requires |tasks| > 0
  {
    Closed(table, tasks, entry, F) && forall C: Facts :: Closed(table, tasks, entry, C) ==> F <= C
  }

  /** More facts never derive less: the rules are monotone. */
  lemma DerivesMonotone(table: Table, F: Facts, G: Facts, t: Task, f: Fact)
    requires F <= G
    requires Derives(table, F, t, f)
    ensures Derives(table, G, t, f)
  {
    assert VarSet(F, t.inputVar) <= VarSet(G, t.inputVar);
    assert InSet(F, t.id) <= InSet(G, t.id);
    assert EffectiveInput(F, t) <= EffectiveInput(G, t);
    assert SuccessOut(table, F, t) <= SuccessOut(table, G, t);
  }

  // -- The finite universe ---------------------------------------------------

  const ALL_TYPES: DtSet := {Any, String, Int, JSON, ChatHistory, Nil}

  function Names(tasks: seq<Task>): set<string> {
    {"input", PREVIOUS, LAST_ERROR} + Ids(tasks) + (set t | t in tasks :: ErrorVar(t))
  }

  /** Every fact a chain can ever give rise to; finite, which is what stops the loop. */
  ghost function Universe(tasks: seq<Task>): set<Fact> {
    (set id | id in Ids(tasks) :: Reach(id))
      + (set id, d | id in Ids(tasks) && d in ALL_TYPES :: InType(id, d))
      + (set n, d | n in Names(tasks) && d in ALL_TYPES :: VarType(n, d))
      + (set id, n | id in Ids(tasks) && n in Names(tasks) :: Avail(id, n))
  }

  ghost function UniverseFacts(tasks: seq<Task>): Facts { iset f | f in Universe(tasks) }

  lemma InAllTypes(d: DataType)
    ensures d in ALL_TYPES
  {}

  lemma UniverseMember(tasks: seq<Task>, f: Fact)
    ensures f in Universe(tasks) <==>
            match f
            case Reach(id) => id in Ids(tasks)
            case InType(id, _) => id in Ids(tasks)
            case VarType(n, _) => n in Names(tasks)
            case Avail(id, n) => id in Ids(tasks) && n in Names(tasks)
  {
    match f
    case Reach(_) =>
    case InType(id, d) => InAllTypes(d);
    case VarType(n, d) => InAllTypes(d);
    case Avail(id, n) =>
  }

  lemma UniverseClosed(table: Table, tasks: seq<Task>, entry: DtSet)
    requires ValidChain(tasks)
    ensures Closed(table, tasks, entry, UniverseFacts(tasks))
  {
    assert tasks[0] in tasks;
    forall f | f in Initial(tasks, entry) ensures f in UniverseFacts(tasks) {
      UniverseMember(tasks, f);
    }
    forall t | t in tasks ensures ClosedAt(table, UniverseFacts(tasks), t) {
      UniverseClosedAt(table, tasks, t);
    }
  }

  lemma UniverseClosedAt(table: Table, tasks: seq<Task>, t: Task)
    requires ValidChain(tasks) && t in tasks
    ensures ClosedAt(table, UniverseFacts(tasks), t)
  {
    var U := UniverseFacts(tasks);
    forall f | Derives(table, U, t, f) ensures f in U {
      UniverseMember(tasks, f);
      match f
      case Avail(_, n) => UniverseMember(tasks, Avail(t.id, n));
      case _ =>
    }
  }

  // -- The least closed set exists, whether or not anything computes it -------

  ghost predicate InEveryClosed(table: Table, tasks: seq<Task>, entry: DtSet, f: Fact)
    requires |tasks| > 0
  {
    forall C: Facts :: Closed(table, tasks, entry, C) ==> f in C
  }

  ghost function Intersection(table: Table, tasks: seq<Task>, entry: DtSet): Facts
    requires |tasks| > 0
  {
    iset f | InEveryClosed(table, tasks, entry, f)
  }

  lemma IntersectionIsLeast(table: Table, tasks: seq<Task>, entry: DtSet)
    requires |tasks| > 0
    ensures Least(table, tasks, entry, Intersection(table, tasks, entry))
  {
    var F := Intersection(table, tasks, entry);
    forall t, f | t in tasks && Reach(t.id) in F && Derives(table, F, t, f) ensures f in F {
      forall C: Facts | Closed(table, tasks, entry, C) ensures f in C {
        assert ClosedAt(table, C, t);
        DerivesMonotone(table, F, C, t, f);
      }
    }
  }

  // -- Order does not matter -------------------------------------------------

  lemma LeastIsUnique(table: Table, tasks: seq<Task>, entry: DtSet, F: Facts, G: Facts)
    requires |tasks| > 0
    requires Least(table, tasks, entry, F) && Least(table, tasks, entry, G)
    ensures F == G
  {
    assert F <= G && G <= F;
  }

  /** Permuting the tasks behind the entry changes nothing the linter concludes. */
  lemma LeastIgnoresOrder(table: Table, tasks: seq<Task>, tasks': seq<Task>, entry: DtSet, F: Facts, G: Facts)
    requires |tasks| > 0 && |tasks'| > 0 && tasks[0] == tasks'[0]
    requires multiset(tasks) == multiset(tasks')
    requires Least(table, tasks, entry, F) && Least(table, tasks', entry, G)
    ensures F == G
  {
    SameMembers(tasks, tasks');
    assert forall C :: Closed(table, tasks, entry, C) <==> Closed(table, tasks', entry, C);
    assert F <= G && G <= F;
  }

  lemma SameMembers<T>(a: seq<T>, b: seq<T>)
    requires multiset(a) == multiset(b)
    ensures forall x :: x in a <==> x in b
  {
    forall x ensures x in a <==> x in b {
      assert x in multiset(a) <==> x in multiset(b);
    }
  }
}
