/** Runs of a chain, type by type, as the executor performs them, and what the
    linter's facts promise about every one of them. */
module ChainRuns {
  import opened ChainRules
  import opened Text
  import opened ChainLinter

  /** The executor between two tasks: where it is, the type it carries, and the
      type of every variable it holds. */
  datatype Config = Config(task: string, ty: DataType, vars: map<string, DataType>)

  /** A type the set `s` admits; `Any` stands for every type. */
  predicate Covers(s: DtSet, d: DataType) { d in s || Any in s }

  /** What macro expansion makes of a task's prompt and output templates. */
  datatype Texts = Texts(prompt: string, output: string)

  /** The macros' values in one execution: template variables, tools, dates. */
  type Expansion = Task -> Texts

  /** Blank text holds no macro, so it expands to itself; any other text may expand to anything.
      The later expansion of edge counts writes digits, and cannot empty a text or fill an empty one. */
  predicate Expands(t: Task, e: Texts) {
    && (Blank(t.promptTemplate) ==> e.prompt == t.promptTemplate)
    && (Blank(t.outputTemplate) ==> e.output == t.outputTemplate)
  }

  /** The input type the executor gives to `t`; it has none when the input
      variable is missing, and the run then ends. */
  predicate TaskInput(t: Task, e: Texts, c: Config, d: DataType) {
    && (t.inputVar != "" ==> t.inputVar in c.vars)
    && d == (if e.prompt != "" then String else if t.inputVar != "" then c.vars[t.inputVar] else c.ty)
  }

  /** A handler with this signature, fed `i`, may succeed with `o`. */
  predicate MaySucceed(sig: Signature, e: Texts, i: DataType, o: DataType) {
    match sig.mode
    case Fixed => Covers({sig.output}, o)
    case Passthrough => o == i
    case Dynamic => e.output == "" || o == String
    case NoOutput => false
    case Unlisted => true
  }

  /** After a failure the executor keeps the input, infers a type for an untyped
      one, or keeps a typed output the handler produced. */
  predicate MayFailWith(sig: Signature, e: Texts, i: DataType, o: DataType) {
    o == i || i == Any || MaySucceed(sig, e, i, o)
  }

  ghost predicate SuccessStep(table: Table, x: Expansion, t: Task, c: Config, i: DataType, c': Config) {
    && TaskInput(t, x(t), c, i)
    && MaySucceed(table(t.handler), x(t), i, c'.ty)
    && SuccessTarget(t, c'.task)
    && c'.vars == c.vars[PREVIOUS := c'.ty][t.id := c'.ty]
  }

  ghost predicate FailureStep(table: Table, x: Expansion, t: Task, c: Config, i: DataType, c': Config) {
    && TaskInput(t, x(t), c, i)
    && MayFailWith(table(t.handler), x(t), i, c'.ty)
    && FailureTarget(t, c'.task)
    && c'.vars == c.vars[t.id := c'.ty][PREVIOUS := c'.ty][LAST_ERROR := String][ErrorVar(t) := String]
  }

  ghost predicate Step(table: Table, x: Expansion, t: Task, c: Config, c': Config) {
    exists i :: SuccessStep(table, x, t, c, i, c') || FailureStep(table, x, t, c, i, c')
  }

  ghost predicate Start(tasks: seq<Task>, entry: DtSet, c: Config)
    requires |tasks| > 0
  {
    c.task == tasks[0].id && Covers(entry, c.ty) && c.vars == map["input" := c.ty]
  }

  ghost predicate Move(table: Table, x: Expansion, tasks: seq<Task>, c: Config, c': Config) {
    exists t :: t in tasks && t.id == c.task && Step(table, x, t, c, c')
  }

  /** The configurations of one execution so far, oldest first. */
  ghost predicate Run(table: Table, x: Expansion, tasks: seq<Task>, entry: DtSet, run: seq<Config>)
    requires |tasks| > 0
  {
    var n := |run|;
    && n > 0
    && if n == 1 then Start(tasks, entry, run[0])
       else Run(table, x, tasks, entry, run[..n - 1]) && Move(table, x, tasks, run[n - 2], run[n - 1])
  }

  /** The linter asks for a template that is not blank before expansion, the executor for one
      that is not empty after it. They agree on the prompt when they answer alike, or when the
      linter expects a string all the same. */
  predicate PromptAgrees(t: Task, e: Texts) {
    (Blank(t.promptTemplate) <==> e.prompt == "") || (e.prompt != "" && StringExpected(t))
  }

  /** The input variable is one that the task's own failure sets to a string. */
  predicate StringExpected(t: Task) { t.onFailure != "" && (t.inputVar == LAST_ERROR || t.inputVar == ErrorVar(t)) }

  /** On the output only a text the linter counts on matters. */
  predicate OutputAgrees(t: Task, e: Texts) { !Blank(t.outputTemplate) ==> e.output != "" }

  predicate Agree(t: Task, e: Texts) { PromptAgrees(t, e) && OutputAgrees(t, e) }

  ghost predicate AllAgree(tasks: seq<Task>, x: Expansion) { forall t :: t in tasks ==> Agree(t, x(t)) }

  /** `F` accounts for the configuration `c`. */
  ghost predicate Accounts(F: Facts, c: Config) {
    && Reach(c.task) in F
    && Covers(InSet(F, c.task), c.ty)
    && forall n :: n in c.vars ==> Avail(c.task, n) in F && Covers(VarSet(F, n), c.vars[n])
  }

  lemma InputAccounted(table: Table, F: Facts, t: Task, e: Texts, c: Config, i: DataType)
    requires ClosedAt(table, F, t)
    requires Accounts(F, c) && c.task == t.id && PromptAgrees(t, e) && TaskInput(t, e, c, i)
    ensures Covers(EffectiveInput(F, t), i)
  {
    if StringExpected(t) {
      assert Derives(table, F, t, VarType(LAST_ERROR, String)) && Derives(table, F, t, VarType(ErrorVar(t), String));
    }
  }

  lemma OutputAccounted(table: Table, F: Facts, t: Task, e: Texts, i: DataType, o: DataType)
    requires OutputAgrees(t, e) && Covers(EffectiveInput(F, t), i) && MaySucceed(table(t.handler), e, i, o)
    ensures Covers(SuccessOut(table, F, t), o)
  {}

  /** Stepping to a target over which `out` travels, `out` covering the carried type. */
  lemma Arrives(table: Table, F: Facts, t: Task, c: Config, c': Config, out: DtSet)
    requires ClosedAt(table, F, t) && Accounts(F, c) && c.task == t.id && Covers(out, c'.ty)
    requires || (SuccessTarget(t, c'.task) && out == SuccessOut(table, F, t))
             || (FailureTarget(t, c'.task) && out == FailureOut(table, F, t))
    ensures Reach(c'.task) in F && Covers(InSet(F, c'.task), c'.ty)
    ensures Covers(VarSet(F, t.id), c'.ty) && Covers(VarSet(F, PREVIOUS), c'.ty)
    ensures forall n :: n in c.vars || n == t.id || n == PREVIOUS ==> Avail(c'.task, n) in F
    ensures FailureTarget(t, c'.task) && out == FailureOut(table, F, t) ==>
              && Avail(c'.task, LAST_ERROR) in F && Avail(c'.task, ErrorVar(t)) in F
              && String in VarSet(F, LAST_ERROR) && String in VarSet(F, ErrorVar(t))
  {
    var d := if c'.ty in out then c'.ty else Any;
    assert Derives(table, F, t, InType(c'.task, d));
    assert Derives(table, F, t, VarType(t.id, d)) && Derives(table, F, t, VarType(PREVIOUS, d));
    assert Derives(table, F, t, Reach(c'.task));
    forall n | n in c.vars || n == t.id || n == PREVIOUS ensures Avail(c'.task, n) in F {
      assert Derives(table, F, t, Avail(c'.task, n));
    }
    if FailureTarget(t, c'.task) && out == FailureOut(table, F, t) {
      assert Derives(table, F, t, Avail(c'.task, LAST_ERROR)) && Derives(table, F, t, Avail(c'.task, ErrorVar(t)));
      assert Derives(table, F, t, VarType(LAST_ERROR, String)) && Derives(table, F, t, VarType(ErrorVar(t), String));
    }
  }

  lemma StepAccounted(table: Table, x: Expansion, F: Facts, t: Task, c: Config, c': Config) returns (out: DtSet)
    requires ClosedAt(table, F, t) && Agree(t, x(t))
    requires Accounts(F, c) && c.task == t.id && Step(table, x, t, c, c')
    ensures Accounts(F, c') && Covers(out, c'.ty)
    ensures || (SuccessTarget(t, c'.task) && out == SuccessOut(table, F, t))
            || (FailureTarget(t, c'.task) && out == FailureOut(table, F, t))
  {
    var i :| SuccessStep(table, x, t, c, i, c') || FailureStep(table, x, t, c, i, c');
    InputAccounted(table, F, t, x(t), c, i);
    if MaySucceed(table(t.handler), x(t), i, c'.ty) { OutputAccounted(table, F, t, x(t), i, c'.ty); }
    out := if SuccessStep(table, x, t, c, i, c') then SuccessOut(table, F, t) else FailureOut(table, F, t);
    Arrives(table, F, t, c, c', out);
  }

  lemma StartAccounted(tasks: seq<Task>, entry: DtSet, F: Facts, c: Config)
    requires |tasks| > 0 && Initial(tasks, entry) <= F && Start(tasks, entry, c)
    ensures Accounts(F, c)
  {
    var e := tasks[0].id;
    var d := if c.ty in entry then c.ty else Any;
    assert InType(e, d) in Initial(tasks, entry) && VarType("input", d) in Initial(tasks, entry);
  }

  /** Soundness: closed facts account for the end of every run, whatever path it took. */
  lemma {:induction false} RunAccounted(table: Table, x: Expansion, tasks: seq<Task>, entry: DtSet, F: Facts, run: seq<Config>)
    requires |tasks| > 0 && Closed(table, tasks, entry, F)
    requires AllAgree(tasks, x)
    requires Run(table, x, tasks, entry, run)
    ensures Accounts(F, run[|run| - 1])
    decreases |run|
  {
    var n := |run|;
    if n == 1 {
      StartAccounted(tasks, entry, F, run[0]);
    } else {
      RunAccounted(table, x, tasks, entry, F, run[..n - 1]);
      var t :| t in tasks && t.id == run[n - 2].task && Step(table, x, t, run[n - 2], run[n - 1]);
      var _ := StepAccounted(table, x, F, t, run[n - 2], run[n - 1]);
    }
  }

  // -- No false alarms -------------------------------------------------------

  /** The runtime's own test of an input type. */
  predicate AcceptsInput(sig: Signature, d: DataType) { sig.inputs == {} || d in sig.inputs }

  /** The runs a defect speaks about: those that end at its task, coming the way it names. */
  ghost predicate Concerns(d: Defect, run: seq<Config>) {
    && |run| > 0 && run[|run| - 1].task == d.task.id
    && match d
       case EntryRefused(_) => |run| == 1
       case EdgeRefused(p, _) => |run| > 1 && run[|run| - 2].task == p.id
       case _ => true
  }

  lemma NothingAccepted(sig: Signature, s: DtSet, d: DataType)
    requires Refused(sig, s) && Covers(s, d)
    ensures !AcceptsInput(sig, d)
  {}

  /** A report of the linter, together with a run that reaches the reported task. */
  datatype Alarm = Alarm(table: Table, x: Expansion, tasks: seq<Task>, entry: DtSet, F: Facts, d: Defect,
                         run: seq<Config>, input: DataType)

  /** The linter reports the defect, and the run, coming the way the report says, reaches the
      task with the input. */
  ghost predicate Raised(a: Alarm) {
    && ValidChain(a.tasks)
    && Least(a.table, a.tasks, a.entry, a.F) && IsDefect(a.table, a.tasks, a.entry, a.F, a.d)
    && Run(a.table, a.x, a.tasks, a.entry, a.run) && Concerns(a.d, a.run)
    && TaskInput(a.d.task, a.x(a.d.task), a.run[|a.run| - 1], a.input)
  }

  /** Yet the task's handler accepts the input. */
  ghost predicate FalseAlarm(a: Alarm) { Raised(a) && AcceptsInput(a.table(a.d.task.handler), a.input) }

  /** Where all templates agree a reported defect is real, on every run. */
  lemma NoFalseAlarm(a: Alarm)
    requires |a.tasks| > 0 && AllAgree(a.tasks, a.x)
    ensures !FalseAlarm(a)
  {
    if Raised(a) { RunRefused(a); }
  }

  lemma RunRefused(a: Alarm)
    requires |a.tasks| > 0 && AllAgree(a.tasks, a.x) && Raised(a)
    ensures !AcceptsInput(a.table(a.d.task.handler), a.input)
  {
    var n, d := |a.run|, a.d;
    RunAccounted(a.table, a.x, a.tasks, a.entry, a.F, a.run);
    InputAccounted(a.table, a.F, d.task, a.x(d.task), a.run[n - 1], a.input);
    match d
    case MissingInputVar(_) =>
    case TemplateRefused(_) =>
    case InputVarRefused(t) => NothingAccepted(a.table(t.handler), VarSet(a.F, t.inputVar), a.input);
    case EntryRefused(_) =>
    case EdgeRefused(_, _) => EdgeReal(a);
  }

  lemma EdgeReal(a: Alarm)
    requires |a.tasks| > 0 && AllAgree(a.tasks, a.x) && Raised(a) && a.d.EdgeRefused?
    ensures !AcceptsInput(a.table(a.d.task.handler), a.input)
  {
    var n, p, t := |a.run|, a.d.from, a.d.task;
    var before := a.run[..n - 1];
    RunAccounted(a.table, a.x, a.tasks, a.entry, a.F, before);
    var q :| q in a.tasks && q.id == a.run[n - 2].task && Step(a.table, a.x, q, a.run[n - 2], a.run[n - 1]);
    SameTask(a.tasks, q, p);
    var out := StepAccounted(a.table, a.x, a.F, q, a.run[n - 2], a.run[n - 1]);
    assert out <= CarriedSet(a.table, a.F, p, t);
    NothingAccepted(a.table(t.handler), CarriedSet(a.table, a.F, p, t), a.input);
  }

  lemma SameTask(tasks: seq<Task>, a: Task, b: Task)
    requires ValidChain(tasks) && a in tasks && b in tasks && a.id == b.id
    ensures a == b
  {
    var i :| 0 <= i < |tasks| && tasks[i] == a;
    var j :| 0 <= j < |tasks| && tasks[j] == b;
    assert i == j;
  }

  // -- Exactly when a task's templates can fool the linter -----------------------------------------

  /** `a` is about a chain with `t`, expanded to `e`, in which every other task's templates agree. */
  ghost predicate OthersAgree(a: Alarm, t: Task, e: Texts) {
    && t in a.tasks && a.x(t) == e
    && forall u :: u in a.tasks ==> Expands(u, a.x(u)) && (u == t || Agree(u, a.x(u)))
  }

  /** A task that can stand in a valid chain and whose input variable, if it names one, can be
      the output of another task. */
  predicate Ordinary(t: Task) {
    && t.id != "" && t.id != TERM_END && t.onFailure != TERM_END
    && t.inputVar != t.id && t.inputVar != TERM_END
  }

  /** A successor of `t` that shows the type of its output. */
  predicate Outlet(t: Task, g: string) { SuccessTarget(t, g) && g != t.id && g != t.inputVar }

  function Stub(t: Task, id: string): Task { Task(id, t.handler + "s", "", "", "", [], "") }

  /** One stub for every proper ID not taken yet. */
  function Stubs(t: Task, ids: seq<string>, taken: set<string>): seq<Task> {
    if ids == [] then []
    else if ids[0] == "" || ids[0] == TERM_END || ids[0] in taken then Stubs(t, ids[1..], taken)
    else [Stub(t, ids[0])] + Stubs(t, ids[1..], taken + {ids[0]})
  }

  lemma {:induction false} StubsSpec(t: Task, ids: seq<string>, taken: set<string>)
    ensures var r := Stubs(t, ids, taken);
            && (forall u :: u in r ==> u == Stub(t, u.id) && u.id != "" && u.id != TERM_END && u.id !in taken)
            && (forall i, j :: 0 <= i < j < |r| ==> r[i].id != r[j].id)
            && (forall g :: g in ids && g != "" && g != TERM_END && g !in taken ==> Stub(t, g) in r)
    decreases |ids|
  {
    if ids != [] {
      var taken' := if ids[0] == "" || ids[0] == TERM_END then taken else taken + {ids[0]};
      assert ids[0] in taken ==> taken' == taken;
      StubsSpec(t, ids[1..], taken');
      assert forall g :: g in ids ==> g == ids[0] || g in ids[1..];
    }
  }

  /** Sets the input variable of `t`, if it names one, and goes there. */
  function Feeder(t: Task): Task { Task(t.inputVar, t.handler + "p", "", "", "", [t.id], "") }

  /** The smallest chain around `t`: its feeder, itself, and stubs for its targets. */
  function Around(t: Task): seq<Task> {
    var targets := t.gotos + [t.onFailure];
    if t.inputVar == "" then [t] + Stubs(t, targets, {t.id})
    else [Feeder(t), t] + Stubs(t, targets, {t.id, t.inputVar})
  }

  lemma AroundIsValid(t: Task)
    requires Ordinary(t)
    ensures ValidChain(Around(t)) && t in Around(t)
    ensures forall u :: u in Around(t) ==> u == t || u == Stub(t, u.id) || (t.inputVar != "" && u == Feeder(t))
    ensures forall g :: Outlet(t, g) ==> Stub(t, g) in Around(t)
  {
    AroundMembers(t);
    AroundDistinct(t);
    forall g | (g in t.gotos || g == t.onFailure) && g != "" && g != TERM_END ensures g in Ids(Around(t)) {
      AroundTarget(t, g);
    }
    assert Feeder(t).gotos == [t.id] && t.id in Ids(Around(t));
  }

  function Taken(t: Task): set<string> { if t.inputVar == "" then {t.id} else {t.id, t.inputVar} }

  /** The chain, and what its stubs are like. */
  lemma AroundParts(t: Task)
    ensures var stubs := Stubs(t, t.gotos + [t.onFailure], Taken(t));
            Around(t) == (if t.inputVar == "" then [t] else [Feeder(t), t]) + stubs
  {}

  lemma AroundMembers(t: Task)
    ensures t in Around(t) && (t.inputVar != "" ==> Feeder(t) in Around(t))
    ensures forall u :: u in Around(t) ==>
              || u == t || (t.inputVar != "" && u == Feeder(t))
              || (u == Stub(t, u.id) && u.id != "" && u.id != TERM_END)
    ensures forall g :: Outlet(t, g) ==> Stub(t, g) in Around(t)
  {
    AroundParts(t);
    StubsSpec(t, t.gotos + [t.onFailure], Taken(t));
  }

  lemma AroundTarget(t: Task, g: string)
    requires (g in t.gotos || g == t.onFailure) && g != "" && g != TERM_END
    ensures g in Ids(Around(t))
  {
    AroundMembers(t);
    AroundParts(t);
    StubsSpec(t, t.gotos + [t.onFailure], Taken(t));
    if g == t.id {
      assert t in Around(t);
    } else if g == t.inputVar {
      assert Feeder(t) in Around(t);
    } else {
      assert g in t.gotos + [t.onFailure] && Stub(t, g) in Around(t);
    }
  }

  lemma AroundDistinct(t: Task)
    requires t.inputVar != t.id
    ensures var all := Around(t); forall i, j :: 0 <= i < j < |all| ==> all[i].id != all[j].id
  {
    AroundParts(t);
    StubsSpec(t, t.gotos + [t.onFailure], Taken(t));
    var all, stubs := Around(t), Stubs(t, t.gotos + [t.onFailure], Taken(t));
    var m := |all| - |stubs|;
    forall i, j | 0 <= i < j < |all| ensures all[i].id != all[j].id {
      if j >= m { assert all[j] == stubs[j - m] && stubs[j - m] in stubs; }
      if i >= m { assert all[i] == stubs[i - m]; }
    }
  }

  function Signatures(t: Task, own: Signature, feeder: Signature, stub: Signature): Table {
    h => if h == t.handler then own else if h == t.handler + "p" then feeder else stub
  }

  /** `t` expands to `e`, the feeder and the stubs have no templates. */
  function Expanding(t: Task, e: Texts): Expansion { u => if u == t then e else Texts("", "") }

  /** The run from the entry to `t`, carrying `ty`. */
  function Approach(t: Task, ty: DataType): seq<Config> {
    var vars := map["input" := ty];
    if t.inputVar == "" then [Config(t.id, ty, vars)]
    else [Config(t.inputVar, ty, vars), Config(t.id, ty, vars[PREVIOUS := ty][t.inputVar := ty])]
  }

  function Feeding(ty: DataType): Signature { Signature({}, Fixed, ty) }

  lemma ApproachRuns(t: Task, e: Texts, table: Table, ty: DataType)
    requires Ordinary(t) && table(t.handler + "p") == Feeding(ty)
    ensures var run := Approach(t, ty); var c := run[|run| - 1];
            && Run(table, Expanding(t, e), Around(t), {ty}, run)
            && c.task == t.id && c.ty == ty && (t.inputVar != "" ==> t.inputVar in c.vars && c.vars[t.inputVar] == ty)
  {
    var run, x := Approach(t, ty), Expanding(t, e);
    assert Start(Around(t), {ty}, run[0]);
    assert run[..1] == [run[0]];
    if t.inputVar != "" {
      var p := Feeder(t);
      assert p.promptTemplate != t.promptTemplate || p.id != t.id;
      assert SuccessStep(table, x, p, run[0], ty, run[1]);
      assert p in Around(t) && Step(table, x, p, run[0], run[1]);
    }
  }

  lemma ApproachKnown(t: Task, table: Table, ty: DataType, F: Facts)
    requires Ordinary(t) && table(t.handler + "p") == Feeding(ty) && Closed(table, Around(t), {ty}, F)
    ensures Reach(t.id) in F && (t.inputVar != "" ==> ty in VarSet(F, t.inputVar))
    ensures t.inputVar == "" ==> ty in InSet(F, t.id)
  {
    var tasks := Around(t);
    var first := tasks[0].id;
    assert Reach(first) in Initial(tasks, {ty}) && InType(first, ty) in Initial(tasks, {ty});
    if t.inputVar != "" {
      var p := Feeder(t);
      assert p in tasks && ClosedAt(table, F, p);
      assert t.id in p.gotos && SuccessOut(table, F, p) == {ty};
      assert Derives(table, F, p, Reach(t.id)) && Derives(table, F, p, VarType(t.inputVar, ty));
    }
  }

  /** The alarm over the smallest chain around `t`. */
  ghost function AlarmAround(t: Task, e: Texts, own: Signature, stub: Signature, ty: DataType, d: Defect,
                             more: seq<Config>, input: DataType): Alarm
    requires Ordinary(t)
  {
    var table := Signatures(t, own, Feeding(ty), stub);
    Alarm(table, Expanding(t, e), Around(t), {ty}, Intersection(table, Around(t), {ty}), d, Approach(t, ty) + more, input)
  }

  lemma AlarmAroundSound(t: Task, e: Texts, own: Signature, stub: Signature, ty: DataType, d: Defect,
                         more: seq<Config>, input: DataType)
    requires Ordinary(t) && Expands(t, e)
    ensures var a := AlarmAround(t, e, own, stub, ty, d, more, input);
            && OthersAgree(a, t, e) && ValidChain(a.tasks) && Least(a.table, a.tasks, a.entry, a.F)
            && a.table(t.handler) == own && a.table(t.handler + "p") == Feeding(ty) && a.table(t.handler + "s") == stub
  {
    var a := AlarmAround(t, e, own, stub, ty, d, more, input);
    AroundIsValid(t);
    IntersectionIsLeast(a.table, a.tasks, a.entry);
    assert t.handler + "p" != t.handler && t.handler + "s" != t.handler && (t.handler + "p")[|t.handler|] != (t.handler + "s")[|t.handler|];
    assert Blank("");
  }

  const SILENT := Signature({}, NoOutput, Any)

  /** A prompt that is not blank to the linter and empty to the executor. */
  lemma VanishingPromptFools(t: Task, e: Texts) returns (a: Alarm)
    requires Ordinary(t) && Expands(t, e) && !Blank(t.promptTemplate) && e.prompt == ""
    ensures OthersAgree(a, t, e) && FalseAlarm(a)
  {
    var own := Signature({Int}, NoOutput, Any);
    a := AlarmAround(t, e, own, SILENT, Int, TemplateRefused(t), [], Int);
    AlarmAroundSound(t, e, own, SILENT, Int, TemplateRefused(t), [], Int);
    ApproachRuns(t, e, a.table, Int);
    ApproachKnown(t, a.table, Int, a.F);
    assert a.run == Approach(t, Int);
  }

  /** A prompt that is blank to the linter and not empty to the executor. */
  lemma BlankPromptFools(t: Task, e: Texts) returns (a: Alarm)
    requires Ordinary(t) && Expands(t, e) && Blank(t.promptTemplate) && e.prompt != "" && !StringExpected(t)
    ensures OthersAgree(a, t, e) && FalseAlarm(a)
  {
    var own := Signature({String}, NoOutput, Any);
    var d := if t.inputVar == "" then EntryRefused(t) else InputVarRefused(t);
    a := AlarmAround(t, e, own, SILENT, Int, d, [], String);
    AlarmAroundSound(t, e, own, SILENT, Int, d, [], String);
    ApproachRuns(t, e, a.table, Int);
    ApproachKnown(t, a.table, Int, a.F);
    if t.inputVar != "" { VariableStaysInt(t, a.table, a.F); }
    assert a.run == Approach(t, Int);
  }

  /** All facts but those that give `v` another type than `Int`. */
  ghost function IntFacts(v: string): Facts { iset f: Fact | f.VarType? && f.name == v ==> f.ty == Int }

  lemma IntFactsClosed(table: Table, u: Task, v: string)
    requires u.onFailure != "" ==>
               && v != LAST_ERROR && v != ErrorVar(u)
               && (v == u.id || v == PREVIOUS ==> EffectiveInput(IntFacts(v), u) <= {Int})
    requires SuccessOut(table, IntFacts(v), u) <= {Int}
    ensures ClosedAt(table, IntFacts(v), u)
  {}

  /** The linter knows of nothing but the feeder's type in the input variable. */
  lemma VariableStaysInt(t: Task, table: Table, F: Facts)
    requires Ordinary(t) && t.inputVar != "" && Blank(t.promptTemplate) && !StringExpected(t)
    requires table(t.handler) == Signature({String}, NoOutput, Any)
    requires table(t.handler + "p") == Feeding(Int) && table(t.handler + "s") == SILENT
    requires Least(table, Around(t), {Int}, F)
    ensures VarSet(F, t.inputVar) <= {Int}
  {
    forall u | u in Around(t) ensures ClosedAt(table, IntFacts(t.inputVar), u) {
      AroundKeepsInt(t, table, u);
    }
    LeastWithin(table, Around(t), {Int}, F, IntFacts(t.inputVar));
    assert F <= IntFacts(t.inputVar);
  }

  lemma AroundKeepsInt(t: Task, table: Table, u: Task)
    requires Ordinary(t) && t.inputVar != "" && Blank(t.promptTemplate) && !StringExpected(t) && u in Around(t)
    requires table(t.handler) == Signature({String}, NoOutput, Any)
    requires table(t.handler + "p") == Feeding(Int) && table(t.handler + "s") == SILENT
    ensures ClosedAt(table, IntFacts(t.inputVar), u)
  {
    AroundIsValid(t);
    IntFactsClosed(table, u, t.inputVar);
  }

  lemma LeastWithin(table: Table, tasks: seq<Task>, entry: DtSet, F: Facts, C: Facts)
    requires |tasks| > 0 && Least(table, tasks, entry, F) && Initial(tasks, entry) <= C
    requires forall u :: u in tasks ==> ClosedAt(table, C, u)
    ensures F <= C
  {
    assert Closed(table, tasks, entry, C);
  }

  /** An output template that is not blank to the linter and empty to the executor. */
  lemma VanishingOutputFools(t: Task, e: Texts, g: string) returns (a: Alarm)
    requires Ordinary(t) && Expands(t, e) && Outlet(t, g) && !Blank(t.outputTemplate) && e.output == ""
    requires PromptAgrees(t, e)
    ensures OthersAgree(a, t, e) && FalseAlarm(a)
  {
    var own, stub := Signature({}, Dynamic, Any), Signature({Int}, NoOutput, Any);
    var c := Approach(t, String)[|Approach(t, String)| - 1];
    var c' := Config(g, Int, c.vars[PREVIOUS := Int][t.id := Int]);
    var d := EdgeRefused(t, Stub(t, g));
    a := AlarmAround(t, e, own, stub, String, d, [c'], Int);
    AlarmAroundSound(t, e, own, stub, String, d, [c'], Int);
    AroundIsValid(t);
    ApproachRuns(t, e, a.table, String);
    ApproachKnown(t, a.table, String, a.F);
    CarriedStaysString(t, a.table, a.F, g);
    assert a.run[..|a.run| - 1] == Approach(t, String);
    assert TaskInput(t, e, c, String) && SuccessStep(a.table, a.x, t, c, String, c');
    assert Step(a.table, a.x, t, c, c');
  }

  /** All facts but those with another type than `String`. */
  ghost function StringFacts(): Facts { iset f: Fact | f.InType? || f.VarType? ==> f.ty == String }

  lemma StringFactsClosed(table: Table, u: Task)
    requires SuccessOut(table, StringFacts(), u) <= {String}
    ensures ClosedAt(table, StringFacts(), u)
  {
    InputStaysString(StringFacts(), u);
  }

  lemma CarriedStaysString(t: Task, table: Table, F: Facts, g: string)
    requires Ordinary(t) && Outlet(t, g) && !Blank(t.outputTemplate)
    requires table(t.handler) == Signature({}, Dynamic, Any)
    requires table(t.handler + "p") == Feeding(String) && table(t.handler + "s") == Signature({Int}, NoOutput, Any)
    requires Least(table, Around(t), {String}, F)
    ensures CarriedSet(table, F, t, Stub(t, g)) == {String} && Reach(t.id) in F && Reach(g) in F
  {
    forall u | u in Around(t) ensures ClosedAt(table, StringFacts(), u) {
      AroundKeepsString(t, table, u);
    }
    LeastWithin(table, Around(t), {String}, F, StringFacts());
    InputStaysString(F, t);
    ApproachKnown(t, table, String, F);
    AroundIsValid(t);
    assert ClosedAt(table, F, t) && Derives(table, F, t, Reach(g));
  }

  lemma InputStaysString(F: Facts, t: Task)
    requires F <= StringFacts()
    ensures EffectiveInput(F, t) <= {String}
  {}

  lemma AroundKeepsString(t: Task, table: Table, u: Task)
    requires Ordinary(t) && !Blank(t.outputTemplate) && u in Around(t)
    requires table(t.handler) == Signature({}, Dynamic, Any)
    requires table(t.handler + "p") == Feeding(String) && table(t.handler + "s") == Signature({Int}, NoOutput, Any)
    ensures ClosedAt(table, StringFacts(), u)
  {
    AroundIsValid(t);
    StringFactsClosed(table, u);
  }

  /** A task's templates fool the linter in no chain, whatever the handlers, the entry types and
      the run, if and only if linter and executor agree on them. The condition reads the template
      and its expansion; an output no successor sees is left out of it. */
  lemma AgreementIsExact(t: Task, e: Texts)
    requires Ordinary(t) && Expands(t, e) && (OutputAgrees(t, e) || exists g :: Outlet(t, g))
    ensures Agree(t, e) <==> forall a: Alarm :: OthersAgree(a, t, e) ==> !FalseAlarm(a)
  {
    if Agree(t, e) {
      forall a: Alarm | OthersAgree(a, t, e) ensures !FalseAlarm(a) {
        NoFalseAlarm(a);
      }
    } else if PromptAgrees(t, e) {
      var g :| Outlet(t, g);
      var a := VanishingOutputFools(t, e, g);
    } else if Blank(t.promptTemplate) {
      var a := BlankPromptFools(t, e);
    } else {
      var a := VanishingPromptFools(t, e);
    }
  }

  // -- Two chains of one task that fool it -----------------------------------------------------------

  /** The signatures of two handlers, as the handler table has them. */
  function Handlers(h: string): Signature {
    if h == "execute_tool_calls" then Signature({ChatHistory}, Fixed, ChatHistory)
    else Signature({String, ChatHistory}, Fixed, ChatHistory)
  }

  ghost function LoneAlarm(t: Task, e: Texts, ty: DataType, d: Defect, input: DataType): Alarm {
    Alarm(Handlers, _ => e, [t], {ty}, Intersection(Handlers, [t], {ty}), d, [Config(t.id, ty, map["input" := ty])], input)
  }

  lemma LoneRaised(t: Task, e: Texts, ty: DataType, d: Defect, input: DataType)
    requires t.id == "a" && t.gotos == [] && t.onFailure == ""
    ensures var a := LoneAlarm(t, e, ty, d, input);
            && ValidChain(a.tasks) && Least(a.table, a.tasks, a.entry, a.F) && Reach("a") in a.F
            && Run(a.table, a.x, a.tasks, a.entry, a.run)
  {
    var a := LoneAlarm(t, e, ty, d, input);
    IntersectionIsLeast(a.table, a.tasks, a.entry);
    assert Reach("a") in Initial(a.tasks, a.entry);
    assert Start(a.tasks, a.entry, a.run[0]);
  }

  const MACRO_TASK := Task("a", "execute_tool_calls", "{{var:hint|}}", "", "", [], "")

  /** A variable macro with an empty fallback, unset: the linter expects a string, which the
      handler would refuse; the executor sees no template and feeds the chat history. */
  lemma MacroFalseAlarm()
    ensures FalseAlarm(LoneAlarm(MACRO_TASK, Texts("", ""), ChatHistory, TemplateRefused(MACRO_TASK), ChatHistory))
  {
    LoneRaised(MACRO_TASK, Texts("", ""), ChatHistory, TemplateRefused(MACRO_TASK), ChatHistory);
    assert !IsSpace(MACRO_TASK.promptTemplate[0]);
  }

  const SPACE_TASK := Task("a", "chat_completion", " ", "", "", [], "")

  /** A template of one space: the linter expects the JSON input, which the handler would refuse;
      the executor renders the template and feeds a string. */
  lemma SpaceFalseAlarm()
    ensures FalseAlarm(LoneAlarm(SPACE_TASK, Texts(" ", ""), JSON, EntryRefused(SPACE_TASK), String))
  {
    LoneRaised(SPACE_TASK, Texts(" ", ""), JSON, EntryRefused(SPACE_TASK), String);
  }
}
