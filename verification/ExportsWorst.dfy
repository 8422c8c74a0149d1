/** The run of a module that goes as wrong as its text allows, computed from the text. */
module ExportsWorst {
  import opened Basics
  import opened Exports

  // ---- What code can reach ----------------------------------------------------------------------------

  /** The zone, and where it leads in one step. */
  function Once(st: State, z: Zone): Zone {
    Zone(z.vars + (set o, v | o in z.objs && o < |st.heap| && st.heap[o].Box? && v in st.heap[o].vars :: v),
         z.objs + (set v | v in z.vars && v in st.env && st.env[v].Ref? :: st.env[v].r)
         + (set o, p | o in z.objs && o < |st.heap| && st.heap[o].Box? && p in st.heap[o].refs :: p))
  }

  lemma OnceIs(st: State, z: Zone)
    ensures Inside(z, Once(st, z)) && (Once(st, z) == z <==> Closed(st, z))
    ensures forall c :: Closed(st, c) && Inside(z, c) ==> Inside(Once(st, z), c)
  {
    if Once(st, z) == z {
      forall o | o in z.objs && o < |st.heap| && st.heap[o].Box?
        ensures st.heap[o].refs <= z.objs && st.heap[o].vars <= z.vars
      {
        assert forall p :: p in st.heap[o].refs ==> p in Once(st, z).objs;
        assert forall v :: v in st.heap[o].vars ==> v in Once(st, z).vars;
      }
      forall v | v in z.vars && v in st.env && st.env[v].Ref? ensures st.env[v].r in z.objs {
        assert st.env[v].r in Once(st, z).objs;
      }
    }
  }

  lemma LessIsMissing<T>(a: set<T>, b: set<T>, all: set<T>)
    requires a <= b <= all
    ensures |all - b| <= |all - a| && (a != b ==> |all - b| < |all - a|)
  {
    assert all - a == (all - b) + (b - a);
    if a != b {
      var x :| x in b - a;
      assert |b - a| > 0;
    }
  }

  /** The least closed zone around `z`. */
  function Close(st: State, z: Zone, all: Zone): (r: Zone)
    requires Closed(st, all) && Inside(z, all)
    ensures Closed(st, r) && Inside(z, r)
    ensures forall c :: Closed(st, c) && Inside(z, c) ==> Inside(r, c)
    decreases |all.vars - z.vars| + |all.objs - z.objs|
  {
    OnceIs(st, z);
    var y := Once(st, z);
    if y == z then z
    else
      LessIsMissing(z.vars, y.vars, all.vars);
      LessIsMissing(z.objs, y.objs, all.objs);
      Close(st, y, all)
  }

  function Everything(st: State, z: Zone): (all: Zone)
    ensures Closed(st, all) && Inside(z, all)
  {
    Zone(z.vars + (set o, v | 0 <= o < |st.heap| && st.heap[o].Box? && v in st.heap[o].vars :: v),
         z.objs + (set v | v in st.env && st.env[v].Ref? :: st.env[v].r)
         + (set o, p | 0 <= o < |st.heap| && st.heap[o].Box? && p in st.heap[o].refs :: p))
  }

  /** What code that starts from these names and objects can reach. */
  function Reach(st: State, uses: set<string>, objs: set<nat>): (r: Zone)
    ensures Closed(st, r) && Inside(Zone(uses, objs), r)
    ensures forall c :: Closed(st, c) && Inside(Zone(uses, objs), c) ==> Inside(r, c)
  {
    Close(st, Zone(uses, objs), Everything(st, Zone(uses, objs)))
  }

  lemma ReachExists(st: State, uses: set<string>, objs: set<nat>)
    requires WellFormed(st) && forall o :: o in objs ==> o < |st.heap|
    ensures forall o :: o in Reach(st, uses, objs).objs ==> o < |st.heap|
  {
    var all := Everything(st, Zone(uses, objs));
    var c := Zone(all.vars, set o | o in all.objs && o < |st.heap|);
    assert Closed(st, c);
  }

  // ---- The worst run ----------------------------------------------------------------------------------

  /** All that can be reached is connected: every object holds all of it, and every variable refers to a new
      object that does. */
  function WorstUnknown(st: State, binds: set<string>, uses: set<string>, objs: set<nat>): State {
    var z, q := Reach(st, uses, objs), |st.heap|;
    var box := Box(z.objs + {q}, z.vars);
    State(map n | n in st.env.Keys + z.vars + binds :: if n in z.vars || n in binds then Ref(q) else st.env[n],
          seq(q + 1, i requires 0 <= i < q + 1 => if i == q || i in z.objs then box else st.heap[i]))
  }

  datatype Evaluated = Evaluated(value: Value, after: State)

  function WorstEval(e: Expr, st: State): Evaluated {
    var q := Ref(|st.heap|);
    if LiteralNames(e).Literal? then
      if e.list then Evaluated(q, Alloc(st, Strs(StringsOf(e.elts)))) else Evaluated(Strings(StringsOf(e.elts)), st)
    else if Plain(e) then Evaluated(q, Alloc(st, Box(RefsOf(e.elts, st.env), {})))
    else if e.NameRef? then
      if e.id in st.env then Evaluated(st.env[e.id], st) else Evaluated(q, Alloc(st, Box({}, {})))
    else Evaluated(q, WorstUnknown(st, {}, Uses(e), {}))
  }

  function WorstBindOne(t: Target, v: Value, st: State): State {
    match t
    case Name(id) => st.(env := st.env[id := v])
    case Pattern(binds, uses) => WorstUnknown(st, binds, uses, Seeds(v))
  }

  function WorstBind(targets: seq<Target>, v: Value, st: State): State {
    if targets == [] then st
    else WorstBindOne(targets[|targets| - 1], v, WorstBind(targets[..|targets| - 1], v, st))
  }

  function WorstAssign(targets: seq<Target>, value: Expr, st: State): State {
    var e := WorstEval(value, st);
    WorstBind(targets, e.value, e.after)
  }

  function WorstAugment(id: string, op: Op, value: Expr, st: State): State {
    if Raises(id, op, value, st) then st
    else if LiteralNames(value).Literal? && IsStrs(st.heap, st.env[id]) then Extend(st, st.env[id].r, value)
    else if LiteralNames(value).Literal? && st.env[id].Strings? then
      st.(env := st.env[id := Strings(st.env[id].names + StringsOf(value.elts))])
    else WorstUnknown(st, {}, {id} + Uses(value), {})
  }

  function WorstStep(s: Stmt, st: State): State {
    match s
    case Assign(targets, value) => WorstAssign(targets, value, st)
    case AnnAssign(target, annotated) => if annotated.Some? then WorstAssign([target], annotated.value, st) else st
    case AugAssign(target, op, value) =>
      (match target
       case Name(id) => WorstAugment(id, op, value, st)
       case Pattern(binds, uses) => WorstUnknown(st, {}, binds + uses + Uses(value), {}))
    case Def(id, free) => State(st.env[id := Ref(|st.heap|)], st.heap + [Box({}, free)])
    case Other(binds, uses) => WorstUnknown(st, binds, uses, {})
  }

  function Worst(body: seq<Stmt>): State {
    if body == [] then START else WorstStep(body[|body| - 1], Worst(body[..|body| - 1]))
  }

  predicate Fails(s: Stmt, st: State) {
    s.AugAssign? && s.target.Name? && Raises(s.target.id, s.op, s.value, st)
  }

  /** The worst run gets to the end. */
  predicate Runs(body: seq<Stmt>) {
    body == [] ||
    var front, last := body[..|body| - 1], body[|body| - 1];
    Runs(front) && !Fails(last, Worst(front))
  }

  // ---- What the text says -------------------------------------------------------------------------------

  /** A tuple or list of strings, so far. */
  predicate Clean(st: State, n: string) {
    n in st.env && (st.env[n].Strings? || IsStrs(st.heap, st.env[n]))
  }

  predicate Replaces(s: Stmt) {
    match s
    case Assign(targets, _) => Name(ALL) in targets
    case AnnAssign(target, annotated) => IsAll(target) && annotated.Some?
    case _ => false
  }

  /** What a statement adds to the list of `__all__` through another name of it. */
  function Added(s: Stmt, w: State): set<string> {
    if && s.AugAssign? && s.target.Name? && s.target.id != ALL && LiteralNames(s.value).Literal?
       && ALL in w.env && w.env[ALL].Ref? && s.target.id in w.env && w.env[s.target.id] == w.env[ALL]
    then LiteralNames(s.value).names else {}
  }

  /** What other names have added since `__all__` was last replaced. */
  function Extra(body: seq<Stmt>): set<string> {
    if body == [] then {}
    else
      var front, last := body[..|body| - 1], body[|body| - 1];
      if Replaces(last) then {} else Extra(front) + Added(last, Worst(front))
  }

  /** No code of which only the names are known can reach `__all__` or its list once it was last replaced, and
      what was added through other names of the list the extractor sees as well. */
  predicate Disciplined(body: seq<Stmt>) {
    TrackAll(body).Known? && Clean(Worst(body), ALL) && Extra(body) <= TrackAll(body).names
  }

  // ---- It is a run --------------------------------------------------------------------------------------

  lemma WorstIsWellFormed(st: State, binds: set<string>, uses: set<string>, objs: set<nat>)
    requires WellFormed(st) && forall o :: o in objs ==> o < |st.heap|
    ensures WellFormed(WorstUnknown(st, binds, uses, objs))
  {
    ReachExists(st, uses, objs);
  }

  lemma WorstIsUnknown(st: State, binds: set<string>, uses: set<string>, objs: set<nat>, v: Value)
    requires WellFormed(st) && (forall o :: o in objs ==> o < |st.heap|) && (v == NONE || v == Ref(|st.heap|))
    ensures Unknown(st, binds, uses, objs, v, WorstUnknown(st, binds, uses, objs))
  {
    WorstIsWellFormed(st, binds, uses, objs);
    var z, q, st' := Reach(st, uses, objs), |st.heap|, WorstUnknown(st, binds, uses, objs);
    assert st'.heap[q] == Box(z.objs + {q}, z.vars);
    forall c | Closed(st, c) && Inside(Zone(uses, objs), c)
      ensures HeapConfined(st.heap, c, st'.heap) && EnvConfined(st.env, c, binds, |st.heap|, st'.env)
      ensures From(c, |st.heap|, v)
    {
      assert Inside(z, c);
    }
  }

  lemma EvalIsWellFormed(e: Expr, st: State, v: Value, st': State)
    requires WellFormed(st) && Eval(e, st, v, st')
    ensures WellFormed(st') && ValueExists(st'.heap, v)
  {
  }

  lemma BindOneIsWellFormed(t: Target, v: Value, st: State, st': State)
    requires WellFormed(st) && ValueExists(st.heap, v) && BindOne(t, v, st, st')
    ensures WellFormed(st') && ValueExists(st'.heap, v)
  {
    if t.Pattern? {
      var all := Everything(st, Zone(t.uses, Seeds(v)));
      assert HeapConfined(st.heap, all, st'.heap);
    }
  }

  lemma WorstEvalIsEval(e: Expr, st: State)
    requires WellFormed(st)
    ensures Eval(e, st, WorstEval(e, st).value, WorstEval(e, st).after)
  {
    if LiteralNames(e).NotLiteral? && !Plain(e) && !e.NameRef? { WorstIsUnknown(st, {}, Uses(e), {}, Ref(|st.heap|)); }
  }

  lemma {:induction false} WorstBindIsBind(targets: seq<Target>, v: Value, st: State)
    requires WellFormed(st) && ValueExists(st.heap, v)
    ensures var st' := WorstBind(targets, v, st); Bind(targets, v, st, st') && WellFormed(st') && ValueExists(st'.heap, v)
  {
    if targets != [] {
      var front, last := targets[..|targets| - 1], targets[|targets| - 1];
      WorstBindIsBind(front, v, st);
      var mid := WorstBind(front, v, st);
      if last.Pattern? { WorstIsUnknown(mid, last.binds, last.uses, Seeds(v), NONE); }
      BindOneIsWellFormed(last, v, mid, WorstBindOne(last, v, mid));
      assert Bind(front, v, st, mid) && BindOne(last, v, mid, WorstBindOne(last, v, mid));
    }
  }

  lemma WorstAssignIsStep(targets: seq<Target>, value: Expr, st: State)
    requires WellFormed(st)
    ensures Assigns(targets, value, st, WorstAssign(targets, value, st)) && WellFormed(WorstAssign(targets, value, st))
  {
    var e := WorstEval(value, st);
    WorstEvalIsEval(value, st);
    EvalIsWellFormed(value, st, e.value, e.after);
    WorstBindIsBind(targets, e.value, e.after);
  }

  lemma WorstAugAssignIsStep(s: Stmt, st: State)
    requires WellFormed(st) && s.AugAssign? && !Fails(s, st)
    ensures Step(s, st, WorstStep(s, st)) && WellFormed(WorstStep(s, st))
  {
    if s.target.Pattern? {
      WorstIsUnknown(st, {}, s.target.binds + s.target.uses + Uses(s.value), {}, NONE);
    } else {
      WorstIsUnknown(st, {}, {s.target.id} + Uses(s.value), {}, NONE);
    }
  }

  lemma WorstIsStep(s: Stmt, st: State)
    requires WellFormed(st) && !Fails(s, st)
    ensures Step(s, st, WorstStep(s, st)) && WellFormed(WorstStep(s, st))
  {
    match s
    case Assign(targets, value) => WorstAssignIsStep(targets, value, st);
    case AnnAssign(target, annotated) =>
      if annotated.Some? { WorstAssignIsStep([target], annotated.value, st); }
    case AugAssign(target, op, value) => WorstAugAssignIsStep(s, st);
    case Def(id, free) =>
    case Other(binds, uses) => WorstIsUnknown(st, binds, uses, {}, NONE);
  }

  /** The worst run is a run of the module. */
  lemma {:induction false} WorstEnds(body: seq<Stmt>)
    requires Runs(body)
    ensures Ends(body, Worst(body)) && WellFormed(Worst(body))
    decreases |body|
  {
    if body != [] {
      var front, last := body[..|body| - 1], body[|body| - 1];
      WorstEnds(front);
      WorstIsStep(last, Worst(front));
    }
  }
}
