/** Reading `__all__` off the top-level statements of a module, against what running them does. */
module Exports {
  import opened Basics

  const ALL := "__all__"

  // ---- Modules ---------------------------------------------------------------------------------

  /** `uses`: the names that occur in an expression. */
  datatype Elt = StrConst(s: string) | NameElt(id: string) | OtherElt(uses: set<string>)

  /** A list or tuple display; a plain name; anything else. */
  datatype Expr = Display(list: bool, elts: seq<Elt>) | NameRef(id: string) | OtherExpr(uses: set<string>)

  /** A plain name; or an unpacking, a subscript or an attribute, with the names that it binds and the
      others that occur in it. */
  datatype Target = Name(id: string) | Pattern(binds: set<string>, uses: set<string>)

  datatype Op = Add | OtherOp

  /** `Def`: a function without decorators and defaults, with the other names that occur in it; nothing of
      its body runs yet. `Other`: any other statement, with the names that it surely binds anew or deletes,
      and all others that occur in it; an import, of single names or of `*`, binds names and uses none. */
  datatype Stmt =
    | Assign(targets: seq<Target>, value: Expr)
    | AnnAssign(target: Target, annotated: Option<Expr>)
    | AugAssign(target: Target, op: Op, value: Expr)
    | Def(id: string, free: set<string>)
    | Other(binds: set<string>, uses: set<string>)

  // ---- The extractor -----------------------------------------------------------------------------

  datatype Names = Literal(names: set<string>) | NotLiteral

  function Elements(elts: seq<Elt>): Names {
    if elts == [] then Literal({})
    else
      var rest := Elements(elts[..|elts| - 1]);
      var last := elts[|elts| - 1];
      if rest.NotLiteral? || !last.StrConst? then NotLiteral else Literal(rest.names + {last.s})
  }

  function LiteralNames(e: Expr): Names {
    if e.Display? then Elements(e.elts) else NotLiteral
  }

  method LiteralStringNames(e: Expr) returns (r: Names)
    ensures r == LiteralNames(e)
  {
    if !e.Display? {
      return NotLiteral;
    }
    var names := {};
    for i := 0 to |e.elts|
      invariant Elements(e.elts[..i]) == Literal(names)
    {
      assert e.elts[..i + 1][..i] == e.elts[..i];
      if !e.elts[i].StrConst? {
        NotLiteralStays(e.elts, i + 1);
        return NotLiteral;
      }
      names := names + {e.elts[i].s};
    }
    assert e.elts[..|e.elts|] == e.elts;
    r := Literal(names);
  }

  lemma {:induction false} NotLiteralStays(elts: seq<Elt>, n: nat)
    requires n <= |elts| && Elements(elts[..n]).NotLiteral?
    ensures Elements(elts).NotLiteral?
    decreases |elts| - n
  {
    if n == |elts| {
      assert elts[..n] == elts;
    } else {
      assert elts[..n + 1][..n] == elts[..n];
      NotLiteralStays(elts, n + 1);
    }
  }

  datatype Working = Undeclared | Known(names: set<string>) | Unprovable

  predicate IsAll(t: Target) {
    t == Name(ALL)
  }

  function Replaced(e: Expr): Working {
    match LiteralNames(e) case Literal(names) => Known(names) case NotLiteral => Unprovable
  }

  /** What the extractor makes of one statement. */
  function Track(w: Working, s: Stmt): Working {
    match s
    case Assign(targets, value) => if Name(ALL) in targets then Replaced(value) else w
    case AnnAssign(target, annotated) => if IsAll(target) && annotated.Some? then Replaced(annotated.value) else w
    case AugAssign(target, _, value) =>
      if !IsAll(target) || w.Undeclared? then w
      else (match LiteralNames(value)
            case Literal(names) => if w.Known? then Known(w.names + names) else Unprovable
            case NotLiteral => Unprovable)
    case _ => w
  }

  function TrackAll(body: seq<Stmt>): Working {
    if body == [] then Undeclared else Track(TrackAll(body[..|body| - 1]), body[|body| - 1])
  }

  method ExtractAll(body: seq<Stmt>) returns (r: Option<set<string>>)
    ensures r == (if TrackAll(body).Known? then Some(TrackAll(body).names) else None)
  {
    var working := Undeclared;
    var sawDeclaration := false;
    for i := 0 to |body|
      invariant working == TrackAll(body[..i])
      invariant sawDeclaration <==> !working.Undeclared?
    {
      assert body[..i + 1][..i] == body[..i];
      match body[i]
      case Assign(targets, value) =>
        var found := HasAllTarget(targets);
        if found {
          sawDeclaration := true;
          var names := LiteralStringNames(value);
          working := if names.NotLiteral? then Unprovable else Known(names.names);
        }
      case AnnAssign(target, annotated) =>
        if IsAll(target) && annotated.Some? {
          sawDeclaration := true;
          var names := LiteralStringNames(annotated.value);
          working := if names.NotLiteral? then Unprovable else Known(names.names);
        }
      case AugAssign(target, _, value) =>
        if IsAll(target) {
          if !working.Known? {
            if sawDeclaration { working := Unprovable; }
            continue;
          }
          var names := LiteralStringNames(value);
          working := if names.NotLiteral? then Unprovable else Known(working.names + names.names);
        }
      case _ =>
    }
    assert body[..|body|] == body;
    r := if working.Known? then Some(working.names) else None;
  }

  method HasAllTarget(targets: seq<Target>) returns (found: bool)
    ensures found <==> Name(ALL) in targets
  {
    for i := 0 to |targets|
      invariant Name(ALL) !in targets[..i]
    {
      if IsAll(targets[i]) { return true; }
    }
    return false;
  }

  // ---- Running the module ----------------------------------------------------------------------------

  /** A tuple of strings is a value; everything else is an object of the heap. */
  datatype Value = Ref(r: nat) | Strings(names: seq<string>)

  /** A list of strings; or an object of any other kind, with the objects that it holds and the variables
      of the module that its code mentions. */
  datatype Object = Strs(names: seq<string>) | Box(refs: set<nat>, vars: set<string>)

  datatype State = State(env: map<string, Value>, heap: seq<Object>)

  const START := State(map[], [])
  const NONE := Strings([])

  /** Variables and objects. */
  datatype Zone = Zone(vars: set<string>, objs: set<nat>)

  predicate Inside(a: Zone, b: Zone) {
    a.vars <= b.vars && a.objs <= b.objs
  }

  /** The objects lead nowhere else. */
  predicate HeldClosed(heap: seq<Object>, z: Zone) {
    forall o :: o in z.objs && o < |heap| && heap[o].Box? ==> heap[o].refs <= z.objs && heap[o].vars <= z.vars
  }

  /** Neither do the variables. */
  predicate Closed(st: State, z: Zone) {
    && HeldClosed(st.heap, z)
    && forall v :: v in z.vars && v in st.env && st.env[v].Ref? ==> st.env[v].r in z.objs
  }

  predicate ValueExists(heap: seq<Object>, v: Value) {
    v.Ref? ==> v.r < |heap|
  }

  predicate WellFormed(st: State) {
    && (forall n :: n in st.env ==> ValueExists(st.heap, st.env[n]))
    && (forall o, p :: 0 <= o < |st.heap| && st.heap[o].Box? && p in st.heap[o].refs ==> p < |st.heap|)
  }

  /** A value from the zone, or a new one. */
  predicate From(z: Zone, bound: nat, v: Value) {
    v.Ref? ==> v.r in z.objs || v.r >= bound
  }

  ghost predicate HeapConfined(heap: seq<Object>, z: Zone, heap': seq<Object>) {
    && |heap| <= |heap'|
    && (forall o :: 0 <= o < |heap| && o !in z.objs ==> heap'[o] == heap[o])
    && (forall o :: 0 <= o < |heap'| && (o in z.objs || o >= |heap|) && heap'[o].Box? ==>
          heap'[o].vars <= z.vars && forall p :: p in heap'[o].refs ==> From(z, |heap|, Ref(p)))
  }

  ghost predicate EnvConfined(env: map<string, Value>, z: Zone, binds: set<string>, bound: nat, env': map<string, Value>) {
    && (forall n :: n !in z.vars && n !in binds ==> (n in env' <==> n in env) && (n in env ==> env'[n] == env[n]))
    && (forall n :: (n in z.vars || n in binds) && n in env' ==> From(z, bound, env'[n]))
  }

  /** Code of which only the names and objects are known that it starts from may do anything to what it can
      reach: bind or delete the variables, change the objects, connect them with each other and with new
      ones, and give any of them as its value `v`. It does nothing else, except for the names that it binds
      itself. */
  ghost predicate Unknown(st: State, binds: set<string>, uses: set<string>, objs: set<nat>, v: Value, st': State) {
    && WellFormed(st') && ValueExists(st'.heap, v)
    && forall z :: Closed(st, z) && Inside(Zone(uses, objs), z) ==>
         && HeapConfined(st.heap, z, st'.heap) && EnvConfined(st.env, z, binds, |st.heap|, st'.env)
         && From(z, |st.heap|, v)
  }

  function StringsOf(elts: seq<Elt>): seq<string> {
    if elts == [] then []
    else StringsOf(elts[..|elts| - 1])
         + if elts[|elts| - 1].StrConst? then [elts[|elts| - 1].s] else []
  }

  /** What the names among the elements refer to. */
  function RefsOf(elts: seq<Elt>, env: map<string, Value>): set<nat> {
    set e | e in elts && e.NameElt? && e.id in env && env[e.id].Ref? :: env[e.id].r
  }

  function Occurring(elts: seq<Elt>): set<string> {
    (set e | e in elts && e.NameElt? :: e.id) + (set e, n | e in elts && e.OtherElt? && n in e.uses :: n)
  }

  function Uses(e: Expr): set<string> {
    match e
    case Display(_, elts) => Occurring(elts)
    case NameRef(id) => {id}
    case OtherExpr(uses) => uses
  }

  /** Strings and names only. */
  predicate Plain(e: Expr) {
    e.Display? && forall x :: x in e.elts ==> !x.OtherElt?
  }

  function Alloc(st: State, o: Object): State {
    st.(heap := st.heap + [o])
  }

  /** A name that is not bound is one of Python's own. */
  ghost predicate Eval(e: Expr, st: State, v: Value, st': State) {
    if LiteralNames(e).Literal? then
      if e.list then st' == Alloc(st, Strs(StringsOf(e.elts))) && v == Ref(|st.heap|)
      else st' == st && v == Strings(StringsOf(e.elts))
    else if Plain(e) then st' == Alloc(st, Box(RefsOf(e.elts, st.env), {})) && v == Ref(|st.heap|)
    else if e.NameRef? then
      if e.id in st.env then st' == st && v == st.env[e.id]
      else st' == Alloc(st, Box({}, {})) && v == Ref(|st.heap|)
    else Unknown(st, {}, Uses(e), {}, v, st')
  }

  function Seeds(v: Value): set<nat> {
    if v.Ref? then {v.r} else {}
  }

  ghost predicate BindOne(t: Target, v: Value, st: State, st': State) {
    match t
    case Name(id) => st' == st.(env := st.env[id := v])
    case Pattern(binds, uses) => Unknown(st, binds, uses, Seeds(v), NONE, st')
  }

  /** The targets are bound from left to right. */
  ghost predicate Bind(targets: seq<Target>, v: Value, st: State, st': State) {
    if targets == [] then st' == st
    else
      var front, last := targets[..|targets| - 1], targets[|targets| - 1];
      exists mid :: Bind(front, v, st, mid) && BindOne(last, v, mid, st')
  }

  ghost predicate Assigns(targets: seq<Target>, value: Expr, st: State, st': State) {
    exists v, mid :: Eval(value, st, v, mid) && Bind(targets, v, mid, st')
  }

  predicate IsStrs(heap: seq<Object>, v: Value) {
    v.Ref? && v.r < |heap| && heap[v.r].Strs?
  }

  function Extend(st: State, r: nat, value: Expr): State
    requires r < |st.heap| && st.heap[r].Strs? && value.Display?
  {
    st.(heap := st.heap[r := Strs(st.heap[r].names + StringsOf(value.elts))])
  }

  /** `id op= value`: Python raises when the name is unbound or the operand does not fit. */
  predicate Raises(id: string, op: Op, value: Expr, st: State) {
    || id !in st.env
    || (LiteralNames(value).Literal? && IsStrs(st.heap, st.env[id]) && !op.Add?)
    || (LiteralNames(value).Literal? && st.env[id].Strings? && !(op.Add? && !value.list))
  }

  ghost predicate Augments(id: string, op: Op, value: Expr, st: State, st': State) {
    && !Raises(id, op, value, st)
    && if LiteralNames(value).Literal? && IsStrs(st.heap, st.env[id]) then st' == Extend(st, st.env[id].r, value)
       else if LiteralNames(value).Literal? && st.env[id].Strings? then
         st' == st.(env := st.env[id := Strings(st.env[id].names + StringsOf(value.elts))])
       else Unknown(st, {}, {id} + Uses(value), {}, NONE, st')
  }

  /** `s` can lead from `st` to `st'` without raising. */
  ghost predicate Step(s: Stmt, st: State, st': State) {
    match s
    case Assign(targets, value) => Assigns(targets, value, st, st')
    case AnnAssign(target, annotated) =>
      if annotated.Some? then Assigns([target], annotated.value, st, st') else st' == st
    case AugAssign(target, op, value) =>
      (match target
       case Name(id) => Augments(id, op, value, st, st')
       case Pattern(binds, uses) => Unknown(st, {}, binds + uses + Uses(value), {}, NONE, st'))
    case Def(id, free) => st' == State(st.env[id := Ref(|st.heap|)], st.heap + [Box({}, free)])
    case Other(binds, uses) => Unknown(st, binds, uses, {}, NONE, st')
  }

  /** Running the module can end in `st`. */
  ghost predicate Ends(body: seq<Stmt>, st: State) {
    if body == [] then st == START
    else
      var front, last := body[..|body| - 1], body[|body| - 1];
      exists mid :: Ends(front, mid) && Step(last, mid, st)
  }

  ghost predicate SameNames(s: seq<string>, names: set<string>) {
    forall n :: n in s <==> n in names
  }

  /** `__all__` refers to a list or tuple of just these names. */
  ghost predicate HoldsExactly(st: State, names: set<string>) {
    ALL in st.env &&
    match st.env[ALL]
    case Ref(r) => r < |st.heap| && st.heap[r].Strs? && SameNames(st.heap[r].names, names)
    case Strings(s) => SameNames(s, names)
  }
}
