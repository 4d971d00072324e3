/**
 * The client generator: from a warp index it derives the npm package name,
 * the root package version and the output path, checks every declaration
 * it reads (empty names and types, non-positive ids, method kinds), and
 * collects what the templates are filled with: the type definitions and
 * the client index with its exports in order. The templates themselves and
 * the file writes are outside the model.
 */
module ClientGenerator {
  import opened Wrappers
  import opened ToolText
  import Unsigned

  /** A method or constructor argument as the index declares it. */
  datatype Arg = Arg(name: string, typ: string)

  /** The method kinds of the index; any other code is unknown. */
  datatype MethodKind = Normal | Getter | Setter | UnknownKind(code: int)

  /** A method; `kind` is absent for declarations that carry no kind (service methods). */
  datatype MethodDecl = MethodDecl(methodName: string, returnType: string, methodId: int, args: seq<Arg>,
                                   kind: Option<MethodKind>)

  /** A free, data, message or service class. */
  datatype ClassDecl = ClassDecl(className: string, classId: int, sourceCode: string, ctor: Option<seq<Arg>>,
                                 methods: seq<MethodDecl>)

  datatype FreeFunction = FreeFunction(functionName: string, returnType: string, sourceCode: string, args: seq<Arg>)

  /** The deserialized warp index. Ids and versions are unsigned 64-bit values. */
  datatype WarpIndex = WarpIndex(
    warpName: string,
    warpId: nat,
    warpVersion: nat,
    freeFunctions: seq<FreeFunction>,
    freeClasses: seq<ClassDecl>,
    dataClasses: seq<ClassDecl>,
    messageClasses: seq<ClassDecl>,
    serviceClasses: seq<ClassDecl>)

  datatype ClassKind = FreeClassKind | DataKind | ServiceKind | MessageKind

  /** How the error messages name a class of each kind. */
  function What(kind: ClassKind): string
  {
    match kind
    case FreeClassKind => "free class"
    case DataKind => "data class"
    case ServiceKind => "service class"
    case MessageKind => "message class"
  }

  /** The `extends` clause of each kind's type definition. */
  function ExtendsClause(kind: ClassKind): string
  {
    match kind
    case FreeClassKind => ""
    case DataKind => " extends Data "
    case ServiceKind => " extends Service "
    case MessageKind => " extends Message "
  }

  const IndexOwner := "warp index"
  const Void := "void"
  const AsyncSuffix := "Async"
  const PromiseOpen := "Promise<"
  const PromiseClose := ">"
  const ArgSeparator := ", "

  /** `parts.join(", ")`. */
  function CommaList(parts: seq<string>): string
  {
    if |parts| == 0 then "" else if |parts| == 1 then parts[0] else parts[0] + ArgSeparator + CommaList(parts[1..])
  }

  // ---------------------------------------------------------------------
  // The loops of the generator all stop at the first declaration that fails
  // its checks and otherwise collect one output per declaration, in order.

  /** The outputs of `f` on every element, or the fault of the first element that fails. */
  function Each<C, X, Y>(f: (C, X) -> Result<Y>, c: C, xs: seq<X>): (r: Result<seq<Y>>)
    ensures r.Ok? <==> forall i :: 0 <= i < |xs| ==> f(c, xs[i]).Ok?
    ensures r.Ok? ==> |r.value| == |xs| && forall i :: 0 <= i < |xs| ==> f(c, xs[i]) == Ok(r.value[i])
    decreases |xs|
  {
    if |xs| == 0 then Ok([])
    else
      match Each(f, c, xs[..|xs| - 1])
      case Err(e) => Err(e)
      case Ok(ys) =>
        match f(c, xs[|xs| - 1])
        case Err(e) => Err(e)
        case Ok(y) => Ok(ys + [y])
  }

  /** One more element that passes extends the outputs by its own. */
  lemma EachStep<C, X, Y>(f: (C, X) -> Result<Y>, c: C, xs: seq<X>, i: nat, ys: seq<Y>)
    requires i < |xs| && Each(f, c, xs[..i]) == Ok(ys) && f(c, xs[i]).Ok?
    ensures Each(f, c, xs[..i + 1]) == Ok(ys + [f(c, xs[i]).value])
  {
    assert xs[..i + 1][..i] == xs[..i];
  }

  /** A fault in a prefix is the fault of the whole sequence. */
  lemma {:induction false} EachKeepsFault<C, X, Y>(f: (C, X) -> Result<Y>, c: C, xs: seq<X>, k: nat)
    requires k <= |xs| && Each(f, c, xs[..k]).Err?
    ensures Each(f, c, xs) == Each(f, c, xs[..k])
    decreases |xs| - k
  {
    if k < |xs| {
      assert xs[..k + 1][..k] == xs[..k];
      EachKeepsFault(f, c, xs, k + 1);
    } else {
      assert xs[..k] == xs;
    }
  }

  /** The first element that fails decides the fault. */
  lemma EachStop<C, X, Y>(f: (C, X) -> Result<Y>, c: C, xs: seq<X>, i: nat)
    requires i < |xs| && Each(f, c, xs[..i]).Ok? && f(c, xs[i]).Err?
    ensures Each(f, c, xs) == Err(f(c, xs[i]).error)
  {
    assert xs[..i + 1][..i] == xs[..i];
    EachKeepsFault(f, c, xs, i + 1);
  }

  /** The fault reported is that of an element all of whose predecessors pass. */
  lemma {:induction false} EachFirstFault<C, X, Y>(f: (C, X) -> Result<Y>, c: C, xs: seq<X>)
    requires Each(f, c, xs).Err?
    ensures exists i :: 0 <= i < |xs| && f(c, xs[i]) == Err(Each(f, c, xs).error)
                        && forall j :: 0 <= j < i ==> f(c, xs[j]).Ok?
  {
    var n := |xs| - 1;
    var p := xs[..n];
    if Each(f, c, p).Err? {
      EachFirstFault(f, c, p);
      var i :| 0 <= i < |p| && f(c, p[i]) == Err(Each(f, c, p).error) && forall j :: 0 <= j < i ==> f(c, p[j]).Ok?;
      assert xs[i] == p[i];
      forall j | 0 <= j < i ensures f(c, xs[j]).Ok? {
        assert xs[j] == p[j];
      }
    } else {
      forall j | 0 <= j < n ensures f(c, xs[j]).Ok? {
        assert xs[j] == p[j];
      }
      assert f(c, xs[n]) == Err(Each(f, c, xs).error);
    }
  }

  /** A loop over `xs` that has collected the outputs of its first `|xs|` elements is done. */
  lemma EachDone<C, X, Y>(f: (C, X) -> Result<Y>, c: C, xs: seq<X>, ys: seq<Y>)
    requires Each(f, c, xs[..|xs|]) == Ok(ys)
    ensures Each(f, c, xs) == Ok(ys)
  {
    assert xs[..|xs|] == xs;
  }

  // ---------------------------------------------------------------------
  // Type definitions (generateDefs and getClassDef).

  /** Whose arguments are read: a class's, or a free function's. */
  datatype ArgOwner = ClassArg(kind: ClassKind) | FunctionArg

  function Owner(owner: ArgOwner): string
  {
    if owner.ClassArg? then What(owner.kind) else "free function"
  }

  /**
   * One argument rendered as "name: type". A class's method arguments are
   * reported with the constructor-argument wording, as the source does.
   */
  function ArgOut(owner: ArgOwner, a: Arg): (r: Result<string>)
    ensures r.Ok? <==> a.name != "" && a.typ != ""
    ensures r.Err? ==> r.error.EmptyIndexField? && r.error.owner == Owner(owner)
  {
    var who := Owner(owner);
    var what := if owner.ClassArg? then "constructor argument " else "argument ";
    if a.name == "" then Err(EmptyIndexField(who, what + "name"))
    else if a.typ == "" then Err(EmptyIndexField(who, what + "type"))
    else Ok(a.name + ": " + a.typ)
  }

  /** Reads the arguments in order. */
  method RenderArgs(owner: ArgOwner, args: seq<Arg>) returns (r: Result<seq<string>>)
    ensures r == Each(ArgOut, owner, args)
  {
    var out: seq<string> := [];
    for j := 0 to |args|
      invariant Each(ArgOut, owner, args[..j]) == Ok(out)
    {
      var a := ArgOut(owner, args[j]);
      if a.Err? {
        EachStop(ArgOut, owner, args, j);
        return Err(a.error);
      }
      EachStep(ArgOut, owner, args, j, out);
      out := out + [a.value];
    }
    EachDone(ArgOut, owner, args, out);
    return Ok(out);
  }

  /** A rendered method: the getter, setter and method templates take different fields. */
  datatype MethodDef =
    | GetterDef(name: string, returnType: string)
    | SetterDef(name: string, arguments: string)
    | NormalDef(name: string, arguments: string, returnType: string)

  /** The name and return type a class of this kind declares: services return promises from "...Async" methods. */
  function Declared(kind: ClassKind, m: MethodDecl): (string, string)
  {
    if kind == ServiceKind then (m.methodName + AsyncSuffix, PromiseOpen + m.returnType + PromiseClose)
    else (m.methodName, m.returnType)
  }

  /**
   * One method of getClassDef: name and return type must be non-empty,
   * then the service renaming applies, then the arguments are read, then
   * the kind decides: a getter takes no arguments, a setter returns
   * "void", an absent kind is a normal method and an unknown kind fails.
   */
  function MethodDefOf(kind: ClassKind, m: MethodDecl): (r: Result<MethodDef>)
    ensures r.Ok? ==> m.methodName != "" && m.returnType != ""
                      && forall i :: 0 <= i < |m.args| ==> ArgOut(ClassArg(kind), m.args[i]).Ok?
    ensures r.Ok? ==> r.value.name == Declared(kind, m).0
    ensures r.Ok? && m.kind == Some(Getter) ==> |m.args| == 0 && r.value.GetterDef?
    ensures r.Ok? && m.kind == Some(Setter) ==> Declared(kind, m).1 == Void && r.value.SetterDef?
    ensures r.Ok? ==> !m.kind.Some? || !m.kind.value.UnknownKind?
    ensures r.Ok? && (m.kind.None? || m.kind == Some(Normal)) ==> r.value.NormalDef?
  {
    var what := What(kind);
    if m.methodName == "" then Err(EmptyIndexField(what, "method name"))
    else if m.returnType == "" then Err(EmptyIndexField(what, "method return type"))
    else
      var (name, returnType) := Declared(kind, m);
      var args :- Each(ArgOut, ClassArg(kind), m.args);
      match (if m.kind.Some? then m.kind.value else Normal)
      case Getter =>
        if |args| > 0 then Err(InvalidMethodKind(what, "getter")) else Ok(GetterDef(name, returnType))
      case Setter =>
        if returnType != Void then Err(InvalidMethodKind(what, "setter")) else Ok(SetterDef(name, CommaList(args)))
      case Normal => Ok(NormalDef(name, CommaList(args), returnType))
      case UnknownKind(_) => Err(InvalidMethodKind(what, "kind"))
  }

  /** A service method declared as a setter is always refused: its return type has become a promise. */
  lemma ServiceSetterRejected(m: MethodDecl)
    requires m.kind == Some(Setter)
    ensures MethodDefOf(ServiceKind, m).Err?
  {
    var rt := Declared(ServiceKind, m).1;
    assert rt[0] == 'P';
  }

  /** Service methods are declared "<name>Async" returning "Promise<T>". */
  lemma ServiceMethodRenamed(m: MethodDecl)
    requires MethodDefOf(ServiceKind, m).Ok? && !MethodDefOf(ServiceKind, m).value.SetterDef?
    ensures MethodDefOf(ServiceKind, m).value.name == m.methodName + AsyncSuffix
    ensures MethodDefOf(ServiceKind, m).value.returnType == PromiseOpen + m.returnType + PromiseClose
  {
  }

  /** One method of getClassDef, step by step. */
  method RenderMethodDef(kind: ClassKind, m: MethodDecl) returns (r: Result<MethodDef>)
    ensures r == MethodDefOf(kind, m)
  {
    var what := What(kind);
    var name := m.methodName;
    if name == "" {
      return Err(EmptyIndexField(what, "method name"));
    }
    var returnType := m.returnType;
    if returnType == "" {
      return Err(EmptyIndexField(what, "method return type"));
    }
    if kind == ServiceKind {
      name := name + AsyncSuffix;
      returnType := PromiseOpen + returnType + PromiseClose;
    }
    var args :- RenderArgs(ClassArg(kind), m.args);
    var methodKind := if m.kind.Some? then m.kind.value else Normal;
    match methodKind {
      case Getter =>
        if |args| > 0 {
          return Err(InvalidMethodKind(what, "getter"));
        }
        r := Ok(GetterDef(name, returnType));
      case Setter =>
        if returnType != Void {
          return Err(InvalidMethodKind(what, "setter"));
        }
        r := Ok(SetterDef(name, CommaList(args)));
      case Normal =>
        r := Ok(NormalDef(name, CommaList(args), returnType));
      case UnknownKind(_) =>
        r := Err(InvalidMethodKind(what, "kind"));
    }
  }

  /** A rendered class definition; `ctor` is the constructor's argument list when it has one. */
  datatype ClassDef = ClassDef(extendsClause: string, className: string, ctor: Option<string>, methods: seq<MethodDef>)

  /** The constructor's arguments, when the class has a constructor. */
  function CtorOf(kind: ClassKind, ctor: Option<seq<Arg>>): Result<Option<string>>
  {
    match ctor
    case None => Ok(None)
    case Some(args) =>
      var rendered :- Each(ArgOut, ClassArg(kind), args);
      Ok(Some(CommaList(rendered)))
  }

  /** getClassDef: the class name, then the constructor's arguments, then every method. */
  function ClassDefOf(kind: ClassKind, c: ClassDecl): (r: Result<ClassDef>)
    ensures r.Ok? ==> c.className != "" && r.value.className == c.className
                      && r.value.extendsClause == ExtendsClause(kind)
                      && |r.value.methods| == |c.methods|
                      && forall i :: 0 <= i < |c.methods| ==> MethodDefOf(kind, c.methods[i]) == Ok(r.value.methods[i])
    ensures c.className == "" ==> r == Err(EmptyIndexField(What(kind), "name"))
  {
    if c.className == "" then Err(EmptyIndexField(What(kind), "name"))
    else
      var ctor :- CtorOf(kind, c.ctor);
      var methods :- Each(MethodDefOf, kind, c.methods);
      Ok(ClassDef(ExtendsClause(kind), c.className, ctor, methods))
  }

  /** getClassDef, pushing each method's definition in a loop. */
  method GetClassDef(kind: ClassKind, c: ClassDecl) returns (r: Result<ClassDef>)
    ensures r == ClassDefOf(kind, c)
  {
    var className := c.className;
    if className == "" {
      return Err(EmptyIndexField(What(kind), "name"));
    }
    var ctor: Option<string> := None;
    if c.ctor.Some? {
      var args :- RenderArgs(ClassArg(kind), c.ctor.value);
      ctor := Some(CommaList(args));
    }
    assert CtorOf(kind, c.ctor) == Ok(ctor);
    var methods: seq<MethodDef> := [];
    for j := 0 to |c.methods|
      invariant Each(MethodDefOf, kind, c.methods[..j]) == Ok(methods)
    {
      var d := RenderMethodDef(kind, c.methods[j]);
      if d.Err? {
        EachStop(MethodDefOf, kind, c.methods, j);
        return Err(d.error);
      }
      EachStep(MethodDefOf, kind, c.methods, j, methods);
      methods := methods + [d.value];
    }
    EachDone(MethodDefOf, kind, c.methods, methods);
    return Ok(ClassDef(ExtendsClause(kind), className, ctor, methods));
  }

  /** The class definitions of one kind, in index order. */
  method RenderClassDefs(kind: ClassKind, cs: seq<ClassDecl>) returns (r: Result<seq<ClassDef>>)
    ensures r == Each(ClassDefOf, kind, cs)
  {
    var defs: seq<ClassDef> := [];
    for i := 0 to |cs|
      invariant Each(ClassDefOf, kind, cs[..i]) == Ok(defs)
    {
      var d := GetClassDef(kind, cs[i]);
      if d.Err? {
        EachStop(ClassDefOf, kind, cs, i);
        return Err(d.error);
      }
      EachStep(ClassDefOf, kind, cs, i, defs);
      defs := defs + [d.value];
    }
    EachDone(ClassDefOf, kind, cs, defs);
    return Ok(defs);
  }

  datatype FunctionDef = FunctionDef(name: string, arguments: string, returnType: string)

  /** A free function's definition: name, return type, then the arguments. */
  function FunctionDefOf(u: (), f: FreeFunction): (r: Result<FunctionDef>)
    ensures r.Ok? <==> f.functionName != "" && f.returnType != ""
                       && forall i :: 0 <= i < |f.args| ==> ArgOut(FunctionArg, f.args[i]).Ok?
    ensures r.Ok? ==> r.value.name == f.functionName && r.value.returnType == f.returnType
  {
    if f.functionName == "" then Err(EmptyIndexField("free function", "function name"))
    else if f.returnType == "" then Err(EmptyIndexField("free function", "return type"))
    else
      var args :- Each(ArgOut, FunctionArg, f.args);
      Ok(FunctionDef(f.functionName, CommaList(args), f.returnType))
  }

  /** The index's own checks, made again by each generator: a name, a non-zero id and version. */
  function HeaderFault(index: WarpIndex): (r: Option<Fault>)
    ensures r.None? <==> index.warpName != "" && index.warpId != 0 && index.warpVersion != 0
  {
    if index.warpName == "" then Some(EmptyIndexField(IndexOwner, "name"))
    else if index.warpId == 0 then Some(InvalidIndexId(IndexOwner, "warp id"))
    else if index.warpVersion == 0 then Some(InvalidIndexId(IndexOwner, "warp version"))
    else None
  }

  /** The type definitions: free functions, then free, data, message and service classes. */
  datatype Defs = Defs(functions: seq<FunctionDef>, classes: seq<ClassDef>)

  function DefsOf(index: WarpIndex): Result<Defs>
  {
    if HeaderFault(index).Some? then Err(HeaderFault(index).value)
    else
      var functions :- Each(FunctionDefOf, (), index.freeFunctions);
      var free :- Each(ClassDefOf, FreeClassKind, index.freeClasses);
      var data :- Each(ClassDefOf, DataKind, index.dataClasses);
      var messages :- Each(ClassDefOf, MessageKind, index.messageClasses);
      var services :- Each(ClassDefOf, ServiceKind, index.serviceClasses);
      Ok(Defs(functions, free + data + messages + services))
  }

  /** The class definitions follow the index: one per class, kinds in order, names kept. */
  lemma DefsFollowIndex(index: WarpIndex)
    requires DefsOf(index).Ok?
    ensures var d := DefsOf(index).value;
            |d.functions| == |index.freeFunctions|
            && |d.classes| == |index.freeClasses| + |index.dataClasses| + |index.messageClasses| + |index.serviceClasses|
            && (forall i :: 0 <= i < |index.freeFunctions| ==> d.functions[i].name == index.freeFunctions[i].functionName)
            && (forall i :: 0 <= i < |index.freeClasses| ==> d.classes[i].className == index.freeClasses[i].className)
            && index.warpId != 0 && index.warpVersion != 0
  {
  }

  /** generateDefs, pushing free function definitions and then each kind of class. */
  method GenerateDefs(index: WarpIndex) returns (r: Result<Defs>)
    ensures r == DefsOf(index)
  {
    if index.warpName == "" {
      return Err(EmptyIndexField(IndexOwner, "name"));
    }
    if index.warpId == 0 {
      return Err(InvalidIndexId(IndexOwner, "warp id"));
    }
    if index.warpVersion == 0 {
      return Err(InvalidIndexId(IndexOwner, "warp version"));
    }
    var fs := index.freeFunctions;
    var functions: seq<FunctionDef> := [];
    for i := 0 to |fs|
      invariant Each(FunctionDefOf, (), fs[..i]) == Ok(functions)
    {
      var f := fs[i];
      if f.functionName == "" {
        EachStop(FunctionDefOf, (), fs, i);
        return Err(EmptyIndexField("free function", "function name"));
      }
      if f.returnType == "" {
        EachStop(FunctionDefOf, (), fs, i);
        return Err(EmptyIndexField("free function", "return type"));
      }
      var args := RenderArgs(FunctionArg, f.args);
      if args.Err? {
        EachStop(FunctionDefOf, (), fs, i);
        return Err(args.error);
      }
      EachStep(FunctionDefOf, (), fs, i, functions);
      functions := functions + [FunctionDef(f.functionName, CommaList(args.value), f.returnType)];
    }
    EachDone(FunctionDefOf, (), fs, functions);
    var free :- RenderClassDefs(FreeClassKind, index.freeClasses);
    var data :- RenderClassDefs(DataKind, index.dataClasses);
    var messages :- RenderClassDefs(MessageKind, index.messageClasses);
    var services :- RenderClassDefs(ServiceKind, index.serviceClasses);
    return Ok(Defs(functions, free + data + messages + services));
  }

  // ---------------------------------------------------------------------
  // The client index (generateClient).

  /** A free function or free class: its exported name and its source code. */
  datatype Piece = Piece(name: string, code: string)

  /** A data or message class as the template receives it. */
  datatype ClassOut = ClassOut(name: string, classId: int, code: string)

  /** A service method: its name, argument signature, id and the text that passes the arguments on. */
  datatype ServiceMethodOut = ServiceMethodOut(name: string, argsSig: string, methodId: int, argsPass: string)

  datatype ServiceOut = ServiceOut(name: string, classId: int, methods: seq<ServiceMethodOut>)

  /** A free function needs its source code, then its name. */
  function FreeFunctionOut(u: (), f: FreeFunction): (r: Result<Piece>)
    ensures r.Ok? <==> f.sourceCode != "" && f.functionName != ""
    ensures r.Ok? ==> r.value == Piece(f.functionName, f.sourceCode)
  {
    if f.sourceCode == "" then Err(EmptyIndexField("free function", "source code"))
    else if f.functionName == "" then Err(EmptyIndexField("free function", "function name"))
    else Ok(Piece(f.functionName, f.sourceCode))
  }

  /** A free class needs its source code, then its name. */
  function FreeClassOut(u: (), c: ClassDecl): (r: Result<Piece>)
    ensures r.Ok? <==> c.sourceCode != "" && c.className != ""
    ensures r.Ok? ==> r.value == Piece(c.className, c.sourceCode)
  {
    if c.sourceCode == "" then Err(EmptyIndexField("free class", "source code"))
    else if c.className == "" then Err(EmptyIndexField("free class", "name"))
    else Ok(Piece(c.className, c.sourceCode))
  }

  /** A data or message class needs its name, a positive class id and its source code, in that order. */
  function IdentifiedClassOut(kind: ClassKind, c: ClassDecl): (r: Result<ClassOut>)
    ensures r.Ok? <==> c.className != "" && c.classId > 0 && c.sourceCode != ""
    ensures r.Ok? ==> r.value == ClassOut(c.className, c.classId, c.sourceCode)
    ensures c.className != "" && c.classId <= 0 ==> r == Err(InvalidIndexId(What(kind), "class id"))
  {
    if c.className == "" then Err(EmptyIndexField(What(kind), "name"))
    else if c.classId <= 0 then Err(InvalidIndexId(What(kind), "class id"))
    else if c.sourceCode == "" then Err(EmptyIndexField(What(kind), "source code"))
    else Ok(ClassOut(c.className, c.classId, c.sourceCode))
  }

  /** A service method argument contributes only its name. */
  function ArgNameOut(u: (), a: Arg): (r: Result<string>)
    ensures r.Ok? <==> a.name != ""
  {
    if a.name == "" then Err(EmptyIndexField("service method argument", "name")) else Ok(a.name)
  }

  /**
   * A service method needs its name and a positive method id; its argument
   * names give the signature, and the pass-on text is ", " and the
   * signature, or nothing without arguments.
   */
  function ServiceMethodOutOf(u: (), m: MethodDecl): (r: Result<ServiceMethodOut>)
    ensures r.Ok? ==> m.methodName != "" && m.methodId > 0 && r.value.name == m.methodName
                      && r.value.methodId == m.methodId
    ensures r.Ok? ==> (r.value.argsPass == "" <==> |m.args| == 0)
  {
    if m.methodName == "" then Err(EmptyIndexField("service method", "name"))
    else if m.methodId <= 0 then Err(InvalidIndexId("service method", "method id"))
    else
      var names :- Each(ArgNameOut, (), m.args);
      var sig := CommaList(names);
      Ok(ServiceMethodOut(m.methodName, sig, m.methodId, if |names| > 0 then ArgSeparator + sig else ""))
  }

  /** A service class needs its name and a positive class id, then every method. */
  function ServiceOutOf(u: (), c: ClassDecl): (r: Result<ServiceOut>)
    ensures r.Ok? ==> c.className != "" && c.classId > 0 && r.value.name == c.className
                      && |r.value.methods| == |c.methods|
                      && forall i :: 0 <= i < |c.methods| ==> ServiceMethodOutOf((), c.methods[i]) == Ok(r.value.methods[i])
  {
    if c.className == "" then Err(EmptyIndexField("service class", "name"))
    else if c.classId <= 0 then Err(InvalidIndexId("service class", "class id"))
    else
      var methods :- Each(ServiceMethodOutOf, (), c.methods);
      Ok(ServiceOut(c.className, c.classId, methods))
  }

  function PieceNames(ps: seq<Piece>): seq<string>
  {
    seq(|ps|, i requires 0 <= i < |ps| => ps[i].name)
  }

  function ClassOutNames(cs: seq<ClassOut>): seq<string>
  {
    seq(|cs|, i requires 0 <= i < |cs| => cs[i].name)
  }

  function ServiceNames(ss: seq<ServiceOut>): seq<string>
  {
    seq(|ss|, i requires 0 <= i < |ss| => ss[i].name)
  }

  /**
   * What the client index template is filled with. The CommonJS flavour
   * lists the exports; the ES module flavour exports each class in place.
   */
  datatype ClientIndex = ClientIndex(
    isEsm: bool,
    warpName: string,
    userKey: string,
    regenCommand: string,
    warpId: string,
    warpVersion: string,
    exports: seq<string>,
    cjsExports: Option<string>,
    freeFunctions: seq<string>,
    freeClasses: seq<string>,
    data: seq<ClassOut>,
    messages: seq<ClassOut>,
    services: seq<ServiceOut>)

  function PieceCodes(ps: seq<Piece>): seq<string>
  {
    seq(|ps|, i requires 0 <= i < |ps| => ps[i].code)
  }

  /** generateClient: the key and regenerate command must be given, then the index is read section by section. */
  function ClientOf(index: WarpIndex, userKey: string, regenCommand: string, isEsm: bool): Result<ClientIndex>
  {
    if userKey == "" then Err(Falsy("userKey"))
    else if regenCommand == "" then Err(Falsy("regenCommand"))
    else if HeaderFault(index).Some? then Err(HeaderFault(index).value)
    else
      var functions :- Each(FreeFunctionOut, (), index.freeFunctions);
      var free :- Each(FreeClassOut, (), index.freeClasses);
      var data :- Each(IdentifiedClassOut, DataKind, index.dataClasses);
      var messages :- Each(IdentifiedClassOut, MessageKind, index.messageClasses);
      var services :- Each(ServiceOutOf, (), index.serviceClasses);
      var exports := PieceNames(functions) + PieceNames(free) + ClassOutNames(data) + ClassOutNames(messages)
                     + ServiceNames(services);
      Ok(ClientIndex(isEsm, index.warpName, userKey, regenCommand,
                     Unsigned.Decimal(index.warpId), Unsigned.Decimal(index.warpVersion),
                     exports, if isEsm then None else Some(CommaList(exports)),
                     PieceCodes(functions), PieceCodes(free), data, messages, services))
  }

  function FunctionNames(fs: seq<FreeFunction>): seq<string>
  {
    seq(|fs|, i requires 0 <= i < |fs| => fs[i].functionName)
  }

  function ClassNames(cs: seq<ClassDecl>): seq<string>
  {
    seq(|cs|, i requires 0 <= i < |cs| => cs[i].className)
  }

  /**
   * The exports list every free function, then every free class, data
   * class, message class and service of the index, by name and in index order.
   */
  lemma ClientExportsInOrder(index: WarpIndex, userKey: string, regenCommand: string, isEsm: bool)
    requires ClientOf(index, userKey, regenCommand, isEsm).Ok?
    ensures ClientOf(index, userKey, regenCommand, isEsm).value.exports
            == FunctionNames(index.freeFunctions) + ClassNames(index.freeClasses) + ClassNames(index.dataClasses)
               + ClassNames(index.messageClasses) + ClassNames(index.serviceClasses)
  {
    var functions := Each(FreeFunctionOut, (), index.freeFunctions).value;
    var free := Each(FreeClassOut, (), index.freeClasses).value;
    var data := Each(IdentifiedClassOut, DataKind, index.dataClasses).value;
    var messages := Each(IdentifiedClassOut, MessageKind, index.messageClasses).value;
    var services := Each(ServiceOutOf, (), index.serviceClasses).value;
    assert PieceNames(functions) == FunctionNames(index.freeFunctions);
    assert PieceNames(free) == ClassNames(index.freeClasses);
    assert ClassOutNames(data) == ClassNames(index.dataClasses);
    assert ClassOutNames(messages) == ClassNames(index.messageClasses);
    assert ServiceNames(services) == ClassNames(index.serviceClasses);
  }

  /** A generated client has a non-zero id and version, and positive class and method ids throughout. */
  lemma ClientIdsPositive(index: WarpIndex, userKey: string, regenCommand: string, isEsm: bool)
    requires ClientOf(index, userKey, regenCommand, isEsm).Ok?
    ensures index.warpId > 0 && index.warpVersion > 0
    ensures forall i :: 0 <= i < |index.dataClasses| ==> index.dataClasses[i].classId > 0
    ensures forall i :: 0 <= i < |index.messageClasses| ==> index.messageClasses[i].classId > 0
    ensures forall i, j :: 0 <= i < |index.serviceClasses| && 0 <= j < |index.serviceClasses[i].methods|
                           ==> index.serviceClasses[i].classId > 0 && index.serviceClasses[i].methods[j].methodId > 0
  {
    assert Each(IdentifiedClassOut, DataKind, index.dataClasses).Ok?;
    assert Each(IdentifiedClassOut, MessageKind, index.messageClasses).Ok?;
    assert Each(ServiceOutOf, (), index.serviceClasses).Ok?;
    forall i, j | 0 <= i < |index.serviceClasses| && 0 <= j < |index.serviceClasses[i].methods|
      ensures index.serviceClasses[i].classId > 0 && index.serviceClasses[i].methods[j].methodId > 0
    {
      var c := index.serviceClasses[i];
      assert ServiceOutOf((), c).Ok?;
      assert ServiceMethodOutOf((), c.methods[j]).Ok?;
    }
  }

  /** The free functions of generateClient, in a loop. */
  method RenderFreeFunctions(fs: seq<FreeFunction>) returns (r: Result<seq<Piece>>)
    ensures r == Each(FreeFunctionOut, (), fs)
  {
    var out: seq<Piece> := [];
    for i := 0 to |fs|
      invariant Each(FreeFunctionOut, (), fs[..i]) == Ok(out)
    {
      var code := fs[i].sourceCode;
      if code == "" {
        EachStop(FreeFunctionOut, (), fs, i);
        return Err(EmptyIndexField("free function", "source code"));
      }
      var name := fs[i].functionName;
      if name == "" {
        EachStop(FreeFunctionOut, (), fs, i);
        return Err(EmptyIndexField("free function", "function name"));
      }
      EachStep(FreeFunctionOut, (), fs, i, out);
      out := out + [Piece(name, code)];
    }
    EachDone(FreeFunctionOut, (), fs, out);
    return Ok(out);
  }

  /** The free classes of generateClient, in a loop. */
  method RenderFreeClasses(cs: seq<ClassDecl>) returns (r: Result<seq<Piece>>)
    ensures r == Each(FreeClassOut, (), cs)
  {
    var out: seq<Piece> := [];
    for i := 0 to |cs|
      invariant Each(FreeClassOut, (), cs[..i]) == Ok(out)
    {
      var code := cs[i].sourceCode;
      if code == "" {
        EachStop(FreeClassOut, (), cs, i);
        return Err(EmptyIndexField("free class", "source code"));
      }
      var name := cs[i].className;
      if name == "" {
        EachStop(FreeClassOut, (), cs, i);
        return Err(EmptyIndexField("free class", "name"));
      }
      EachStep(FreeClassOut, (), cs, i, out);
      out := out + [Piece(name, code)];
    }
    EachDone(FreeClassOut, (), cs, out);
    return Ok(out);
  }

  /** The data or message classes of generateClient, in a loop. */
  method RenderIdentifiedClasses(kind: ClassKind, cs: seq<ClassDecl>) returns (r: Result<seq<ClassOut>>)
    ensures r == Each(IdentifiedClassOut, kind, cs)
  {
    var out: seq<ClassOut> := [];
    for i := 0 to |cs|
      invariant Each(IdentifiedClassOut, kind, cs[..i]) == Ok(out)
    {
      var c := cs[i];
      if c.className == "" {
        EachStop(IdentifiedClassOut, kind, cs, i);
        return Err(EmptyIndexField(What(kind), "name"));
      }
      if c.classId <= 0 {
        EachStop(IdentifiedClassOut, kind, cs, i);
        return Err(InvalidIndexId(What(kind), "class id"));
      }
      if c.sourceCode == "" {
        EachStop(IdentifiedClassOut, kind, cs, i);
        return Err(EmptyIndexField(What(kind), "source code"));
      }
      EachStep(IdentifiedClassOut, kind, cs, i, out);
      out := out + [ClassOut(c.className, c.classId, c.sourceCode)];
    }
    EachDone(IdentifiedClassOut, kind, cs, out);
    return Ok(out);
  }

  /** One service method: its argument names are collected in a loop. */
  method RenderServiceMethod(m: MethodDecl) returns (r: Result<ServiceMethodOut>)
    ensures r == ServiceMethodOutOf((), m)
  {
    if m.methodName == "" {
      return Err(EmptyIndexField("service method", "name"));
    }
    if m.methodId <= 0 {
      return Err(InvalidIndexId("service method", "method id"));
    }
    var names: seq<string> := [];
    for k := 0 to |m.args|
      invariant Each(ArgNameOut, (), m.args[..k]) == Ok(names)
    {
      var name := m.args[k].name;
      if name == "" {
        EachStop(ArgNameOut, (), m.args, k);
        return Err(EmptyIndexField("service method argument", "name"));
      }
      EachStep(ArgNameOut, (), m.args, k, names);
      names := names + [name];
    }
    EachDone(ArgNameOut, (), m.args, names);
    var pass := "";
    if |names| > 0 {
      pass := ArgSeparator + CommaList(names);
    }
    return Ok(ServiceMethodOut(m.methodName, CommaList(names), m.methodId, pass));
  }

  /** One service class: its methods are rendered in a loop. */
  method RenderService(c: ClassDecl) returns (r: Result<ServiceOut>)
    ensures r == ServiceOutOf((), c)
  {
    if c.className == "" {
      return Err(EmptyIndexField("service class", "name"));
    }
    if c.classId <= 0 {
      return Err(InvalidIndexId("service class", "class id"));
    }
    var methods: seq<ServiceMethodOut> := [];
    for j := 0 to |c.methods|
      invariant Each(ServiceMethodOutOf, (), c.methods[..j]) == Ok(methods)
    {
      var m := RenderServiceMethod(c.methods[j]);
      if m.Err? {
        EachStop(ServiceMethodOutOf, (), c.methods, j);
        return Err(m.error);
      }
      EachStep(ServiceMethodOutOf, (), c.methods, j, methods);
      methods := methods + [m.value];
    }
    EachDone(ServiceMethodOutOf, (), c.methods, methods);
    return Ok(ServiceOut(c.className, c.classId, methods));
  }

  /** The services of generateClient, in a loop. */
  method RenderServices(cs: seq<ClassDecl>) returns (r: Result<seq<ServiceOut>>)
    ensures r == Each(ServiceOutOf, (), cs)
  {
    var out: seq<ServiceOut> := [];
    for i := 0 to |cs|
      invariant Each(ServiceOutOf, (), cs[..i]) == Ok(out)
    {
      var s := RenderService(cs[i]);
      if s.Err? {
        EachStop(ServiceOutOf, (), cs, i);
        return Err(s.error);
      }
      EachStep(ServiceOutOf, (), cs, i, out);
      out := out + [s.value];
    }
    EachDone(ServiceOutOf, (), cs, out);
    return Ok(out);
  }

  /** generateClient: the guards, then each section, each pushing its exports in turn. */
  method GenerateClient(index: WarpIndex, userKey: string, regenCommand: string, isEsm: bool)
    returns (r: Result<ClientIndex>)
    ensures r == ClientOf(index, userKey, regenCommand, isEsm)
  {
    if userKey == "" {
      return Err(Falsy("userKey"));
    }
    if regenCommand == "" {
      return Err(Falsy("regenCommand"));
    }
    if index.warpName == "" {
      return Err(EmptyIndexField(IndexOwner, "name"));
    }
    if index.warpId == 0 {
      return Err(InvalidIndexId(IndexOwner, "warp id"));
    }
    if index.warpVersion == 0 {
      return Err(InvalidIndexId(IndexOwner, "warp version"));
    }
    var clientExports: seq<string> := [];
    var functions :- RenderFreeFunctions(index.freeFunctions);
    clientExports := clientExports + PieceNames(functions);
    var free :- RenderFreeClasses(index.freeClasses);
    clientExports := clientExports + PieceNames(free);
    var data :- RenderIdentifiedClasses(DataKind, index.dataClasses);
    clientExports := clientExports + ClassOutNames(data);
    var messages :- RenderIdentifiedClasses(MessageKind, index.messageClasses);
    clientExports := clientExports + ClassOutNames(messages);
    var services :- RenderServices(index.serviceClasses);
    clientExports := clientExports + ServiceNames(services);
    var cjsExports: Option<string> := None;
    if !isEsm {
      cjsExports := Some(CommaList(clientExports));
    }
    assert [] + PieceNames(functions) == PieceNames(functions);
    return Ok(ClientIndex(isEsm, index.warpName, userKey, regenCommand,
                          Unsigned.Decimal(index.warpId), Unsigned.Decimal(index.warpVersion),
                          clientExports, cjsExports, PieceCodes(functions), PieceCodes(free),
                          data, messages, services));
  }

  // ---------------------------------------------------------------------
  // createClient.

  const WarpWord := "warp"

  /**
   * The npm package name: the lower-cased warp name when it contains
   * "warp", otherwise that name with "-warp" appended, without doubling a
   * trailing '-'.
   */
  function PackageNameOf(warpName: string): (packageName: string)
    ensures Contains(packageName, WarpWord)
    ensures Lower(packageName) == packageName
    ensures Contains(Lower(warpName), WarpWord) ==> packageName == Lower(warpName)
    ensures !Contains(Lower(warpName), WarpWord) && EndsWith(Lower(warpName), "-") ==>
              packageName == Lower(warpName) + "warp"
    ensures !Contains(Lower(warpName), WarpWord) && !EndsWith(Lower(warpName), "-") ==>
              packageName == Lower(warpName) + "-warp"
  {
    var canonical := Lower(warpName);
    LowerIdempotent(warpName);
    if Contains(canonical, WarpWord) then canonical
    else
      var name := if EndsWith(canonical, "-") then canonical + WarpWord else canonical + "-" + WarpWord;
      LowerSuffix(canonical, name);
      assert OccursAt(name, WarpWord, |name| - 4);
      name
  }

  /** createClient's derivation of the package name, step by step. */
  method PackageName(warpName: string) returns (packageName: string)
    ensures packageName == PackageNameOf(warpName)
  {
    var canonical := Lower(warpName);
    if !Contains(canonical, WarpWord) {
      packageName := canonical;
      if !EndsWith(canonical, "-") {
        packageName := packageName + "-";
      }
      packageName := packageName + WarpWord;
    } else {
      packageName := canonical;
    }
  }

  /** A lower-case string followed by lower-case "-" and "warp" is lower-case. */
  lemma LowerSuffix(canonical: string, name: string)
    requires Lower(canonical) == canonical
    requires name == canonical + "-warp" || name == canonical + "warp"
    ensures Lower(name) == name
  {
    forall i | 0 <= i < |name| ensures Lower(name)[i] == name[i] {
      if i < |canonical| {
        assert name[i] == canonical[i];
        assert Lower(canonical)[i] == LowerChar(canonical[i]);
      }
    }
  }

  /** The root package's version: the warp version as the major version. */
  function RootPackageVersion(warpVersion: nat): (v: string)
    ensures |v| > 4 && v[|v| - 4..] == ".0.0" && Unsigned.AllDigits(v[..|v| - 4])
  {
    Unsigned.Decimal(warpVersion) + ".0.0"
  }

  /** The major version reads back as the warp version. */
  lemma RootPackageMajor(warpVersion: nat)
    ensures var v := RootPackageVersion(warpVersion);
            Unsigned.DigitsValue(v[..|v| - 4]) == warpVersion
  {
    var v := RootPackageVersion(warpVersion);
    assert v[..|v| - 4] == Unsigned.Decimal(warpVersion);
    Unsigned.DecimalValue(warpVersion);
  }

  const GeneratedClientsDir := ".stackless/generated-clients/"

  /** Where the generated package goes, relative to the project: one directory per lower-cased warp name. */
  function RelRootPath(warpName: string): (p: string)
    ensures |p| >= |GeneratedClientsDir| && p[..|GeneratedClientsDir|] == GeneratedClientsDir
    ensures p[|GeneratedClientsDir|..] == Lower(warpName)
  {
    GeneratedClientsDir + Lower(warpName)
  }

  datatype RootPackage = RootPackage(packageName: string, version: string)

  /** What createClient produces and reports back. */
  datatype CreatedClient = CreatedClient(
    packageName: string,
    relRootPath: string,
    wasUpdate: bool,
    rootPackage: RootPackage,
    defs: Defs,
    cjs: ClientIndex,
    esm: ClientIndex)

  /**
   * createClient: the project directory must exist and the index must
   * name the warp; the package name is derived, the version must be
   * non-zero, then the definitions and both client flavours are generated.
   * The output directory is replaced when it exists, which makes the call
   * an update.
   */
  method CreateClient(existing: set<string>, userKey: string, index: WarpIndex, regenCommand: string,
                      projectDir: string) returns (r: Result<CreatedClient>)
    ensures r.Ok? <==> projectDir in existing && index.warpName != "" && index.warpVersion != 0
                       && DefsOf(index).Ok? && ClientOf(index, userKey, regenCommand, false).Ok?
                       && ClientOf(index, userKey, regenCommand, true).Ok?
    ensures r.Ok? ==> r.value.packageName == PackageNameOf(index.warpName)
                      && r.value.relRootPath == RelRootPath(index.warpName)
                      && r.value.rootPackage == RootPackage(r.value.packageName, RootPackageVersion(index.warpVersion))
                      && (r.value.wasUpdate <==> Join(projectDir, RelRootPath(index.warpName)) in existing)
                      && r.value.defs == DefsOf(index).value
                      && r.value.cjs == ClientOf(index, userKey, regenCommand, false).value
                      && r.value.esm == ClientOf(index, userKey, regenCommand, true).value
  {
    if projectDir !in existing {
      return Err(Refused("project directory"));
    }
    var warpName := index.warpName;
    if warpName == "" {
      return Err(EmptyIndexField(IndexOwner, "name"));
    }
    var packageName := PackageName(warpName);
    if index.warpVersion == 0 {
      return Err(InvalidIndexId(IndexOwner, "warp version"));
    }
    var rootPackage := RootPackage(packageName, RootPackageVersion(index.warpVersion));
    var defs :- GenerateDefs(index);
    var cjs :- GenerateClient(index, userKey, regenCommand, false);
    var esm :- GenerateClient(index, userKey, regenCommand, true);
    var relRootPath := RelRootPath(warpName);
    var rootDir := Join(projectDir, relRootPath);
    var isUpdate := false;
    if rootDir in existing {
      isUpdate := true;
    }
    return Ok(CreatedClient(packageName, relRootPath, isUpdate, rootPackage, defs, cjs, esm));
  }
}
