/**
  Lowering the body of a fiber: every await gets the fiber's brand, except on a lexical scope that
  is awaited on the spot, and only syntax whose await boundaries can be audited is let through.
*/
module FiberLowering {
  import opened Outcomes

  // ----- Syntax -----

  datatype Path = Path(leading: bool, segments: seq<string>)

  datatype Body = Word | NameValue | List(readable: bool, metas: seq<Meta>)

  /** An attribute; a list carries the attributes it reads as, if it does. */
  datatype Meta = Meta(path: Path, body: Body)

  /** How the tokens of a macro read; `prefixes` stand before the parts of a logging call. */
  datatype Shape =
    | Listed(prefixes: seq<nat>)
    | Matched(pattern: nat, guarded: bool, message: bool)
    | Repeated
    | Raw(text: nat)

  /** Macro input: its expressions in source order, and what surrounds them. */
  datatype Tokens = Tokens(shape: Shape, parts: seq<Expr>)

  datatype Form = Return | Break | Continue | Try

  /**
    Expressions, statements and blocks as far as lowering tells them apart. `Wrapped` and `Logged`
    are what it writes: an await that lends the brand, and a logging call in a synchronous closure.
  */
  datatype Expr =
    | Node(kind: nat, attrs: seq<Meta>, parts: seq<Expr>)
    | Control(form: Form, attrs: seq<Meta>, parts: seq<Expr>)
    | Await(attrs: seq<Meta>, base: Expr)
    | Async(moves: bool, attrs: seq<Meta>, parts: seq<Expr>)
    | Paren(grouped: bool, attrs: seq<Meta>, base: Expr)
    | Callable(kind: nat, asyncness: bool, attrs: seq<Meta>, parts: seq<Expr>)
    | Macro(path: Path, attrs: seq<Meta>, tokens: Tokens)
    | Wrapped(attrs: seq<Meta>, base: Expr)
    | Logged(path: Path, attrs: seq<Meta>, tokens: Tokens)

  datatype Kind =
    | MacroAwait
    | Expressions
    | Matches
    | Vec
    | AsyncScope
    | Pin
    | MacroControl
    | Attribute

  datatype Failure =
    | AtExpr(kind: Kind, expr: Expr)
    | AtMeta(kind: Kind, meta: Meta)
    | AtMacro(kind: Kind, path: Path)
    | Syntax(kind: Kind)

  // ----- Attributes -----

  const HARMLESS: seq<string> :=
    ["cfg", "doc", "allow", "expect", "warn", "deny", "forbid", "inline", "cold", "must_use", "deprecated", "track_caller"]

  predicate IsIdent(path: Path, name: string) {
    !path.leading && path.segments == [name]
  }

  predicate IsHarmless(path: Path) {
    !path.leading && |path.segments| == 1 && path.segments[0] in HARMLESS
  }

  function MetaFaults(meta: Meta): seq<Failure>
    decreases meta
  {
    if IsHarmless(meta.path) then []
    else if !meta.body.List? || !IsIdent(meta.path, "cfg_attr") then [AtMeta(Attribute, meta)]
    else if !meta.body.readable then [Syntax(Attribute)]
    else if meta.body.metas == [] then []
    else AttrFaults(meta.body.metas[1..])
  }

  function AttrFaults(attrs: seq<Meta>): seq<Failure>
    decreases attrs
  {
    if attrs == [] then [] else MetaFaults(attrs[0]) + AttrFaults(attrs[1..])
  }

  // ----- Macros -----

  datatype Root = Core | Std | Alloc

  datatype Reading = AsMatches | AsMatchAssert | AsVec | AsExpressions | AsLiteral

  datatype Entry = Entry(name: string, roots: set<Root>, reading: Reading)

  const STD: set<Root> := {Std}
  const CORE: set<Root> := {Core, Std}
  const ALLOC: set<Root> := {Alloc, Std}
  const ALL: set<Root> := {Core, Std, Alloc}

  const STANDARD: seq<Entry> := [
    Entry("matches", CORE, AsMatches),
    Entry("assert_matches", CORE, AsMatchAssert),
    Entry("debug_assert_matches", CORE, AsMatchAssert),
    Entry("vec", ALLOC, AsVec),
    Entry("format", ALLOC, AsExpressions),
    Entry("print", STD, AsExpressions),
    Entry("println", STD, AsExpressions),
    Entry("eprint", STD, AsExpressions),
    Entry("eprintln", STD, AsExpressions),
    Entry("dbg", STD, AsExpressions),
    Entry("assert", ALL, AsExpressions),
    Entry("assert_eq", ALL, AsExpressions),
    Entry("assert_ne", ALL, AsExpressions),
    Entry("debug_assert", ALL, AsExpressions),
    Entry("debug_assert_eq", ALL, AsExpressions),
    Entry("debug_assert_ne", ALL, AsExpressions),
    Entry("panic", ALL, AsExpressions),
    Entry("unreachable", ALL, AsExpressions),
    Entry("todo", ALL, AsExpressions),
    Entry("unimplemented", ALL, AsExpressions),
    Entry("format_args", ALL, AsExpressions),
    Entry("write", ALL, AsExpressions),
    Entry("writeln", ALL, AsExpressions),
    Entry("cfg", ALL, AsLiteral),
    Entry("column", ALL, AsLiteral),
    Entry("concat", ALL, AsLiteral),
    Entry("env", ALL, AsLiteral),
    Entry("file", ALL, AsLiteral),
    Entry("line", ALL, AsLiteral),
    Entry("module_path", ALL, AsLiteral),
    Entry("option_env", ALL, AsLiteral),
    Entry("stringify", ALL, AsLiteral)
  ]

  const LEVELS: seq<string> := ["trace", "debug", "info", "warn", "error"]

  function Lookup(table: seq<Entry>, name: string): Option<Entry> {
    if table == [] then None else if table[0].name == name then Some(table[0]) else Lookup(table[1..], name)
  }

  predicate IsLogging(path: Path) {
    |path.segments| == 2 && path.segments[0] == "tracing" && path.segments[1] in LEVELS
  }

  /** A bare macro binds to core when it has a home there, otherwise to std. */
  function RootOf(path: Path, roots: set<Root>): Option<Root> {
    if !path.leading && |path.segments| == 1 then Some(if Core in roots then Core else Std)
    else if |path.segments| != 2 then None
    else if path.segments[0] == "core" then Some(Core)
    else if path.segments[0] == "std" then Some(Std)
    else if path.segments[0] == "alloc" then Some(Alloc)
    else None
  }

  function RootName(root: Root): string {
    match root case Core => "core" case Std => "std" case Alloc => "alloc"
  }

  /** The table entry of a macro named under one of its homes. */
  function Listing(path: Path): Option<(Entry, Root)> {
    if path.segments == [] then None else
    match Lookup(STANDARD, path.segments[|path.segments| - 1])
    case None => None
    case Some(entry) =>
      match RootOf(path, entry.roots)
      case None => None
      case Some(root) => if root in entry.roots then Some((entry, root)) else None
  }

  function Rooted(path: Path): Path {
    match Listing(path)
    case None => path
    case Some((entry, root)) => Path(true, [RootName(root), entry.name])
  }

  /** Whether macro input reads as its kind expects; the kind of failure if not. */
  function Misread(reading: Reading, shape: Shape): Option<Kind> {
    match reading
    case AsLiteral => None
    case AsExpressions => if IsPlainList(shape) then None else Some(Expressions)
    case AsMatches => if shape.Matched? && !shape.message then None else Some(Matches)
    case AsMatchAssert => if shape.Matched? then None else Some(Matches)
    case AsVec => if IsPlainList(shape) || shape.Repeated? then None else Some(Vec)
  }

  predicate IsPlainList(shape: Shape) {
    shape.Listed? && forall p | p in shape.prefixes :: p == 0
  }

  // ----- The same tables by name -----

  /** Attributes that cannot rewrite what they stand on. */
  predicate CannotRewrite(path: Path) {
    && !path.leading && |path.segments| == 1
    && path.segments[0] in {
         "cfg", "doc", "allow", "expect", "warn", "deny", "forbid", "inline", "cold", "must_use", "deprecated", "track_caller"
       }
  }

  predicate IsLogCall(path: Path) {
    && |path.segments| == 2 && path.segments[0] == "tracing"
    && path.segments[1] in {"trace", "debug", "info", "warn", "error"}
  }

  /** Macros that take literals or source text, which no await can stand in. */
  predicate IsInertName(name: string) {
    name in {"cfg", "column", "concat", "env", "file", "line", "module_path", "option_env", "stringify"}
  }

  predicate IsPrinting(name: string) {
    name in {"print", "println", "eprint", "eprintln", "dbg"}
  }

  predicate IsMatching(name: string) {
    name in {"matches", "assert_matches", "debug_assert_matches"}
  }

  predicate IsAllocating(name: string) {
    name in {"vec", "format"}
  }

  predicate IsChecking(name: string) {
    name in {
      "assert", "assert_eq", "assert_ne", "debug_assert", "debug_assert_eq", "debug_assert_ne",
      "panic", "unreachable", "todo", "unimplemented", "format_args", "write", "writeln"
    }
  }

  predicate IsHome(name: string, home: string) {
    || (home == "std" && (IsPrinting(name) || IsMatching(name) || IsAllocating(name) || IsChecking(name) || IsInertName(name)))
    || (home == "core" && (IsMatching(name) || IsChecking(name) || IsInertName(name)))
    || (home == "alloc" && (IsAllocating(name) || IsChecking(name) || IsInertName(name)))
  }

  function NameOf(path: Path): string
    requires path.segments != []
  {
    path.segments[|path.segments| - 1]
  }

  /** Where an auditable macro lives: its name stands alone, and then core goes before std, or under one of its homes. */
  function Home(path: Path): Option<string> {
    if path.segments == [] then None
    else if !path.leading && |path.segments| == 1 then
      if IsHome(NameOf(path), "core") then Some("core")
      else if IsHome(NameOf(path), "std") then Some("std") else None
    else if |path.segments| == 2 && IsHome(NameOf(path), path.segments[0]) then Some(path.segments[0])
    else None
  }

  /** The macro named under its home; one without a home keeps its name. */
  function AtHome(path: Path): Path {
    if Home(path).None? then path else Path(true, [Home(path).value, NameOf(path)])
  }

  predicate IsInert(path: Path) {
    Home(path).Some? && IsInertName(NameOf(path))
  }

  /** Whether the macro of this name can be read in this shape. */
  predicate Reads(name: string, shape: Shape) {
    if IsInertName(name) then true
    else if name == "matches" then shape.Matched? && !shape.message
    else if name == "assert_matches" || name == "debug_assert_matches" then shape.Matched?
    else
      || (shape.Listed? && forall i | 0 <= i < |shape.prefixes| :: shape.prefixes[i] == 0)
      || (name == "vec" && shape.Repeated?)
  }

  /** What is wrong with a macro of this name that cannot be read. */
  function Unreadable(name: string): Kind {
    if IsMatching(name) then Matches else if name == "vec" then Vec else Expressions
  }

  lemma HarmlessByName(path: Path)
    ensures IsHarmless(path) <==> CannotRewrite(path)
  {
    if |path.segments| == 1 {
      var name := path.segments[0];
      assert name in HARMLESS <==> exists i :: 0 <= i < 12 && HARMLESS[i] == name;
      assert HARMLESS[0] == "cfg" && HARMLESS[1] == "doc" && HARMLESS[2] == "allow" && HARMLESS[3] == "expect";
      assert HARMLESS[4] == "warn" && HARMLESS[5] == "deny" && HARMLESS[6] == "forbid" && HARMLESS[7] == "inline";
      assert HARMLESS[8] == "cold" && HARMLESS[9] == "must_use" && HARMLESS[10] == "deprecated" && HARMLESS[11] == "track_caller";
    }
  }

  lemma LoggingByName(path: Path)
    ensures IsLogging(path) <==> IsLogCall(path)
  {
  }

  /** An entry of the table is what its name says. */
  predicate IsTrue(e: Entry) {
    && (Std in e.roots <==> IsHome(e.name, "std"))
    && (Core in e.roots <==> IsHome(e.name, "core"))
    && (Alloc in e.roots <==> IsHome(e.name, "alloc"))
    && (e.reading.AsLiteral? <==> IsInertName(e.name))
    && (e.reading.AsMatches? <==> e.name == "matches")
    && (e.reading.AsMatchAssert? <==> e.name == "assert_matches" || e.name == "debug_assert_matches")
    && (e.reading.AsVec? <==> e.name == "vec")
    && (IsMatching(e.name) <==> e.reading.AsMatches? || e.reading.AsMatchAssert?)
  }

  lemma MatchingEntries(i: nat)
    requires i < 3
    ensures IsTrue(STANDARD[i])
  {
  }

  lemma AllocatingEntries(i: nat)
    requires 3 <= i < 5
    ensures IsTrue(STANDARD[i])
  {
  }

  lemma PrintingEntries(i: nat)
    requires 5 <= i < 7
    ensures IsTrue(STANDARD[i])
  {
  }

  lemma ErrorPrintingEntries(i: nat)
    requires 7 <= i < 10
    ensures IsTrue(STANDARD[i])
  {
  }

  lemma CheckingEntries(i: nat)
    requires 10 <= i < 23
    ensures IsTrue(STANDARD[i])
  {
  }

  lemma InertEntries(i: nat)
    requires 23 <= i < 32
    ensures IsTrue(STANDARD[i])
  {
  }

  lemma EntriesAreTrue(entry: Entry)
    requires entry in STANDARD
    ensures IsTrue(entry)
  {
    var i: nat :| i < |STANDARD| && STANDARD[i] == entry;
    if i < 3 { MatchingEntries(i); }
    else if i < 5 { AllocatingEntries(i); }
    else if i < 7 { PrintingEntries(i); }
    else if i < 10 { ErrorPrintingEntries(i); }
    else if i < 23 { CheckingEntries(i); }
    else { InertEntries(i); }
  }

  predicate IsListed(name: string) {
    exists i :: 0 <= i < |STANDARD| && STANDARD[i].name == name
  }

  lemma ListedAt(i: nat, name: string)
    requires i < |STANDARD| && STANDARD[i].name == name
    ensures IsListed(name)
  {
  }

  lemma MatchingNamesAreListed(name: string)
    requires IsMatching(name)
    ensures IsListed(name)
  {
    match name {
      case "matches" => ListedAt(0, name);
      case "assert_matches" => ListedAt(1, name);
      case "debug_assert_matches" => ListedAt(2, name);
    }
  }

  lemma AllocatingNamesAreListed(name: string)
    requires IsAllocating(name)
    ensures IsListed(name)
  {
    match name {
      case "vec" => ListedAt(3, name);
      case "format" => ListedAt(4, name);
    }
  }

  lemma PrintingNamesAreListed(name: string)
    requires IsPrinting(name)
    ensures IsListed(name)
  {
    match name {
      case "print" => ListedAt(5, name);
      case "println" => ListedAt(6, name);
      case "eprint" => ListedAt(7, name);
      case "eprintln" => ListedAt(8, name);
      case "dbg" => ListedAt(9, name);
    }
  }

  lemma CheckingNamesAreListed(name: string)
    requires IsChecking(name)
    ensures IsListed(name)
  {
    match name {
      case "assert" => ListedAt(10, name);
      case "assert_eq" => ListedAt(11, name);
      case "assert_ne" => ListedAt(12, name);
      case "debug_assert" => ListedAt(13, name);
      case "debug_assert_eq" => ListedAt(14, name);
      case "debug_assert_ne" => ListedAt(15, name);
      case "panic" => ListedAt(16, name);
      case "unreachable" => ListedAt(17, name);
      case "todo" => ListedAt(18, name);
      case "unimplemented" => ListedAt(19, name);
      case "format_args" => ListedAt(20, name);
      case "write" => ListedAt(21, name);
      case "writeln" => ListedAt(22, name);
    }
  }

  lemma InertNamesAreListed(name: string)
    requires IsInertName(name)
    ensures IsListed(name)
  {
    match name {
      case "cfg" => ListedAt(23, name);
      case "column" => ListedAt(24, name);
      case "concat" => ListedAt(25, name);
      case "env" => ListedAt(26, name);
      case "file" => ListedAt(27, name);
      case "line" => ListedAt(28, name);
      case "module_path" => ListedAt(29, name);
      case "option_env" => ListedAt(30, name);
      case "stringify" => ListedAt(31, name);
    }
  }

  lemma EveryNameIsListed(name: string)
    requires IsHome(name, "std")
    ensures IsListed(name)
  {
    if IsMatching(name) { MatchingNamesAreListed(name); }
    else if IsAllocating(name) { AllocatingNamesAreListed(name); }
    else if IsPrinting(name) { PrintingNamesAreListed(name); }
    else if IsChecking(name) { CheckingNamesAreListed(name); }
    else { InertNamesAreListed(name); }
  }

  lemma {:induction false} LookupFinds(table: seq<Entry>, name: string)
    ensures match Lookup(table, name)
            case Some(e) => e.name == name && e in table
            case None => forall i | 0 <= i < |table| :: table[i].name != name
  {
    if table != [] { LookupFinds(table[1..], name); }
  }

  lemma EntryByName(path: Path, entry: Entry)
    requires path.segments != [] && entry.name == NameOf(path) && IsTrue(entry)
    ensures match RootOf(path, entry.roots)
            case None => Home(path) == None
            case Some(root) => Home(path) == if root in entry.roots then Some(RootName(root)) else None
  {
  }

  /** What the table says of a macro, by its name. */
  lemma ListingByName(path: Path)
    ensures Listing(path).Some? <==> Home(path).Some?
    ensures Listing(path).Some? ==>
              var (entry, root) := Listing(path).value;
              && path.segments != [] && entry.name == NameOf(path) && Home(path) == Some(RootName(root)) && IsTrue(entry)
  {
    if path.segments != [] {
      var name := NameOf(path);
      LookupFinds(STANDARD, name);
      match Lookup(STANDARD, name)
      case Some(entry) =>
        EntriesAreTrue(entry);
        EntryByName(path, entry);
      case None =>
        if IsHome(name, "std") { EveryNameIsListed(name); }
    }
  }

  /** A macro ends up under its home, and is looked into unless its name says that nothing can stand in it. */
  lemma RootedByName(path: Path)
    ensures Rooted(path) == AtHome(path)
    ensures IsLiteral(path) <==> IsInert(path)
  {
    ListingByName(path);
  }

  lemma PinHasNoHome(path: Path)
    requires path.segments != [] && NameOf(path) == "pin"
    ensures Home(path).None?
  {
  }

  /** A logging call is no listed macro. */
  lemma LogCallHasNoHome(path: Path)
    requires IsLogCall(path)
    ensures Home(path).None?
  {
    assert "tracing"[0] == 't' && "core"[0] == 'c' && "std"[0] == 's' && "alloc"[0] == 'a';
  }

  lemma MisreadByName(path: Path, shape: Shape)
    requires Listing(path).Some?
    ensures path.segments != []
    ensures Misread(Listing(path).value.0.reading, shape)
         == if Reads(NameOf(path), shape) then None else Some(Unreadable(NameOf(path)))
  {
    ListingByName(path);
    if shape.Listed? && IsPlainList(shape) {
      assert forall i | 0 <= i < |shape.prefixes| :: shape.prefixes[i] in shape.prefixes;
    }
  }

  // ----- Faults, in source order -----

  /** A lexical scope that may be awaited on the spot: no capture, no attributes, at most parenthesized. */
  predicate IsScope(e: Expr)
    decreases e
  {
    (e.Async? && !e.moves && e.attrs == []) || (e.Paren? && e.attrs == [] && IsScope(e.base))
  }

  /**
    Everything lowering objects to, in the order it meets it; `sync` inside the arguments of a
    logging call. The bodies of closures and nested functions are not looked into.
  */
  function Faults(e: Expr, sync: bool): seq<Failure>
    decreases e, 0
  {
    if sync && (e.Await? || e.Control?) then [AtExpr(MacroControl, e)] else
    match e
    case Node(_, attrs, parts) => AttrFaults(attrs) + FaultsIn(parts, sync)
    case Control(_, attrs, parts) => AttrFaults(attrs) + FaultsIn(parts, sync)
    case Await(attrs, base) =>
      AttrFaults(attrs) + if attrs == [] && IsScope(base) then ScopeFaults(base, sync) else Faults(base, sync)
    case Async(_, _, _) => [AtExpr(AsyncScope, e)]
    case Paren(_, attrs, base) => AttrFaults(attrs) + Faults(base, sync)
    case Callable(_, asyncness, attrs, _) => AttrFaults(attrs) + if asyncness then [AtExpr(AsyncScope, e)] else []
    case Macro(path, attrs, tokens) => AttrFaults(attrs) + MacroFaults(path, tokens, sync)
    case Wrapped(attrs, base) => AttrFaults(attrs) + Faults(base, sync)
    case Logged(_, attrs, tokens) => AttrFaults(attrs)
  }

  function ScopeFaults(e: Expr, sync: bool): seq<Failure>
    requires IsScope(e)
    decreases e, 0
  {
    if e.Async? then FaultsIn(e.parts, sync) else ScopeFaults(e.base, sync)
  }

  function FaultsIn(parts: seq<Expr>, sync: bool): seq<Failure>
    decreases parts, 0
  {
    if parts == [] then [] else
    FaultsIn(parts[..|parts| - 1], sync) + Faults(parts[|parts| - 1], sync)
  }

  function MacroFaults(path: Path, tokens: Tokens, sync: bool): seq<Failure>
    decreases tokens, 1
  {
    if IsLogging(path) then
      if !tokens.shape.Listed? then [Syntax(MacroControl)] else FaultsIn(tokens.parts, true)
    else if path.segments == [] then [AtMacro(MacroAwait, path)]
    else if path.segments[|path.segments| - 1] == "pin" then [AtMacro(Pin, path)]
    else
      match Listing(path)
      case None => [AtMacro(MacroAwait, path)]
      case Some((entry, _)) =>
        match Misread(entry.reading, tokens.shape)
        case Some(kind) => [Syntax(kind)]
        case None => if entry.reading.AsLiteral? then [] else FaultsIn(tokens.parts, sync)
  }

  // ----- The lowered tree -----

  function Lowered(e: Expr): Expr
    decreases e, 0
  {
    match e
    case Node(kind, attrs, parts) => Node(kind, attrs, LoweredIn(parts))
    case Control(form, attrs, parts) => Control(form, attrs, LoweredIn(parts))
    case Await(attrs, base) =>
      if attrs == [] && IsScope(base) then Await(attrs, LoweredScope(base)) else Wrapped(attrs, Lowered(base))
    case Async(_, _, _) => e
    case Paren(grouped, attrs, base) => Paren(grouped, attrs, Lowered(base))
    case Callable(_, _, _, _) => e
    case Macro(path, attrs, tokens) =>
      if IsLogging(path) then Logged(path, attrs, Tokens(tokens.shape, LoweredIn(tokens.parts)))
      else Macro(Rooted(path), attrs, if IsLiteral(path) then tokens else Tokens(tokens.shape, LoweredIn(tokens.parts)))
    case Wrapped(attrs, base) => Wrapped(attrs, Lowered(base))
    case Logged(_, _, _) => e
  }

  predicate IsLiteral(path: Path) {
    Listing(path).Some? && Listing(path).value.0.reading.AsLiteral?
  }

  function LoweredScope(e: Expr): Expr
    requires IsScope(e)
    decreases e, 0
  {
    if e.Async? then Async(false, [], LoweredIn(e.parts)) else Paren(e.grouped, [], LoweredScope(e.base))
  }

  function LoweredIn(parts: seq<Expr>): (r: seq<Expr>)
    ensures |r| == |parts|
    decreases parts, 0
  {
    if parts == [] then [] else
    LoweredIn(parts[..|parts| - 1]) + [Lowered(parts[|parts| - 1])]
  }

  lemma {:induction false} LoweredAt(parts: seq<Expr>, i: nat)
    requires i < |parts|
    ensures LoweredIn(parts)[i] == Lowered(parts[i])
    decreases |parts|
  {
    if i < |parts| - 1 { LoweredAt(parts[..|parts| - 1], i); }
  }

  lemma {:induction false} FaultsAt(parts: seq<Expr>, sync: bool)
    ensures FaultsIn(parts, sync) == [] <==> forall i | 0 <= i < |parts| :: Faults(parts[i], sync) == []
    decreases |parts|
  {
    if parts != [] {
      var init, n := parts[..|parts| - 1], |parts| - 1;
      FaultsAt(init, sync);
      assert forall i | 0 <= i < n :: init[i] == parts[i];
      if FaultsIn(parts, sync) == [] {
        forall i | 0 <= i < |parts| ensures Faults(parts[i], sync) == [] {
          if i < n { assert Faults(init[i], sync) == []; }
        }
      }
    }
  }

  // ----- What lowering lets through -----

  predicate HarmlessMeta(meta: Meta)
    decreases meta
  {
    || CannotRewrite(meta.path)
    || (meta.body.List? && meta.path == Path(false, ["cfg_attr"]) && meta.body.readable
        && forall i | 1 <= i < |meta.body.metas| :: HarmlessMeta(meta.body.metas[i]))
  }

  predicate Harmless(attrs: seq<Meta>) {
    forall i | 0 <= i < |attrs| :: HarmlessMeta(attrs[i])
  }

  lemma {:induction false} MetaFaultsExactly(meta: Meta)
    ensures MetaFaults(meta) == [] <==> HarmlessMeta(meta)
    decreases meta, 0
  {
    HarmlessByName(meta.path);
    if meta.body.List? && meta.body.metas != [] {
      var rest := meta.body.metas[1..];
      AttrFaultsExactly(rest);
      assert forall i | 0 <= i < |rest| :: rest[i] == meta.body.metas[i + 1];
      assert forall i | 1 <= i < |meta.body.metas| :: meta.body.metas[i] == rest[i - 1];
    }
  }

  lemma {:induction false} AttrFaultsExactly(attrs: seq<Meta>)
    ensures AttrFaults(attrs) == [] <==> Harmless(attrs)
    decreases attrs, 0
  {
    if attrs != [] {
      MetaFaultsExactly(attrs[0]);
      AttrFaultsExactly(attrs[1..]);
      assert forall i | 1 <= i < |attrs| :: attrs[i] == attrs[1..][i - 1];
    }
  }

  /** Admissible in a fiber body; `sync` for what stands in the arguments of a logging call. */
  predicate Admissible(e: Expr, sync: bool)
    decreases e, 0
  {
    && Harmless(e.attrs)
    && match e
       case Node(_, _, parts) => forall i | 0 <= i < |parts| :: Admissible(parts[i], sync)
       case Control(_, _, parts) => !sync && forall i | 0 <= i < |parts| :: Admissible(parts[i], sync)
       case Await(attrs, base) => !sync && (Admissible(base, sync) || (attrs == [] && AdmissibleScope(base)))
       case Async(_, _, _) => false
       case Paren(_, _, base) => Admissible(base, sync)
       case Callable(_, asyncness, _, _) => !asyncness
       case Macro(path, _, tokens) => AdmissibleMacro(path, tokens, sync)
       case Wrapped(_, base) => Admissible(base, sync)
       case Logged(_, _, _) => true
  }

  /** An async block without capture or attributes, in any parentheses: what may be awaited on the spot. */
  predicate AdmissibleScope(e: Expr)
    decreases e, 0
  {
    match e
    case Async(moves, attrs, parts) => !moves && attrs == [] && forall i | 0 <= i < |parts| :: Admissible(parts[i], false)
    case Paren(_, attrs, base) => attrs == [] && AdmissibleScope(base)
    case _ => false
  }

  predicate AdmissibleMacro(path: Path, tokens: Tokens, sync: bool)
    decreases tokens, 1
  {
    if IsLogCall(path) then tokens.shape.Listed? && forall i | 0 <= i < |tokens.parts| :: Admissible(tokens.parts[i], true)
    else
      && Home(path).Some? && Reads(NameOf(path), tokens.shape)
      && (IsInert(path) || forall i | 0 <= i < |tokens.parts| :: Admissible(tokens.parts[i], sync))
  }

  /** A scope stands only where it is awaited. */
  lemma {:induction false} ScopeIsNotAdmissible(e: Expr, sync: bool)
    ensures IsScope(e) ==> !Admissible(e, sync)
    ensures AdmissibleScope(e) ==> IsScope(e)
    decreases e
  {
    if e.Paren? { ScopeIsNotAdmissible(e.base, sync); }
  }

  /** What lowering objects to in a macro, by its name and the way its input reads. */
  lemma MacroFaultsByName(path: Path, tokens: Tokens, sync: bool)
    ensures MacroFaults(path, tokens, sync)
         == if IsLogCall(path) then if tokens.shape.Listed? then FaultsIn(tokens.parts, true) else [Syntax(MacroControl)]
            else if path.segments != [] && NameOf(path) == "pin" then [AtMacro(Pin, path)]
            else if Home(path).None? then [AtMacro(MacroAwait, path)]
            else if !Reads(NameOf(path), tokens.shape) then [Syntax(Unreadable(NameOf(path)))]
            else if IsInert(path) then [] else FaultsIn(tokens.parts, sync)
  {
    LoggingByName(path);
    ListingByName(path);
    if Listing(path).Some? {
      MisreadByName(path, tokens.shape);
      RootedByName(path);
    }
  }

  /** Lowering succeeds exactly on admissible bodies. */
  lemma {:induction false} FaultsExactly(e: Expr, sync: bool)
    ensures Faults(e, sync) == [] <==> Admissible(e, sync)
    decreases e, 0
  {
    AttrFaultsExactly(e.attrs);
    match e {
      case Node(_, _, parts) => PartsExactly(parts, sync);
      case Control(_, _, parts) => PartsExactly(parts, sync);
      case Await(attrs, base) =>
        ScopeIsNotAdmissible(base, sync);
        if attrs == [] && IsScope(base) { ScopeExactly(base); } else { FaultsExactly(base, sync); }
      case Async(_, _, _) =>
      case Paren(_, _, base) => FaultsExactly(base, sync);
      case Callable(_, _, _, _) =>
      case Macro(path, _, tokens) => MacroExactly(path, tokens, sync);
      case Wrapped(_, base) => FaultsExactly(base, sync);
      case Logged(_, _, _) =>
    }
  }

  lemma {:induction false} MacroExactly(path: Path, tokens: Tokens, sync: bool)
    ensures MacroFaults(path, tokens, sync) == [] <==> AdmissibleMacro(path, tokens, sync)
    decreases tokens, 1
  {
    PartsExactly(tokens.parts, true);
    PartsExactly(tokens.parts, sync);
    MacroFaultsByName(path, tokens, sync);
    if path.segments != [] && NameOf(path) == "pin" { PinHasNoHome(path); }
  }

  lemma {:induction false} ScopeExactly(e: Expr)
    requires IsScope(e)
    ensures ScopeFaults(e, false) == [] <==> AdmissibleScope(e)
    decreases e, 0
  {
    if e.Async? { PartsExactly(e.parts, false); } else { ScopeExactly(e.base); }
  }

  lemma {:induction false} PartsExactly(parts: seq<Expr>, sync: bool)
    ensures FaultsIn(parts, sync) == [] <==> forall i | 0 <= i < |parts| :: Admissible(parts[i], sync)
    decreases parts, 0
  {
    FaultsAt(parts, sync);
    forall i | 0 <= i < |parts| ensures Faults(parts[i], sync) == [] <==> Admissible(parts[i], sync) {
      FaultsExactly(parts[i], sync);
    }
  }

  // ----- Which objection is reported -----

  /** The first attribute that may rewrite something is to blame: itself, or one that it reads as. */
  predicate AttrsToBlame(attrs: seq<Meta>, f: Failure)
    decreases attrs
  {
    exists i :: 0 <= i < |attrs| && Harmless(attrs[..i]) && !HarmlessMeta(attrs[i]) && MetaToBlame(attrs[i], f)
  }

  predicate MetaToBlame(meta: Meta, f: Failure)
    decreases meta
  {
    if meta.body.List? && meta.path == Path(false, ["cfg_attr"]) then
      if meta.body.readable && meta.body.metas != [] then AttrsToBlame(meta.body.metas[1..], f) else f == Syntax(Attribute)
    else f == AtMeta(Attribute, meta)
  }

  /** An awaited expression is a scope when it is an async block without capture or attributes, in any parentheses. */
  predicate StandsAsScope(e: Expr)
    decreases e
  {
    match e
    case Async(moves, attrs, _) => !moves && attrs == []
    case Paren(_, attrs, base) => attrs == [] && StandsAsScope(base)
    case _ => false
  }

  /**
    What is to blame in an expression that is not admissible: leaving or suspending in the arguments of
    a logging call, an asynchronous scope, then its attributes, then its first operand that is not admissible.
  */
  predicate ToBlame(e: Expr, sync: bool, f: Failure)
    decreases e, 0
  {
    if sync && (e.Await? || e.Control?) then f == AtExpr(MacroControl, e)
    else if e.Async? then f == AtExpr(AsyncScope, e)
    else if !Harmless(e.attrs) then AttrsToBlame(e.attrs, f)
    else
      match e
      case Node(_, _, parts) => PartsToBlame(parts, sync, f)
      case Control(_, _, parts) => PartsToBlame(parts, sync, f)
      case Await(attrs, base) => if attrs == [] && StandsAsScope(base) then ScopeToBlame(base, f) else ToBlame(base, sync, f)
      case Paren(_, _, base) => ToBlame(base, sync, f)
      case Callable(_, asyncness, _, _) => f == AtExpr(AsyncScope, e)
      case Macro(path, _, tokens) => MacroToBlame(path, tokens, sync, f)
      case Wrapped(_, base) => ToBlame(base, sync, f)
      case _ => false
  }

  predicate ScopeToBlame(e: Expr, f: Failure)
    decreases e, 0
  {
    match e
    case Async(_, _, parts) => PartsToBlame(parts, false, f)
    case Paren(_, _, base) => ScopeToBlame(base, f)
    case _ => false
  }

  /** The first part that is not admissible is to blame. */
  predicate PartsToBlame(parts: seq<Expr>, sync: bool, f: Failure)
    decreases parts, 0
  {
    exists i :: 0 <= i < |parts| && (forall j | 0 <= j < i :: Admissible(parts[j], sync)) && !Admissible(parts[i], sync)
                && ToBlame(parts[i], sync, f)
  }

  /** A macro is to blame itself unless its name and its input let its operands be audited. */
  predicate MacroToBlame(path: Path, tokens: Tokens, sync: bool, f: Failure)
    decreases tokens, 1
  {
    if IsLogCall(path) then
      if tokens.shape.Listed? then PartsToBlame(tokens.parts, true, f) else f == Syntax(MacroControl)
    else if path.segments != [] && NameOf(path) == "pin" then f == AtMacro(Pin, path)
    else if Home(path).None? then f == AtMacro(MacroAwait, path)
    else if !Reads(NameOf(path), tokens.shape) then f == Syntax(Unreadable(NameOf(path)))
    else PartsToBlame(tokens.parts, sync, f)
  }

  lemma BlameSkipsHarmless(attrs: seq<Meta>, f: Failure)
    requires attrs != [] && HarmlessMeta(attrs[0]) && AttrsToBlame(attrs[1..], f)
    ensures AttrsToBlame(attrs, f)
  {
    var rest := attrs[1..];
    var i :| 0 <= i < |rest| && Harmless(rest[..i]) && !HarmlessMeta(rest[i]) && MetaToBlame(rest[i], f);
    assert attrs[..i + 1] == [attrs[0]] + rest[..i];
    assert attrs[i + 1] == rest[i];
  }

  lemma {:induction false} BlamesAttrs(attrs: seq<Meta>)
    requires AttrFaults(attrs) != []
    ensures AttrsToBlame(attrs, AttrFaults(attrs)[0])
    decreases attrs, 0
  {
    MetaFaultsExactly(attrs[0]);
    if MetaFaults(attrs[0]) != [] {
      BlamesMeta(attrs[0]);
      assert Harmless(attrs[..0]);
    } else {
      BlamesAttrs(attrs[1..]);
      BlameSkipsHarmless(attrs, AttrFaults(attrs)[0]);
    }
  }

  lemma {:induction false} BlamesMeta(meta: Meta)
    requires MetaFaults(meta) != []
    ensures MetaToBlame(meta, MetaFaults(meta)[0])
    decreases meta, 0
  {
    if meta.body.List? && IsIdent(meta.path, "cfg_attr") && meta.body.readable && meta.body.metas != [] {
      BlamesAttrs(meta.body.metas[1..]);
    }
  }

  lemma {:induction false} ScopeByShape(e: Expr)
    ensures IsScope(e) <==> StandsAsScope(e)
  {
    if e.Paren? { ScopeByShape(e.base); }
  }

  /** What lowering reports of an expression is what is to blame in it. */
  lemma {:induction false} Blames(e: Expr, sync: bool)
    requires Faults(e, sync) != []
    ensures ToBlame(e, sync, Faults(e, sync)[0])
    decreases e, 0
  {
    AttrFaultsExactly(e.attrs);
    if sync && (e.Await? || e.Control?) {
    } else if e.Async? {
    } else if AttrFaults(e.attrs) != [] {
      BlamesAttrs(e.attrs);
    } else {
      match e
      case Node(_, _, parts) => BlamesParts(parts, sync);
      case Control(_, _, parts) => BlamesParts(parts, sync);
      case Await(attrs, base) =>
        ScopeByShape(base);
        if attrs == [] && IsScope(base) { BlamesScope(base); } else { Blames(base, sync); }
      case Paren(_, _, base) => Blames(base, sync);
      case Callable(_, _, _, _) =>
      case Macro(path, _, tokens) => BlamesMacro(path, tokens, sync);
      case Wrapped(_, base) => Blames(base, sync);
    }
  }

  lemma {:induction false} BlamesScope(e: Expr)
    requires IsScope(e) && ScopeFaults(e, false) != []
    ensures ScopeToBlame(e, ScopeFaults(e, false)[0])
    decreases e, 0
  {
    if e.Async? { BlamesParts(e.parts, false); } else { BlamesScope(e.base); }
  }

  lemma {:induction false} BlamesMacro(path: Path, tokens: Tokens, sync: bool)
    requires MacroFaults(path, tokens, sync) != []
    ensures MacroToBlame(path, tokens, sync, MacroFaults(path, tokens, sync)[0])
    decreases tokens, 1
  {
    MacroFaultsByName(path, tokens, sync);
    if FaultsIn(tokens.parts, true) != [] { BlamesParts(tokens.parts, true); }
    if FaultsIn(tokens.parts, sync) != [] { BlamesParts(tokens.parts, sync); }
  }

  lemma FirstIsToBlame(parts: seq<Expr>, init: seq<Expr>, i: nat, sync: bool, f: Failure)
    requires i <= |init| && init <= parts && i < |parts| && (forall j | 0 <= j < i :: Admissible(init[j], sync))
    requires !Admissible(parts[i], sync) && ToBlame(parts[i], sync, f)
    ensures PartsToBlame(parts, sync, f)
  {
    forall j | 0 <= j < i ensures Admissible(parts[j], sync) {
      assert init[j] == parts[j];
    }
  }

  lemma {:induction false} BlamesParts(parts: seq<Expr>, sync: bool)
    requires FaultsIn(parts, sync) != []
    ensures PartsToBlame(parts, sync, FaultsIn(parts, sync)[0])
    decreases parts, 0
  {
    var init, n, f := parts[..|parts| - 1], |parts| - 1, FaultsIn(parts, sync)[0];
    PartsExactly(init, sync);
    assert forall i | 0 <= i < n :: init[i] == parts[i];
    if FaultsIn(init, sync) != [] {
      BlamesParts(init, sync);
      var i :| 0 <= i < n && (forall j | 0 <= j < i :: Admissible(init[j], sync)) && !Admissible(init[i], sync)
               && ToBlame(init[i], sync, f);
      FirstIsToBlame(parts, init, i, sync, f);
    } else {
      FaultsExactly(parts[n], sync);
      Blames(parts[n], sync);
      FirstIsToBlame(parts, init, n, sync, f);
    }
  }

  // ----- Nothing is reordered, dropped or added -----

  /** Forgets what lowering writes: brands, logging closures, and under which home a macro is named. */
  function Skeleton(e: Expr): Expr
    decreases e, 0
  {
    match e
    case Node(kind, attrs, parts) => Node(kind, attrs, SkeletonIn(parts))
    case Control(form, attrs, parts) => Control(form, attrs, SkeletonIn(parts))
    case Await(attrs, base) => Await(attrs, Skeleton(base))
    case Async(moves, attrs, parts) => Async(moves, attrs, SkeletonIn(parts))
    case Paren(grouped, attrs, base) => Paren(grouped, attrs, Skeleton(base))
    case Callable(_, _, _, _) => e
    case Macro(path, attrs, tokens) =>
      Macro(AtHome(path), attrs, if IsInert(path) then tokens else Tokens(tokens.shape, SkeletonIn(tokens.parts)))
    case Wrapped(attrs, base) => Await(attrs, Skeleton(base))
    case Logged(path, attrs, tokens) => Macro(path, attrs, Tokens(tokens.shape, SkeletonIn(tokens.parts)))
  }

  function SkeletonIn(parts: seq<Expr>): (r: seq<Expr>)
    ensures |r| == |parts|
    decreases parts, 0
  {
    if parts == [] then [] else
    SkeletonIn(parts[..|parts| - 1]) + [Skeleton(parts[|parts| - 1])]
  }

  /** A macro named under its home stays there, and is read as before. */
  lemma RootedIsFixed(path: Path)
    requires !IsLogging(path)
    ensures Rooted(Rooted(path)) == Rooted(path)
    ensures IsLiteral(Rooted(path)) == IsLiteral(path) && !IsLogging(Rooted(path))
    ensures Home(path).Some? ==> Home(Rooted(path)) == Home(path) && NameOf(Rooted(path)) == NameOf(path)
  {
    RootedByName(path);
    RootedByName(Rooted(path));
    if IsLogCall(Rooted(path)) { LogCallHasNoHome(Rooted(path)); }
  }

  lemma RootedKeepsHome(path: Path)
    requires !IsLogging(path)
    ensures AtHome(Rooted(path)) == AtHome(path) && IsInert(Rooted(path)) == IsInert(path) == IsLiteral(path)
  {
    RootedByName(path);
    RootedByName(Rooted(path));
    RootedIsFixed(path);
  }

  /** Lowering keeps every operand, statement and attribute in its place. */
  lemma {:induction false} LoweringKeepsSkeleton(e: Expr)
    ensures Skeleton(Lowered(e)) == Skeleton(e)
    decreases e, 0
  {
    match e {
      case Node(_, _, parts) => PartsKeepSkeleton(parts);
      case Control(_, _, parts) => PartsKeepSkeleton(parts);
      case Await(attrs, base) =>
        if attrs == [] && IsScope(base) { ScopeKeepsSkeleton(base); } else { LoweringKeepsSkeleton(base); }
      case Async(_, _, _) =>
      case Paren(_, _, base) => LoweringKeepsSkeleton(base);
      case Callable(_, _, _, _) =>
      case Macro(path, attrs, tokens) =>
        MacroKeepsSkeleton(path, attrs, tokens);
      case Wrapped(_, base) => LoweringKeepsSkeleton(base);
      case Logged(_, _, _) =>
    }
  }

  lemma {:induction false} MacroKeepsSkeleton(path: Path, attrs: seq<Meta>, tokens: Tokens)
    ensures var e := Macro(path, attrs, tokens); Skeleton(Lowered(e)) == Skeleton(e)
    decreases tokens, 1
  {
    PartsKeepSkeleton(tokens.parts);
    if IsLogging(path) { LogCallHasNoHome(path); } else { RootedKeepsHome(path); }
  }

  lemma {:induction false} ScopeKeepsSkeleton(e: Expr)
    requires IsScope(e)
    ensures Skeleton(LoweredScope(e)) == Skeleton(e)
    decreases e, 0
  {
    if e.Async? { PartsKeepSkeleton(e.parts); } else { ScopeKeepsSkeleton(e.base); }
  }

  lemma {:induction false} PartsKeepSkeleton(parts: seq<Expr>)
    ensures SkeletonIn(LoweredIn(parts)) == SkeletonIn(parts)
    decreases parts, 0
  {
    if parts != [] {
      var init, last := parts[..|parts| - 1], parts[|parts| - 1];
      PartsKeepSkeleton(init);
      LoweringKeepsSkeleton(last);
      var l := LoweredIn(parts);
      assert l[..|l| - 1] == LoweredIn(init) && l[|l| - 1] == Lowered(last);
    }
  }

  /** Macros that are not logging calls are named under their home, so the tree is its own skeleton but for brands. */
  predicate Homed(e: Expr)
    decreases e
  {
    match e
    case Node(_, _, parts) => forall i | 0 <= i < |parts| :: Homed(parts[i])
    case Control(_, _, parts) => forall i | 0 <= i < |parts| :: Homed(parts[i])
    case Await(_, base) => Homed(base)
    case Async(_, _, parts) => forall i | 0 <= i < |parts| :: Homed(parts[i])
    case Paren(_, _, base) => Homed(base)
    case Macro(path, _, tokens) =>
      && AtHome(path) == path
      && (IsInert(path) || forall i | 0 <= i < |tokens.parts| :: Homed(tokens.parts[i]))
    case _ => true
  }

  lemma {:induction false} SkeletonIsTree(e: Expr)
    requires Written(e) && Homed(e)
    ensures Skeleton(e) == e
    decreases e, 0
  {
    match e {
      case Node(_, _, parts) => PartsAreTrees(parts);
      case Control(_, _, parts) => PartsAreTrees(parts);
      case Await(_, base) => SkeletonIsTree(base);
      case Async(_, _, parts) => PartsAreTrees(parts);
      case Paren(_, _, base) => SkeletonIsTree(base);
      case Callable(_, _, _, _) =>
      case Macro(path, _, tokens) => if !IsInert(path) { PartsAreTrees(tokens.parts); }
    }
  }

  lemma OneTreeMore(parts: seq<Expr>, init: seq<Expr>, last: Expr)
    requires parts == init + [last] && SkeletonIn(init) == init && Skeleton(last) == last
    ensures SkeletonIn(parts) == parts
  {
    assert parts[..|parts| - 1] == init && parts[|parts| - 1] == last;
  }

  lemma {:induction false} PartsAreTrees(parts: seq<Expr>)
    requires forall i | 0 <= i < |parts| :: Written(parts[i]) && Homed(parts[i])
    ensures SkeletonIn(parts) == parts
    decreases parts, 0
  {
    if parts != [] {
      var init, last := parts[..|parts| - 1], parts[|parts| - 1];
      forall i | 0 <= i < |init| ensures Written(init[i]) && Homed(init[i]) {
        assert init[i] == parts[i];
      }
      PartsAreTrees(init);
      SkeletonIsTree(last);
      OneTreeMore(parts, init, last);
    }
  }

  /** Erasing what lowering wrote gives the written tree back, up to the home a macro is named under. */
  lemma ErasingUndoesLowering(e: Expr)
    requires Written(e)
    ensures Skeleton(Lowered(e)) == Skeleton(e)
    ensures Homed(e) ==> Skeleton(Lowered(e)) == e
  {
    LoweringKeepsSkeleton(e);
    if Homed(e) { SkeletonIsTree(e); }
  }

  // ----- What a lowered body contains -----

  /** Written by a programmer: nothing in it is the output of lowering. */
  predicate Written(e: Expr)
    decreases e
  {
    match e
    case Node(_, _, parts) => forall i | 0 <= i < |parts| :: Written(parts[i])
    case Control(_, _, parts) => forall i | 0 <= i < |parts| :: Written(parts[i])
    case Await(_, base) => Written(base)
    case Async(_, _, parts) => forall i | 0 <= i < |parts| :: Written(parts[i])
    case Paren(_, _, base) => Written(base)
    case Callable(_, _, _, _) => true
    case Macro(_, _, tokens) => forall i | 0 <= i < |tokens.parts| :: Written(tokens.parts[i])
    case Wrapped(_, _) => false
    case Logged(_, _, _) => false
  }

  /**
    Every await lends the brand or stands on a lexical scope, every other asynchronous scope or
    callable is gone, every macro is listed and named under its home, and logging calls are quiet.
  */
  predicate Branded(e: Expr)
    decreases e, 0
  {
    match e
    case Node(_, _, parts) => forall i | 0 <= i < |parts| :: Branded(parts[i])
    case Control(_, _, parts) => forall i | 0 <= i < |parts| :: Branded(parts[i])
    case Await(attrs, base) => attrs == [] && BrandedScope(base)
    case Async(_, _, _) => false
    case Paren(_, _, base) => Branded(base)
    case Callable(_, asyncness, _, _) => !asyncness
    case Macro(path, _, tokens) =>
      && path.leading && |path.segments| == 2 && IsHome(path.segments[1], path.segments[0])
      && (IsInertName(path.segments[1]) || forall i | 0 <= i < |tokens.parts| :: Branded(tokens.parts[i]))
    case Wrapped(_, base) => Branded(base)
    case Logged(path, _, tokens) =>
      IsLogCall(path) && forall i | 0 <= i < |tokens.parts| :: Branded(tokens.parts[i]) && Quiet(tokens.parts[i])
  }

  predicate BrandedScope(e: Expr)
    decreases e, 0
  {
    match e
    case Async(moves, attrs, parts) => !moves && attrs == [] && forall i | 0 <= i < |parts| :: Branded(parts[i])
    case Paren(_, attrs, base) => attrs == [] && BrandedScope(base)
    case _ => false
  }

  /** Neither suspends nor leaves: no await, return, break, continue or question mark. */
  predicate Quiet(e: Expr)
    decreases e
  {
    match e
    case Node(_, _, parts) => forall i | 0 <= i < |parts| :: Quiet(parts[i])
    case Paren(_, _, base) => Quiet(base)
    case Callable(_, _, _, _) => true
    case Macro(path, _, tokens) => IsInert(path) || forall i | 0 <= i < |tokens.parts| :: Quiet(tokens.parts[i])
    case Logged(_, _, tokens) => forall i | 0 <= i < |tokens.parts| :: Quiet(tokens.parts[i])
    case _ => false
  }

  lemma {:induction false} LoweringBrands(e: Expr, sync: bool)
    requires Written(e) && Admissible(e, sync)
    ensures Branded(Lowered(e)) && (sync ==> Quiet(Lowered(e)))
    decreases e, 0
  {
    match e {
      case Node(_, _, parts) => PartsBrand(parts, sync);
      case Control(_, _, parts) => PartsBrand(parts, sync);
      case Await(attrs, base) =>
        ScopeIsNotAdmissible(base, sync);
        if attrs == [] && IsScope(base) { ScopeBrands(base); } else { LoweringBrands(base, sync); }
      case Paren(_, _, base) => LoweringBrands(base, sync);
      case Callable(_, _, _, _) =>
      case Macro(path, attrs, tokens) => MacroBrands(path, attrs, tokens, sync);
    }
  }

  lemma {:induction false} MacroBrands(path: Path, attrs: seq<Meta>, tokens: Tokens, sync: bool)
    requires (forall i | 0 <= i < |tokens.parts| :: Written(tokens.parts[i])) && AdmissibleMacro(path, tokens, sync)
    ensures var m := Lowered(Macro(path, attrs, tokens)); Branded(m) && (sync ==> Quiet(m))
    decreases tokens, 1
  {
    LoggingByName(path);
    if IsLogging(path) {
      PartsBrand(tokens.parts, true);
    } else {
      RootedByName(path);
      RootedIsFixed(path);
      if !IsInert(path) { PartsBrand(tokens.parts, sync); }
    }
  }

  lemma {:induction false} ScopeBrands(e: Expr)
    requires IsScope(e) && Written(e) && AdmissibleScope(e)
    ensures BrandedScope(LoweredScope(e))
    decreases e, 0
  {
    if e.Async? { PartsBrand(e.parts, false); } else { ScopeBrands(e.base); }
  }

  lemma {:induction false} PartsBrand(parts: seq<Expr>, sync: bool)
    requires forall i | 0 <= i < |parts| :: Written(parts[i]) && Admissible(parts[i], sync)
    ensures forall i | 0 <= i < |parts| :: Branded(LoweredIn(parts)[i]) && (sync ==> Quiet(LoweredIn(parts)[i]))
    decreases parts, 0
  {
    forall i | 0 <= i < |parts| ensures Branded(LoweredIn(parts)[i]) && (sync ==> Quiet(LoweredIn(parts)[i])) {
      LoweredAt(parts, i);
      LoweringBrands(parts[i], sync);
    }
  }

  // ----- The visitor -----

  function First(faults: seq<Failure>): Option<Failure> {
    if faults == [] then None else Some(faults[0])
  }

  /** Rewrites a tree node by node and keeps the first failure; after it nothing more is visited. */
  class Lower {
    const synchronous: bool
    var failure: Option<Failure>

    constructor (synchronous: bool)
      ensures this.synchronous == synchronous && failure == None
    {
      this.synchronous, failure := synchronous, None;
    }

    static method TryMeta(meta: Meta) returns (fault: Option<Failure>)
      ensures fault == First(MetaFaults(meta))
      decreases meta, 0
    {
      if IsHarmless(meta.path) { return None; }
      if !meta.body.List? || !IsIdent(meta.path, "cfg_attr") { return Some(AtMeta(Attribute, meta)); }
      if !meta.body.readable { return Some(Syntax(Attribute)); }
      if meta.body.metas == [] { return None; }
      fault := TryAttrs(meta.body.metas[1..]);
    }

    static method TryAttrs(attrs: seq<Meta>) returns (fault: Option<Failure>)
      ensures fault == First(AttrFaults(attrs))
      decreases attrs, 0
    {
      if attrs == [] { return None; }
      fault := TryMeta(attrs[0]);
      if fault.None? { fault := TryAttrs(attrs[1..]); }
    }

    method VisitAttributes(attrs: seq<Meta>)
      modifies this
      ensures failure == if old(failure).Some? then old(failure) else First(AttrFaults(attrs))
    {
      if failure.None? { failure := TryAttrs(attrs); }
    }

    method Reject(e: Expr)
      modifies this
      ensures failure == if old(failure).Some? then old(failure) else Some(AtExpr(AsyncScope, e))
    {
      if failure.None? { failure := Some(AtExpr(AsyncScope, e)); }
    }

    method VisitParts(parts: seq<Expr>) returns (r: seq<Expr>)
      modifies this
      ensures failure == if old(failure).Some? then old(failure) else First(FaultsIn(parts, synchronous))
      ensures failure.None? ==> r == LoweredIn(parts)
      decreases parts, 1
    {
      r := [];
      assert parts[..0] == [];
      for i := 0 to |parts|
        invariant failure == if old(failure).Some? then old(failure) else First(FaultsIn(parts[..i], synchronous))
        invariant failure.None? ==> r == LoweredIn(parts[..i])
      {
        var part := VisitExpr(parts[i]);
        r := r + [part];
        assert parts[..i + 1][..i] == parts[..i] && parts[..i + 1][i] == parts[i];
      }
      assert parts[..|parts|] == parts;
    }

    /** The block of a scope that is awaited on the spot, inside its parentheses. */
    method VisitScope(e: Expr) returns (r: Expr)
      requires IsScope(e)
      modifies this
      ensures failure == if old(failure).Some? then old(failure) else First(ScopeFaults(e, synchronous))
      ensures failure.None? ==> r == LoweredScope(e)
      decreases e, 1
    {
      if e.Async? {
        var parts := VisitParts(e.parts);
        r := Async(false, [], parts);
      } else {
        var base := VisitScope(e.base);
        r := Paren(e.grouped, [], base);
      }
    }

    /** Lowers one operand of a macro; its failure is handed back instead of being kept. */
    method TryParts(parts: seq<Expr>) returns (r: Result<seq<Expr>, Failure>)
      requires failure.None?
      modifies this
      ensures failure.None?
      ensures r == if FaultsIn(parts, synchronous) == [] then Ok(LoweredIn(parts)) else Err(FaultsIn(parts, synchronous)[0])
      decreases parts, 2
    {
      var lowered := VisitParts(parts);
      if failure.Some? {
        r := Err(failure.value);
        failure := None;
      } else {
        r := Ok(lowered);
      }
    }

    method TryMacro(path: Path, tokens: Tokens) returns (r: Result<(Path, Tokens), Failure>)
      requires failure.None? && !IsLogging(path)
      modifies this
      ensures failure.None?
      ensures var faults := MacroFaults(path, tokens, synchronous);
              if faults == [] then
                r == Ok((Rooted(path), if IsLiteral(path) then tokens else Tokens(tokens.shape, LoweredIn(tokens.parts))))
              else r == Err(faults[0])
      decreases tokens, 3
    {
      if path.segments == [] { return Err(AtMacro(MacroAwait, path)); }
      var name := path.segments[|path.segments| - 1];
      if name == "pin" { return Err(AtMacro(Pin, path)); }
      var listing := Listing(path);
      if listing.None? { return Err(AtMacro(MacroAwait, path)); }
      var entry, root := listing.value.0, listing.value.1;
      var misread := Misread(entry.reading, tokens.shape);
      if misread.Some? { return Err(Syntax(misread.value)); }
      var lowered := tokens;
      if !entry.reading.AsLiteral? {
        var parts := TryParts(tokens.parts);
        if parts.Err? { return Err(parts.error); }
        lowered := Tokens(tokens.shape, parts.value);
      }
      r := Ok((Path(true, [RootName(root), entry.name]), lowered));
    }

    /** Checks the arguments of a logging call before it expands inside a synchronous closure. */
    static method TryLogging(attrs: seq<Meta>, tokens: Tokens) returns (r: Result<Tokens, Failure>)
      ensures var faults := AttrFaults(attrs) + if tokens.shape.Listed? then FaultsIn(tokens.parts, true) else [Syntax(MacroControl)];
              if faults == [] then r == Ok(Tokens(tokens.shape, LoweredIn(tokens.parts))) else r == Err(faults[0])
      decreases tokens, 3
    {
      var fault := TryAttrs(attrs);
      if fault.Some? { return Err(fault.value); }
      if !tokens.shape.Listed? { return Err(Syntax(MacroControl)); }
      var inner := new Lower(true);
      var parts := inner.TryParts(tokens.parts);
      if parts.Err? { return Err(parts.error); }
      r := Ok(Tokens(tokens.shape, parts.value));
    }

    method VisitMacro(path: Path, attrs: seq<Meta>, tokens: Tokens) returns (r: Expr)
      requires failure.None?
      modifies this
      ensures failure == First(AttrFaults(attrs) + MacroFaults(path, tokens, synchronous))
      ensures failure.None? ==> r == Lowered(Macro(path, attrs, tokens))
      decreases tokens, 4
    {
      r := Macro(path, attrs, tokens);
      if IsLogging(path) {
        var logged := TryLogging(attrs, tokens);
        if logged.Err? {
          failure := Some(logged.error);
        } else {
          r := Logged(path, attrs, logged.value);
        }
      } else {
        VisitAttributes(attrs);
        if failure.None? {
          var lowered := TryMacro(path, tokens);
          if lowered.Err? {
            failure := Some(lowered.error);
          } else {
            r := Macro(lowered.value.0, attrs, lowered.value.1);
          }
        }
      }
    }

    method VisitAwait(e: Expr) returns (r: Expr)
      requires e.Await? && failure.None? && !synchronous
      modifies this
      ensures failure == First(Faults(e, synchronous))
      ensures failure.None? ==> r == Lowered(e)
      decreases e, 0
    {
      VisitAttributes(e.attrs);
      if e.attrs == [] && IsScope(e.base) {
        var scope := VisitScope(e.base);
        return Await(e.attrs, scope);
      }
      var base := VisitExpr(e.base);
      if failure.Some? { return e; }
      r := Wrapped(e.attrs, base);
    }

    method VisitExpr(e: Expr) returns (r: Expr)
      modifies this
      ensures failure == if old(failure).Some? then old(failure) else First(Faults(e, synchronous))
      ensures failure.None? ==> r == Lowered(e)
      ensures old(failure).Some? ==> r == e
      decreases e, 1
    {
      if failure.Some? { return e; }
      if synchronous && (e.Await? || e.Control?) {
        failure := Some(AtExpr(MacroControl, e));
        return e;
      }
      match e {
        case Macro(path, attrs, tokens) => r := VisitMacro(path, attrs, tokens);
        case Await(_, _) => r := VisitAwait(e);
        case Async(_, _, _) =>
          Reject(e);
          r := e;
        case Callable(_, asyncness, attrs, _) =>
          VisitAttributes(attrs);
          if asyncness { Reject(e); }
          r := e;
        case Node(kind, attrs, parts) =>
          VisitAttributes(attrs);
          var visited := VisitParts(parts);
          r := Node(kind, attrs, visited);
        case Control(form, attrs, parts) =>
          VisitAttributes(attrs);
          var visited := VisitParts(parts);
          r := Control(form, attrs, visited);
        case Paren(grouped, attrs, base) =>
          VisitAttributes(attrs);
          var visited := VisitExpr(base);
          r := Paren(grouped, attrs, visited);
        case Wrapped(attrs, base) =>
          VisitAttributes(attrs);
          var visited := VisitExpr(base);
          r := Wrapped(attrs, visited);
        case Logged(_, attrs, _) =>
          VisitAttributes(attrs);
          r := e;
      }
    }

    /** Lowers the body of a fiber, or reports the first thing in it that cannot be. */
    static method TryLower(block: seq<Expr>) returns (r: Result<seq<Expr>, Failure>)
      ensures r.Ok? <==> forall i | 0 <= i < |block| :: Admissible(block[i], false)
      ensures r.Ok? ==> r.value == LoweredIn(block) && SkeletonIn(r.value) == SkeletonIn(block)
      ensures r.Ok? && (forall i | 0 <= i < |block| :: Written(block[i])) ==> forall i | 0 <= i < |block| :: Branded(r.value[i])
      ensures r.Err? ==> FaultsIn(block, false) != [] && r.error == FaultsIn(block, false)[0]
      ensures r.Err? ==> PartsToBlame(block, false, r.error)
    {
      var lower := new Lower(false);
      var lowered := lower.VisitParts(block);
      PartsExactly(block, false);
      PartsKeepSkeleton(block);
      if lower.failure.Some? {
        BlamesParts(block, false);
        return Err(lower.failure.value);
      }
      if forall i | 0 <= i < |block| :: Written(block[i]) { PartsBrand(block, false); }
      r := Ok(lowered);
    }
  }
}
