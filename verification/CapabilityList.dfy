/**
 The per-chat capability list on its way from the store to the tools of an agent: GetCapabilities,
 the comma-join of BuildExecArgs, parseCapabilities and registerCapabilityTools.
 */
module CapabilityList {
  import opened Strings

  type ChatId = string

  /** unicode.IsSpace. */
  predicate IsSpace(c: char) {
    || '\t' <= c <= '\r' || c == ' ' || c == '\U{85}' || c == '\U{A0}' || c == '\U{1680}'
    || '\U{2000}' <= c <= '\U{200A}' || c == '\U{2028}'
    || c == '\U{2029}' || c == '\U{202F}' || c == '\U{205F}' || c == '\U{3000}'
  }

  function TrimLeft(s: string): string { if s != "" && IsSpace(s[0]) then TrimLeft(s[1..]) else s }

  function TrimRight(s: string): string { if s != "" && IsSpace(s[|s| - 1]) then TrimRight(s[..|s| - 1]) else s }

  /** strings.TrimSpace. */
  function Trim(s: string): string { TrimRight(TrimLeft(s)) }

  /** The loop of parseCapabilities over the pieces. */
  function Keep(parts: seq<string>): seq<string> {
    if parts == [] then []
    else
      var p := Trim(parts[|parts| - 1]);
      Keep(parts[..|parts| - 1]) + if p != "" then [p] else []
  }

  function Parse(env: string): seq<string> { Keep(Split(env, ',')) }

  /** The value of PITU_CAPABILITIES; an empty list sets no variable, which reads as "". */
  function Env(names: seq<string>): string { Join(names, ',') }

  /** A name that survives the trip. */
  predicate WellFormed(name: string) {
    name != "" && !IsSpace(name[0]) && !IsSpace(name[|name| - 1]) && ',' !in name
  }

  predicate AllSpace(s: string) { forall c :: c in s ==> IsSpace(c) }

  /** No white space at either end. */
  predicate Trimmed(s: string) { s != "" ==> !IsSpace(s[0]) && !IsSpace(s[|s| - 1]) }

  lemma {:induction false} TrimLeftOf(a: string, t: string)
    requires AllSpace(a) && (t != "" ==> !IsSpace(t[0]))
    ensures TrimLeft(a + t) == t
  {
    if a == "" {
      assert a + t == t;
    } else {
      assert (a + t)[1..] == a[1..] + t;
      assert (a + t)[0] in a;
      TrimLeftOf(a[1..], t);
    }
  }

  lemma {:induction false} TrimRightOf(t: string, b: string)
    requires AllSpace(b) && (t != "" ==> !IsSpace(t[|t| - 1]))
    ensures TrimRight(t + b) == t
  {
    if b == "" {
      assert t + b == t;
    } else {
      assert (t + b)[..|t + b| - 1] == t + b[..|b| - 1];
      assert (t + b)[|t + b| - 1] in b;
      TrimRightOf(t, b[..|b| - 1]);
    }
  }

  lemma TrimOf(a: string, t: string, b: string)
    requires AllSpace(a) && AllSpace(b) && Trimmed(t)
    ensures Trim(a + t + b) == t
  {
    if t == "" {
      assert a + t + b == (a + b) + "";
      TrimLeftOf(a + b, "");
    } else {
      assert a + t + b == a + (t + b);
      TrimLeftOf(a, t + b);
      TrimRightOf(t, b);
    }
  }

  lemma {:induction false} TrimLeftSplits(s: string) returns (a: string)
    ensures AllSpace(a) && s == a + TrimLeft(s)
    ensures TrimLeft(s) != "" ==> !IsSpace(TrimLeft(s)[0])
  {
    if s == "" || !IsSpace(s[0]) {
      a := "";
    } else {
      a := TrimLeftSplits(s[1..]);
      a := [s[0]] + a;
    }
  }

  lemma {:induction false} TrimRightSplits(s: string) returns (b: string)
    ensures AllSpace(b) && s == TrimRight(s) + b
    ensures TrimRight(s) != "" ==> !IsSpace(TrimRight(s)[|TrimRight(s)| - 1])
  {
    if s == "" || !IsSpace(s[|s| - 1]) {
      b := "";
    } else {
      b := TrimRightSplits(s[..|s| - 1]);
      b := b + [s[|s| - 1]];
    }
  }

  ghost predicate IsTrimOf(t: string, s: string) {
    Trimmed(t) && exists a, b :: AllSpace(a) && AllSpace(b) && s == a + t + b
  }

  /** Trimming takes away white space at both ends, all of it, and nothing else. */
  lemma TrimExactly(s: string, t: string)
    ensures Trim(s) == t <==> IsTrimOf(t, s)
  {
    var a := TrimLeftSplits(s);
    var b := TrimRightSplits(TrimLeft(s));
    var u := Trim(s);
    assert s == a + u + b;
    assert u != "" ==> u[0] == TrimLeft(s)[0];
    assert IsTrimOf(u, s);
    if IsTrimOf(t, s) {
      var x, y :| AllSpace(x) && AllSpace(y) && s == x + t + y;
      TrimOf(x, t, y);
    }
  }

  lemma TrimFacts(s: string)
    ensures Trimmed(Trim(s)) && forall c :: c in Trim(s) ==> c in s
    ensures Trimmed(s) ==> Trim(s) == s
  {
    TrimExactly(s, Trim(s));
    if Trimmed(s) {
      assert s == "" + s + "";
      TrimExactly(s, s);
    }
  }

  lemma {:induction false} KeepConcat(xs: seq<string>, ys: seq<string>)
    ensures Keep(xs + ys) == Keep(xs) + Keep(ys)
  {
    if ys == [] {
      assert xs + ys == xs;
    } else {
      assert (xs + ys)[..|xs + ys| - 1] == xs + ys[..|ys| - 1];
      KeepConcat(xs, ys[..|ys| - 1]);
    }
  }

  lemma PieceWellFormed(p: string)
    requires ',' !in p
    ensures Trim(p) != "" ==> WellFormed(Trim(p))
    ensures WellFormed(p) ==> Trim(p) == p
  {
    TrimFacts(p);
  }

  lemma {:induction false} KeepWellFormed(parts: seq<string>)
    requires forall p :: p in parts ==> ',' !in p
    ensures forall n :: n in Keep(parts) ==> WellFormed(n)
    ensures (forall p :: p in parts ==> WellFormed(p)) ==> Keep(parts) == parts
  {
    if parts == [] {
    } else {
      var n := |parts| - 1;
      var p := Trim(parts[n]);
      assert parts == parts[..n] + [parts[n]];
      KeepWellFormed(parts[..n]);
      PieceWellFormed(parts[n]);
      KeptNames(Keep(parts[..n]), p);
    }
  }

  lemma KeptNames(names: seq<string>, p: string)
    requires (forall n :: n in names ==> WellFormed(n)) && (p != "" ==> WellFormed(p))
    ensures forall n :: n in names + (if p != "" then [p] else []) ==> WellFormed(n)
  {
  }

  lemma TrimmedAway(s: string)
    ensures Trim(s) == "" <==> AllSpace(s)
  {
    TrimExactly(s, "");
    if AllSpace(s) {
      assert s == "" + "" + s;
    }
  }

  lemma ParsePiece(piece: string)
    requires ',' !in piece
    ensures Parse(piece) == if Trim(piece) != "" then [Trim(piece)] else []
  {
    SplitWithout(piece, ',');
    assert [piece][..0] == [];
    assert Keep([piece]) == Keep([]) + if Trim(piece) != "" then [Trim(piece)] else [];
  }

  /**
   What is parsed, name by name and in order: a piece without a comma is one name, its trimmed text, unless it
   is all white space; and a comma puts the names of both its sides one after the other.
   */
  lemma ParseExactly(piece: string, name: string, left: string, right: string)
    requires ',' !in piece
    ensures Parse(piece) == [name] <==> name != "" && IsTrimOf(name, piece)
    ensures Parse(piece) == [] <==> AllSpace(piece)
    ensures Parse(left + [','] + right) == Parse(left) + Parse(right)
  {
    ParsePiece(piece);
    TrimExactly(piece, name);
    TrimmedAway(piece);
    SplitConcat(left, right, ',');
    KeepConcat(Split(left, ','), Split(right, ','));
  }

  /** Whatever the variable holds, every parsed name is non-empty, trimmed and free of commas. */
  lemma ParseIsNormal(env: string)
    ensures forall n :: n in Parse(env) ==> WellFormed(n)
  {
    SplitPieces(env, ',');
    KeepWellFormed(Split(env, ','));
  }

  /** A list of names survives the join and the parse exactly when each of its names is well formed. */
  lemma RoundTripExactly(names: seq<string>)
    ensures Parse(Env(names)) == names <==> forall n :: n in names ==> WellFormed(n)
  {
    if forall n :: n in names ==> WellFormed(n) {
      if names == [] {
        ParseOfNothing();
      } else {
        SplitOfJoin(names, ',');
        KeepWellFormed(names);
      }
    }
    if Parse(Env(names)) == names {
      ParseIsNormal(Env(names));
    }
  }

  /** Parsing, joining and parsing again changes nothing, for every string. */
  lemma ParseJoinParse(env: string)
    ensures Parse(Env(Parse(env))) == Parse(env)
  {
    ParseIsNormal(env);
    RoundTripExactly(Parse(env));
  }

  lemma ParseOfJoinTail(names: seq<string>)
    requires |names| > 1
    ensures Parse(Env(names)) == Parse(names[0]) + Parse(Env(names[1..]))
  {
    SplitConcat(names[0], Env(names[1..]), ',');
    KeepConcat(Split(names[0], ','), Split(Env(names[1..]), ','));
  }

  lemma ParseOfNothing()
    ensures Parse("") == []
  {
    assert Split("", ',') == [""] && [""][..0] == [];
  }

  ghost predicate ParsedFrom(names: seq<string>, m: string) { exists n :: n in names && m in Parse(n) }

  lemma ParsedFromTail(names: seq<string>, m: string)
    requires names != []
    ensures ParsedFrom(names, m) <==> m in Parse(names[0]) || ParsedFrom(names[1..], m)
  {
    if n :| n in names && m in Parse(n) {
      var i :| 0 <= i < |names| && names[i] == n;
      assert i > 0 ==> names[1..][i - 1] == n;
    }
  }

  /** The names parsed from a join are those parsed from its parts. */
  lemma {:induction false} ParseOfJoin(names: seq<string>, m: string)
    ensures m in Parse(Env(names)) <==> ParsedFrom(names, m)
  {
    if names == [] {
      ParseOfNothing();
    } else {
      ParsedFromTail(names, m);
      if |names| == 1 {
        assert Env(names) == names[0];
      } else {
        ParseOfJoinTail(names);
        ParseOfJoin(names[1..], m);
      }
    }
  }

  /** A stored name with a comma, which the CLI accepts, enables the capability named after the comma. */
  lemma CommaNameEnables(x: string, m: string)
    requires WellFormed(m)
    ensures m in Parse(x + [','] + m) && !WellFormed(x + [','] + m)
  {
    SplitConcat(x, m, ',');
    KeepConcat(Split(x, ','), Split(m, ','));
    SplitWithout(m, ',');
    assert [m][..0] == [];
    assert m in Keep([m]);
    assert (x + [','] + m)[|x|] == ',';
  }

  // ---- From the store to the registered tools -------------------------------------------------

  datatype Capability = Capability(name: string, tools: seq<string>)

  const LIST_TOOL := "listCapabilities"

  /** The tools registered for the capabilities of the registry, in registry order. */
  function FamilyTools(registry: seq<Capability>, enabled: seq<string>): seq<string> {
    if registry == [] then []
    else
      var c := registry[|registry| - 1];
      FamilyTools(registry[..|registry| - 1], enabled) + if c.name in enabled then c.tools else []
  }

  lemma {:induction false} FamilyToolsMembers(registry: seq<Capability>, enabled: seq<string>, t: string)
    ensures t in FamilyTools(registry, enabled) <==> exists c :: c in registry && c.name in enabled && t in c.tools
  {
    if registry == [] {
    } else {
      var n := |registry| - 1;
      FamilyToolsMembers(registry[..n], enabled, t);
      assert registry == registry[..n] + [registry[n]];
    }
  }

  /** Families come in the order of the registry, each with all its tools in their order, or not at all. */
  lemma {:induction false} FamiliesInOrder(xs: seq<Capability>, c: Capability, ys: seq<Capability>,
                                           enabled: seq<string>)
    ensures FamilyTools(xs + [c] + ys, enabled) ==
      FamilyTools(xs, enabled) + (if c.name in enabled then c.tools else []) + FamilyTools(ys, enabled)
  {
    if ys == [] {
      assert xs + [c] + ys == xs + [c];
      assert (xs + [c])[..|xs|] == xs;
    } else {
      var n := |ys| - 1;
      assert (xs + [c] + ys)[..|xs| + 1 + n] == xs + [c] + ys[..n];
      FamiliesInOrder(xs, c, ys[..n], enabled);
    }
  }

  /**
   The tools an agent gets, for any names in the store: those of the registry entries that some
   stored name parses to.  A stored name "x,noop" enables noop.
   */
  lemma RegisteredToolsExactly(registry: seq<Capability>, stored: seq<string>, t: string)
    ensures t in FamilyTools(registry, Parse(Env(stored))) <==>
      exists c, n :: c in registry && n in stored && c.name in Parse(n) && t in c.tools
  {
    FamilyToolsMembers(registry, Parse(Env(stored)), t);
    forall c | c in registry
      ensures c.name in Parse(Env(stored)) <==> exists n :: n in stored && c.name in Parse(n)
    {
      ParseOfJoin(stored, c.name);
    }
  }

  /** For well-formed stored names the agent gets exactly the tools of the enabled registry entries. */
  lemma EnabledToolsExactly(registry: seq<Capability>, stored: seq<string>, t: string)
    requires forall n :: n in stored ==> WellFormed(n)
    ensures t in FamilyTools(registry, Parse(Env(stored))) <==>
      exists c :: c in registry && c.name in stored && t in c.tools
  {
    RoundTripExactly(stored);
    FamilyToolsMembers(registry, stored, t);
  }

  // ---- The code -----------------------------------------------------------------------------------

  method ParseCapabilities(env: string) returns (out: seq<string>)
    ensures out == Parse(env)
  {
    out := [];
    var parts := Split(env, ',');
    for i := 0 to |parts|
      invariant out == Keep(parts[..i])
    {
      var p := Trim(parts[i]);
      assert parts[..i + 1][..i] == parts[..i];
      if p != "" {
        out := out + [p];
      }
    }
    assert parts[..|parts|] == parts;
  }

  method IsCapabilityEnabled(caps: seq<string>, name: string) returns (enabled: bool)
    ensures enabled <==> name in caps
  {
    for i := 0 to |caps|
      invariant name !in caps[..i]
    {
      if caps[i] == name { return true; }
    }
    return false;
  }

  /** registerCapabilityTools: the tools added to the server, in order. */
  method RegisterCapabilityTools(registry: seq<Capability>, enabled: seq<string>) returns (added: seq<string>)
    ensures added == [LIST_TOOL] + FamilyTools(registry, enabled)
  {
    added := [LIST_TOOL];
    for i := 0 to |registry|
      invariant added == [LIST_TOOL] + FamilyTools(registry[..i], enabled)
    {
      var c := registry[i];
      assert registry[..i + 1][..i] == registry[..i];
      var on := IsCapabilityEnabled(enabled, c.name);
      if on {
        ghost var before := added;
        for k := 0 to |c.tools|
          invariant added == before + c.tools[..k]
        {
          added := added + [c.tools[k]];
        }
        assert c.tools[..|c.tools|] == c.tools;
      }
    }
    assert registry[..|registry|] == registry;
  }

  /** The chat_capabilities table. */
  class CapabilityStore {
    var rows: set<(ChatId, string)>

    constructor ()
      ensures rows == {}
    {
      rows := {};
    }

    method EnableCapability(chat: ChatId, capability: string)
      modifies this
      ensures rows == old(rows) + {(chat, capability)}
    {
      if (chat, capability) !in rows {
        rows := rows + {(chat, capability)};
      }
    }

    method DisableCapability(chat: ChatId, capability: string)
      modifies this
      ensures rows == old(rows) - {(chat, capability)}
    {
      rows := rows - {(chat, capability)};
    }

    /** GetCapabilities: the capabilities of a chat, each once, in the byte order of their names; none on an error. */
    method GetCapabilities(chat: ChatId, fails: bool) returns (caps: seq<string>, ok: bool)
      ensures ok == !fails
      ensures forall c :: c in caps <==> ok && (chat, c) in rows
      ensures forall i, j :: 0 <= i < j < |caps| ==> Before(caps[i], caps[j])
    {
      caps, ok := [], !fails;
      if fails { return; }
      var todo := set row | row in rows && row.0 == chat :: row.1;
      while todo != {}
        invariant forall c :: c in caps || c in todo <==> (chat, c) in rows
        invariant forall i, j :: 0 <= i < j < |caps| ==> Before(caps[i], caps[j])
        invariant forall i, c :: 0 <= i < |caps| && c in todo ==> Before(caps[i], c)
        decreases todo
      {
        ghost var least := Least(todo);
        assert IsLeast(least, todo);
        var c :| c in todo && forall d :: d in todo && d != c ==> Before(c, d);
        caps := caps + [c];
        todo := todo - {c};
        forall d | d in todo ensures Before(c, d) {}
      }
    }

    /**
     What the agent of a chat is given: the tools that stored names of the chat parse to.  When the lookup
     fails, the error is logged and the agent gets no capability.
     */
    method ToolsFor(chat: ChatId, registry: seq<Capability>, fails: bool) returns (added: seq<string>)
      ensures forall t :: t in added <==> t == "listCapabilities" || (!fails && Given(chat, registry, t))
    {
      var stored, ok := GetCapabilities(chat, fails);
      var enabled := ParseCapabilities(Env(stored));
      added := RegisterCapabilityTools(registry, enabled);
      forall t ensures t in added <==> t == LIST_TOOL || (!fails && Given(chat, registry, t)) {
        RegisteredToolsExactly(registry, stored, t);
      }
    }

    /** A registry entry with this tool is enabled by a stored name of the chat. */
    ghost predicate Given(chat: ChatId, registry: seq<Capability>, t: string)
      reads this
    {
      exists c, n :: c in registry && (chat, n) in rows && c.name in Parse(n) && t in c.tools
    }
  }

  // ---- The order of names in the database ------------------------------------------------------------

  /** The byte order of UTF-8 strings, which is the order of their code points. */
  predicate Before(a: string, b: string) {
    if b == "" then false
    else if a == "" then true
    else a[0] < b[0] || (a[0] == b[0] && Before(a[1..], b[1..]))
  }

  /** The names agree up to a place where the first one ends or has the smaller character. */
  ghost predicate FirstDifference(a: string, b: string, k: nat) {
    k <= |a| && k < |b| && a[..k] == b[..k] && (k < |a| ==> a[k] < b[k])
  }

  lemma {:induction false} BeforeExactly(a: string, b: string)
    ensures Before(a, b) <==> exists k: nat :: FirstDifference(a, b, k)
  {
    if b == "" {
    } else if a == "" {
      assert FirstDifference(a, b, 0);
    } else {
      BeforeExactly(a[1..], b[1..]);
      if a[0] < b[0] { assert FirstDifference(a, b, 0); }
      if k: nat :| FirstDifference(a[1..], b[1..], k) && a[0] == b[0] {
        assert a[..k + 1] == [a[0]] + a[1..][..k] && b[..k + 1] == [b[0]] + b[1..][..k];
        assert FirstDifference(a, b, k + 1);
      }
      if k: nat :| FirstDifference(a, b, k) && k > 0 {
        assert a[0] == a[..k][0] == b[..k][0] == b[0];
        assert a[1..][..k - 1] == a[..k][1..] && b[1..][..k - 1] == b[..k][1..];
        assert FirstDifference(a[1..], b[1..], k - 1);
      }
    }
  }

  lemma {:induction false} BeforeTotal(a: string, b: string)
    ensures a == b || Before(a, b) || Before(b, a)
  {
    if a == "" || b == "" {
    } else if a[0] == b[0] {
      BeforeTotal(a[1..], b[1..]);
      assert a == [a[0]] + a[1..] && b == [b[0]] + b[1..];
    }
  }

  lemma {:induction false} BeforeTransitive(a: string, b: string, c: string)
    requires Before(a, b) && Before(b, c)
    ensures Before(a, c)
  {
    if a == "" {
    } else if a[0] == b[0] == c[0] {
      BeforeTransitive(a[1..], b[1..], c[1..]);
    }
  }

  ghost predicate IsLeast(c: string, names: set<string>) {
    c in names && forall d :: d in names && d != c ==> Before(c, d)
  }

  lemma {:induction false} Least(names: set<string>) returns (c: string)
    requires names != {}
    ensures IsLeast(c, names)
    decreases names
  {
    var x :| x in names;
    var rest := names - {x};
    if rest == {} {
      c := x;
      assert names == {x};
    } else {
      var m := Least(rest);
      BeforeTotal(x, m);
      c := if Before(x, m) then x else m;
      forall d | d in names && d != c ensures Before(c, d) {
        if d != x && d != m && c == x { BeforeTransitive(x, m, d); }
      }
    }
  }
}
