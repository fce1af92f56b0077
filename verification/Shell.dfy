/** `shell.go`: the check of a parsed command line against the allow-list. */
module ShellCheck {
  import opened Wrappers

  /** A syntax tree; a call has some assignments in front of its argument words. */
  datatype Kind =
    | CmdSubst
    | ProcSubst
    | CallExpr(assigns: nat)
    | Lit(value: string)
    | SglQuoted(value: string)
    | DblQuoted
    | Other

  datatype Node = Node(kind: Kind, children: seq<Node>)

  datatype Reason =
    | CommandSubstitution
    | ProcessSubstitution
    | DynamicName
    | EvalCalled
    | NotListed(name: string)

  /** The names the interpreter handles itself. */
  predicate IsShellBuiltin(name: string) {
    name in {
      "cd", "pwd", "true", "false", ":", "set", "export", "unset", "alias", "unalias",
      "echo", "printf", "read", "type", "hash", "return", "break", "continue", "trap", "umask",
      "ulimit", "getopts", "shift", "wait", "jobs", "bg", "fg", "kill", "times"
    }
  }

  /**
   The names the comment on the table announces are built in, and besides these only a few others are.
   */
  lemma BuiltInNames(name: string)
    ensures var announced := ["cd", "pwd", "true", "false", ":", "set", "export", "unset", "alias", "unalias",
                              "echo", "printf", "read", "type", "hash"];
            var others := ["return", "break", "continue", "trap", "umask", "ulimit", "getopts", "shift",
                           "wait", "jobs", "bg", "fg", "kill", "times"];
            IsShellBuiltin(name) <==> name in announced || name in others
  {
  }

  // ----- literal words -----

  /** A part whose text is fixed: plain, single-quoted, or double-quoted with nothing but plain text inside. */
  predicate FixedPart(p: Node) {
    || p.kind.Lit?
    || p.kind.SglQuoted?
    || (p.kind.DblQuoted? && forall c | c in p.children :: c.kind.Lit?)
  }

  predicate FixedWord(w: Node) {
    forall p | p in w.children :: FixedPart(p)
  }

  function PlainOf(p: Node): string {
    if p.kind.Lit? then p.kind.value else ""
  }

  function PlainText(parts: seq<Node>): string {
    if parts == [] then "" else PlainText(parts[..|parts| - 1]) + PlainOf(parts[|parts| - 1])
  }

  function PartText(p: Node): string {
    match p.kind
    case Lit(value) => value
    case SglQuoted(value) => value
    case DblQuoted => PlainText(p.children)
    case _ => ""
  }

  function WordText(parts: seq<Node>): string {
    if parts == [] then "" else WordText(parts[..|parts| - 1]) + PartText(parts[|parts| - 1])
  }

  lemma TextSteps(parts: seq<Node>, i: nat)
    requires i < |parts|
    ensures PlainText([]) == WordText([]) == ""
    ensures PlainText(parts[..i + 1]) ==
            PlainText(parts[..i]) + PlainOf(parts[i])
    ensures WordText(parts[..i + 1]) == WordText(parts[..i]) + PartText(parts[i])
  {
    assert parts[..i + 1][..i] == parts[..i];
  }

  // ----- what a word spells, said without computing it -----

  /** Plain parts, one after the other, spell this text. */
  ghost predicate SpellsPlain(parts: seq<Node>, t: string) {
    if parts == [] then t == ""
    else parts[0].kind.Lit? && parts[0].kind.value <= t && SpellsPlain(parts[1..], t[|parts[0].kind.value|..])
  }

  /** A part spells its text: plain, single-quoted, or double-quoted with only plain parts inside. */
  ghost predicate SpellsPart(p: Node, t: string) {
    match p.kind
    case Lit(value) => t == value
    case SglQuoted(value) => t == value
    case DblQuoted => SpellsPlain(p.children, t)
    case _ => false
  }

  /** The parts of a word, one after the other, spell this text. */
  ghost predicate Spells(parts: seq<Node>, t: string) {
    if parts == [] then t == ""
    else exists k | 0 <= k <= |t| :: SpellsPart(parts[0], t[..k]) && Spells(parts[1..], t[k..])
  }

  lemma PlainTextStep(parts: seq<Node>, p: Node)
    ensures PlainText([]) == "" && PlainText(parts + [p]) == PlainText(parts) + PlainOf(p)
  {
    hide PlainOf;
    assert (parts + [p])[..|parts + [p]| - 1] == parts;
  }

  lemma {:induction false} PlainTextAdd(a: seq<Node>, b: seq<Node>)
    ensures PlainText(a + b) == PlainText(a) + PlainText(b)
  {
    hide PlainText, PlainOf;
    if b == [] {
      assert a + b == a;
      PlainTextStep([], Node(Other, []));
    } else {
      var shorter, p := b[..|b| - 1], b[|b| - 1];
      PlainTextAdd(a, shorter);
      PlainTextStep(a + shorter, p);
      PlainTextStep(shorter, p);
      assert a + b == (a + shorter) + [p] && b == shorter + [p];
    }
  }

  lemma PlainTextFront(parts: seq<Node>)
    requires parts != []
    ensures PlainText(parts) == PlainOf(parts[0]) + PlainText(parts[1..])
  {
    hide PlainText, PlainOf;
    assert parts == [parts[0]] + parts[1..] && [] + [parts[0]] == [parts[0]];
    PlainTextStep([], parts[0]);
    PlainTextAdd([parts[0]], parts[1..]);
  }

  lemma WordTextStep(parts: seq<Node>, p: Node)
    ensures WordText([]) == "" && WordText(parts + [p]) == WordText(parts) + PartText(p)
  {
    hide PartText;
    assert (parts + [p])[..|parts + [p]| - 1] == parts;
  }

  lemma {:induction false} WordTextAdd(a: seq<Node>, b: seq<Node>)
    ensures WordText(a + b) == WordText(a) + WordText(b)
  {
    hide WordText, PartText;
    if b == [] {
      assert a + b == a;
      WordTextStep([], Node(Other, []));
    } else {
      var shorter, p := b[..|b| - 1], b[|b| - 1];
      WordTextAdd(a, shorter);
      WordTextStep(a + shorter, p);
      WordTextStep(shorter, p);
      assert a + b == (a + shorter) + [p] && b == shorter + [p];
    }
  }

  lemma WordTextFront(parts: seq<Node>)
    requires parts != []
    ensures WordText(parts) == PartText(parts[0]) + WordText(parts[1..])
  {
    hide WordText, PartText;
    assert parts == [parts[0]] + parts[1..] && [] + [parts[0]] == [parts[0]];
    WordTextStep([], parts[0]);
    WordTextAdd([parts[0]], parts[1..]);
  }

  lemma {:induction false} PlainSpells(parts: seq<Node>, t: string)
    ensures SpellsPlain(parts, t) <==> (forall c | c in parts :: c.kind.Lit?) && t == PlainText(parts)
  {
    if parts == [] {
    } else {
      PlainTextFront(parts);
      assert parts == [parts[0]] + parts[1..];
      if parts[0].kind.Lit? {
        var value := parts[0].kind.value;
        if value <= t {
          PlainSpells(parts[1..], t[|value|..]);
          assert t == value + t[|value|..];
        } else {
          assert (value + PlainText(parts[1..]))[..|value|] == value;
        }
      }
    }
  }

  lemma PartSpells(p: Node, t: string)
    ensures SpellsPart(p, t) <==> FixedPart(p) && t == PartText(p)
  {
    if p.kind.DblQuoted? {
      PlainSpells(p.children, t);
    }
  }

  /** The text computed for a word is the one text it spells, if it spells any. */
  lemma {:induction false} WordSpells(parts: seq<Node>, t: string)
    ensures Spells(parts, t) <==> (forall p | p in parts :: FixedPart(p)) && t == WordText(parts)
  {
    if parts == [] {
    } else {
      hide FixedPart, PartText, SpellsPart;
      WordTextFront(parts);
      var first, rest := PartText(parts[0]), parts[1..];
      assert parts == [parts[0]] + rest;
      forall k | 0 <= k <= |t|
        ensures SpellsPart(parts[0], t[..k]) && Spells(rest, t[k..]) <==>
                  && FixedPart(parts[0]) && t[..k] == first
                  && (forall p | p in rest :: FixedPart(p)) && t[k..] == WordText(rest)
      {
        PartSpells(parts[0], t[..k]);
        WordSpells(rest, t[k..]);
        assert t == t[..k] + t[k..];
      }
      if t == WordText(parts) {
        assert t[..|first|] == first && t[|first|..] == WordText(rest);
      }
    }
  }

  /** Inside double quotes: the text if every part is plain. */
  method QuotedText(p: Node) returns (text: Option<string>)
    requires p.kind.DblQuoted?
    ensures text == if FixedPart(p) then Some(PartText(p)) else None
  {
    hide WordText;
    var b := "";
    for j := 0 to |p.children|
      invariant forall k | 0 <= k < j :: p.children[k].kind.Lit?
      invariant b == PlainText(p.children[..j])
    {
      TextSteps(p.children, j);
      assert p.children[j] in p.children;
      if p.children[j].kind.Lit? {
        b := b + p.children[j].kind.value;
      } else {
        return None;
      }
    }
    assert p.children[..|p.children|] == p.children;
    return Some(b);
  }

  /** `literalWord`. */
  method LiteralWord(w: Node) returns (text: Option<string>)
    ensures text == if FixedWord(w) then Some(WordText(w.children)) else None
    ensures forall t :: Spells(w.children, t) <==> text == Some(t)
  {
    hide PlainText, Spells;
    forall t ensures Spells(w.children, t) <==> FixedWord(w) && t == WordText(w.children) {
      WordSpells(w.children, t);
    }
    var b := "";
    for i := 0 to |w.children|
      invariant forall j | 0 <= j < i :: FixedPart(w.children[j])
      invariant b == WordText(w.children[..i])
    {
      TextSteps(w.children, i);
      var p := w.children[i];
      assert p in w.children;
      match p.kind {
        case Lit(value) => b := b + value;
        case SglQuoted(value) => b := b + value;
        case DblQuoted =>
          var quoted := QuotedText(p);
          if quoted.None? {
            return None;
          }
          b := b + quoted.value;
        case _ => return None;
      }
    }
    assert w.children[..|w.children|] == w.children;
    return Some(b);
  }

  function Args(n: Node): seq<Node>
    requires n.kind.CallExpr?
  {
    if n.kind.assigns <= |n.children| then n.children[n.kind.assigns..] else []
  }

  /** The name a call runs, if its text is fixed: a bare assignment has none. */
  function NameOf(n: Node): Option<string>
    requires n.kind.CallExpr?
  {
    if Args(n) != [] && FixedWord(Args(n)[0]) then Some(WordText(Args(n)[0].children)) else None
  }

  /** A call runs a name: the first word after its assignments spells it, whatever else there is. */
  ghost predicate Runs(n: Node, name: string) {
    n.kind.CallExpr? && n.kind.assigns < |n.children| && Spells(n.children[n.kind.assigns].children, name)
  }

  lemma NameIsSpelled(n: Node)
    requires n.kind.CallExpr?
    ensures forall t :: Runs(n, t) <==> NameOf(n) == Some(t)
  {
    hide Spells;
    forall t ensures Runs(n, t) <==> NameOf(n) == Some(t) {
      if n.kind.assigns < |n.children| {
        WordSpells(n.children[n.kind.assigns].children, t);
      }
    }
  }

  /** `callName`. */
  method CallName(n: Node) returns (name: Option<string>)
    requires n.kind.CallExpr?
    ensures name == NameOf(n)
    ensures forall t :: Runs(n, t) <==> name == Some(t)
  {
    NameIsSpelled(n);
    if |Args(n)| == 0 {
      return None;
    }
    name := LiteralWord(Args(n)[0]);
  }

  // ----- what is admissible -----

  ghost predicate Listed(allowed: set<string>, name: string) {
    name != "eval" && (IsShellBuiltin(name) || name in allowed)
  }

  /** A node the policy admits, whatever is around it. */
  ghost predicate Admissible(allowed: set<string>, n: Node) {
    && !n.kind.CmdSubst?
    && !n.kind.ProcSubst?
    && (n.kind.CallExpr? ==> exists name | Runs(n, name) :: Listed(allowed, name))
  }

  /** Neither eval nor the other names that run what they are given are among the built-in ones. */
  lemma EvalIsNotBuiltIn()
    ensures forall name | name in {"eval", "exec", "command", "builtin", "source", ".", "env", "xargs", "sh"} ::
              !IsShellBuiltin(name)
  {
  }

  /** Every node of a tree, a node before what is inside it. */
  function Preorder(n: Node): seq<Node>
    decreases n, |n.children| + 1
  {
    [n] + PreorderAll(n, |n.children|)
  }

  /** The nodes inside the first k children. */
  function PreorderAll(n: Node, k: nat): seq<Node>
    requires k <= |n.children|
    decreases n, k
  {
    if k == 0 then [] else PreorderAll(n, k - 1) + Preorder(n.children[k - 1])
  }

  /** A node comes first, then everything inside its children, child by child. */
  lemma PreorderIsNested(n: Node, i: nat)
    requires i < |n.children|
    ensures [n] + PreorderAll(n, i) + Preorder(n.children[i]) <= Preorder(n)
    ensures PreorderAll(n, 0) == [] && PreorderAll(n, i + 1) == PreorderAll(n, i) + Preorder(n.children[i])
  {
    PreorderAllGrows(n, i + 1, |n.children|);
    var upTo, inside, all := PreorderAll(n, i), Preorder(n.children[i]), PreorderAll(n, |n.children|);
    assert Preorder(n) == [n] + all;
    assert PreorderAll(n, i + 1) == upTo + inside;
    hide Preorder, PreorderAll;
    assert [n] + upTo + inside == [n] + (upTo + inside);
  }

  lemma {:induction false} PreorderAllGrows(n: Node, i: nat, k: nat)
    requires i <= k <= |n.children|
    ensures PreorderAll(n, i) <= PreorderAll(n, k)
    decreases k
  {
    if i == k {
    } else {
      PreorderAllGrows(n, i, k - 1);
    }
  }

  /** A node somewhere in a tree. */
  ghost predicate Inside(x: Node, n: Node) {
    x == n || exists i | 0 <= i < |n.children| :: Inside(x, n.children[i])
  }

  lemma {:induction false} PreorderIsEverything(x: Node, n: Node)
    ensures x in Preorder(n) <==> Inside(x, n)
    decreases n, |n.children| + 1
  {
    PreorderAllIsEverything(x, n, |n.children|);
  }

  lemma {:induction false} PreorderAllIsEverything(x: Node, n: Node, k: nat)
    requires k <= |n.children|
    ensures x in PreorderAll(n, k) <==> exists i | 0 <= i < k :: Inside(x, n.children[i])
    decreases n, k
  {
    if k == 0 {
    } else {
      PreorderAllIsEverything(x, n, k - 1);
      PreorderIsEverything(x, n.children[k - 1]);
    }
  }

  /** What is wrong with a node by itself. */
  function Offence(allowed: set<string>, n: Node): Option<Reason> {
    match n.kind
    case CmdSubst => Some(CommandSubstitution)
    case ProcSubst => Some(ProcessSubstitution)
    case CallExpr(_) =>
      if NameOf(n).None? then Some(DynamicName)
      else if NameOf(n).value == "eval" then Some(EvalCalled)
      else if !IsShellBuiltin(NameOf(n).value) && NameOf(n).value !in allowed then Some(NotListed(NameOf(n).value))
      else None
    case _ => None
  }

  /** This is what is wrong with a node, said of what the node is and runs. */
  ghost predicate Deserves(allowed: set<string>, n: Node, r: Reason) {
    match r
    case CommandSubstitution => n.kind.CmdSubst?
    case ProcessSubstitution => n.kind.ProcSubst?
    case DynamicName => n.kind.CallExpr? && forall t :: !Runs(n, t)
    case EvalCalled => Runs(n, "eval")
    case NotListed(name) => Runs(n, name) && !Listed(allowed, name) && name != "eval"
  }

  lemma OffenceIsDeserved(allowed: set<string>, n: Node)
    ensures Offence(allowed, n).None? <==> Admissible(allowed, n)
    ensures Offence(allowed, n).Some? ==> Deserves(allowed, n, Offence(allowed, n).value)
  {
    hide Runs, IsShellBuiltin;
    if n.kind.CallExpr? {
      NameIsSpelled(n);
    } else {
      OthersRunNothing(n);
    }
  }

  lemma OthersRunNothing(n: Node)
    requires !n.kind.CallExpr?
    ensures forall t :: !Runs(n, t)
  {
  }

  function FirstOffence(allowed: set<string>, ns: seq<Node>): Option<Reason> {
    if ns == [] then None
    else if Offence(allowed, ns[0]).Some? then Offence(allowed, ns[0])
    else FirstOffence(allowed, ns[1..])
  }

  lemma {:induction false} FirstOffenceAdd(allowed: set<string>, a: seq<Node>, b: seq<Node>)
    ensures FirstOffence(allowed, a + b) ==
            if FirstOffence(allowed, a).Some? then FirstOffence(allowed, a) else FirstOffence(allowed, b)
  {
    if a == [] {
      assert a + b == b;
    } else {
      assert (a + b)[1..] == a[1..] + b;
      FirstOffenceAdd(allowed, a[1..], b);
    }
  }

  /** The first offence is that of a node with no offending node before it. */
  lemma {:induction false} FirstOffenceIsFirst(allowed: set<string>, ns: seq<Node>)
    ensures FirstOffence(allowed, ns).None? <==> forall i | 0 <= i < |ns| :: Admissible(allowed, ns[i])
    ensures FirstOffence(allowed, ns).Some? ==> exists i | 0 <= i < |ns| ::
              && Offence(allowed, ns[i]) == FirstOffence(allowed, ns)
              && Deserves(allowed, ns[i], FirstOffence(allowed, ns).value)
              && forall j | 0 <= j < i :: Admissible(allowed, ns[j])
  {
    hide Offence, Admissible, Deserves;
    if ns == [] {
    } else {
      var rest := ns[1..];
      FirstOffenceIsFirst(allowed, rest);
      OffenceIsDeserved(allowed, ns[0]);
      if Offence(allowed, ns[0]).None? {
        assert forall i | 0 < i < |ns| :: ns[i] == rest[i - 1];
        assert forall i | 0 <= i < |rest| :: rest[i] == ns[i + 1];
        if FirstOffence(allowed, rest).Some? {
          var i :| 0 <= i < |rest| && Offence(allowed, rest[i]) == FirstOffence(allowed, rest)
                   && Deserves(allowed, rest[i], FirstOffence(allowed, rest).value)
                   && forall j | 0 <= j < i :: Admissible(allowed, rest[j]);
          assert Offence(allowed, ns[i + 1]) == FirstOffence(allowed, ns);
          forall j | 0 <= j < i + 1 ensures Admissible(allowed, ns[j]) {
            if j > 0 {
              assert ns[j] == rest[j - 1];
            }
          }
        }
      }
    }
  }

  // ----- verify -----

  /** The walk of `verify`, with the reason its callback captures. */
  class Verifier {
    const allowed: set<string>
    var reason: Option<Reason>

    constructor (allowed: set<string>)
      ensures this.allowed == allowed && reason.None?
    {
      this.allowed := allowed;
      reason := None;
    }

    /** The callback: look at one node, and say whether to go on inside it. */
    method Visit(n: Node) returns (descend: bool)
      modifies this
      ensures reason == if old(reason).Some? then old(reason) else Offence(allowed, n)
      ensures descend <==> reason.None?
    {
      if reason.Some? {
        return false;
      }
      match n.kind {
        case CmdSubst =>
          reason := Some(CommandSubstitution);
          return false;
        case ProcSubst =>
          reason := Some(ProcessSubstitution);
          return false;
        case CallExpr(_) =>
          var name := CallName(n);
          if name.None? {
            reason := Some(DynamicName);
            return false;
          }
          if name.value == "eval" {
            reason := Some(EvalCalled);
            return false;
          }
          if IsShellBuiltin(name.value) {
            return true;
          }
          if name.value !in allowed {
            reason := Some(NotListed(name.value));
            return false;
          }
        case _ =>
      }
      return true;
    }

    /** The walk: a node, then its children in order unless the callback says not to. */
    method Walk(n: Node)
      modifies this
      ensures reason == if old(reason).Some? then old(reason) else FirstOffence(allowed, Preorder(n))
      decreases n
    {
      ghost var was := reason;
      var descend := Visit(n);
      FirstOffenceAdd(allowed, [n], PreorderAll(n, |n.children|));
      assert [n][1..] == [];
      if descend {
        for i := 0 to |n.children|
          invariant reason == FirstOffence(allowed, PreorderAll(n, i))
        {
          FirstOffenceAdd(allowed, PreorderAll(n, i), Preorder(n.children[i]));
          Walk(n.children[i]);
        }
      }
    }
  }

  /**
   `verify`: no reason is returned exactly when every node at any depth is admissible; otherwise
   the reason is that of the first offending node, despite the pruning and the early exit.
   */
  method Verify(allowed: set<string>, file: Node) returns (reason: Option<Reason>)
    ensures reason == FirstOffence(allowed, Preorder(file))
    ensures reason.None? <==> forall x | x in Preorder(file) :: Admissible(allowed, x)
    ensures reason.Some? ==> exists i | 0 <= i < |Preorder(file)| ::
              && Deserves(allowed, Preorder(file)[i], reason.value)
              && forall j | 0 <= j < i :: Admissible(allowed, Preorder(file)[j])
  {
    hide Admissible, Deserves, Offence;
    var v := new Verifier(allowed);
    v.Walk(file);
    reason := v.reason;
    FirstOffenceIsFirst(allowed, Preorder(file));
    assert forall i | 0 <= i < |Preorder(file)| :: Preorder(file)[i] in Preorder(file);
  }

  /** Nothing inside this node is a call or a substitution. */
  ghost predicate Harmless(n: Node) {
    forall x | Inside(x, n) :: !x.kind.CallExpr? && !x.kind.CmdSubst? && !x.kind.ProcSubst?
  }

  /**
   A file with one call, of harmless words, is admitted exactly if the first word after the assignments
   spells a built-in or listed name other than eval: neither the assignments nor the other words matter.
   */
  lemma OneCallIsAdmittedIff(allowed: set<string>, assigns: seq<Node>, word: Node, rest: seq<Node>)
    requires forall x | x in assigns + [word] + rest :: Harmless(x)
    ensures var call := Node(CallExpr(|assigns|), assigns + [word] + rest);
            FirstOffence(allowed, Preorder(call)).None?
            <==> exists name | Spells(word.children, name) :: Listed(allowed, name)
  {
    hide Spells, Listed, FirstOffence, Preorder;
    var words := assigns + [word] + rest;
    var call := Node(CallExpr(|assigns|), words);
    AdmittedIffAllInsideAdmissible(allowed, call);
    assert words[|assigns|] == word;
    forall t ensures Runs(call, t) <==> Spells(word.children, t) {
    }
    assert Admissible(allowed, call) <==> exists name | Spells(word.children, name) :: Listed(allowed, name);
    forall x | Inside(x, call) && x != call ensures Admissible(allowed, x) {
      var i :| 0 <= i < |call.children| && Inside(x, call.children[i]);
      assert words[i] in words;
    }
  }

  /** Said of the tree itself: admitted exactly when nothing inside it offends. */
  lemma AdmittedIffAllInsideAdmissible(allowed: set<string>, file: Node)
    ensures FirstOffence(allowed, Preorder(file)).None? <==> forall x | Inside(x, file) :: Admissible(allowed, x)
  {
    FirstOffenceIsFirst(allowed, Preorder(file));
    forall x ensures x in Preorder(file) <==> Inside(x, file) {
      PreorderIsEverything(x, file);
    }
    if forall x | Inside(x, file) :: Admissible(allowed, x) {
      forall i | 0 <= i < |Preorder(file)| ensures Admissible(allowed, Preorder(file)[i]) {
        assert Preorder(file)[i] in Preorder(file);
      }
    }
  }
}
