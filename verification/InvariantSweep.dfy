/** The repository's lint over its own syntax trees: a visitor that carries three
    depth counters, against the rule about ancestor paths that it stands for. */
module InvariantSweep {
  import opened Lists

  /** A syntax node with its children in visiting order. The first child of an
      attribute is the value it hangs on, the first child of a call is what is
      called, and the first `items` children of an `async with` are its items,
      whose own first child is the context expression. */
  datatype Kind = AsyncDef
                | SyncDef
                | AsyncWith(items: nat)
                | Call
                | Attribute(attr: string)
                | Name(id: string)
                | Other

  datatype Node = Node(kind: Kind, line: nat, children: seq<Node>)

  const CPU_PARSERS := {"fromstring", "parse", "parseString", "BeautifulSoup", "read_html"}
  const CPU_PARSER_ROOTS := {"ET", "etree", "ElementTree", "feedparser", "minidom", "bs4"}
  const OFFLOADERS := {"to_thread", "run_in_executor", "wait_for"}
  const BLOCKING_ROOTS := {"requests", "urllib", "httpx"}
  const BLOCKING_ATTRS := {"sleep", "get", "post", "put", "delete", "request", "urlopen"}
  const NETWORKISH := {"_call_claude_cli", "_call_claude", "analyze", "fetch", "_private", "_public", "estimate",
                       "acompletion"}
  const NETWORK_RECEIVERS := {"session", "client", "http", "aiohttp", "requests", "_session", "_client", "analyzer",
                              "_analyzer", "exchange"}
  const NETWORK_VERBS := {"get", "post", "put", "request", "call"}

  // --- Names ------------------------------------------------------------------

  function AttrName(node: Node): string {
    match node.kind
    case Attribute(attr) => attr
    case Name(id) => id
    case _ => ""
  }

  function RootName(node: Node): string {
    if node.kind.Attribute? && node.children != [] then RootName(node.children[0])
    else if node.kind.Name? then node.kind.id else ""
  }

  method LeftmostName(node: Node) returns (name: string)
    ensures name == RootName(node)
  {
    var n := node;
    while n.kind.Attribute? && n.children != []
      invariant RootName(n) == RootName(node)
      decreases n
    {
      n := n.children[0];
    }
    return if n.kind.Name? then n.kind.id else "";
  }

  function CallAttr(call: Node): string { if call.children == [] then "" else AttrName(call.children[0]) }

  function CallRoot(call: Node): string { if call.children == [] then "" else RootName(call.children[0]) }

  // --- The rule about ancestor paths -------------------------------------------

  predicate Offloads(node: Node) { node.kind.Call? && CallAttr(node) in OFFLOADERS }

  predicate IsTransactionItem(item: Node) {
    item.children != [] && item.children[0].kind.Call? && CallAttr(item.children[0]) == "transaction"
  }

  predicate OpensTransaction(node: Node) {
    && node.kind.AsyncWith?
    && exists i :: 0 <= i < node.kind.items && i < |node.children| && IsTransactionItem(node.children[i])
  }

  /** A coroutine at `i`, and no plain function between it and the end. */
  predicate CoroutineFrom(path: seq<Node>, i: nat) {
    i < |path| && path[i].kind.AsyncDef? && forall j :: i < j < |path| ==> !path[j].kind.SyncDef?
  }

  predicate InCoroutine(path: seq<Node>) {
    exists i :: 0 <= i < |path| && CoroutineFrom(path, i)
  }

  predicate Offloaded(path: seq<Node>) {
    exists i :: 0 <= i < |path| && Offloads(path[i])
  }

  predicate InTransaction(path: seq<Node>) {
    exists i :: 0 <= i < |path| && OpensTransaction(path[i])
  }

  predicate Networkish(attr: string, root: string) {
    attr in NETWORKISH || (attr in NETWORK_VERBS && root in NETWORK_RECEIVERS)
  }

  datatype Finding = Finding(file: string, line: nat, dimension: string, detail: string)

  function ParseFinding(rel: string, call: Node): Finding {
    Finding(rel, call.line, "unbounded-parse",
            CallRoot(call) + "." + CallAttr(call) + " on the event loop with no to_thread/wait_for")
  }

  function SyncCallFinding(rel: string, call: Node): Finding {
    Finding(rel, call.line, "blocking-in-async",
            "sync " + CallRoot(call) + "." + CallAttr(call) + " inside a coroutine")
  }

  function SleepFinding(rel: string, call: Node): Finding {
    Finding(rel, call.line, "blocking-in-async", "time.sleep inside a coroutine")
  }

  function SpanFinding(rel: string, call: Node): Finding {
    Finding(rel, call.line, "await-in-txn-span", CallRoot(call) + "." + CallAttr(call) + "() inside a transaction span")
  }

  function If(condition: bool, f: Finding): seq<Finding> { if condition then [f] else [] }

  predicate Parses(call: Node) { CallAttr(call) in CPU_PARSERS && CallRoot(call) in CPU_PARSER_ROOTS }

  predicate Blocks(call: Node) { CallRoot(call) in BLOCKING_ROOTS && CallAttr(call) in BLOCKING_ATTRS }

  predicate Sleeps(call: Node) { CallRoot(call) == "time" && CallAttr(call) == "sleep" }

  predicate Fetches(call: Node) { Networkish(CallAttr(call), CallRoot(call)) && CallRoot(call) !in {"self", ""} }

  /** What is wrong with one call, given the nodes above it, outermost first. */
  function Report(rel: string, above: seq<Node>, call: Node): seq<Finding> {
    var onLoop := InCoroutine(above) && !Offloaded(above + [call]);
    If(onLoop && Parses(call), ParseFinding(rel, call)) +
    If(onLoop && Blocks(call), SyncCallFinding(rel, call)) +
    If(InCoroutine(above) && Sleeps(call), SleepFinding(rel, call)) +
    If(InTransaction(above) && Fetches(call), SpanFinding(rel, call))
  }

  function ReportAt(rel: string, above: seq<Node>, node: Node): seq<Finding> {
    if node.kind.Call? then Report(rel, above, node) else []
  }

  /** The reports of a whole subtree, parents first, then children in order. */
  function Expected(rel: string, above: seq<Node>, node: Node): seq<Finding>
    decreases node, |node.children| + 1
  {
    ReportAt(rel, above, node) + ExpectedBelow(rel, above + [node], node, |node.children|)
  }

  function ExpectedBelow(rel: string, path: seq<Node>, node: Node, k: nat): seq<Finding>
    requires k <= |node.children|
    decreases node, k
  {
    if k == 0 then []
    else ExpectedBelow(rel, path, node, k - 1) + Expected(rel, path, node.children[k - 1])
  }

  // --- Counters stand for paths --------------------------------------------------

  function AsyncDepth(path: seq<Node>): nat {
    if path == [] then 0
    else
      var outer := AsyncDepth(path[..|path| - 1]);
      match path[|path| - 1].kind
      case AsyncDef => outer + 1
      case SyncDef => 0
      case _ => outer
  }

  function OffloadDepth(path: seq<Node>): nat {
    if path == [] then 0
    else OffloadDepth(path[..|path| - 1]) + if Offloads(path[|path| - 1]) then 1 else 0
  }

  function TxnDepth(path: seq<Node>): nat {
    if path == [] then 0
    else TxnDepth(path[..|path| - 1]) + if OpensTransaction(path[|path| - 1]) then 1 else 0
  }

  lemma CoroutineStep(path: seq<Node>, node: Node)
    ensures InCoroutine(path + [node]) <==> node.kind.AsyncDef? || (!node.kind.SyncDef? && InCoroutine(path))
  {
    var all := path + [node];
    forall i: nat | i < |path| ensures CoroutineFrom(all, i) <==> !node.kind.SyncDef? && CoroutineFrom(path, i) {
      assert all[|path|] == node;
      assert forall j :: 0 <= j < |path| ==> all[j] == path[j];
    }
    assert CoroutineFrom(all, |path|) <==> node.kind.AsyncDef?;
  }

  lemma {:induction false} AsyncDepthMeans(path: seq<Node>)
    ensures AsyncDepth(path) > 0 <==> InCoroutine(path)
  {
    if path == [] {
    } else {
      hide InCoroutine;
      var init := path[..|path| - 1];
      assert path == init + [path[|path| - 1]];
      AsyncDepthMeans(init);
      CoroutineStep(init, path[|path| - 1]);
    }
  }

  lemma {:induction false} OffloadDepthMeans(path: seq<Node>)
    ensures OffloadDepth(path) > 0 <==> Offloaded(path)
  {
    if path == [] {
    } else {
      hide Offloads;
      var init := path[..|path| - 1];
      OffloadDepthMeans(init);
      if i :| 0 <= i < |init| && Offloads(init[i]) {
        assert Offloads(path[i]);
      }
    }
  }

  lemma {:induction false} TxnDepthMeans(path: seq<Node>)
    ensures TxnDepth(path) > 0 <==> InTransaction(path)
  {
    if path == [] {
    } else {
      hide OpensTransaction;
      var init := path[..|path| - 1];
      TxnDepthMeans(init);
      if i :| 0 <= i < |init| && OpensTransaction(init[i]) {
        assert OpensTransaction(path[i]);
      }
    }
  }

  lemma DepthsBelow(path: seq<Node>, node: Node)
    ensures AsyncDepth(path + [node]) == (match node.kind
                                          case AsyncDef => AsyncDepth(path) + 1
                                          case SyncDef => 0
                                          case _ => AsyncDepth(path))
    ensures OffloadDepth(path + [node]) == OffloadDepth(path) + if Offloads(node) then 1 else 0
    ensures TxnDepth(path + [node]) == TxnDepth(path) + if OpensTransaction(node) then 1 else 0
  {
    assert (path + [node])[..|path|] == path;
  }

  // --- The visitor -----------------------------------------------------------------

  class Sweeper {
    const rel: string
    var findings: seq<Finding>
    var asyncDepth: nat
    var offloadDepth: nat
    var txnDepth: nat

    ghost predicate StandsAt(path: seq<Node>)
      reads this
    {
      asyncDepth == AsyncDepth(path) && offloadDepth == OffloadDepth(path) && txnDepth == TxnDepth(path)
    }

    constructor (relpath: string)
      ensures rel == relpath && findings == [] && StandsAt([])
    {
      rel := relpath;
      findings := [];
      asyncDepth, offloadDepth, txnDepth := 0, 0, 0;
    }

    method Add(node: Node, dimension: string, detail: string)
      modifies this`findings
      ensures findings == old(findings) + [Finding(rel, node.line, dimension, detail)]
    {
      findings := findings + [Finding(rel, node.line, dimension, detail)];
    }

    method Visit(node: Node, ghost above: seq<Node>)
      requires StandsAt(above)
      modifies this
      ensures findings == old(findings) + Expected(rel, above, node)
      ensures StandsAt(above)
      decreases node, |node.children| + 2
    {
      hide AsyncDepth, OffloadDepth, TxnDepth, Offloads, OpensTransaction, Report, ExpectedBelow;
      DepthsBelow(above, node);
      match node.kind {
        case AsyncDef =>
          NeitherCallNorWith(node);
          asyncDepth := asyncDepth + 1;
          GenericVisit(node, above + [node]);
          asyncDepth := asyncDepth - 1;
        case SyncDef =>
          NeitherCallNorWith(node);
          var outer := asyncDepth;
          asyncDepth := 0;
          GenericVisit(node, above + [node]);
          asyncDepth := outer;
        case AsyncWith(_) =>
          NeitherCallNorWith(node);
          var isTxn := AnyTransactionItem(node);
          if isTxn {
            txnDepth := txnDepth + 1;
          }
          GenericVisit(node, above + [node]);
          if isTxn {
            txnDepth := txnDepth - 1;
          }
        case Call =>
          VisitCall(node, above);
        case _ =>
          NeitherCallNorWith(node);
          GenericVisit(node, above + [node]);
      }
    }

    method VisitCall(node: Node, ghost above: seq<Node>)
      requires StandsAt(above) && node.kind.Call?
      modifies this
      ensures findings == old(findings) + Expected(rel, above, node)
      ensures StandsAt(above)
      decreases node, |node.children| + 1
    {
      hide AsyncDepth, OffloadDepth, TxnDepth, Offloads, OpensTransaction, Report, ExpectedBelow;
      DepthsBelow(above, node);
      NeitherCallNorWith(node);
      var attr := if node.children == [] then "" else AttrName(node.children[0]);
      var root := "";
      if node.children != [] {
        root := LeftmostName(node.children[0]);
      }
      var offload := attr in OFFLOADERS;
      if offload {
        offloadDepth := offloadDepth + 1;
      }
      Check(node, attr, root, above);
      ghost var own := findings;
      GenericVisit(node, above + [node]);
      if offload {
        offloadDepth := offloadDepth - 1;
      }
      ConcatAssociates(old(findings), Report(rel, above, node),
                       ExpectedBelow(rel, above + [node], node, |node.children|));
    }

    /** The checks read the counters, not the path. */
    method Check(node: Node, attr: string, root: string, ghost above: seq<Node>)
      requires node.kind.Call? && attr == CallAttr(node) && root == CallRoot(node)
      requires asyncDepth == AsyncDepth(above) && offloadDepth == OffloadDepth(above + [node])
      requires txnDepth == TxnDepth(above)
      modifies this`findings
      ensures findings == old(findings) + Report(rel, above, node)
    {
      hide AsyncDepth, OffloadDepth, TxnDepth, InCoroutine, Offloaded, InTransaction, CallAttr, CallRoot;
      AsyncDepthMeans(above);
      OffloadDepthMeans(above + [node]);
      TxnDepthMeans(above);
      CheckLoop(node, attr, root);
      var networkish := attr in NETWORKISH || (attr in NETWORK_VERBS && root in NETWORK_RECEIVERS);
      hide ParseFinding, SyncCallFinding, SleepFinding, Parses, Blocks, Sleeps;
      if txnDepth > 0 && networkish && root !in {"self", ""} {
        Add(node, "await-in-txn-span", root + "." + attr + "() inside a transaction span");
      }
    }

    method CheckLoop(node: Node, attr: string, root: string)
      requires node.kind.Call? && attr == CallAttr(node) && root == CallRoot(node)
      modifies this`findings
      ensures findings == old(findings) +
              (If(asyncDepth > 0 && offloadDepth == 0 && Parses(node), ParseFinding(rel, node)) +
               If(asyncDepth > 0 && offloadDepth == 0 && Blocks(node), SyncCallFinding(rel, node)) +
               If(asyncDepth > 0 && Sleeps(node), SleepFinding(rel, node)))
    {
      hide CallAttr, CallRoot;
      ghost var onLoop := asyncDepth > 0 && offloadDepth == 0;
      ghost var parse, sync := If(onLoop && Parses(node), ParseFinding(rel, node)),
          If(onLoop && Blocks(node), SyncCallFinding(rel, node));
      if asyncDepth > 0 && offloadDepth == 0 && attr in CPU_PARSERS && root in CPU_PARSER_ROOTS {
        Add(node, "unbounded-parse", root + "." + attr + " on the event loop with no to_thread/wait_for");
      }
      assert findings == old(findings) + parse;
      if asyncDepth > 0 && offloadDepth == 0 && root in BLOCKING_ROOTS && attr in BLOCKING_ATTRS {
        Add(node, "blocking-in-async", "sync " + root + "." + attr + " inside a coroutine");
      }
      assert findings == old(findings) + (parse + sync);
      if root == "time" && attr == "sleep" && asyncDepth > 0 {
        Add(node, "blocking-in-async", "time.sleep inside a coroutine");
      }
    }

    method AnyTransactionItem(node: Node) returns (any: bool)
      requires node.kind.AsyncWith?
      ensures any == OpensTransaction(node)
    {
      var i := 0;
      while i < node.kind.items && i < |node.children|
        invariant 0 <= i
        invariant forall j :: 0 <= j < i && j < |node.children| ==> !IsTransactionItem(node.children[j])
      {
        if IsTransactionItem(node.children[i]) {
          return true;
        }
        i := i + 1;
      }
      return false;
    }

    method GenericVisit(node: Node, ghost path: seq<Node>)
      requires StandsAt(path)
      modifies this
      ensures findings == old(findings) + ExpectedBelow(rel, path, node, |node.children|)
      ensures StandsAt(path)
      decreases node, |node.children|
    {
      hide AsyncDepth, OffloadDepth, TxnDepth, Expected;
      var i := 0;
      while i < |node.children|
        invariant 0 <= i <= |node.children|
        invariant findings == old(findings) + ExpectedBelow(rel, path, node, i)
        invariant StandsAt(path)
      {
        Visit(node.children[i], path);
        ConcatAssociates(old(findings), ExpectedBelow(rel, path, node, i), Expected(rel, path, node.children[i]));
        i := i + 1;
      }
    }
  }

  lemma NeitherCallNorWith(node: Node)
    ensures !node.kind.Call? ==> !Offloads(node)
    ensures node.kind.Call? ==> (Offloads(node) <==> CallAttr(node) in OFFLOADERS)
    ensures !node.kind.AsyncWith? ==> !OpensTransaction(node)
  {}

  method SweepTree(rel: string, tree: Node) returns (findings: seq<Finding>)
    ensures findings == Expected(rel, [], tree)
  {
    var sweeper := new Sweeper(rel);
    sweeper.Visit(tree, []);
    findings := sweeper.findings;
  }

  // --- The findings are exactly those the path rule asks for ---------------------

  ghost predicate IsPath(root: Node, path: seq<Node>) {
    path != [] && path[0] == root && forall i :: 0 < i < |path| ==> path[i] in path[i - 1].children
  }

  function Above(path: seq<Node>): seq<Node>
    requires path != []
  {
    path[..|path| - 1]
  }

  ghost predicate Asked(rel: string, above: seq<Node>, node: Node, f: Finding) {
    exists path :: IsPath(node, path) && f in ReportAt(rel, above + Above(path), path[|path| - 1])
  }

  ghost predicate FoundInChild(rel: string, path: seq<Node>, node: Node, k: nat, f: Finding)
    requires k <= |node.children|
  {
    exists i :: 0 <= i < k && f in Expected(rel, path, node.children[i])
  }

  lemma {:induction false} BelowMembers(rel: string, path: seq<Node>, node: Node, k: nat, f: Finding)
    requires k <= |node.children|
    ensures f in ExpectedBelow(rel, path, node, k) <==> FoundInChild(rel, path, node, k, f)
  {
    hide Expected, ExpectedBelow;
    if k == 0 {
      BelowNone(rel, path, node);
    } else {
      BelowMembers(rel, path, node, k - 1, f);
      BelowUnfolds(rel, path, node, k);
      FoundStep(rel, path, node, k, f);
      hide FoundInChild;
    }
  }

  lemma BelowNone(rel: string, path: seq<Node>, node: Node)
    ensures ExpectedBelow(rel, path, node, 0) == []
  {}

  lemma FoundStep(rel: string, path: seq<Node>, node: Node, k: nat, f: Finding)
    requires 0 < k <= |node.children|
    ensures FoundInChild(rel, path, node, k, f) <==>
            FoundInChild(rel, path, node, k - 1, f) || f in Expected(rel, path, node.children[k - 1])
  {
    hide Expected;
  }

  lemma BelowUnfolds(rel: string, path: seq<Node>, node: Node, k: nat)
    requires 0 < k <= |node.children|
    ensures ExpectedBelow(rel, path, node, k)
         == ExpectedBelow(rel, path, node, k - 1) + Expected(rel, path, node.children[k - 1])
  {
    hide Expected;
  }

  lemma PathThrough(node: Node, rest: seq<Node>)
    requires rest != [] && IsPath(rest[0], rest) && rest[0] in node.children
    ensures IsPath(node, [node] + rest)
    ensures Above([node] + rest) == [node] + Above(rest)
    ensures ([node] + rest)[|[node] + rest| - 1] == rest[|rest| - 1]
  {}

  lemma {:induction false} FoundIsAsked(rel: string, above: seq<Node>, node: Node, f: Finding)
    requires f in Expected(rel, above, node)
    ensures Asked(rel, above, node, f)
    decreases node
  {
    hide ReportAt, Expected, ExpectedBelow;
    ExpectedUnfolds(rel, above, node);
    if f in ReportAt(rel, above, node) {
      assert above + Above([node]) == above;
      assert IsPath(node, [node]);
    } else {
      hide IsPath;
      BelowMembers(rel, above + [node], node, |node.children|, f);
      var i :| 0 <= i < |node.children| && f in Expected(rel, above + [node], node.children[i]);
      FoundIsAsked(rel, above + [node], node.children[i], f);
      var rest :| IsPath(node.children[i], rest)
                  && f in ReportAt(rel, above + [node] + Above(rest), rest[|rest| - 1]);
      PathStarts(node.children[i], rest);
      PathThrough(node, rest);
      ConcatAssociates(above, [node], Above(rest));
    }
  }

  lemma PathStarts(node: Node, path: seq<Node>)
    requires IsPath(node, path)
    ensures path != [] && path[0] == node
  {}

  lemma {:induction false} AskedIsFound(rel: string, above: seq<Node>, path: seq<Node>, f: Finding)
    requires path != [] && IsPath(path[0], path)
    requires f in ReportAt(rel, above + Above(path), path[|path| - 1])
    ensures f in Expected(rel, above, path[0])
    decreases |path|
  {
    hide ReportAt, Expected;
    ExpectedUnfolds(rel, above, path[0]);
    if |path| == 1 {
      assert above + Above(path) == above;
    } else {
      var node, rest := path[0], path[1..];
      assert above + [node] + Above(rest) == above + Above(path);
      assert IsPath(rest[0], rest);
      AskedIsFound(rel, above + [node], rest, f);
      assert path[1] in path[0].children;
      var i :| 0 <= i < |node.children| && node.children[i] == rest[0];
      BelowMembers(rel, above + [node], node, |node.children|, f);
    }
  }

  lemma ExpectedUnfolds(rel: string, above: seq<Node>, node: Node)
    ensures Expected(rel, above, node)
         == ReportAt(rel, above, node) + ExpectedBelow(rel, above + [node], node, |node.children|)
  {}

  /** The counter-carrying visitor finds a call exactly when the nodes on the way
      down to it satisfy the declarative rule. */
  lemma {:induction false} FindingsExact(rel: string, tree: Node, f: Finding)
    ensures f in Expected(rel, [], tree) <==>
            exists path :: IsPath(tree, path) && f in ReportAt(rel, Above(path), path[|path| - 1])
  {
    hide ReportAt, Expected;
    if f in Expected(rel, [], tree) {
      FoundIsAsked(rel, [], tree, f);
      var path :| IsPath(tree, path) && f in ReportAt(rel, [] + Above(path), path[|path| - 1]);
      assert [] + Above(path) == Above(path);
    }
    if path :| IsPath(tree, path) && f in ReportAt(rel, Above(path), path[|path| - 1]) {
      assert [] + Above(path) == Above(path);
      AskedIsFound(rel, [], path, f);
    }
  }

  /** A call is named by the last part of what is called, and by nothing when that is
      neither a name nor an attribute. */
  lemma CalleeNamed(call: Node, attr: string)
    requires call.children != []
    requires var kind := call.children[0].kind;
             || kind == Attribute(attr) || kind == Name(attr)
             || (attr == "" && !kind.Attribute? && !kind.Name?)
    ensures CallAttr(call) == attr
  {}

  // --- The rule, written out ---------------------------------------------------------

  ghost predicate OffEventLoop(node: Node) {
    node.kind.Call? && CallAttr(node) in {"to_thread", "run_in_executor", "wait_for"}
  }

  /** `async with` one of whose items calls something named `transaction`. */
  ghost predicate TransactionSpan(node: Node) {
    && node.kind.AsyncWith?
    && exists i :: 0 <= i < node.kind.items && i < |node.children|
                   && node.children[i].children != [] && node.children[i].children[0].kind.Call?
                   && CallAttr(node.children[i].children[0]) == "transaction"
  }

  /** In a coroutine, and neither the call nor one around it is moved off the loop. */
  ghost predicate RunsOnLoop(above: seq<Node>, call: Node) {
    InCoroutine(above) && !OffEventLoop(call) && forall i :: 0 <= i < |above| ==> !OffEventLoop(above[i])
  }

  /** A parser of markup run on the event loop. */
  ghost predicate ParseBreach(above: seq<Node>, call: Node, f: Finding) {
    var root, attr := CallRoot(call), CallAttr(call);
    && RunsOnLoop(above, call) && f.dimension == "unbounded-parse"
    && attr in {"fromstring", "parse", "parseString", "BeautifulSoup", "read_html"}
    && root in {"ET", "etree", "ElementTree", "feedparser", "minidom", "bs4"}
    && f.detail == root + "." + attr + " on the event loop with no to_thread/wait_for"
  }

  /** A blocking request run there. */
  ghost predicate RequestBreach(above: seq<Node>, call: Node, f: Finding) {
    var root, attr := CallRoot(call), CallAttr(call);
    && RunsOnLoop(above, call) && f.dimension == "blocking-in-async"
    && root in {"requests", "urllib", "httpx"}
    && attr in {"sleep", "get", "post", "put", "delete", "request", "urlopen"}
    && f.detail == "sync " + root + "." + attr + " inside a coroutine"
  }

  /** A sleep in a coroutine, wherever it is moved to. */
  ghost predicate SleepBreach(above: seq<Node>, call: Node, f: Finding) {
    && InCoroutine(above) && f.dimension == "blocking-in-async"
    && CallRoot(call) == "time" && CallAttr(call) == "sleep" && f.detail == "time.sleep inside a coroutine"
  }

  /** A call over the network, or to a model, while a transaction is open. */
  ghost predicate SpanBreach(above: seq<Node>, call: Node, f: Finding) {
    var root, attr := CallRoot(call), CallAttr(call);
    && (exists i :: 0 <= i < |above| && TransactionSpan(above[i])) && f.dimension == "await-in-txn-span"
    && root != "self" && root != ""
    && (|| attr in {"_call_claude_cli", "_call_claude", "analyze", "fetch", "_private", "_public", "estimate",
                    "acompletion"}
        || (attr in {"get", "post", "put", "request", "call"}
            && root in {"session", "client", "http", "aiohttp", "requests", "_session", "_client", "analyzer",
                        "_analyzer", "exchange"}))
    && f.detail == root + "." + attr + "() inside a transaction span"
  }

  /** What is wrong with a call under the nodes above it. */
  ghost predicate Breaks(rel: string, above: seq<Node>, call: Node, f: Finding) {
    && call.kind.Call? && f.file == rel && f.line == call.line
    && (|| ParseBreach(above, call, f) || RequestBreach(above, call, f) || SleepBreach(above, call, f)
        || SpanBreach(above, call, f))
  }

  lemma OffloadsIs(node: Node)
    ensures Offloads(node) <==> OffEventLoop(node)
  {
    hide CallAttr;
  }

  lemma OpensIs(node: Node)
    ensures OpensTransaction(node) <==> TransactionSpan(node)
  {
    hide CallAttr;
    if node.kind.AsyncWith? {
      forall i | 0 <= i < node.kind.items && i < |node.children|
        ensures IsTransactionItem(node.children[i])
                <==> && node.children[i].children != [] && node.children[i].children[0].kind.Call?
                     && CallAttr(node.children[i].children[0]) == "transaction"
      {}
    }
  }

  lemma OnLoopIs(above: seq<Node>, call: Node)
    ensures InCoroutine(above) && !Offloaded(above + [call]) <==> RunsOnLoop(above, call)
  {
    hide InCoroutine, OffEventLoop, Offloads;
    var path := above + [call];
    forall i | 0 <= i < |path| ensures Offloads(path[i]) <==> OffEventLoop(path[i]) {
      OffloadsIs(path[i]);
    }
    assert path[|above|] == call && forall i :: 0 <= i < |above| ==> path[i] == above[i];
  }

  lemma SpanIs(above: seq<Node>)
    ensures InTransaction(above) <==> exists i :: 0 <= i < |above| && TransactionSpan(above[i])
  {
    hide TransactionSpan, OpensTransaction;
    forall i | 0 <= i < |above| ensures OpensTransaction(above[i]) <==> TransactionSpan(above[i]) {
      OpensIs(above[i]);
    }
  }

  lemma FetchesIs(call: Node)
    ensures Fetches(call) <==>
            var root, attr := CallRoot(call), CallAttr(call);
            && root != "self" && root != ""
            && (|| attr in {"_call_claude_cli", "_call_claude", "analyze", "fetch", "_private", "_public", "estimate",
                            "acompletion"}
                || (attr in {"get", "post", "put", "request", "call"}
                    && root in {"session", "client", "http", "aiohttp", "requests", "_session", "_client", "analyzer",
                                "_analyzer", "exchange"}))
  {
    hide CallAttr, CallRoot;
  }

  lemma SpanFindingIs(rel: string, above: seq<Node>, call: Node, f: Finding)
    ensures f in If(InTransaction(above) && Fetches(call), SpanFinding(rel, call))
            <==> f.file == rel && f.line == call.line && SpanBreach(above, call, f)
  {
    SpanIs(above);
    FetchesIs(call);
    hide CallAttr, CallRoot, InTransaction, TransactionSpan, Fetches;
  }

  lemma LoopFindingsAre(rel: string, above: seq<Node>, call: Node, f: Finding)
    ensures var onLoop := InCoroutine(above) && !Offloaded(above + [call]);
            && (f in If(onLoop && Parses(call), ParseFinding(rel, call))
                <==> f.file == rel && f.line == call.line && ParseBreach(above, call, f))
            && (f in If(onLoop && Blocks(call), SyncCallFinding(rel, call))
                <==> f.file == rel && f.line == call.line && RequestBreach(above, call, f))
  {
    OnLoopIs(above, call);
    hide CallAttr, CallRoot, InCoroutine, Offloaded, RunsOnLoop;
  }

  lemma ReportIsBreach(rel: string, above: seq<Node>, call: Node, f: Finding)
    ensures f in ReportAt(rel, above, call) <==> Breaks(rel, above, call, f)
  {
    LoopFindingsAre(rel, above, call, f);
    SpanFindingIs(rel, above, call, f);
    hide CallAttr, CallRoot, InCoroutine, Offloaded, InTransaction, Parses, Blocks, Fetches, ParseBreach,
         RequestBreach, SpanBreach, ParseFinding, SyncCallFinding, SpanFinding;
  }

  /** So the visitor finds exactly the calls on some way down the tree that break the rule. */
  lemma FindingsAreBreaches(rel: string, tree: Node, f: Finding)
    ensures f in Expected(rel, [], tree) <==>
            exists path :: IsPath(tree, path) && Breaks(rel, Above(path), path[|path| - 1], f)
  {
    hide ReportAt, Breaks, Expected;
    FindingsExact(rel, tree, f);
    forall path | IsPath(tree, path)
      ensures f in ReportAt(rel, Above(path), path[|path| - 1]) <==> Breaks(rel, Above(path), path[|path| - 1], f)
    {
      ReportIsBreach(rel, Above(path), path[|path| - 1], f);
    }
  }

  // --- The baseline ----------------------------------------------------------------

  function Normal(file: string): string {
    seq(|file|, i requires 0 <= i < |file| => if file[i] == '\\' then '/' else file[i])
  }

  /** A finding's identity: no line, and one spelling of the path. */
  function KeyOf(f: Finding): string { Normal(f.file) + "::" + f.dimension + "::" + f.detail }

  /** The two spellings of one path: they differ in the separators only. */
  predicate SamePath(a: string, b: string) {
    |a| == |b| && forall i :: 0 <= i < |a| ==> a[i] == b[i] || (a[i] in {'/', '\\'} && b[i] in {'/', '\\'})
  }

  /** A key names the file in its one spelling, the dimension and the detail: findings of
      one dimension and detail share it exactly when they are in the same file. */
  lemma KeyNames(f: Finding, g: Finding)
    ensures f.dimension == g.dimension && f.detail == g.detail ==>
              (KeyOf(f) == KeyOf(g) <==> SamePath(f.file, g.file))
    ensures |KeyOf(f)| >= |f.file| && KeyOf(f)[|f.file|..] == "::" + f.dimension + "::" + f.detail
  {
    NormalIs(f.file, g.file);
    var rest := "::" + f.dimension + "::" + f.detail;
    assert KeyOf(f) == Normal(f.file) + rest;
    if f.dimension == g.dimension && f.detail == g.detail {
      assert KeyOf(g) == Normal(g.file) + rest;
      if KeyOf(f) == KeyOf(g) {
        assert KeyOf(f)[..|f.file|] == Normal(f.file) && KeyOf(g)[..|g.file|] == Normal(g.file);
      }
    }
    hide Normal, SamePath;
  }

  lemma NormalIs(a: string, b: string)
    ensures |Normal(a)| == |a|
    ensures Normal(a) == Normal(b) <==> SamePath(a, b)
  {
    if Normal(a) == Normal(b) {
      forall i | 0 <= i < |a| ensures a[i] == b[i] || (a[i] in {'/', '\\'} && b[i] in {'/', '\\'}) {
        assert Normal(a)[i] == Normal(b)[i];
      }
    }
  }

  function KeysOf(findings: seq<Finding>): seq<string> {
    seq(|findings|, i requires 0 <= i < |findings| => KeyOf(findings[i]))
  }

  function NewFindings(findings: seq<Finding>, baseline: seq<string>): seq<Finding> {
    Filter(findings, (f: Finding) => KeyOf(f) !in baseline)
  }

  /** What is reported as new is exactly what no key of the baseline stands for. */
  lemma NewAreUnrecorded(findings: seq<Finding>, baseline: seq<string>, f: Finding)
    ensures f in NewFindings(findings, baseline) <==> f in findings && KeyOf(f) !in baseline
  {
    FilterMembers(findings, (g: Finding) => KeyOf(g) !in baseline);
  }

  predicate SameButLines(a: Node, b: Node)
    decreases a
  {
    && a.kind == b.kind && |a.children| == |b.children|
    && forall i :: 0 <= i < |a.children| ==> SameButLines(a.children[i], b.children[i])
  }

  predicate PathsSameButLines(p: seq<Node>, q: seq<Node>) {
    |p| == |q| && forall i :: 0 <= i < |p| ==> SameButLines(p[i], q[i])
  }

  lemma {:induction false} NamesKept(a: Node, b: Node)
    requires SameButLines(a, b)
    ensures AttrName(a) == AttrName(b) && RootName(a) == RootName(b)
  {
    if !a.kind.Attribute? || a.children == [] {
    } else {
      NamesKept(a.children[0], b.children[0]);
    }
  }

  lemma NodeKept(a: Node, b: Node)
    requires SameButLines(a, b)
    ensures a.kind == b.kind
    ensures CallAttr(a) == CallAttr(b) && CallRoot(a) == CallRoot(b)
    ensures OpensTransaction(a) <==> OpensTransaction(b)
  {
    hide AttrName, RootName;
    if a.children != [] {
      NamesKept(a.children[0], b.children[0]);
    }
    forall i | 0 <= i < |a.children| ensures IsTransactionItem(a.children[i]) <==> IsTransactionItem(b.children[i]) {
      assert SameButLines(a.children[i], b.children[i]);
      if a.children[i].children != [] {
        assert SameButLines(a.children[i].children[0], b.children[i].children[0]);
        CallKept(a.children[i].children[0], b.children[i].children[0]);
      }
    }
  }

  lemma CallKept(a: Node, b: Node)
    requires SameButLines(a, b)
    ensures CallAttr(a) == CallAttr(b)
  {
    if a.children != [] {
      NamesKept(a.children[0], b.children[0]);
    }
  }

  lemma PathKept(p: seq<Node>, q: seq<Node>)
    requires PathsSameButLines(p, q)
    ensures InCoroutine(p) <==> InCoroutine(q)
    ensures Offloaded(p) <==> Offloaded(q)
    ensures InTransaction(p) <==> InTransaction(q)
  {
    hide SameButLines, OpensTransaction, CallAttr;
    forall i | 0 <= i < |p|
      ensures p[i].kind == q[i].kind && CallAttr(p[i]) == CallAttr(q[i])
      ensures OpensTransaction(p[i]) <==> OpensTransaction(q[i])
    {
      NodeKept(p[i], q[i]);
    }
    forall i: nat | i < |p| ensures CoroutineFrom(p, i) <==> CoroutineFrom(q, i) {}
  }

  lemma KeysConcat(xs: seq<Finding>, ys: seq<Finding>)
    ensures KeysOf(xs + ys) == KeysOf(xs) + KeysOf(ys)
  {}

  lemma IfKeys(condition: bool, f: Finding, g: Finding)
    requires KeyOf(f) == KeyOf(g)
    ensures KeysOf(If(condition, f)) == KeysOf(If(condition, g))
  {
    hide KeyOf;
  }

  lemma ReportKeysSplit(rel: string, above: seq<Node>, call: Node)
    ensures var onLoop := InCoroutine(above) && !Offloaded(above + [call]);
            KeysOf(Report(rel, above, call)) ==
            KeysOf(If(onLoop && Parses(call), ParseFinding(rel, call))) +
            KeysOf(If(onLoop && Blocks(call), SyncCallFinding(rel, call))) +
            KeysOf(If(InCoroutine(above) && Sleeps(call), SleepFinding(rel, call))) +
            KeysOf(If(InTransaction(above) && Fetches(call), SpanFinding(rel, call)))
  {
    hide KeysOf, If, InCoroutine, Offloaded, InTransaction, Parses, Blocks, Sleeps, Fetches, ParseFinding,
         SyncCallFinding, SleepFinding, SpanFinding;
    var onLoop := InCoroutine(above) && !Offloaded(above + [call]);
    var a := If(onLoop && Parses(call), ParseFinding(rel, call));
    var b := If(onLoop && Blocks(call), SyncCallFinding(rel, call));
    var c := If(InCoroutine(above) && Sleeps(call), SleepFinding(rel, call));
    KeysConcat(a, b);
    KeysConcat(a + b, c);
    KeysConcat(a + b + c, If(InTransaction(above) && Fetches(call), SpanFinding(rel, call)));
  }

  lemma ReportKeys(rel: string, moved: string, p: seq<Node>, q: seq<Node>, a: Node, b: Node)
    requires Normal(rel) == Normal(moved) && PathsSameButLines(p, q) && SameButLines(a, b)
    ensures KeysOf(ReportAt(rel, p, a)) == KeysOf(ReportAt(moved, q, b))
  {
    hide Normal, InCoroutine, Offloaded, InTransaction, CallAttr, CallRoot, SameButLines;
    PathKept(p, q);
    PathKept(p + [a], q + [b]);
    NodeKept(a, b);
    hide PathsSameButLines, Networkish, If;
    if a.kind.Call? {
      var onLoop := InCoroutine(p) && !Offloaded(p + [a]);
      IfKeys(onLoop && Parses(a), ParseFinding(rel, a), ParseFinding(moved, b));
      IfKeys(onLoop && Blocks(a), SyncCallFinding(rel, a), SyncCallFinding(moved, b));
      IfKeys(InCoroutine(p) && Sleeps(a), SleepFinding(rel, a), SleepFinding(moved, b));
      IfKeys(InTransaction(p) && Fetches(a), SpanFinding(rel, a), SpanFinding(moved, b));
      hide KeysOf, ParseFinding, SyncCallFinding, SleepFinding, SpanFinding;
      ReportKeysSplit(rel, p, a);
      ReportKeysSplit(moved, q, b);
    }
  }

  lemma {:induction false} ExpectedKeys(rel: string, moved: string, p: seq<Node>, q: seq<Node>, a: Node, b: Node)
    requires Normal(rel) == Normal(moved) && PathsSameButLines(p, q) && SameButLines(a, b)
    ensures KeysOf(Expected(rel, p, a)) == KeysOf(Expected(moved, q, b))
    decreases a, |a.children| + 1
  {
    hide Normal, KeysOf, ReportAt, Expected;
    ReportKeys(rel, moved, p, q, a, b);
    ExpectedBelowKeys(rel, moved, p + [a], q + [b], a, b, |a.children|);
    ExpectedUnfolds(rel, p, a);
    ExpectedUnfolds(moved, q, b);
    KeysConcat(ReportAt(rel, p, a), ExpectedBelow(rel, p + [a], a, |a.children|));
    KeysConcat(ReportAt(moved, q, b), ExpectedBelow(moved, q + [b], b, |b.children|));
  }

  lemma ChildrenKept(a: Node, b: Node)
    requires SameButLines(a, b)
    ensures |a.children| == |b.children|
    ensures forall i :: 0 <= i < |a.children| ==> SameButLines(a.children[i], b.children[i])
  {}

  lemma {:induction false} ExpectedBelowKeys(rel: string, moved: string, p: seq<Node>, q: seq<Node>, a: Node, b: Node,
                                             k: nat)
    requires Normal(rel) == Normal(moved) && PathsSameButLines(p, q) && SameButLines(a, b)
    requires k <= |a.children| && k <= |b.children|
    ensures KeysOf(ExpectedBelow(rel, p, a, k)) == KeysOf(ExpectedBelow(moved, q, b, k))
    decreases a, k
  {
    hide *;
    if k == 0 {
      BelowNone(rel, p, a);
      BelowNone(moved, q, b);
    } else {
      ChildrenKept(a, b);
      ExpectedBelowKeys(rel, moved, p, q, a, b, k - 1);
      ExpectedKeys(rel, moved, p, q, a.children[k - 1], b.children[k - 1]);
      BelowUnfolds(rel, p, a, k);
      BelowUnfolds(moved, q, b, k);
      KeysConcat(ExpectedBelow(rel, p, a, k - 1), Expected(rel, p, a.children[k - 1]));
      KeysConcat(ExpectedBelow(moved, q, b, k - 1), Expected(moved, q, b.children[k - 1]));
    }
  }

  lemma {:induction false} FilterNothing(findings: seq<Finding>, baseline: seq<string>)
    requires forall f :: f in findings ==> KeyOf(f) in baseline
    ensures NewFindings(findings, baseline) == []
  {
    if findings == [] {
    } else {
      FilterNothing(findings[1..], baseline);
    }
  }

  /** Edits that only move code to other lines, and the spelling of the path on
      another platform, never make a recorded finding new. */
  lemma BaselineSurvivesMoves(rel: string, moved: string, a: Node, b: Node)
    requires SamePath(rel, moved) && SameButLines(a, b)
    ensures NewFindings(Expected(moved, [], b), KeysOf(Expected(rel, [], a))) == []
  {
    NormalIs(rel, moved);
    hide Normal, Expected, KeyOf, SamePath;
    ExpectedKeys(rel, moved, [], [], a, b);
    var after := Expected(moved, [], b);
    forall f | f in after ensures KeyOf(f) in KeysOf(Expected(rel, [], a)) {
      var i :| 0 <= i < |after| && after[i] == f;
      assert KeysOf(after)[i] == KeyOf(f);
    }
    FilterNothing(after, KeysOf(Expected(rel, [], a)));
  }
}
