/**
 * handler.go: the scope chain of handlers, the stack that reverses it, the record
 * traversal (printStack / printAttr with the hook chain and the resolver), and Handle.
 *
 * The traversal is specified by functions that say which Print calls it makes and
 * which deferred actions it collects (an Emission); the methods are proved to write
 * exactly the rendering of those calls.
 */
module Clog {
  import opened Wrappers
  import opened Slog
  import opened ClogAttr
  import opened ClogPrinter
  import opened Sequences

  /** replaceAttr: rewrites a resolved, non-group attribute under the current group path. */
  type ReplaceAttr = (seq<string>, Attr) -> Attr

  /** The parts of the handler configuration the pipeline reads. */
  datatype Config = Config(level: int, attrHooks: seq<AttrHook>, replaceAttr: Option<ReplaceAttr>)

  /**
   * A Handler node: its own attributes, its group name ("" for none) and its parent.
   * Nodes are values; deriving one never changes the receiver.
   */
  datatype Handler = Handler(cfg: Config, attrs: seq<Attr>, group: string, parent: Option<Handler>)

  /** New: a root handler over a configuration. */
  function New(cfg: Config): (r: Handler)
    ensures r.cfg == cfg && r.parent == None
    ensures r.attrs == [] && r.group == ""
  {
    Handler(cfg, [], "", None)
  }

  /** clone: a fresh child of the receiver sharing its configuration, with no attributes and no group. */
  function Clone(x: Handler): (r: Handler)
    ensures r.parent == Some(x) && r.cfg == x.cfg
    ensures r.attrs == [] && r.group == ""
  {
    Handler(x.cfg, [], "", Some(x))
  }

  /** Enabled: the record's level is at or above the configured minimum. */
  function Enabled(x: Handler, level: int): (r: bool)
    ensures r <==> x.cfg.level <= level
  {
    x.cfg.level <= level
  }

  /** WithAttrs: a child of the receiver holding exactly the given attributes. */
  function WithAttrs(x: Handler, attrs: seq<Attr>): (r: Handler)
    ensures r.parent == Some(x) && r.cfg == x.cfg
    ensures r.attrs == attrs && r.group == ""
  {
    Clone(x).(attrs := attrs)
  }

  /** WithGroup: the receiver itself for an empty name, otherwise a child carrying the group. */
  function WithGroup(x: Handler, name: string): (r: Handler)
    ensures name == "" ==> r == x
    ensures name != "" ==> r.parent == Some(x) && r.cfg == x.cfg && r.attrs == [] && r.group == name
  {
    if name == "" then x else Clone(x).(group := name)
  }

  /** Derived handlers share the receiver's configuration, so they enable exactly the same levels. */
  lemma DerivedEnabled(x: Handler, attrs: seq<Attr>, name: string, level: int)
    ensures Enabled(Clone(x), level) == Enabled(x, level)
    ensures Enabled(WithAttrs(x, attrs), level) == Enabled(x, level)
    ensures Enabled(WithGroup(x, name), level) == Enabled(x, level)
  {
  }

  /** The handlers from a node up to the root, the node first: the order Handle pushes them. */
  function Chain(h: Handler): (r: seq<Handler>)
    ensures r != [] && r[0] == h
  {
    [h] + match h.parent
      case None => []
      case Some(p) => Chain(p)
  }

  /** The group a node pushes on the path: its name, or nothing when it has none. */
  function NodeGroup(h: Handler): seq<string>
  {
    if h.group != "" then [h.group] else []
  }

  /** The group names from the root down to a node. */
  function GroupPath(h: Handler): seq<string>
  {
    (match h.parent
      case None => []
      case Some(p) => GroupPath(p)) + NodeGroup(h)
  }

  /** stack: the handlers of a chain, popped from the end. */
  class Stack {
    var handlers: seq<Handler>

    constructor ()
      ensures handlers == []
    {
      handlers := [];
    }

    /** push appends the handler at the end. */
    method Push(h: Handler)
      modifies this
      ensures handlers == old(handlers) + [h]
    {
      handlers := handlers + [h];
    }

    /** pop removes and returns the last handler; on an empty stack it returns nil and changes nothing. */
    method Pop() returns (h: Option<Handler>)
      modifies this
      ensures old(handlers) == [] ==> h == None && handlers == []
      ensures old(handlers) != [] ==>
        h == Some(old(handlers)[|old(handlers)| - 1]) && handlers == old(handlers)[..|old(handlers)| - 1]
    {
      if |handlers| == 0 {
        return None;
      }
      h := Some(handlers[|handlers| - 1]);
      handlers := handlers[..|handlers| - 1];
    }
  }

  /** The attribute after one hook's result: the replacement if there is one, else unchanged. */
  function Replaced(handle: Option<HandleAttr>, a: Attr): (r: Attr)
    ensures handle.None? || handle.value.newAttr.None? ==> r == a
    ensures handle.Some? && handle.value.newAttr.Some? ==> r == handle.value.newAttr.value
  {
    if handle.Some? && handle.value.newAttr.Some? then handle.value.newAttr.value else a
  }

  /** The deferred action one hook's result contributes: none, or its Defer. */
  function Deferrals(handle: Option<HandleAttr>): seq<Deferred>
  {
    if handle.Some? && handle.value.deferred.Some? then [handle.value.deferred.value] else []
  }

  /** What the hook loop of printAttr ends with: the attribute and the actions deferred so far. */
  datatype HookOutcome = HookOutcome(attr: Attr, defers: seq<Deferred>)

  /**
   * The hook loop of printAttr: the hooks run in order, each on the attribute as the
   * hooks before it left it, and their deferred actions are collected in call order;
   * each hook contributes at most one.
   */
  function RunHooks(hooks: seq<AttrHook>, groups: seq<string>, a: Attr): (r: HookOutcome)
    ensures |r.defers| <= |hooks|
  {
    if hooks == [] then HookOutcome(a, [])
    else
      var before := RunHooks(hooks[..|hooks| - 1], groups, a);
      var handle := hooks[|hooks| - 1](groups, before.attr);
      HookOutcome(Replaced(handle, before.attr), before.defers + Deferrals(handle))
  }

  /** Hooks and replaceAttr never enlarge an attribute; otherwise the traversal need not end. */
  ghost predicate Shrinks(cfg: Config)
  {
    && (forall i, groups, a :: 0 <= i < |cfg.attrHooks| ==> NoLarger(cfg.attrHooks[i](groups, a), a))
    && (cfg.replaceAttr.Some? ==> forall groups, a :: AttrRank(cfg.replaceAttr.value(groups, a)) <= AttrRank(a))
  }

  /** Running hooks that never enlarge an attribute leaves it no larger. */
  lemma {:induction false} RunHooksNoLarger(cfg: Config, groups: seq<string>, a: Attr, n: nat)
    requires Shrinks(cfg) && n <= |cfg.attrHooks|
    ensures AttrRank(RunHooks(cfg.attrHooks[..n], groups, a).attr) <= AttrRank(a)
  {
    if n > 0 {
      var hooks := cfg.attrHooks[..n];
      assert hooks[..n - 1] == cfg.attrHooks[..n - 1];
      RunHooksNoLarger(cfg, groups, a, n - 1);
      var before := RunHooks(hooks[..n - 1], groups, a);
      assert NoLarger(cfg.attrHooks[n - 1](groups, before.attr), before.attr);
    }
  }

  /**
   * The resolver closure: forces a lazy value, then applies replaceAttr when one is
   * configured and the resolved value is not a group. Groups are never rewritten.
   */
  function Resolver(cfg: Config, groups: seq<string>, a: Attr): (r: Attr)
    ensures cfg.replaceAttr.None? || Resolve(a.value).Group? ==> r == Attr(a.key, Resolve(a.value))
    ensures cfg.replaceAttr.Some? && !Resolve(a.value).Group? ==>
      r == cfg.replaceAttr.value(groups, Attr(a.key, Resolve(a.value)))
    ensures Shrinks(cfg) ==> AttrRank(r) <= AttrRank(a)
  {
    var resolved := Attr(a.key, Resolve(a.value));
    if cfg.replaceAttr.Some? && !resolved.value.Group? then cfg.replaceAttr.value(groups, resolved) else resolved
  }

  /** One call of the attribute printer: the group path it is given and the attribute. */
  datatype PrintCall = PrintCall(groups: seq<string>, attr: Attr)

  /** What traversing part of a record produces: printer calls in order, and deferred actions in registration order. */
  datatype Emission = Emission(prints: seq<PrintCall>, defers: seq<Deferred>)
  {
    function Then(next: Emission): Emission
    {
      Emission(prints + next.prints, defers + next.defers)
    }
  }

  const Nothing := Emission([], [])

  /** Emissions compose associatively. */
  lemma ThenAssoc(e1: Emission, e2: Emission, e3: Emission)
    ensures e1.Then(e2).Then(e3) == e1.Then(e2.Then(e3))
  {
    AppendAssoc(e1.prints, e2.prints, e3.prints);
    AppendAssoc(e1.defers, e2.defers, e3.defers);
  }

  /** Nothing is the unit of composition. */
  lemma ThenNothing(e: Emission)
    ensures e.Then(Nothing) == e && Nothing.Then(e) == e
  {
    assert e.prints + [] == e.prints && [] + e.prints == e.prints;
    assert e.defers + [] == e.defers && [] + e.defers == e.defers;
  }

  /**
   * printAttr, as a function of the group path and the attribute: the zero attribute
   * produces nothing; otherwise the hooks run, the resolver is applied, the printer is
   * called (for a group, with its key already on the path) and a group's children
   * follow, depth first, under that path.
   */
  function AttrEmission(cfg: Config, groups: seq<string>, a: Attr): Emission
    requires Shrinks(cfg)
    decreases AttrRank(a)
  {
    if a == ZeroAttr then Nothing
    else
      var hooked := RunHooks(cfg.attrHooks, groups, a);
      RunHooksNoLarger(cfg, groups, a, |cfg.attrHooks|);
      assert cfg.attrHooks[..|cfg.attrHooks|] == cfg.attrHooks;
      var b := Resolver(cfg, groups, hooked.attr);
      if b.value.Group? then
        var path := groups + [b.key];
        Emission([PrintCall(path, b)], hooked.defers).Then(AttrsEmission(cfg, path, b.value.attrs))
      else
        Emission([PrintCall(groups, b)], hooked.defers)
  }

  /** printAttr applied to each attribute of a sequence in turn. */
  function AttrsEmission(cfg: Config, groups: seq<string>, xs: seq<Attr>): Emission
    requires Shrinks(cfg)
    decreases AttrsRank(xs)
  {
    if xs == [] then Nothing
    else AttrsEmission(cfg, groups, xs[..|xs| - 1]).Then(AttrEmission(cfg, groups, xs[|xs| - 1]))
  }

  /**
   * printStack, as a function of the path and the stack contents: the last handler is
   * popped first; its group is pushed, its attributes are printed, the rest of the
   * stack is printed under that path.
   */
  function StackEmission(cfg: Config, groups: seq<string>, hs: seq<Handler>): Emission
    requires Shrinks(cfg)
    decreases |hs|
  {
    if hs == [] then Nothing
    else
      var h := hs[|hs| - 1];
      var path := groups + NodeGroup(h);
      AttrsEmission(cfg, path, h.attrs).Then(StackEmission(cfg, path, hs[..|hs| - 1]))
  }

  /** The text the printer writes for a sequence of calls. */
  function Render(prints: seq<PrintCall>): string
  {
    if prints == [] then "" else Line(prints[0].groups, prints[0].attr) + Render(prints[1..])
  }

  /** The text the deferred actions write when run last-registered first. */
  function RunDefers(ds: seq<Deferred>): string
  {
    if ds == [] then "" else RunDefers(ds[1..]) + DeferredText(ds[0])
  }

  /** What Handle's traversal of a record produces: the stack of the clone's chain, printed from an empty path. */
  function RecordEmission(x: Handler, recordAttrs: seq<Attr>): Emission
    requires Shrinks(x.cfg)
  {
    StackEmission(x.cfg, [], Chain(WithAttrs(x, recordAttrs)))
  }

  /** The line Handle writes for a record: preamble, attributes, deferred output, newline. */
  function RecordLine(x: Handler, recordAttrs: seq<Attr>, preamble: string): string
    requires Shrinks(x.cfg)
  {
    var em := RecordEmission(x, recordAttrs);
    preamble + Render(em.prints) + RunDefers(em.defers) + "\n"
  }

  /** Running the actions from index i on runs those after i, then the one at i. */
  lemma RunDefersStep(ds: seq<Deferred>, i: nat)
    requires i < |ds|
    ensures RunDefers(ds[i..]) == RunDefers(ds[i + 1..]) + DeferredText(ds[i])
  {
    assert ds[i..][1..] == ds[i + 1..];
  }

  /** Rendering distributes over concatenation of calls. */
  lemma {:induction false} RenderConcat(p1: seq<PrintCall>, p2: seq<PrintCall>)
    ensures Render(p1 + p2) == Render(p1) + Render(p2)
  {
    if p1 == [] {
      assert p1 + p2 == p2;
    } else {
      assert (p1 + p2)[0] == p1[0];
      assert (p1 + p2)[1..] == p1[1..] + p2;
      RenderConcat(p1[1..], p2);
    }
  }

  /** What a traversal has produced so far: the buffer's text and the registered deferred actions. */
  datatype Output = Output(text: string, defers: seq<Deferred>)

  /** The output after an emission: its calls rendered onto the text, its actions registered after the others. */
  function Emit(o: Output, e: Emission): Output
  {
    Output(o.text + Render(e.prints), o.defers + e.defers)
  }

  /** Emitting two emissions one after the other is emitting their concatenation. */
  lemma EmitThen(o: Output, e1: Emission, e2: Emission)
    ensures Emit(Emit(o, e1), e2) == Emit(o, e1.Then(e2))
  {
    RenderConcat(e1.prints, e2.prints);
    AppendAssoc(o.text, Render(e1.prints), Render(e2.prints));
    AppendAssoc(o.defers, e1.defers, e2.defers);
  }

  /** Registering deferred actions leaves the text alone. */
  lemma EmitDefers(o: Output, ds: seq<Deferred>)
    ensures Emit(o, Emission([], ds)) == Output(o.text, o.defers + ds)
  {
    assert Render([]) == "";
    assert o.text + "" == o.text;
  }

  /** One printer call appends exactly its line. */
  lemma EmitPrint(o: Output, c: PrintCall)
    ensures Emit(o, Emission([c], [])) == Output(o.text + Line(c.groups, c.attr), o.defers)
  {
    assert Render([c]) == Line(c.groups, c.attr) + Render([c][1..]);
    assert [c][1..] == [];
    assert Line(c.groups, c.attr) + "" == Line(c.groups, c.attr);
    assert o.defers + [] == o.defers;
  }

  /** Emitting onto a buffer holding only the preamble, with nothing deferred yet. */
  lemma EmitFromStart(preamble: string, e: Emission)
    ensures Emit(Output("" + preamble, []), e) == Output(preamble + Render(e.prints), e.defers)
  {
    assert "" + preamble == preamble;
    assert [] + e.defers == e.defers;
  }

  /** Printing one more attribute of a sequence extends its emission by that attribute's. */
  lemma AttrsEmissionStep(cfg: Config, groups: seq<string>, xs: seq<Attr>, i: nat)
    requires Shrinks(cfg) && i < |xs|
    ensures AttrsEmission(cfg, groups, xs[..i + 1])
      == AttrsEmission(cfg, groups, xs[..i]).Then(AttrEmission(cfg, groups, xs[i]))
  {
    assert xs[..i + 1][..i] == xs[..i];
  }

  /** The traversal state of handler.go's printer struct, writing through a linear printer. */
  class RecordPrinter {
    var groups: seq<string>
    var defers: seq<Deferred>
    const cfg: Config
    const attrPrinter: LinearPrinter

    constructor (cfg: Config, attrPrinter: LinearPrinter)
      ensures groups == [] && defers == []
      ensures this.cfg == cfg && this.attrPrinter == attrPrinter
    {
      groups := [];
      defers := [];
      this.cfg := cfg;
      this.attrPrinter := attrPrinter;
    }

    /** The text written so far and the actions deferred so far. */
    ghost function Produced(): Output
      reads this, attrPrinter.w
    {
      Output(attrPrinter.w.data, defers)
    }

    /**
     * printStack: pops every handler of the stack, producing the emission StackEmission
     * describes; the group path is restored.
     */
    method PrintStack(st: Stack)
      requires Shrinks(cfg)
      modifies this, st, attrPrinter.w
      ensures st.handlers == []
      ensures groups == old(groups)
      ensures Produced() == Emit(old(Produced()), StackEmission(cfg, old(groups), old(st.handlers)))
      decreases |st.handlers|
    {
      ghost var hs := st.handlers;
      ghost var start := Produced();
      var popped := st.Pop();
      if popped.None? {
        EmitDefers(start, []);
        return;
      }
      var h := popped.value;
      if h.group != "" {
        groups := groups + [h.group];
      }
      ghost var path := groups;
      assert path == old(groups) + NodeGroup(h);
      PrintAttrs(h.attrs);
      ghost var mine := AttrsEmission(cfg, path, h.attrs);
      PrintStack(st);
      EmitThen(start, mine, StackEmission(cfg, path, hs[..|hs| - 1]));
      if h.group != "" {
        groups := groups[..|groups| - 1];
      }
    }

    /** The `for _, attr := range attrs { printAttr(attr) }` loops of printStack and printAttr. */
    method PrintAttrs(xs: seq<Attr>)
      requires Shrinks(cfg)
      modifies this, attrPrinter.w
      ensures groups == old(groups)
      ensures Produced() == Emit(old(Produced()), AttrsEmission(cfg, old(groups), xs))
      decreases AttrsRank(xs), 1
    {
      ghost var start := Produced();
      EmitDefers(start, []);
      for i := 0 to |xs|
        invariant groups == old(groups)
        invariant Produced() == Emit(start, AttrsEmission(cfg, groups, xs[..i]))
      {
        AttrsEmissionStep(cfg, groups, xs, i);
        EmitThen(start, AttrsEmission(cfg, groups, xs[..i]), AttrEmission(cfg, groups, xs[i]));
        AttrsRankBounds(xs, i);
        PrintAttr(xs[i]);
      }
      assert xs[..|xs|] == xs;
    }

    /**
     * The hook loop of printAttr: every hook sees the current group path and the
     * attribute as the hooks before it left it; the deferred actions are registered in order.
     */
    method ApplyHooks(attr: Attr) returns (a: Attr)
      modifies this
      ensures groups == old(groups)
      ensures a == RunHooks(cfg.attrHooks, groups, attr).attr
      ensures Produced() == Emit(old(Produced()), Emission([], RunHooks(cfg.attrHooks, groups, attr).defers))
    {
      ghost var start := Produced();
      a := attr;
      EmitDefers(start, []);
      for i := 0 to |cfg.attrHooks|
        invariant groups == old(groups)
        invariant a == RunHooks(cfg.attrHooks[..i], groups, attr).attr
        invariant Produced() == Emit(start, Emission([], RunHooks(cfg.attrHooks[..i], groups, attr).defers))
      {
        assert cfg.attrHooks[..i + 1][..i] == cfg.attrHooks[..i];
        ghost var ds := RunHooks(cfg.attrHooks[..i], groups, attr).defers;
        var handle := cfg.attrHooks[i](groups, a);
        EmitDefers(start, ds + Deferrals(handle));
        if handle.Some? {
          if handle.value.deferred.Some? {
            defers := defers + [handle.value.deferred.value];
          }
          if handle.value.newAttr.Some? {
            a := handle.value.newAttr.value;
          }
        }
        AppendAssoc(start.defers, ds, Deferrals(handle));
      }
      assert cfg.attrHooks[..|cfg.attrHooks|] == cfg.attrHooks;
    }

    /**
     * printAttr: produces what AttrEmission describes for one attribute, and leaves the
     * group path as it found it.
     */
    method PrintAttr(attr: Attr)
      requires Shrinks(cfg)
      modifies this, attrPrinter.w
      ensures groups == old(groups)
      ensures Produced() == Emit(old(Produced()), AttrEmission(cfg, old(groups), attr))
      decreases AttrRank(attr), 0
    {
      ghost var start := Produced();
      if attr == ZeroAttr {
        EmitDefers(start, []);
        return;
      }
      var a := ApplyHooks(attr);
      ghost var hooked := RunHooks(cfg.attrHooks, groups, attr);
      assert cfg.attrHooks[..|cfg.attrHooks|] == cfg.attrHooks;
      RunHooksNoLarger(cfg, groups, attr, |cfg.attrHooks|);
      a := Resolver(cfg, groups, a);

      if a.value.Group? {
        groups := groups + [a.key];
      }

      ghost var afterHooks := Produced();
      attrPrinter.PrintAt(groups, a);
      ghost var call := Emission([PrintCall(groups, a)], []);
      EmitPrint(afterHooks, PrintCall(groups, a));
      EmitThen(start, Emission([], hooked.defers), call);
      assert Emission([], hooked.defers).Then(call) == Emission([PrintCall(groups, a)], hooked.defers);

      if a.value.Group? {
        var children := a.value.attrs;
        PrintAttrs(children);
        EmitThen(start, Emission([PrintCall(groups, a)], hooked.defers), AttrsEmission(cfg, groups, children));
        groups := groups[..|groups| - 1];
      }
    }
  }

  /** The sink: every Write delivers one whole buffer. */
  class Sink {
    var writes: seq<string>

    constructor ()
      ensures writes == []
    {
      writes := [];
    }

    method Write(b: string)
      modifies this
      ensures writes == old(writes) + [b]
    {
      writes := writes + [b];
    }
  }

  /** The push loop of Handle: a stack holding the chain from the node up to the root, the root on top. */
  method StackOf(h: Handler) returns (st: Stack)
    ensures fresh(st) && st.handlers == Chain(h)
  {
    st := new Stack();
    var cur: Option<Handler> := Some(h);
    while cur.Some?
      invariant st.handlers + (if cur.Some? then Chain(cur.value) else []) == Chain(h)
      decreases if cur.Some? then |Chain(cur.value)| else 0
    {
      ghost var rest := match cur.value.parent case None => [] case Some(q) => Chain(q);
      assert Chain(cur.value) == [cur.value] + rest;
      AppendAssoc(st.handlers, [cur.value], rest);
      st.Push(cur.value);
      cur := cur.value.parent;
    }
  }

  /** The loop that runs the deferred actions on the buffer, the last registered first. */
  method RunDeferred(buf: Buffer, ds: seq<Deferred>)
    modifies buf
    ensures buf.data == old(buf.data) + RunDefers(ds)
  {
    var i := |ds|;
    while i > 0
      invariant 0 <= i <= |ds|
      invariant buf.data == old(buf.data) + RunDefers(ds[i..])
    {
      i := i - 1;
      RunDefersStep(ds, i);
      AppendAssoc(old(buf.data), RunDefers(ds[i + 1..]), DeferredText(ds[i]));
      buf.Write(DeferredText(ds[i]));
    }
    assert ds[0..] == ds;
  }

  /**
   * Handle: a failing preamble is reported and nothing is written; otherwise exactly
   * one write delivers the record's whole line to the sink.
   */
  method Handle(x: Handler, recordAttrs: seq<Attr>, preamble: Result<string, string>, sink: Sink)
    returns (err: Option<string>)
    requires Shrinks(x.cfg)
    modifies sink
    ensures preamble.Failure? ==>
      err == Some("failed to execute template: " + preamble.error) && sink.writes == old(sink.writes)
    ensures preamble.Success? ==>
      err == None && sink.writes == old(sink.writes) + [RecordLine(x, recordAttrs, preamble.value)]
  {
    var working := Clone(x);
    var buf := new Buffer();
    if preamble.Failure? {
      return Some("failed to execute template: " + preamble.error);
    }
    buf.Write(preamble.value);

    for i := 0 to |recordAttrs|
      invariant working == Clone(x).(attrs := recordAttrs[..i])
    {
      assert recordAttrs[..i + 1] == recordAttrs[..i] + [recordAttrs[i]];
      working := working.(attrs := working.attrs + [recordAttrs[i]]);
    }
    assert recordAttrs[..|recordAttrs|] == recordAttrs;
    assert working == WithAttrs(x, recordAttrs);

    var st := StackOf(working);

    var attrPrinter := new LinearPrinter(buf);
    var p := new RecordPrinter(working.cfg, attrPrinter);
    ghost var em := RecordEmission(x, recordAttrs);
    p.PrintStack(st);
    EmitFromStart(preamble.value, em);

    RunDeferred(buf, p.defers);
    buf.Write("\n");

    sink.Write(buf.data);
    err := None;
  }
}
