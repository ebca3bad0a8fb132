/**
 * The order in which Handle visits a handler chain, stated without the stack: every
 * scope's attributes follow its ancestors' and are printed under the group path from
 * the root down to that scope; the record's own attributes come last.
 */
module ClogScopes {
  import opened Wrappers
  import opened Slog
  import opened ClogAttr
  import opened Clog
  import opened Sequences

  /** The group path a stack leaves behind once every handler in it has been popped, the last one first. */
  function StackPath(hs: seq<Handler>): seq<string>
  {
    if hs == [] then [] else StackPath(hs[1..]) + NodeGroup(hs[0])
  }

  /**
   * The reference order: a node's ancestors first, then the node's own attributes
   * under the group path from the root down to it.
   */
  function ScopeEmission(cfg: Config, h: Handler): Emission
    requires Shrinks(cfg)
  {
    (match h.parent
      case None => Nothing
      case Some(p) => ScopeEmission(cfg, p)).Then(AttrsEmission(cfg, GroupPath(h), h.attrs))
  }

  /** Popping the last handler of a stack first adds its group in front of the others'. */
  lemma {:induction false} StackPathLast(hs: seq<Handler>)
    requires hs != []
    ensures StackPath(hs) == NodeGroup(hs[|hs| - 1]) + StackPath(hs[..|hs| - 1])
    decreases |hs|
  {
    if |hs| == 1 {
      assert hs[1..] == [] && hs[..0] == [];
    } else {
      var rest := hs[1..];
      StackPathLast(rest);
      assert rest[|rest| - 1] == hs[|hs| - 1];
      assert rest[..|rest| - 1] == hs[..|hs| - 1][1..];
      AppendAssoc(NodeGroup(hs[|hs| - 1]), StackPath(rest[..|rest| - 1]), NodeGroup(hs[0]));
    }
  }

  /** The path a whole chain leaves behind is the group path from the root down to its first node. */
  lemma {:induction false} StackPathOfChain(h: Handler)
    ensures StackPath(Chain(h)) == GroupPath(h)
  {
    assert Chain(h)[1..] == (match h.parent case None => [] case Some(p) => Chain(p));
    match h.parent {
      case None =>
      case Some(p) => StackPathOfChain(p);
    }
  }

  /**
   * A handler placed at the bottom of a stack is printed after everything above it,
   * under the path those handlers leave behind.
   */
  lemma {:induction false} StackPrepend(cfg: Config, groups: seq<string>, h: Handler, rest: seq<Handler>)
    requires Shrinks(cfg)
    ensures StackEmission(cfg, groups, [h] + rest)
      == StackEmission(cfg, groups, rest).Then(AttrsEmission(cfg, groups + StackPath(rest) + NodeGroup(h), h.attrs))
    decreases |rest|
  {
    if rest == [] {
      assert [h] + rest == [h] && [h][..0] == [];
      assert groups + StackPath(rest) == groups;
      ThenNothing(AttrsEmission(cfg, groups + NodeGroup(h), h.attrs));
    } else {
      var last := rest[|rest| - 1];
      var front := rest[..|rest| - 1];
      var path := groups + NodeGroup(last);
      var hs := [h] + rest;
      assert hs[|hs| - 1] == last && hs[..|hs| - 1] == [h] + front;
      StackPrepend(cfg, path, h, front);
      StackPathLast(rest);
      AppendAssoc(groups, NodeGroup(last), StackPath(front));
      ThenAssoc(AttrsEmission(cfg, path, last.attrs), StackEmission(cfg, path, front),
        AttrsEmission(cfg, path + StackPath(front) + NodeGroup(h), h.attrs));
    }
  }

  /** The chain of a node is the node followed by its parent's chain. */
  lemma ChainCons(h: Handler, above: seq<Handler>)
    requires above == match h.parent case None => [] case Some(p) => Chain(p)
    ensures Chain(h) == [h] + above
  {
  }

  /** The path the ancestors' chain leaves behind, extended by the node's group, is the node's group path. */
  lemma ChainPath(h: Handler, above: seq<Handler>)
    requires above == match h.parent case None => [] case Some(p) => Chain(p)
    ensures [] + StackPath(above) + NodeGroup(h) == GroupPath(h)
  {
    if h.parent.Some? {
      StackPathOfChain(h.parent.value);
    }
  }

  /** A node pushed before its ancestors' chain is printed after all of them, under its own group path. */
  lemma ChainStep(cfg: Config, h: Handler, above: seq<Handler>)
    requires Shrinks(cfg)
    requires above == match h.parent case None => [] case Some(p) => Chain(p)
    ensures StackEmission(cfg, [], Chain(h))
      == StackEmission(cfg, [], above).Then(AttrsEmission(cfg, GroupPath(h), h.attrs))
  {
    ChainCons(h, above);
    StackPrepend(cfg, [], h, above);
    ChainPath(h, above);
  }

  /**
   * Pushing a chain leaf first and popping it visits the scopes root first: the stack
   * traversal Handle performs produces exactly the reference order.
   */
  lemma {:induction false} ChainVisitedRootFirst(cfg: Config, h: Handler)
    requires Shrinks(cfg)
    ensures StackEmission(cfg, [], Chain(h)) == ScopeEmission(cfg, h)
  {
    match h.parent {
      case None =>
        ChainStep(cfg, h, []);
        ThenNothing(AttrsEmission(cfg, GroupPath(h), h.attrs));
      case Some(p) =>
        ChainStep(cfg, h, Chain(p));
        ChainVisitedRootFirst(cfg, p);
    }
  }

  /**
   * The record's attributes are printed after every scope's, under the receiver's
   * whole group path.
   */
  lemma RecordAttrsLast(x: Handler, recordAttrs: seq<Attr>)
    requires Shrinks(x.cfg)
    ensures RecordEmission(x, recordAttrs)
      == ScopeEmission(x.cfg, x).Then(AttrsEmission(x.cfg, GroupPath(x), recordAttrs))
  {
    var w := WithAttrs(x, recordAttrs);
    ChainVisitedRootFirst(x.cfg, w);
    assert w.parent == Some(x) && NodeGroup(w) == [];
    assert GroupPath(w) == GroupPath(x) + [] == GroupPath(x);
    assert ScopeEmission(x.cfg, w) == ScopeEmission(x.cfg, x).Then(AttrsEmission(x.cfg, GroupPath(w), recordAttrs));
  }

  /** WithGroup with a name adds it at the end of the group path, and prints nothing of its own. */
  lemma WithGroupScope(cfg: Config, x: Handler, name: string)
    requires Shrinks(cfg) && name != ""
    ensures GroupPath(WithGroup(x, name)) == GroupPath(x) + [name]
    ensures ScopeEmission(cfg, WithGroup(x, name)) == ScopeEmission(cfg, x)
  {
    var h := WithGroup(x, name);
    assert AttrsEmission(cfg, GroupPath(h), []) == Nothing;
    ThenNothing(ScopeEmission(cfg, x));
  }

  /** A root handler has an empty group path and prints nothing of its own. */
  lemma NewScope(cfg: Config)
    requires Shrinks(cfg)
    ensures GroupPath(New(cfg)) == []
    ensures ScopeEmission(cfg, New(cfg)) == Nothing
  {
    assert AttrsEmission(cfg, [], []) == Nothing;
    ThenNothing(Nothing);
  }

  /** Running deferred actions last-registered first: the later batch runs before the earlier one. */
  lemma {:induction false} RunDefersAppend(d1: seq<Deferred>, d2: seq<Deferred>)
    ensures RunDefers(d1 + d2) == RunDefers(d2) + RunDefers(d1)
  {
    if d1 == [] {
      assert d1 + d2 == d2;
    } else {
      assert (d1 + d2)[0] == d1[0] && (d1 + d2)[1..] == d1[1..] + d2;
      RunDefersAppend(d1[1..], d2);
      AppendAssoc(RunDefers(d2), RunDefers(d1[1..]), DeferredText(d1[0]));
    }
  }

  /**
   * The line of a record: the preamble, the scopes' attributes root first, the record's
   * attributes, then the record's deferred output before the scopes' (the last
   * registered runs first), then the newline.
   */
  lemma RecordLineLayout(x: Handler, recordAttrs: seq<Attr>, preamble: string)
    requires Shrinks(x.cfg)
    ensures var scopes := ScopeEmission(x.cfg, x);
      var record := AttrsEmission(x.cfg, GroupPath(x), recordAttrs);
      RecordLine(x, recordAttrs, preamble)
        == preamble + Render(scopes.prints) + Render(record.prints)
          + RunDefers(record.defers) + RunDefers(scopes.defers) + "\n"
  {
    var scopes := ScopeEmission(x.cfg, x);
    var record := AttrsEmission(x.cfg, GroupPath(x), recordAttrs);
    RecordAttrsLast(x, recordAttrs);
    RenderConcat(scopes.prints, record.prints);
    RunDefersAppend(scopes.defers, record.defers);
    AppendAssoc(preamble, Render(scopes.prints), Render(record.prints));
    AppendAssoc(preamble + Render(scopes.prints) + Render(record.prints), RunDefers(record.defers), RunDefers(scopes.defers));
  }
}
