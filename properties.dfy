/**
 * Properties of the record traversal of handler.go: how the hook chain composes,
 * that the zero attribute vanishes and nothing else does, that every attribute is
 * printed under the path it was reached by, and that groups are never rewritten.
 */
module ClogProperties {
  import opened Wrappers
  import opened Slog
  import opened ClogAttr
  import opened Clog
  import opened Sequences

  /**
   * Running two lists of hooks one after the other: the second list sees the attribute
   * as the first left it, and its deferred actions are registered after the first's.
   */
  lemma {:induction false} RunHooksAppend(first: seq<AttrHook>, second: seq<AttrHook>, groups: seq<string>, a: Attr)
    ensures var mid := RunHooks(first, groups, a);
      var end := RunHooks(second, groups, mid.attr);
      RunHooks(first + second, groups, a) == HookOutcome(end.attr, mid.defers + end.defers)
    decreases |second|
  {
    var mid := RunHooks(first, groups, a);
    if second == [] {
      assert first + second == first;
      assert mid.defers + [] == mid.defers;
    } else {
      var all := first + second;
      var front := second[..|second| - 1];
      assert all[..|all| - 1] == first + front;
      assert all[|all| - 1] == second[|second| - 1];
      RunHooksAppend(first, front, groups, a);
      var before := RunHooks(front, groups, mid.attr);
      var handle := second[|second| - 1](groups, before.attr);
      AppendAssoc(mid.defers, before.defers, Deferrals(handle));
    }
  }

  /** The deferred actions hooks offer for an attribute none of them replaces, in hook order. */
  function OfferedDeferrals(hooks: seq<AttrHook>, groups: seq<string>, a: Attr): seq<Deferred>
  {
    if hooks == [] then [] else OfferedDeferrals(hooks[..|hooks| - 1], groups, a) + Deferrals(hooks[|hooks| - 1](groups, a))
  }

  /**
   * A nil result or a nil NewAttr leaves the attribute as it was: when no hook replaces
   * it, the attribute reaches the resolver unchanged and every offered Defer is kept, in order.
   */
  lemma {:induction false} RunHooksKeepAttr(hooks: seq<AttrHook>, groups: seq<string>, a: Attr)
    requires forall i :: 0 <= i < |hooks| ==> hooks[i](groups, a).None? || hooks[i](groups, a).value.newAttr.None?
    ensures RunHooks(hooks, groups, a) == HookOutcome(a, OfferedDeferrals(hooks, groups, a))
  {
    if hooks != [] {
      var front := hooks[..|hooks| - 1];
      assert forall i :: 0 <= i < |front| ==> front[i] == hooks[i];
      RunHooksKeepAttr(front, groups, a);
    }
  }

  /**
   * There is no suppression path: an attribute other than the zero one always reaches
   * the printer, as the hooks and the resolver left it, after the hooks' deferred actions
   * have been registered.
   */
  lemma NoSuppression(cfg: Config, groups: seq<string>, a: Attr)
    requires Shrinks(cfg) && a != ZeroAttr
    ensures var hooked := RunHooks(cfg.attrHooks, groups, a);
      var b := Resolver(cfg, groups, hooked.attr);
      var e := AttrEmission(cfg, groups, a);
      && e.prints != []
      && e.prints[0] == PrintCall(if b.value.Group? then groups + [b.key] else groups, b)
      && hooked.defers <= e.defers
  {
    var hooked := RunHooks(cfg.attrHooks, groups, a);
    assert cfg.attrHooks[..|cfg.attrHooks|] == cfg.attrHooks;
    RunHooksNoLarger(cfg, groups, a, |cfg.attrHooks|);
    var b := Resolver(cfg, groups, hooked.attr);
    if b.value.Group? {
      var path := groups + [b.key];
      var rest := AttrsEmission(cfg, path, b.value.attrs);
      assert AttrEmission(cfg, groups, a) == Emission([PrintCall(path, b)], hooked.defers).Then(rest);
      assert (hooked.defers + rest.defers)[..|hooked.defers|] == hooked.defers;
    }
  }

  /** The attributes of a sequence other than the zero attribute, in order. */
  function NonZero(xs: seq<Attr>): (r: seq<Attr>)
    ensures ZeroAttr !in r
  {
    if xs == [] then []
    else NonZero(xs[..|xs| - 1]) + (if xs[|xs| - 1] == ZeroAttr then [] else [xs[|xs| - 1]])
  }

  /**
   * The zero attribute is skipped entirely: no hook sees it, nothing is printed and
   * nothing deferred, so a sequence prints as if its zero attributes were removed.
   */
  lemma {:induction false} ZeroAttrsSkipped(cfg: Config, groups: seq<string>, xs: seq<Attr>)
    requires Shrinks(cfg)
    ensures AttrsEmission(cfg, groups, xs) == AttrsEmission(cfg, groups, NonZero(xs))
  {
    if xs != [] {
      var front := xs[..|xs| - 1];
      var last := xs[|xs| - 1];
      ZeroAttrsSkipped(cfg, groups, front);
      if last == ZeroAttr {
        assert NonZero(xs) == NonZero(front) + [] == NonZero(front);
        ThenNothing(AttrsEmission(cfg, groups, front));
      } else {
        var kept := NonZero(xs);
        assert kept == NonZero(front) + [last];
        assert kept[..|kept| - 1] == NonZero(front) && kept[|kept| - 1] == last;
      }
    }
  }

  /**
   * Every printer call made for an attribute is given a path that extends the path the
   * attribute was reached by: group keys are pushed, never popped below it.
   */
  lemma {:induction false} AttrEmissionUnderPath(cfg: Config, groups: seq<string>, a: Attr)
    requires Shrinks(cfg)
    ensures forall c :: c in AttrEmission(cfg, groups, a).prints ==> groups <= c.groups
    decreases AttrRank(a)
  {
    if a != ZeroAttr {
      var hooked := RunHooks(cfg.attrHooks, groups, a);
      assert cfg.attrHooks[..|cfg.attrHooks|] == cfg.attrHooks;
      RunHooksNoLarger(cfg, groups, a, |cfg.attrHooks|);
      var b := Resolver(cfg, groups, hooked.attr);
      if b.value.Group? {
        var path := groups + [b.key];
        assert AttrsRank(b.value.attrs) < AttrRank(a);
        AttrsEmissionUnderPath(cfg, path, b.value.attrs);
        var rest := AttrsEmission(cfg, path, b.value.attrs);
        assert AttrEmission(cfg, groups, a).prints == [PrintCall(path, b)] + rest.prints;
        forall c | c in rest.prints
          ensures groups <= c.groups
        {
          assert path <= c.groups;
          assert c.groups[..|groups|] == path[..|groups|] == groups;
        }
      }
    }
  }

  /** AttrEmissionUnderPath for every attribute of a sequence. */
  lemma {:induction false} AttrsEmissionUnderPath(cfg: Config, groups: seq<string>, xs: seq<Attr>)
    requires Shrinks(cfg)
    ensures forall c :: c in AttrsEmission(cfg, groups, xs).prints ==> groups <= c.groups
    decreases AttrsRank(xs)
  {
    if xs != [] {
      var front := xs[..|xs| - 1];
      AttrsEmissionUnderPath(cfg, groups, front);
      AttrsRankBounds(xs, |xs| - 1);
      AttrEmissionUnderPath(cfg, groups, xs[|xs| - 1]);
    }
  }

  /**
   * A group-valued attribute is printed under its own key and its children follow,
   * under that path; with no hooks configured this holds whatever replaceAttr does,
   * because replaceAttr is never applied to a group.
   */
  lemma GroupNotReplaced(cfg: Config, groups: seq<string>, key: string, children: seq<Attr>)
    requires Shrinks(cfg) && cfg.attrHooks == []
    ensures var a := Attr(key, Group(children));
      AttrEmission(cfg, groups, a)
        == Emission([PrintCall(groups + [key], a)], []).Then(AttrsEmission(cfg, groups + [key], children))
  {
    var a := Attr(key, Group(children));
    assert cfg.attrHooks[..0] == [];
    RunHooksNoLarger(cfg, groups, a, 0);
    assert Resolver(cfg, groups, a) == a;
  }

  /**
   * With no hooks and no replaceAttr, an attribute that is neither zero, a group, a
   * LogValuer nor a goerr error is printed as it is, once, under the current path, with nothing deferred.
   */
  lemma PlainLeafPrinted(cfg: Config, groups: seq<string>, a: Attr)
    requires Shrinks(cfg) && cfg.attrHooks == [] && cfg.replaceAttr.None?
    requires a != ZeroAttr && !a.value.Group? && !a.value.Lazy? && !a.value.Error?
    ensures AttrEmission(cfg, groups, a) == Emission([PrintCall(groups, a)], [])
  {
    assert cfg.attrHooks[..0] == [];
    RunHooksNoLarger(cfg, groups, a, 0);
  }

  /**
   * With no hooks, a goerr error is expanded by the resolver: it prints as the group its
   * LogValue() returns, under its own key, and that group's attributes (the stack trace
   * among them) follow under that key.
   */
  lemma UnhookedErrorExpands(cfg: Config, groups: seq<string>, key: string, e: GoError)
    requires Shrinks(cfg) && cfg.attrHooks == []
    ensures var g := Attr(key, Group(e.logged));
      AttrEmission(cfg, groups, Attr(key, Error(e)))
        == Emission([PrintCall(groups + [key], g)], []).Then(AttrsEmission(cfg, groups + [key], e.logged))
  {
    var a := Attr(key, Error(e));
    assert cfg.attrHooks[..0] == [];
    RunHooksNoLarger(cfg, groups, a, 0);
    assert RunHooks(cfg.attrHooks, groups, a) == HookOutcome(a, []);
    assert Resolver(cfg, groups, a) == Attr(key, Group(e.logged));
  }
}
