/**
 * Whole records worked through the model: the three ways handler_test.go nests two
 * groups around an attribute, and a hook that replaces an attribute and defers output.
 */
module ClogScenarios {
  import opened Wrappers
  import opened Slog
  import opened ClogAttr
  import opened ClogPrinter
  import opened Clog
  import opened ClogScopes
  import opened ClogProperties

  /** A configuration with no hooks and no replaceAttr. */
  function Plain(level: int): (cfg: Config)
    ensures Shrinks(cfg)
  {
    Config(level, [], None)
  }

  /** A single call renders as its line. */
  lemma RenderOne(c: PrintCall)
    ensures Render([c]) == Line(c.groups, c.attr)
  {
    assert Render([c]) == Line(c.groups, c.attr) + Render([]);
  }

  /** Two calls render as their lines in order. */
  lemma RenderTwo(c1: PrintCall, c2: PrintCall)
    ensures Render([c1, c2]) == Line(c1.groups, c1.attr) + Line(c2.groups, c2.attr)
  {
    assert [c1, c2] == [c1] + [c2];
    RenderConcat([c1], [c2]);
    RenderOne(c1);
    RenderOne(c2);
  }

  /** Three calls render as their lines in order. */
  lemma RenderThree(c1: PrintCall, c2: PrintCall, c3: PrintCall)
    ensures Render([c1, c2, c3]) == Line(c1.groups, c1.attr) + Line(c2.groups, c2.attr) + Line(c3.groups, c3.attr)
  {
    assert [c1, c2, c3] == [c1] + [c2, c3];
    RenderConcat([c1], [c2, c3]);
    RenderOne(c1);
    RenderTwo(c2, c3);
  }

  /** A sequence of one attribute emits what that attribute does. */
  lemma AttrsOne(cfg: Config, groups: seq<string>, a: Attr)
    requires Shrinks(cfg)
    ensures AttrsEmission(cfg, groups, [a]) == AttrEmission(cfg, groups, a)
  {
    assert [a][..0] == [];
    ThenNothing(AttrEmission(cfg, groups, a));
  }

  /** A sequence of two attributes emits what the first does, then what the second does. */
  lemma AttrsTwo(cfg: Config, groups: seq<string>, a1: Attr, a2: Attr)
    requires Shrinks(cfg)
    ensures AttrsEmission(cfg, groups, [a1, a2]) == AttrEmission(cfg, groups, a1).Then(AttrEmission(cfg, groups, a2))
  {
    assert [a1, a2][..1] == [a1];
    AttrsOne(cfg, groups, a1);
  }

  /** A record whose traversal defers nothing: its line is the preamble, the rendered calls and the newline. */
  lemma LineWithoutDefers(x: Handler, recordAttrs: seq<Attr>, preamble: string, prints: seq<PrintCall>)
    requires Shrinks(x.cfg) && RecordEmission(x, recordAttrs) == Emission(prints, [])
    ensures RecordLine(x, recordAttrs, preamble) == preamble + Render(prints) + "\n"
  {
    assert RunDefers([]) == "";
  }

  /** The key under two groups: both group names and the key, joined by ".". */
  lemma TwoGroupKey(g1: string, g2: string, key: string)
    ensures PrintedKey([g1, g2], key) == g1 + "." + g2 + "." + key
  {
    assert [] + [g1] == [g1] && [g1] + [g2] == [g1, g2];
    PrintedKeyNested([], g1, g2);
    PrintedKeyNested([g1], g2, key);
    PrintedKeyIsDottedPath([], g1);
  }

  /** The line of a string attribute under two groups. */
  lemma LeafLine(g1: string, g2: string, key: string, val: string)
    ensures Line([g1, g2], Attr(key, Str(val))) == g1 + "." + g2 + "." + key + "=" + val + " "
  {
    TwoGroupKey(g1, g2, key);
  }

  /** A string attribute prints once, under the path, with nothing deferred. */
  lemma LeafCall(level: int, path: seq<string>, key: string, val: string)
    ensures AttrsEmission(Plain(level), path, [Attr(key, Str(val))])
      == Emission([PrintCall(path, Attr(key, Str(val)))], [])
  {
    var leaf := Attr(key, Str(val));
    PlainLeafPrinted(Plain(level), path, leaf);
    AttrsOne(Plain(level), path, leaf);
  }

  /** Two nested WithGroup calls on a root: the path holds both names and the scopes print nothing. */
  lemma TwoGroupScopes(cfg: Config, g1: string, g2: string)
    requires Shrinks(cfg) && g1 != "" && g2 != ""
    ensures GroupPath(WithGroup(WithGroup(New(cfg), g1), g2)) == [g1, g2]
    ensures ScopeEmission(cfg, WithGroup(WithGroup(New(cfg), g1), g2)) == Nothing
  {
    NewScope(cfg);
    WithGroupScope(cfg, New(cfg), g1);
    WithGroupScope(cfg, WithGroup(New(cfg), g1), g2);
    assert [] + [g1] + [g2] == [g1, g2];
  }

  /** The traversal of the "with" case: one call, for the record attribute under both groups. */
  lemma GroupInGroupWithCalls(level: int, g1: string, g2: string, key: string, val: string)
    requires g1 != "" && g2 != ""
    ensures RecordEmission(WithGroup(WithGroup(New(Plain(level)), g1), g2), [Attr(key, Str(val))])
      == Emission([PrintCall([g1, g2], Attr(key, Str(val)))], [])
  {
    var cfg := Plain(level);
    var leaf := Attr(key, Str(val));
    var x := WithGroup(WithGroup(New(cfg), g1), g2);
    TwoGroupScopes(cfg, g1, g2);
    RecordAttrsLast(x, [leaf]);
    assert RecordEmission(x, [leaf]) == Nothing.Then(AttrsEmission(cfg, [g1, g2], [leaf]));
    LeafCall(level, [g1, g2], key, val);
    ThenNothing(AttrsEmission(cfg, [g1, g2], [leaf]));
  }

  /** handler_test.go's "with" case: WithGroup twice, then a record attribute. */
  lemma GroupInGroupWith(level: int, g1: string, g2: string, key: string, val: string, preamble: string)
    requires g1 != "" && g2 != ""
    ensures RecordLine(WithGroup(WithGroup(New(Plain(level)), g1), g2), [Attr(key, Str(val))], preamble)
      == preamble + (g1 + "." + g2 + "." + key + "=" + val + " ") + "\n"
  {
    var leaf := Attr(key, Str(val));
    GroupInGroupWithCalls(level, g1, g2, key, val);
    LineWithoutDefers(WithGroup(WithGroup(New(Plain(level)), g1), g2), [leaf], preamble, [PrintCall([g1, g2], leaf)]);
    RenderOne(PrintCall([g1, g2], leaf));
    LeafLine(g1, g2, key, val);
  }

  /** A group holding one attribute, under a path: the group under its own key, then its member. */
  lemma InnerGroupCalls(level: int, path: seq<string>, g2: string, key: string, val: string)
    ensures var leaf := Attr(key, Str(val));
      AttrsEmission(Plain(level), path, [Attr(g2, Group([leaf]))])
        == Emission([PrintCall(path + [g2], Attr(g2, Group([leaf]))), PrintCall(path + [g2], leaf)], [])
  {
    var cfg := Plain(level);
    var inner := Attr(g2, Group([Attr(key, Str(val))]));
    AttrsOne(cfg, path, inner);
    GroupNotReplaced(cfg, path, g2, [Attr(key, Str(val))]);
    LeafCall(level, path + [g2], key, val);
  }

  /** The line of the inner group under the outer group and its own key. */
  lemma InnerGroupLine(g1: string, g2: string, key: string, val: string)
    ensures Line([g1, g2], Attr(g2, Group([Attr(key, Str(val))])))
      == g1 + "." + g2 + "." + g2 + "=[" + key + "=" + val + "] "
  {
    TwoGroupKey(g1, g2, g2);
    assert ShowAttrs([Attr(key, Str(val))]) == key + "=" + val;
  }

  /** The traversal of the "mix" case: the record group under the handler's group, then its member. */
  lemma GroupInGroupMixCalls(level: int, g1: string, g2: string, key: string, val: string)
    requires g1 != ""
    ensures var leaf := Attr(key, Str(val));
      var inner := Attr(g2, Group([leaf]));
      RecordEmission(WithGroup(New(Plain(level)), g1), [inner])
        == Emission([PrintCall([g1, g2], inner), PrintCall([g1, g2], leaf)], [])
  {
    var cfg := Plain(level);
    var inner := Attr(g2, Group([Attr(key, Str(val))]));
    var x := WithGroup(New(cfg), g1);
    NewScope(cfg);
    WithGroupScope(cfg, New(cfg), g1);
    assert GroupPath(x) == [g1];
    RecordAttrsLast(x, [inner]);
    InnerGroupCalls(level, [g1], g2, key, val);
    assert [g1] + [g2] == [g1, g2];
    ThenNothing(AttrsEmission(cfg, [g1], [inner]));
  }

  /** handler_test.go's "mix" case: WithGroup for the outer group, a record group for the inner one. */
  lemma GroupInGroupMix(level: int, g1: string, g2: string, key: string, val: string, preamble: string)
    requires g1 != ""
    ensures var inner := Attr(g2, Group([Attr(key, Str(val))]));
      RecordLine(WithGroup(New(Plain(level)), g1), [inner], preamble)
        == preamble + ((g1 + "." + g2 + "." + g2 + "=[" + key + "=" + val + "] ")
          + (g1 + "." + g2 + "." + key + "=" + val + " ")) + "\n"
  {
    var leaf := Attr(key, Str(val));
    var inner := Attr(g2, Group([leaf]));
    GroupInGroupMixCalls(level, g1, g2, key, val);
    LineWithoutDefers(WithGroup(New(Plain(level)), g1), [inner], preamble, [PrintCall([g1, g2], inner), PrintCall([g1, g2], leaf)]);
    RenderTwo(PrintCall([g1, g2], inner), PrintCall([g1, g2], leaf));
    InnerGroupLine(g1, g2, key, val);
    LeafLine(g1, g2, key, val);
  }

  /** The line of the outer group, printed under its own key at the top. */
  lemma OuterGroupLine(g1: string, g2: string, key: string, val: string)
    ensures Line([g1], Attr(g1, Group([Attr(g2, Group([Attr(key, Str(val))]))])))
      == g1 + "." + g1 + "=[" + g2 + "=[" + key + "=" + val + "]] "
  {
    assert [] + [g1] == [g1];
    PrintedKeyNested([], g1, g1);
    PrintedKeyIsDottedPath([], g1);
    assert ShowAttrs([Attr(key, Str(val))]) == key + "=" + val;
    assert ShowAttrs([Attr(g2, Group([Attr(key, Str(val))]))]) == g2 + "=" + ("[" + (key + "=" + val) + "]");
  }

  /** The traversal of the "record" case: each group under its own key, then the member under both. */
  lemma GroupInGroupRecordCalls(level: int, g1: string, g2: string, key: string, val: string)
    ensures var leaf := Attr(key, Str(val));
      var inner := Attr(g2, Group([leaf]));
      var outer := Attr(g1, Group([inner]));
      RecordEmission(New(Plain(level)), [outer])
        == Emission([PrintCall([g1], outer), PrintCall([g1, g2], inner), PrintCall([g1, g2], leaf)], [])
  {
    var cfg := Plain(level);
    var leaf := Attr(key, Str(val));
    var inner := Attr(g2, Group([leaf]));
    var outer := Attr(g1, Group([inner]));
    NewScope(cfg);
    RecordAttrsLast(New(cfg), [outer]);
    ThenNothing(AttrsEmission(cfg, [], [outer]));
    AttrsOne(cfg, [], outer);
    GroupNotReplaced(cfg, [], g1, [inner]);
    assert [] + [g1] == [g1] && [g1] + [g2] == [g1, g2];
    InnerGroupCalls(level, [g1], g2, key, val);
    assert [PrintCall([g1], outer)] + [PrintCall([g1, g2], inner), PrintCall([g1, g2], leaf)]
      == [PrintCall([g1], outer), PrintCall([g1, g2], inner), PrintCall([g1, g2], leaf)];
  }

  /** handler_test.go's "record" case: a record group holding a group holding the attribute. */
  lemma GroupInGroupRecord(level: int, g1: string, g2: string, key: string, val: string, preamble: string)
    ensures var outer := Attr(g1, Group([Attr(g2, Group([Attr(key, Str(val))]))]));
      RecordLine(New(Plain(level)), [outer], preamble)
        == preamble + ((g1 + "." + g1 + "=[" + g2 + "=[" + key + "=" + val + "]] ")
          + (g1 + "." + g2 + "." + g2 + "=[" + key + "=" + val + "] ")
          + (g1 + "." + g2 + "." + key + "=" + val + " ")) + "\n"
  {
    var leaf := Attr(key, Str(val));
    var inner := Attr(g2, Group([leaf]));
    var outer := Attr(g1, Group([inner]));
    var calls := [PrintCall([g1], outer), PrintCall([g1, g2], inner), PrintCall([g1, g2], leaf)];
    GroupInGroupRecordCalls(level, g1, g2, key, val);
    LineWithoutDefers(New(Plain(level)), [outer], preamble, calls);
    RenderThree(calls[0], calls[1], calls[2]);
    OuterGroupLine(g1, g2, key, val);
    InnerGroupLine(g1, g2, key, val);
    LeafLine(g1, g2, key, val);
  }

  /**
   * A hook like attr_test.go's "defer action" case: an attribute with the given key is
   * replaced by a string attribute and a text is deferred; any other attribute is left alone.
   */
  function Recolor(key: string, replacement: string, note: string): AttrHook
  {
    (groups: seq<string>, a: Attr) =>
      if a.key == key then Some(HandleAttr(Some(Attr(key, Str(replacement))), Some(WriteText(note)))) else None
  }

  /** A configuration running only Recolor. */
  function RecolorConfig(level: int, key: string, replacement: string, note: string): (cfg: Config)
    ensures Shrinks(cfg)
  {
    Config(level, [Recolor(key, replacement, note)], None)
  }

  /** A single deferred action writes its text. */
  lemma RunDefersOne(d: Deferred)
    ensures RunDefers([d]) == DeferredText(d)
  {
    assert RunDefers([d]) == RunDefers([]) + DeferredText(d);
  }

  /** A record logged through a root handler: its attributes' calls, then its deferred output. */
  lemma RootLine(cfg: Config, recordAttrs: seq<Attr>, preamble: string)
    requires Shrinks(cfg)
    ensures var em := AttrsEmission(cfg, [], recordAttrs);
      RecordLine(New(cfg), recordAttrs, preamble) == preamble + Render(em.prints) + RunDefers(em.defers) + "\n"
  {
    NewScope(cfg);
    RecordAttrsLast(New(cfg), recordAttrs);
    ThenNothing(AttrsEmission(cfg, [], recordAttrs));
  }

  /** Recolor on the attribute it matches: the replacement is printed and the note deferred. */
  lemma RecolorMatch(level: int, key: string, original: string, replacement: string, note: string)
    ensures AttrEmission(RecolorConfig(level, key, replacement, note), [], Attr(key, Str(original)))
      == Emission([PrintCall([], Attr(key, Str(replacement)))], [WriteText(note)])
  {
    var cfg := RecolorConfig(level, key, replacement, note);
    assert cfg.attrHooks[..0] == [];
    assert RunHooks(cfg.attrHooks, [], Attr(key, Str(original))) == HookOutcome(Attr(key, Str(replacement)), [WriteText(note)]);
  }

  /** Recolor on any other attribute: it is printed as it is, with nothing deferred. */
  lemma RecolorOther(level: int, key: string, replacement: string, note: string, other: string, number: string)
    requires other != key
    ensures AttrEmission(RecolorConfig(level, key, replacement, note), [], Attr(other, Scalar(number)))
      == Emission([PrintCall([], Attr(other, Scalar(number)))], [])
  {
    var cfg := RecolorConfig(level, key, replacement, note);
    assert cfg.attrHooks[..0] == [];
    assert RunHooks(cfg.attrHooks, [], Attr(other, Scalar(number))) == HookOutcome(Attr(other, Scalar(number)), []);
  }

  /** The calls and deferred actions of the "defer action" record. */
  lemma RecolorCalls(level: int, key: string, original: string, replacement: string, note: string,
                     other: string, number: string)
    requires other != key
    ensures AttrsEmission(RecolorConfig(level, key, replacement, note), [], [Attr(key, Str(original)), Attr(other, Scalar(number))])
      == Emission([PrintCall([], Attr(key, Str(replacement))), PrintCall([], Attr(other, Scalar(number)))], [WriteText(note)])
  {
    var cfg := RecolorConfig(level, key, replacement, note);
    var first := Attr(key, Str(original));
    var second := Attr(other, Scalar(number));
    RecolorMatch(level, key, original, replacement, note);
    RecolorOther(level, key, replacement, note, other, number);
    AttrsTwo(cfg, [], first, second);
    var c1 := PrintCall([], Attr(key, Str(replacement)));
    var c2 := PrintCall([], second);
    assert [c1] + [c2] == [c1, c2] && [WriteText(note)] + [] == [WriteText(note)];
  }

  /** Recolor on a group of one string attribute, neither matching: the group, then its member, nothing deferred. */
  lemma RecolorGroup(level: int, key: string, replacement: string, note: string,
                     group: string, wkey: string, wval: string)
    requires group != key && wkey != key
    ensures var w := Attr(wkey, Str(wval));
      var g := Attr(group, Group([w]));
      AttrEmission(RecolorConfig(level, key, replacement, note), [], g)
        == Emission([PrintCall([group], g), PrintCall([group], w)], [])
  {
    var cfg := RecolorConfig(level, key, replacement, note);
    var w := Attr(wkey, Str(wval));
    var g := Attr(group, Group([w]));
    assert cfg.attrHooks[..0] == [];
    assert cfg.attrHooks[..|cfg.attrHooks|] == cfg.attrHooks;
    assert RunHooks(cfg.attrHooks, [], g) == HookOutcome(g, []);
    assert RunHooks(cfg.attrHooks, [group], w) == HookOutcome(w, []);
    assert [] + [group] == [group];
    assert AttrEmission(cfg, [group], w) == Emission([PrintCall([group], w)], []);
    AttrsOne(cfg, [group], w);
    assert AttrEmission(cfg, [], g) == Emission([PrintCall([group], g)], []).Then(AttrsEmission(cfg, [group], [w]));
  }

  /** A sequence of three attributes emits what the first two do, then what the third does. */
  lemma AttrsThree(cfg: Config, groups: seq<string>, a1: Attr, a2: Attr, a3: Attr)
    requires Shrinks(cfg)
    ensures AttrsEmission(cfg, groups, [a1, a2, a3]) == AttrsEmission(cfg, groups, [a1, a2]).Then(AttrEmission(cfg, groups, a3))
  {
    assert [a1, a2, a3][..2] == [a1, a2];
  }

  /** The calls and deferred actions of the whole "defer action" record: the two leaves, then the group and its member. */
  lemma RecolorRecordCalls(level: int, key: string, original: string, replacement: string, note: string,
                           other: string, number: string, group: string, wkey: string, wval: string)
    requires other != key && group != key && wkey != key
    ensures var w := Attr(wkey, Str(wval));
      var g := Attr(group, Group([w]));
      AttrsEmission(RecolorConfig(level, key, replacement, note), [],
                    [Attr(key, Str(original)), Attr(other, Scalar(number)), g])
        == Emission([PrintCall([], Attr(key, Str(replacement))), PrintCall([], Attr(other, Scalar(number))),
                     PrintCall([group], g), PrintCall([group], w)], [WriteText(note)])
  {
    var cfg := RecolorConfig(level, key, replacement, note);
    var w := Attr(wkey, Str(wval));
    var g := Attr(group, Group([w]));
    RecolorCalls(level, key, original, replacement, note, other, number);
    RecolorGroup(level, key, replacement, note, group, wkey, wval);
    AttrsThree(cfg, [], Attr(key, Str(original)), Attr(other, Scalar(number)), g);
    var c1 := PrintCall([], Attr(key, Str(replacement)));
    var c2 := PrintCall([], Attr(other, Scalar(number)));
    var c3 := PrintCall([group], g);
    var c4 := PrintCall([group], w);
    assert [c1, c2] + [c3, c4] == [c1, c2, c3, c4];
    assert [WriteText(note)] + [] == [WriteText(note)];
  }

  /**
   * attr_test.go's "defer action" case, with the test's three attributes: the replacement
   * is printed in place of the original, the untouched leaf follows, then the group and
   * its member, and the deferred text comes after every attribute and before the newline.
   */
  lemma ReplaceAndDefer(level: int, key: string, original: string, replacement: string, note: string,
                        other: string, number: string, group: string, wkey: string, wval: string, preamble: string)
    requires other != key && group != key && wkey != key
    ensures RecordLine(New(RecolorConfig(level, key, replacement, note)),
                       [Attr(key, Str(original)), Attr(other, Scalar(number)), Attr(group, Group([Attr(wkey, Str(wval))]))],
                       preamble)
      == preamble
        + (((key + "=" + replacement + " ") + (other + "=" + number + " "))
          + ((group + "." + group + "=[" + wkey + "=" + wval + "] ") + (group + "." + wkey + "=" + wval + " ")))
        + note + "\n"
  {
    var cfg := RecolorConfig(level, key, replacement, note);
    var w := Attr(wkey, Str(wval));
    var g := Attr(group, Group([w]));
    var c1 := PrintCall([], Attr(key, Str(replacement)));
    var c2 := PrintCall([], Attr(other, Scalar(number)));
    var c3 := PrintCall([group], g);
    var c4 := PrintCall([group], w);
    RootLine(cfg, [Attr(key, Str(original)), Attr(other, Scalar(number)), g], preamble);
    RecolorRecordCalls(level, key, original, replacement, note, other, number, group, wkey, wval);
    assert [c1, c2, c3, c4] == [c1, c2] + [c3, c4];
    RenderConcat([c1, c2], [c3, c4]);
    RenderTwo(c1, c2);
    RenderTwo(c3, c4);
    PrintedKeyIsDottedPath([], key);
    PrintedKeyIsDottedPath([], other);
    GroupOfOneLines(group, wkey, wval);
    RunDefersOne(WriteText(note));
  }

  /** A configuration running only the deprecated GoerrHook. */
  function GoerrConfig(level: int): (cfg: Config)
    ensures Shrinks(cfg)
  {
    GoerrHookNoLargerAll();
    Config(level, [GoerrHook], None)
  }

  /** GoerrHook never enlarges an attribute, whatever it is given. */
  lemma GoerrHookNoLargerAll()
    ensures forall groups, a :: NoLarger(GoerrHook(groups, a), a)
  {
    forall groups, a
      ensures NoLarger(GoerrHook(groups, a), a)
    {
      GoerrHookNoLarger(groups, a);
    }
  }

  /** GoerrHook on the error: a group holding its one value, and the dump deferred. */
  lemma GoerrHooked(level: int, key: string, err: GoError, child: Attr)
    requires err.values == [KeyValue(child.key, child.value)]
    ensures RunHooks(GoerrConfig(level).attrHooks, [], Attr(key, Error(err)))
      == HookOutcome(Attr(key, Group([child])), [DumpError(err)])
  {
    assert GoerrConfig(level).attrHooks[..0] == [];
    assert ErrorValueAttrs(err.values) == [child];
  }

  /** The error's value, a string, is printed under the error's key and left alone by GoerrHook. */
  lemma GoerrChild(level: int, key: string, child: Attr)
    requires child.value.Str?
    ensures AttrsEmission(GoerrConfig(level), [key], [child]) == Emission([PrintCall([key], child)], [])
  {
    var cfg := GoerrConfig(level);
    assert cfg.attrHooks[..0] == [];
    assert RunHooks(cfg.attrHooks, [key], child) == HookOutcome(child, []);
    AttrsOne(cfg, [key], child);
  }

  /** The calls and deferred actions for an error attribute with one string value. */
  lemma GoerrCalls(level: int, key: string, err: GoError, child: Attr)
    requires err.values == [KeyValue(child.key, child.value)] && child.value.Str?
    ensures AttrsEmission(GoerrConfig(level), [], [Attr(key, Error(err))])
      == Emission([PrintCall([key], Attr(key, Group([child]))), PrintCall([key], child)], [DumpError(err)])
  {
    var cfg := GoerrConfig(level);
    var a := Attr(key, Error(err));
    GoerrHooked(level, key, err, child);
    GoerrChild(level, key, child);
    assert cfg.attrHooks[..|cfg.attrHooks|] == cfg.attrHooks;
    assert [] + [key] == [key];
    assert AttrEmission(cfg, [], a)
      == Emission([PrintCall([key], Attr(key, Group([child])))], [DumpError(err)]).Then(AttrsEmission(cfg, [key], [child]));
    AttrsOne(cfg, [], a);
  }

  /** The two lines printed for a group of one string attribute: the group under its own key, then its member. */
  lemma GroupOfOneLines(key: string, vkey: string, vval: string)
    ensures Line([key], Attr(key, Group([Attr(vkey, Str(vval))]))) == key + "." + key + "=[" + vkey + "=" + vval + "] "
    ensures Line([key], Attr(vkey, Str(vval))) == key + "." + vkey + "=" + vval + " "
  {
    assert [] + [key] == [key];
    PrintedKeyNested([], key, key);
    PrintedKeyNested([], key, vkey);
    PrintedKeyIsDottedPath([], key);
    assert ShowAttrs([Attr(vkey, Str(vval))]) == vkey + "=" + vval;
  }

  /**
   * attr_test.go's TestGoerrHook: a goerr error with one value prints as a group under
   * the attribute's key, its value under that key, and the error dump after every
   * attribute. Whatever the error's LogValue() group holds, its stack trace among it,
   * none of it is printed: the hook replaces the error before the resolver would expand it.
   */
  lemma GoerrRecord(level: int, key: string, message: string, vkey: string, vval: string, stack: string,
                    logged: seq<Attr>, preamble: string)
    ensures var err := GoError(message, [KeyValue(vkey, Str(vval))], stack, logged);
      RecordLine(New(GoerrConfig(level)), [Attr(key, Error(err))], preamble)
        == preamble + ((key + "." + key + "=[" + vkey + "=" + vval + "] ") + (key + "." + vkey + "=" + vval + " "))
          + ("Error: " + message + stack) + "\n"
  {
    var err := GoError(message, [KeyValue(vkey, Str(vval))], stack, logged);
    var child := Attr(vkey, Str(vval));
    RootLine(GoerrConfig(level), [Attr(key, Error(err))], preamble);
    GoerrCalls(level, key, err, child);
    RenderTwo(PrintCall([key], Attr(key, Group([child]))), PrintCall([key], child));
    GroupOfOneLines(key, vkey, vval);
    RunDefersOne(DumpError(err));
  }
}
