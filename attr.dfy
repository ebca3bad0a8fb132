/**
 * attr.go: what a hook may return, the hook type, and the deprecated GoerrHook.
 */
module ClogAttr {
  import opened Wrappers
  import opened Slog

  /**
   * A deferred action, as data rather than a closure: run after every attribute of
   * the record is printed, it writes its text to the record's buffer.
   */
  datatype Deferred =
    | WriteText(text: string)   // an action writing fixed text
    | DumpError(err: GoError)   // fmt.Fprintf(w, "Error: %+v", err)

  /** The text a deferred action writes; `%+v` of a goerr error is its message followed by its stack trace. */
  function DeferredText(d: Deferred): string
  {
    match d
    case WriteText(t) => t
    case DumpError(e) => "Error: " + e.message + e.stack
  }

  /** HandleAttr: an optional replacement attribute and an optional deferred action. */
  datatype HandleAttr = HandleAttr(newAttr: Option<Attr>, deferred: Option<Deferred>)

  /** AttrHook: called with the current group path and the attribute; None stands for a nil result. */
  type AttrHook = (seq<string>, Attr) -> Option<HandleAttr>

  /** A hook result whose replacement, if any, is no larger than the attribute it replaces. */
  predicate NoLarger(handle: Option<HandleAttr>, a: Attr)
  {
    handle.Some? && handle.value.newAttr.Some? ==> AttrRank(handle.value.newAttr.value) <= AttrRank(a)
  }

  /** One child attribute per entry of a goerr error's Values(), as slog.Any(k, v) builds it. */
  function ErrorValueAttrs(vals: seq<KeyValue>): (r: seq<Attr>)
    ensures |r| == |vals|
    ensures forall i :: 0 <= i < |vals| ==> r[i].key == vals[i].key && r[i].value == vals[i].value
  {
    seq(|vals|, i requires 0 <= i < |vals| => Attr(vals[i].key, vals[i].value))
  }

  /** The children of a replacement group are exactly the error's values, in some order. */
  predicate OneChildPerValue(children: seq<Attr>, e: GoError)
  {
    multiset(children) == multiset(ErrorValueAttrs(e.values))
  }

  /** Turning an error's values into attributes keeps their total size. */
  lemma {:induction false} ErrorValueAttrsRank(vals: seq<KeyValue>)
    ensures AttrsRank(ErrorValueAttrs(vals)) == PairsRank(vals)
  {
    if vals != [] {
      var n := |vals|;
      assert ErrorValueAttrs(vals)[..n - 1] == ErrorValueAttrs(vals[..n - 1]);
      ErrorValueAttrsRank(vals[..n - 1]);
    }
  }

  /**
   * The deprecated hook: a goerr error becomes a group under the same key holding one
   * child per error value, and a deferred `Error: %+v` dump; any other value gives nil.
   */
  function GoerrHook(groups: seq<string>, attr: Attr): (r: Option<HandleAttr>)
    ensures r.Some? <==> attr.value.Error?
    ensures r.Some? ==>
      && r.value.newAttr.Some?
      && r.value.newAttr.value.key == attr.key
      && r.value.newAttr.value.value.Group?
      && OneChildPerValue(r.value.newAttr.value.value.attrs, attr.value.err)
      && r.value.deferred.Some?
      && DeferredText(r.value.deferred.value) == "Error: " + attr.value.err.message + attr.value.err.stack
  {
    match attr.value
    case Error(e) =>
      Some(HandleAttr(Some(Attr(attr.key, Group(ErrorValueAttrs(e.values)))), Some(DumpError(e))))
    case _ => None
  }

  /** The deprecated hook never enlarges an attribute, so the traversal stays finite. */
  lemma GoerrHookNoLarger(groups: seq<string>, attr: Attr)
    ensures NoLarger(GoerrHook(groups, attr), attr)
  {
    if attr.value.Error? {
      ErrorValueAttrsRank(attr.value.err.values);
    }
  }
}
