/**
 * hooks/goerr.go: the GoErr attribute hook and its options.
 */
module GoErrHooks {
  import opened Wrappers
  import opened Slog
  import opened ClogAttr

  /** goErrConfig. */
  datatype GoErrConfig = GoErrConfig(withStackTrace: bool)

  /** GoErrOption; WithStackTrace(enable) is the only option, and it sets the flag. */
  datatype GoErrOption = WithStackTrace(enable: bool)

  /**
   * The hook GoErr returns, for a given configuration. A goerr error becomes a group
   * under the same key. With the stack-trace flag on, the group holds one child per
   * error value and a deferred `Error: %+v` dump is scheduled; with it off, the group
   * ends with a `message` child holding the error text and nothing is deferred.
   * Any other value gives nil. The group path is not consulted.
   */
  function Hook(cfg: GoErrConfig, groups: seq<string>, attr: Attr): (r: Option<HandleAttr>)
    ensures r.Some? <==> attr.value.Error?
    ensures r.Some? ==>
      && r.value.newAttr.Some?
      && r.value.newAttr.value.key == attr.key
      && r.value.newAttr.value.value.Group?
    ensures r.Some? && cfg.withStackTrace ==>
      && OneChildPerValue(r.value.newAttr.value.value.attrs, attr.value.err)
      && r.value.deferred.Some?
      && DeferredText(r.value.deferred.value) == "Error: " + attr.value.err.message + attr.value.err.stack
    ensures r.Some? && !cfg.withStackTrace ==>
      var children := r.value.newAttr.value.value.attrs;
      && |children| == |attr.value.err.values| + 1
      && OneChildPerValue(children[..|children| - 1], attr.value.err)
      && children[|children| - 1] == Attr("message", Str(attr.value.err.message))
      && r.value.deferred.None?
  {
    match attr.value
    case Error(e) =>
      var attrs := ErrorValueAttrs(e.values);
      if cfg.withStackTrace then
        Some(HandleAttr(Some(Attr(attr.key, Group(attrs))), Some(DumpError(e))))
      else
        assert (attrs + [Attr("message", Str(e.message))])[..|attrs|] == attrs;
        Some(HandleAttr(Some(Attr(attr.key, Group(attrs + [Attr("message", Str(e.message))]))), None))
    case _ => None
  }

  /**
   * GoErr: the flag starts false and the options are applied in order, so the last
   * WithStackTrace wins.
   */
  method GoErr(opts: seq<GoErrOption>) returns (hook: AttrHook)
    ensures forall groups, attr :: hook(groups, attr) == Hook(GoErrConfig(|opts| > 0 && opts[|opts| - 1].enable), groups, attr)
  {
    var cfg := GoErrConfig(false);
    for i := 0 to |opts|
      invariant cfg.withStackTrace == (i > 0 && opts[i - 1].enable)
    {
      cfg := cfg.(withStackTrace := opts[i].enable);
    }
    hook := (groups, attr) => Hook(cfg, groups, attr);
  }

  /** The result depends on the attribute and the configuration only. */
  lemma HookIgnoresGroups(cfg: GoErrConfig, g1: seq<string>, g2: seq<string>, attr: Attr)
    ensures Hook(cfg, g1, attr) == Hook(cfg, g2, attr)
  {
  }

  /** The deprecated GoerrHook behaves as GoErr with the stack trace switched on. */
  lemma LegacyHookIsStackTraceOn(groups: seq<string>, attr: Attr)
    ensures GoerrHook(groups, attr) == Hook(GoErrConfig(true), groups, attr)
  {
  }

  /** The hook never enlarges an attribute, so the traversal that applies it stays finite. */
  lemma HookNoLarger(cfg: GoErrConfig, groups: seq<string>, attr: Attr)
    ensures NoLarger(Hook(cfg, groups, attr), attr)
  {
    if attr.value.Error? {
      var e := attr.value.err;
      var attrs := ErrorValueAttrs(e.values);
      ErrorValueAttrsRank(e.values);
      var m := Attr("message", Str(e.message));
      assert (attrs + [m])[..|attrs|] == attrs;
      assert AttrsRank(attrs + [m]) == AttrsRank(attrs) + 2;
    }
  }
}
