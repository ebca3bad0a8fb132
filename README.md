# clog: the attribute-printing core, in Dafny

clog is a `log/slog` handler for Go. For each record it fills a text template, prints every
attribute of the handler chain and of the record, runs the actions deferred by attribute hooks,
adds a newline and hands the whole line to the writer in a single write. This project models
the part of clog that decides what that line contains:

- the handler chain built by `WithAttrs` and `WithGroup`, and the clone that `Handle` derives;
- the stack through which `Handle` visits the chain, root first;
- the record printer's traversal (`printStack`, `printAttr`). It covers the zero-attribute skip,
  the attribute-hook chain, the deferred actions, the resolver (LogValuers such as goerr errors,
  and `replaceAttr`, never applied to groups), and how the group path is kept balanced;
- the linear attribute printer, which writes `g1.g2.key=value `;
- the deprecated `GoerrHook` and the configurable `hooks.GoErr` hook.

The traversal is specified twice:

- as imperative classes: `Stack`, `RecordPrinter`, `LinearPrinter`, `Buffer` and `Sink` hold
  the fields the Go code mutates;
- as functions that list, for a record, the printer calls made and the actions deferred
  (`AttrEmission`, `AttrsEmission`, `StackEmission`).

Each method is proved to write exactly the rendering of its function. Lemmas about the
functions then state what clog's code and tests promise: root-first scope order, last-registered-first
deferred output, no suppression, zero attributes skipped, and paths that always extend the
caller's path. Whole records from the Go test files are worked through as lemmas.

Modules:

- `Slog` (slog.dfy) models slog values and attributes and goerr errors.
- `ClogAttr` (attr.dfy) models attr.go.
- `ClogPrinter` (printer.dfy) models printer.go.
- `GoErrHooks` (goerr.dfy) models hooks/goerr.go.
- `Clog` (handler.dfy) models handler.go.
- `ClogScopes` (scopes.dfy) relates the stack traversal to the scope chain.
- `ClogProperties` (properties.dfy) holds the properties of the traversal.
- `ClogScenarios` (scenarios.dfy) works through the records of the test files.
- `Wrappers` and `Sequences` (wrappers.dfy) are shared helpers.

## Model

| member | source | states |
|---|---|---|
| Clog.New | handler.go:30-41 | a new handler is a root: it holds the given configuration, no parent, no attributes and no group |
| Clog.Clone | handler.go:44-52 | the clone is a child of the receiver sharing its configuration, with no attributes and no group |
| Clog.Enabled | handler.go:55-57 | a level is enabled exactly when it is at or above the configured minimum |
| Clog.DerivedEnabled | handler.go:44-57 | a clone, a WithAttrs child and a WithGroup result share the receiver's configuration, so each enables exactly the levels the receiver does |
| Clog.WithAttrs | handler.go:216-220 | a child of the receiver holding exactly the given attributes and no group |
| Clog.WithGroup | handler.go:223-231 | an empty name returns the receiver itself; any other name gives a child carrying that group and no attributes |
| ClogScopes.WithGroupScope | handler.go:223-231 | a named WithGroup extends the group path by the name and prints nothing of its own |
| Clog.Chain | handler.go:116-118 | the nodes from a handler up to the root start with the handler itself |
| Clog.StackOf | handler.go:115-118 | the push loop leaves a fresh stack holding the chain from the node to the root, so the root is on top |
| Clog.Stack.Push | handler.go:63-65 | push appends the handler at the end |
| Clog.Stack.Pop | handler.go:67-75 | pop on an empty stack returns nil and changes nothing; otherwise it returns the last handler and removes it |
| Clog.RunHooks | handler.go:186-197 | the hook loop runs every hook in order on the attribute as the earlier hooks left it; each hook registers at most one deferred action |
| Clog.Replaced | handler.go:186-197 | a nil result or a nil NewAttr leaves the attribute as it was; otherwise the NewAttr replaces it |
| Clog.RecordPrinter.ApplyHooks | handler.go:186-197 | the hooks run in order on the attribute as the earlier hooks left it; their Defer actions are registered in call order; the group path is unchanged |
| Clog.RunHooksNoLarger | handler.go:186-197 | hooks that never enlarge an attribute leave the hooked attribute no larger, which bounds the traversal |
| ClogProperties.RunHooksAppend | handler.go:186-197 | running two hook lists in sequence equals running their concatenation; the second list's defers follow the first's |
| ClogProperties.RunHooksKeepAttr | handler.go:186-197 | when no hook returns a NewAttr, the attribute reaches the resolver unchanged and every offered Defer is kept in hook order |
| Clog.Resolver | handler.go:122-131 | the value is resolved; replaceAttr is applied to the resolved attribute only when configured and the value is not a group; the result is no larger when hooks shrink |
| Slog.Resolve | handler.go:125 | a resolved value is never a LogValuer; a goerr error resolves to its LogValue() group; other values are returned unchanged; resolution never enlarges the value |
| Clog.RecordPrinter.PrintAttr | handler.go:181-213 | printAttr writes exactly the rendering of AttrEmission for the current path, registers its defers, and restores the group path |
| Clog.RecordPrinter.PrintAttrs | handler.go:171-173 | printing a list of attributes one by one produces AttrsEmission and restores the group path |
| Clog.RecordPrinter.PrintStack | handler.go:161-179 | printStack empties the stack, produces StackEmission for the popped handlers, and restores the group path |
| ClogProperties.NoSuppression | handler.go:181-205 | a non-zero attribute is always printed first, as hooked and resolved, under its path (with its own key appended for a group); the hook defers come first among its defers |
| ClogProperties.ZeroAttrsSkipped | handler.go:182-184 | a zero attribute contributes no call and no defer, so a list prints as if its zero attributes were removed |
| ClogProperties.AttrEmissionUnderPath | handler.go:201-212 | every printer call made for an attribute gets a path that extends the path the attribute was reached by |
| ClogProperties.AttrsEmissionUnderPath | handler.go:171-173 | the same holds for every attribute of a list |
| ClogProperties.GroupNotReplaced | handler.go:127 | with no hooks, a group prints under its own key with its children after it, whatever replaceAttr is, because replaceAttr never sees a group |
| ClogProperties.PlainLeafPrinted | handler.go:199-205 | with no hooks and no replaceAttr, a plain attribute (not a group, a LogValuer or a goerr error) is printed once, as it is, under the current path |
| ClogProperties.UnhookedErrorExpands | handler.go:122-131 | with no hooks, a goerr error is expanded by the resolver into its LogValue() group, printed under its own key with the group's attributes (its stack trace among them) after it |
| ClogScopes.StackPrepend | handler.go:161-179 | a handler at the bottom of the stack is printed after everything above it, under the path those handlers leave |
| ClogScopes.ChainVisitedRootFirst | handler.go:115-118 | printing the stack of a chain visits the scopes root first; each scope's attributes are printed under the group path from the root down to that scope |
| ClogScopes.RecordAttrsLast | handler.go:110-113 | the record's attributes are printed after every scope's, under the receiver's whole group path |
| ClogScopes.NewScope | handler.go:30-41 | a root handler has an empty group path and prints nothing of its own |
| ClogScopes.RunDefersAppend | handler.go:136-138 | running deferred actions last-registered first runs a later batch before an earlier one |
| Clog.Sink.Write | handler.go:144 | one write delivers the whole buffer to the sink |
| Clog.RunDeferred | handler.go:136-138 | the loop writes every deferred action's text onto the buffer, the last registered first |
| ClogScopes.RecordLineLayout | handler.go:78-149 | a record's line is: preamble, scope attributes root first, record attributes, the record's deferred output, the scopes' deferred output, then a newline |
| Clog.Handle | handler.go:78-149 | a template failure is reported as a wrapped error and nothing is written; otherwise the sink receives exactly one write, the whole record line |
| Clog.RenderConcat | printer.go:37-52 | the text of a sequence of printer calls is the concatenation of the calls' texts |
| Clog.EmitThen | handler.go:161-213 | producing two parts of a traversal in turn is producing their concatenation |
| ClogPrinter.Buffer.Write | printer.go:44-51 | a write appends its text to the buffer |
| ClogPrinter.LinearPrinter.constructor | printer.go:23-27 | a new linear printer writes to the given buffer and starts with an empty path |
| ClogPrinter.LinearPrinter.Enter | printer.go:29-31 | Enter appends the group to the printer's path |
| ClogPrinter.LinearPrinter.Exit | printer.go:33-35 | Exit drops the last group of a non-empty path and ignores its argument |
| ClogPrinter.LinearPrinter.PrintAt | printer.go:37-52 | one call writes the key prefixed by the path, "=", the value's text and a space |
| ClogPrinter.LinearPrinter.Print | printer.go:37-52 | Print renders under the printer's own path and leaves that path alone |
| ClogPrinter.PrintedKeyIsDottedPath | printer.go:38-42 | the printed key is the path plus the key joined by "."; an empty path prints the bare key |
| ClogPrinter.PrintedKeyNested | printer.go:38-42 | a key one group deeper prints as the group's own printed key, then ".", then the key |
| ClogPrinter.JoinSnoc | printer.go:40 | joining one more part appends the separator and that part |
| ClogAttr.ErrorValueAttrs | attr.go:31-34 | one child attribute per error value, with the same key and value |
| ClogAttr.GoerrHook | attr.go:29-46 | an error value becomes a group under the same key with one child per error value, plus a deferred `Error: ` dump; any other value gives nil |
| ClogAttr.GoerrHookNoLarger | attr.go:29-46 | the replacement never outgrows the attribute it replaces |
| GoErrHooks.Hook | hooks/goerr.go:40-66 | error values only: with the stack trace on, one child per value and a deferred dump; with it off, the values plus a trailing `message` child and no defer; other values give nil |
| GoErrHooks.GoErr | hooks/goerr.go:32-38 | options apply in order from a false default, so the last WithStackTrace wins |
| GoErrHooks.HookIgnoresGroups | hooks/goerr.go:40 | the hook's result does not depend on the group path |
| GoErrHooks.LegacyHookIsStackTraceOn | attr.go:25-28 | the deprecated GoerrHook is GoErr with the stack trace switched on |
| GoErrHooks.HookNoLarger | hooks/goerr.go:46-63 | the hook never enlarges an attribute, even with the added `message` child |
| ClogScenarios.GroupInGroupWith | handler_test.go:55-60 | WithGroup("g1").WithGroup("g2") and a record attribute give `g1.g2.key=val ` |
| ClogScenarios.GroupInGroupMix | handler_test.go:62-69 | WithGroup("g1") and a record group g2 give the group's own line, then `g1.g2.key=val ` |
| ClogScenarios.GroupInGroupRecord | handler_test.go:44-53 | nested record groups give one line per group, then `g1.g2.key=val ` |
| ClogScenarios.ReplaceAndDefer | attr_test.go:75-95 | for the three attributes the test logs (attr_test.go:35-39): the replacement is printed instead of the original, the other leaf follows, then the group and its member; the deferred text comes after all attributes, before the newline |
| ClogScenarios.GoerrRecord | attr_test.go:97-109 | a goerr error prints as a group with its value under the key, and the `Error: ` dump follows every attribute; nothing of the error's LogValue() group, such as its stack trace, is printed |

## Left out

- The template and the record's time, level, message and source location are left out. The
  filled-in template is a parameter of `Handle`, either the preamble text or the template's error.
- Colour is not modelled: colouring the preamble, and the colour codes the linear printer wraps
  around values.
- The mutex is left out, and so is any concurrency. Handler nodes are values, not shared pointers.
- The sink's write never fails. The error `Write` can return is not modelled.
- Options and the configuration wiring (`New(options...)`, config.go) are left out. A handler is
  built from a `Config` with a level, hooks and an optional `replaceAttr`.
- The pretty and indent printers are left out, as is the choice of printer. The record printer
  always uses the linear printer. `WithPrinter` sets a `newPrinter` field, but handler.go:132
  calls `newAttrPrinter`. The model follows handler.go's call.
- `Clog.RecordPrinter.PrintAttr` calls the attribute printer as handler.go:205 does, with the
  path as an argument. So a group attribute is itself printed, with its own key already on the
  path, before its children. printer.go declares `Print(attr)` with the path held in the printer;
  that form is `LinearPrinter.Print`. `Enter` and `Exit` are never called by the traversal.
- `ClogPrinter.LinearPrinter.Exit` requires a non-empty path. On an empty path Go panics.
- The text of slog values (`Value.String()`) is reduced to a few kinds: string, scalar text, nil,
  goerr error, group and lazy value. A group prints as `[k=v ...]`. Go's formatting of numbers,
  times and quoting is not modelled.
- The tests expect quoted strings such as `foo="bar"`. printer.go writes `Value.String()`, which
  does not quote, and the model follows the code.
- `Slog.Resolve` resolves a lazy value to its given result. `LogValue` panics and the cap on
  repeated resolution are not modelled.
- goerr's `Values()` is a Go map, so its iteration order is unspecified. A sequence stands for one
  order, and `ClogAttr.GoerrHook` and `GoErrHooks.Hook` state the children as a multiset of the values.
- `%+v` of a goerr error is its message followed by a stack-trace text that is kept opaque.
- A goerr error is a LogValuer. The group its `LogValue()` returns is a field of the error, so
  its layout (message, values, stack trace) is not modelled. `Value.String()` of an error that
  reaches the printer unresolved, through `replaceAttr`, is taken to be its message.
- Hooks and `replaceAttr` are arbitrary functions in Go. Here they must never enlarge an
  attribute (`Shrinks`); this measure is what proves the traversal terminates. It also
  excludes hooks and `replaceAttr` functions that terminate in Go while enlarging an attribute,
  for example a hook that turns a string into a group holding it, or a `replaceAttr` that wraps
  a value in a LogValuer. A handler configured with such functions is outside the model. A hook
  that keeps growing its attribute would make Go recurse without end.
- `Handle`'s returned error is the wrapped message text. goerr's wrapping and stack capture are
  not modelled.
- attr.go:15 documents NewAttr as "the original attribute is printed" when it is set, but
  handler.go:192-194 prints the replacement. The model follows the code.
