# Stacked error/warning aggregator — a verified Dafny model

This project models the error-reporting utility of a small game skeleton: the
classes `ErrorContext` and `Error` (`include/error.hpp`, `src/error.cpp`).

- An `ErrorContext` is a named context. It holds an ordered list of errors and an
  ordered list of warnings. Each entry is a `basicError`: the name of the context
  chain that produced it, and the message text.
- An `Error` is a stack of contexts that is never empty. Its last element is the
  top, the current context. New messages go to the top. Contexts are pushed and
  popped. A fold merges the top into the context below it and composes the
  names: `parent > child` when both names are non-empty, otherwise whichever
  name is non-empty (possibly the empty name).

## Layout

- `messages.dfy` (module `Messages`): the `BasicError` and `ContextValue`
  datatypes, the name-composition rule `ComposeName`, and the two ways messages
  enter a context: `Tagged` for plain strings and `Composed` for messages from
  another context. It also holds their lemmas.
- `error_context.dfy` (module `ErrorContexts`): class `ErrorContext`. Its fields
  `contextName`, `errors` and `warnings` are updated in place by the `add*`
  methods, each with the same loop as the source.
- `stack_spec.dfy` (module `StackSpec`): the stack as a value (`ContextStack`, a
  sequence of at least one `ContextValue`). It has one function per stack
  operation and the lemmas that state what each operation promises.
- `error.dfy` (module `Errors`): class `Error`. The real field `contexts` is a
  sequence of distinct `ErrorContext` objects whose last element plays the role
  of `_top`. A ghost field `Stack` holds their values and a ghost field `Repr`
  is the footprint. Every method that changes or reads the stack is proved
  against the matching `StackSpec` function; the write methods are proved
  against the `Output` functions.
- `output.dfy` (module `Output`): the lines `Error : [name] : text` and
  `Warning : [name] : text`.
- `scenarios.dfy` (module `Scenarios`): the fold example documented in
  `include/error.hpp`, the three cases of name composition, the converting
  folds, absorbing a whole handler, and four methods that drive the class
  (`BuildExample`, `PushPopClient`, `WorkedExampleClient`, `ClearClient`).

## Modelling decisions

- `_top` is not a field. `Error.Top()` is the last element of `contexts`.
- The write operations return the lines instead of writing them to a stream.
  Each line is the text before its `std::endl`. They have no `modifies`
  clause, so writing twice with nothing in between gives the same lines.
- `pop()` returns a copy of the removed top (`ErrorContext ec = *_top`). In the
  model that copy is a fresh `ErrorContext` that the handler does not own.
- `push(Error const&)` copies its argument first. The copy is the implicitly
  generated deep copy, modelled as `Error.Copy`. The copy is folded until one
  context is left (`CollapsedCopy`). The model then pushes an anonymous
  context and ingests the collapsed lists into it (`PushIngested`). Two
  separate handlers never share contexts in the source (a `std::vector` holds
  them by value). So `PushError` requires either `other == this` or disjoint
  footprints, and it proves that `other` is not changed.
- The default arguments `= ""` of both constructors, of `push` and of `clear`
  are Dafny default parameter values, so `new Error()`, `h.Push()` and
  `h.Clear()` work as in the source.
- The getters `getErrors`/`getWarnings` are the functions
  `ErrorContext.GetErrors`/`GetWarnings`. The folds and `PushError` read the
  popped or collapsed context through them, as the source does.
  `getCurrentContext()` returns a
  const reference. The model returns the top's value (`Error.CurrentContext`).
- Absorbing a handler whose contexts are `[root: e1]` and `[fn: e2]` does not
  leave a single error tagged `root > fn`. The root's own error is kept too
  (`src/error.cpp:167-177`), so the new context holds `[root] e1` and then
  `[root > fn] e2` (`Scenarios.AbsorbExample`).
- Two quirks of the source are kept, and lemmas state them:
  - A fold at depth 1 pops into a fresh context with the empty name. The
    messages survive under the names they carried (`StackSpec.FoldAtRoot`).
  - Absorbing a handler ingests into an anonymous context, so the collapsed
    names pass through unchanged (`Messages.ComposedAnonymous`,
    `StackSpec.PushStackShape`).

## Model

| member | source | states |
|---|---|---|
| Messages.ComposeNameCases | src/error.cpp:39-51 | the composed name is `parent > child` when both names are non-empty, the parent when the child is empty, the child when the parent is empty; it is empty exactly when both are |
| Messages.ComposeNameAssociative | src/error.cpp:37-59 | composing names is associative, so the chain `a > b > c` is the same whichever fold happens first |
| Messages.Tagged | src/error.cpp:26-35 | plain messages become entries in the same order, one per message, each carrying the given context name |
| Messages.Composed | src/error.cpp:37-59 | incoming entries keep their texts and order, one per entry, each under the name composed from the receiver's name and the name it carried |
| Messages.ComposedConcat | src/error.cpp:190-194 | ingesting two lists one after the other is ingesting their concatenation |
| Messages.ComposedAnonymous | src/error.cpp:174-176 | ingesting into an anonymous context keeps every entry exactly as it was |
| Messages.ComposedNested | src/error.cpp:184-188 | moving messages up two contexts equals moving them once under the composed parent name |
| Messages.ComposedTagged | src/error.cpp:37-59 | plain messages of a child, folded into a parent, carry the parent-composed child name |
| ErrorContexts.ErrorContext.constructor | src/error.cpp:7-9 | a new context has the given name and no errors or warnings |
| ErrorContexts.ErrorContext.Copy | src/error.cpp:11-15 | the copy holds the same name, errors and warnings |
| ErrorContexts.ErrorContext.AddError | src/error.cpp:18-24 | exactly one entry `{name, message}` is appended to the errors; earlier errors, the warnings and the name are unchanged |
| ErrorContexts.ErrorContext.AddErrors | src/error.cpp:26-35 | the errors grow by the messages in input order, each tagged with this context's name; the warnings and the name are unchanged |
| ErrorContexts.ErrorContext.AddBasicErrors | src/error.cpp:37-59 | the errors grow by the incoming entries in order, under composed names; the warnings and the name are unchanged |
| ErrorContexts.ErrorContext.AddWarning | src/error.cpp:61-67 | exactly one entry `{name, message}` is appended to the warnings; the errors and the name are unchanged |
| ErrorContexts.ErrorContext.AddWarnings | src/error.cpp:69-78 | the warnings grow by the messages in input order, each tagged with this context's name; the errors and the name are unchanged |
| ErrorContexts.ErrorContext.AddBasicWarnings | src/error.cpp:80-101 | the warnings grow by the incoming entries in order, under composed names; the errors and the name are unchanged |
| ErrorContexts.ErrorContext.NameFor | src/error.cpp:82-93 | the branch-by-branch name computation yields the composed name in each of its three cases |
| ErrorContexts.ErrorContext.GetErrors | src/error.cpp:104-106 | the errors of the context's value, in insertion order |
| ErrorContexts.ErrorContext.GetWarnings | src/error.cpp:108-110 | the warnings of the context's value, in insertion order |
| ErrorContexts.ErrorContext.HasErrors | src/error.cpp:112-114 | true exactly when the errors list is non-empty |
| ErrorContexts.ErrorContext.HasWarnings | src/error.cpp:116-118 | true exactly when the warnings list is non-empty |
| Output.Lines | src/error.cpp:233-236 | one line `tag : [name] : text` per entry, in list order |
| Output.ContextLinesOrder | src/error.cpp:216-224 | a context is written as all its error lines in order, then all its warning lines in order, and nothing else |
| StackSpec.AddMessagesShape | src/error.cpp:129-143 | adding to the handler changes only the chosen list of the top: it grows by exactly the messages, in order, tagged with the top's name; the depth, the lower contexts, the top's name and its other list stay |
| StackSpec.AddOne | src/error.cpp:129-131 | adding one message appends exactly one entry tagged with the top's name |
| StackSpec.PushThenPop | src/error.cpp:179-182 | push raises the depth by one, keeps the lower contexts, puts an empty context with the given name on top, and a pop restores the stack |
| StackSpec.PopShape | src/error.cpp:149-165 | pop from depth above one drops one context and keeps the others; from depth one it leaves one anonymous empty context |
| StackSpec.FoldByDeep | src/error.cpp:184-200 | a fold from depth above one keeps the contexts below the parent and replaces parent and child by the parent with the child ingested |
| StackSpec.FoldShape | src/error.cpp:184-188 | after fold, the new top is the parent with its old errors then the child's errors, and its old warnings then the child's warnings, under composed names; depth drops by one |
| StackSpec.FoldToErrorShape | src/error.cpp:190-194 | foldToError appends the child's errors then its warnings to the parent's errors (growth by the sum of both counts); the parent's warnings stay |
| StackSpec.FoldToWarningShape | src/error.cpp:196-200 | foldToWarning appends the child's errors then its warnings to the parent's warnings; the parent's errors stay |
| StackSpec.FoldAtRoot | src/error.cpp:153-157 | a fold at depth one leaves one context with the empty name holding the same messages (into one list for the converting folds) |
| StackSpec.FoldDepth | src/error.cpp:184-200 | every fold keeps depth one at one and otherwise lowers the depth by one |
| StackSpec.FoldAboveBottom | src/error.cpp:170-172 | folding a stack of three or more never touches the bottom context |
| StackSpec.CollapseSplit | src/error.cpp:167-172 | folding down to one context merges the bottom context with the collapse of everything above it |
| StackSpec.CollapseIsFlattened | src/error.cpp:167-172 | the collapsed context keeps the bottom name and holds every list of the stack, bottom first, under accumulated names |
| StackSpec.FlattenedHas | include/error.hpp:119-123 | every message of every context of the absorbed handler is in the collapsed context, tagged with the name chain of the contexts below it composed with its own tag |
| StackSpec.PushStackShape | src/error.cpp:167-177 | absorbing a handler adds exactly one anonymous context on top and keeps the receiver's contexts; it holds the other's collapsed lists with names unchanged |
| Errors.WriteLines | src/error.cpp:233-236 | the loop produces exactly the lines of the entries, in order |
| Errors.CollapsedCopy | src/error.cpp:168-172 | folding a copy until one context is left yields the collapse of the source, whose state is not touched |
| Errors.Error.constructor | src/error.cpp:124-127 | a new handler holds exactly one context, with the given name and no messages |
| Errors.Error.Copy | src/error.cpp:168 | the copy has fresh contexts holding the same values |
| Errors.Error.AddError | src/error.cpp:129-131 | the new stack is the old one with one error added to the top |
| Errors.Error.AddErrors | src/error.cpp:133-135 | the new stack is the old one with the messages added to the top's errors |
| Errors.Error.AddWarning | src/error.cpp:137-139 | the new stack is the old one with one warning added to the top |
| Errors.Error.AddWarnings | src/error.cpp:141-143 | the new stack is the old one with the messages added to the top's warnings |
| Errors.Error.CurrentContext | src/error.cpp:145-147 | the value of the top context |
| Errors.Error.Pop | src/error.cpp:149-165 | returns a fresh copy of the old top; the new stack is the popped one, never empty |
| Errors.Error.Push | src/error.cpp:179-182 | the new stack has one more context, a fresh one with the given name |
| Errors.Error.PushError | src/error.cpp:167-177 | the new stack absorbs the other handler's collapsed state as one anonymous context; the other handler is unchanged |
| Errors.Error.PushIngested | src/error.cpp:174-176 | pushes an anonymous context and ingests the given lists into it |
| Errors.Error.Fold | src/error.cpp:184-188 | the new stack is the fold of the old one |
| Errors.Error.FoldToError | src/error.cpp:190-194 | the new stack is the foldToError of the old one |
| Errors.Error.FoldToWarning | src/error.cpp:196-200 | the new stack is the foldToWarning of the old one |
| Errors.Error.HasErrors | src/error.cpp:202-204 | true exactly when the top context, and no deeper one, holds an error |
| Errors.Error.HasWarnings | src/error.cpp:206-208 | true exactly when the top context, and no deeper one, holds a warning |
| Errors.Error.Clear | src/error.cpp:210-214 | the stack becomes one context with the given name and no messages |
| Errors.Error.WriteTo | src/error.cpp:216-224 | the top's error lines then its warning lines |
| Errors.Error.WriteWarningsTo | src/error.cpp:226-231 | the top's warning lines |
| Errors.Error.WriteErrorsTo | src/error.cpp:233-237 | the top's error lines |
| Scenarios.WorkedExample | include/error.hpp:9-25 | root with A and B, folded with function holding C, gives `[root] A`, `[root] B`, `[root > function] C` in that order |
| Scenarios.WorkedExampleLines | include/error.hpp:20-24 | the folded example is written as exactly those three error lines |
| Scenarios.ChildIntoParent | src/error.cpp:184-188 | a message of a child folded into an empty parent is tagged with the composed name |
| Scenarios.NameCompositionCases | src/error.cpp:41-51 | `A` over `B` gives `A > B`, `A` over an anonymous child gives `A`, an anonymous parent over `B` gives `B` |
| Scenarios.ConvertingFolds | src/error.cpp:190-200 | a child with one error and one warning adds two errors and no warning with foldToError, two warnings and no error with foldToWarning |
| Scenarios.AbsorbExample | src/error.cpp:167-177 | absorbing `[root: e1]`, `[fn: e2]` adds one anonymous context holding `[root] e1` then `[root > fn] e2` |
| Scenarios.BuildExample | include/error.hpp:15-19 | the documented example built through the handler's own methods has exactly the expected two contexts |

## Left out

- `src/window.cpp`, `include/window.hpp`, `src/main.cpp` and
  `testFluxWebcam.cpp`: these are pass-throughs over GLFW/GLEW and OpenCV.
  They use C callbacks, global state and floating point. None of them is part
  of this model.
- The `std::ostream` side of `writeTo`/`writeErrorsTo`/`writeWarningsTo`: the
  model returns the lines, and the line terminator is not part of them.
- The raw `_top` pointer and its aliasing in the implicit copy of an `Error`.
  Until its first `pop` the copy's `_top` still points into the original.
  The model has no such pointer: the top is the last element of the sequence.
- Errors.Error.PushError: for `h.push(h)` on a handler with one context, the
  copy is never folded, so its `_top` still points at `h`'s only context.
  `push()` then appends to `h`'s vector, which can reallocate it, and the next
  line reads through the old pointer. That is undefined behaviour in the
  source (`src/error.cpp:168-176`). The model instead gives the copy
  semantics that every other input has: the contexts are copied first.
- Concurrency: the component is single-threaded, and so is the model.
