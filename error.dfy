/** The error handler: a stack of error contexts that always holds at least
    one, whose last element is the top (current) context. */
module Errors {
  import opened Messages
  import opened ErrorContexts
  import StackSpec
  import Output

  /** The lines written for a list of messages under one tag, in order. */
  method WriteLines(tag: string, es: seq<BasicError>) returns (lines: seq<string>)
    ensures lines == Output.Lines(tag, es)
  {
    lines := [];
    for i := 0 to |es|
      invariant lines == Output.Lines(tag, es[..i])
    {
      Output.LinesSnoc(tag, es[..i], es[i]);
      assert es[..i + 1] == es[..i] + [es[i]];
      lines := lines + [Output.Line(tag, es[i])];
    }
    assert es[..|es|] == es;
  }

  /** The one context left after folding a copy of `source` until only one
      remains; `source` is left as it was. */
  method CollapsedCopy(source: Error) returns (collapsed: ErrorContext)
    requires source.Valid()
    ensures fresh(collapsed)
    ensures collapsed.Value() == StackSpec.Collapse(source.Stack)
  {
    var copy := new Error.Copy(source);
    while |copy.contexts| != 1
      invariant copy.Valid() && fresh(copy.Repr)
      invariant StackSpec.Collapse(copy.Stack) == StackSpec.Collapse(source.Stack)
      decreases |copy.contexts|
    {
      copy.Fold();
    }
    collapsed := copy.Top();
  }

  class Error {
    var contexts: seq<ErrorContext>

    // public view: the contexts as values, bottom first
    ghost var Stack: StackSpec.ContextStack
    // the objects this handler owns: itself and its contexts
    ghost var Repr: set<object>

    /** Every context is its own object, owned by this handler, and holds
        the value recorded for its position in Stack. */
    ghost predicate Valid()
      reads this, Repr
    {
      this in Repr &&
      |contexts| == |Stack| &&
      (forall i :: 0 <= i < |contexts| ==> contexts[i] in Repr && contexts[i].Value() == Stack[i]) &&
      (forall i, j :: 0 <= i < j < |contexts| ==> contexts[i] != contexts[j])
    }

    /** The top (current) context. */
    function Top(): ErrorContext
      reads this
      requires contexts != []
    {
      contexts[|contexts| - 1]
    }

    /** A new handler whose one context has the given name (anonymous by
        default). */
    constructor (contextName: string := "")
      ensures Valid() && fresh(Repr)
      ensures Stack == StackSpec.Initial(contextName)
    {
      var c := new ErrorContext(contextName);
      contexts := [c];
      Stack := StackSpec.Initial(contextName);
      Repr := {this, c};
    }

    /** A deep copy of `other`: new context objects holding the same values. */
    constructor Copy(other: Error)
      requires other.Valid()
      ensures Valid() && fresh(Repr)
      ensures Stack == other.Stack
    {
      var cs: seq<ErrorContext> := [];
      ghost var owned: set<object> := {};
      for i := 0 to |other.contexts|
        invariant |cs| == i
        invariant fresh(owned)
        invariant forall k :: 0 <= k < i ==> cs[k] in owned && cs[k].Value() == other.Stack[k]
        invariant forall k, l :: 0 <= k < l < i ==> cs[k] != cs[l]
      {
        var c := new ErrorContext.Copy(other.contexts[i]);
        cs := cs + [c];
        owned := owned + {c};
      }
      contexts := cs;
      Stack := other.Stack;
      Repr := owned + {this};
    }

    /** Adds an error to the top context. */
    method AddError(errorMessage: string)
      requires Valid()
      modifies Repr
      ensures Valid() && Repr == old(Repr)
      ensures Stack == StackSpec.AddMessages(old(Stack), ErrorLevel, [errorMessage])
    {
      var top := Top();
      top.AddError(errorMessage);
      assert Tagged(top.contextName, [errorMessage]) == [BasicError(top.contextName, errorMessage)];
      Stack := StackSpec.AddMessages(Stack, ErrorLevel, [errorMessage]);
    }

    /** Adds several errors to the top context, in order. */
    method AddErrors(errorMessages: seq<string>)
      requires Valid()
      modifies Repr
      ensures Valid() && Repr == old(Repr)
      ensures Stack == StackSpec.AddMessages(old(Stack), ErrorLevel, errorMessages)
    {
      var top := Top();
      top.AddErrors(errorMessages);
      Stack := StackSpec.AddMessages(Stack, ErrorLevel, errorMessages);
    }

    /** Adds a warning to the top context. */
    method AddWarning(warningMessage: string)
      requires Valid()
      modifies Repr
      ensures Valid() && Repr == old(Repr)
      ensures Stack == StackSpec.AddMessages(old(Stack), WarningLevel, [warningMessage])
    {
      var top := Top();
      top.AddWarning(warningMessage);
      assert Tagged(top.contextName, [warningMessage]) == [BasicError(top.contextName, warningMessage)];
      Stack := StackSpec.AddMessages(Stack, WarningLevel, [warningMessage]);
    }

    /** Adds several warnings to the top context, in order. */
    method AddWarnings(warningMessages: seq<string>)
      requires Valid()
      modifies Repr
      ensures Valid() && Repr == old(Repr)
      ensures Stack == StackSpec.AddMessages(old(Stack), WarningLevel, warningMessages)
    {
      var top := Top();
      top.AddWarnings(warningMessages);
      Stack := StackSpec.AddMessages(Stack, WarningLevel, warningMessages);
    }

    /** A read-only view of the top context. */
    function CurrentContext(): (c: ContextValue)
      reads this, Repr
      requires Valid()
      ensures c == StackSpec.Top(Stack)
    {
      Top().Value()
    }

    /** Removes the top context and returns a copy of it; a lone context is
        replaced at once by a fresh anonymous one. */
    method Pop() returns (ec: ErrorContext)
      requires Valid()
      modifies this
      ensures Valid() && fresh(Repr - old(Repr))
      ensures fresh(ec) && ec !in Repr
      ensures ec.Value() == StackSpec.Top(old(Stack))
      ensures Stack == StackSpec.Pop(old(Stack))
    {
      ec := new ErrorContext.Copy(Top());
      if |contexts| == 1 {
        var c := new ErrorContext();
        contexts := [c];
        Repr := Repr + {c};
      } else {
        contexts := contexts[..|contexts| - 1];
      }
      Stack := StackSpec.Pop(Stack);
    }

    /** Adds a new empty context with the given name (anonymous by default)
        on top. */
    method Push(contextName: string := "")
      requires Valid()
      modifies this
      ensures Valid() && fresh(Repr - old(Repr))
      ensures fresh(Top())
      ensures Stack == StackSpec.Push(old(Stack), contextName)
    {
      var c := new ErrorContext(contextName);
      contexts := contexts + [c];
      Repr := Repr + {c};
      Stack := StackSpec.Push(Stack, contextName);
    }

    /** Adds one new anonymous context holding everything `other` holds:
        a copy of `other` is folded down to one context, whose messages are
        then ingested. `other` itself is left as it was. */
    method PushError(other: Error)
      requires Valid() && other.Valid()
      requires other == this || Repr !! other.Repr
      modifies Repr
      ensures Valid() && fresh(Repr - old(Repr))
      ensures Stack == StackSpec.PushStack(old(Stack), old(other.Stack))
      ensures other != this ==> other.Valid() && other.Stack == old(other.Stack) && unchanged(other.Repr)
    {
      var collapsed := CollapsedCopy(other);
      PushIngested(collapsed.GetErrors(), collapsed.GetWarnings());
    }

    /** Pushes an anonymous context and ingests `errors` and `warnings` into
        it under composed names. */
    method PushIngested(errors: seq<BasicError>, warnings: seq<BasicError>)
      requires Valid()
      modifies this
      ensures Valid() && fresh(Repr - old(Repr))
      ensures Stack == StackSpec.WithTop(StackSpec.Push(old(Stack), ""),
                                         StackSpec.Ingest(Fresh(""), ContextValue("", errors, warnings),
                                                          ErrorLevel, WarningLevel))
    {
      Push();
      var top := Top();
      top.AddBasicErrors(errors);
      top.AddBasicWarnings(warnings);
      Stack := StackSpec.WithTop(Stack, top.Value());
    }

    /** Merges the top context into the one below it, then removes it. */
    method Fold()
      requires Valid()
      modifies Repr
      ensures Valid() && fresh(Repr - old(Repr))
      ensures Stack == StackSpec.Fold(old(Stack))
    {
      var ec := Pop();
      var top := Top();
      top.AddBasicErrors(ec.GetErrors());
      top.AddBasicWarnings(ec.GetWarnings());
      Stack := StackSpec.WithTop(Stack, top.Value());
    }

    /** Like Fold, but the top context's warnings become errors too. */
    method FoldToError()
      requires Valid()
      modifies Repr
      ensures Valid() && fresh(Repr - old(Repr))
      ensures Stack == StackSpec.FoldToError(old(Stack))
    {
      var ec := Pop();
      var top := Top();
      top.AddBasicErrors(ec.GetErrors());
      top.AddBasicErrors(ec.GetWarnings());
      Stack := StackSpec.WithTop(Stack, top.Value());
    }

    /** Like Fold, but the top context's errors become warnings too. */
    method FoldToWarning()
      requires Valid()
      modifies Repr
      ensures Valid() && fresh(Repr - old(Repr))
      ensures Stack == StackSpec.FoldToWarning(old(Stack))
    {
      var ec := Pop();
      var top := Top();
      top.AddBasicWarnings(ec.GetErrors());
      top.AddBasicWarnings(ec.GetWarnings());
      Stack := StackSpec.WithTop(Stack, top.Value());
    }

    /** Whether the top context (and only it) holds an error. */
    function HasErrors(): (b: bool)
      reads this, Repr
      requires Valid()
      ensures b <==> StackSpec.Top(Stack).errors != []
    {
      Top().HasErrors()
    }

    /** Whether the top context (and only it) holds a warning. */
    function HasWarnings(): (b: bool)
      reads this, Repr
      requires Valid()
      ensures b <==> StackSpec.Top(Stack).warnings != []
    {
      Top().HasWarnings()
    }

    /** Drops every context and message and starts again from one context
        with the given name (anonymous by default). */
    method Clear(name: string := "")
      requires Valid()
      modifies this
      ensures Valid() && fresh(Repr - old(Repr))
      ensures Stack == StackSpec.Initial(name)
    {
      var c := new ErrorContext(name);
      contexts := [c];
      Repr := {this, c};
      Stack := StackSpec.Initial(name);
    }

    /** The lines for the top context: its errors, then its warnings. */
    method WriteTo() returns (lines: seq<string>)
      requires Valid()
      ensures lines == Output.ContextLines(StackSpec.Top(Stack))
    {
      var top := Top();
      var errorLines := WriteLines(Output.ErrorLabel, top.errors);
      var warningLines := WriteLines(Output.WarningLabel, top.warnings);
      lines := errorLines + warningLines;
    }

    /** The lines for the top context's warnings. */
    method WriteWarningsTo() returns (lines: seq<string>)
      requires Valid()
      ensures lines == Output.WarningLines(StackSpec.Top(Stack))
    {
      var top := Top();
      lines := WriteLines(Output.WarningLabel, top.warnings);
    }

    /** The lines for the top context's errors. */
    method WriteErrorsTo() returns (lines: seq<string>)
      requires Valid()
      ensures lines == Output.ErrorLines(StackSpec.Top(Stack))
    {
      var top := Top();
      lines := WriteLines(Output.ErrorLabel, top.errors);
    }
  }
}
