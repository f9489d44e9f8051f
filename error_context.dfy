/** A named context holding an ordered list of errors and an ordered list of
    warnings, each message tagged with a context name. */
module ErrorContexts {
  import opened Messages

  class ErrorContext {
    var contextName: string
    var errors: seq<BasicError>
    var warnings: seq<BasicError>

    /** What this context holds, as a value. */
    function Value(): ContextValue
      reads this
    {
      ContextValue(contextName, errors, warnings)
    }

    /** A new context with the given name (anonymous by default) and no
        messages. */
    constructor (name: string := "")
      ensures Value() == Fresh(name)
    {
      contextName := name;
      errors := [];
      warnings := [];
    }

    /** A new context holding what `other` holds; `other` is not changed. */
    constructor Copy(other: ErrorContext)
      ensures Value() == other.Value()
    {
      contextName := other.contextName;
      errors := other.errors;
      warnings := other.warnings;
    }

    /** Appends one error tagged with this context's name. */
    method AddError(message: string)
      modifies this
      ensures contextName == old(contextName) && warnings == old(warnings)
      ensures errors == old(errors) + [BasicError(contextName, message)]
    {
      errors := errors + [BasicError(contextName, message)];
    }

    /** Appends every message, in order, as an error tagged with this
        context's name. */
    method AddErrors(messages: seq<string>)
      modifies this
      ensures contextName == old(contextName) && warnings == old(warnings)
      ensures errors == old(errors) + Tagged(contextName, messages)
    {
      for i := 0 to |messages|
        invariant contextName == old(contextName) && warnings == old(warnings)
        invariant errors == old(errors) + Tagged(contextName, messages[..i])
      {
        TaggedSnoc(contextName, messages[..i], messages[i]);
        assert messages[..i + 1] == messages[..i] + [messages[i]];
        errors := errors + [BasicError(contextName, messages[i])];
      }
      assert messages[..|messages|] == messages;
    }

    /** Appends every error of another context, in order, each under the
        name composed from this context's name and the one it carried. */
    method AddBasicErrors(es: seq<BasicError>)
      modifies this
      ensures contextName == old(contextName) && warnings == old(warnings)
      ensures errors == old(errors) + Composed(contextName, es)
    {
      for i := 0 to |es|
        invariant contextName == old(contextName) && warnings == old(warnings)
        invariant errors == old(errors) + Composed(contextName, es[..i])
      {
        var name := NameFor(es[i]);
        ComposedSnoc(contextName, es[..i], es[i]);
        assert es[..i + 1] == es[..i] + [es[i]];
        errors := errors + [BasicError(name, es[i].message)];
      }
      assert es[..|es|] == es;
    }

    /** Appends one warning tagged with this context's name. */
    method AddWarning(message: string)
      modifies this
      ensures contextName == old(contextName) && errors == old(errors)
      ensures warnings == old(warnings) + [BasicError(contextName, message)]
    {
      warnings := warnings + [BasicError(contextName, message)];
    }

    /** Appends every message, in order, as a warning tagged with this
        context's name. */
    method AddWarnings(messages: seq<string>)
      modifies this
      ensures contextName == old(contextName) && errors == old(errors)
      ensures warnings == old(warnings) + Tagged(contextName, messages)
    {
      for i := 0 to |messages|
        invariant contextName == old(contextName) && errors == old(errors)
        invariant warnings == old(warnings) + Tagged(contextName, messages[..i])
      {
        TaggedSnoc(contextName, messages[..i], messages[i]);
        assert messages[..i + 1] == messages[..i] + [messages[i]];
        warnings := warnings + [BasicError(contextName, messages[i])];
      }
      assert messages[..|messages|] == messages;
    }

    /** Appends every warning of another context, in order, each under the
        name composed from this context's name and the one it carried. */
    method AddBasicWarnings(ws: seq<BasicError>)
      modifies this
      ensures contextName == old(contextName) && errors == old(errors)
      ensures warnings == old(warnings) + Composed(contextName, ws)
    {
      for i := 0 to |ws|
        invariant contextName == old(contextName) && errors == old(errors)
        invariant warnings == old(warnings) + Composed(contextName, ws[..i])
      {
        var name := NameFor(ws[i]);
        ComposedSnoc(contextName, ws[..i], ws[i]);
        assert ws[..i + 1] == ws[..i] + [ws[i]];
        warnings := warnings + [BasicError(name, ws[i].message)];
      }
      assert ws[..|ws|] == ws;
    }

    /** The name an incoming message gets in this context, decided branch by
        branch on which of the two names is empty. */
    method NameFor(e: BasicError) returns (name: string)
      ensures name == ComposeName(contextName, e.contextName)
      ensures contextName != "" && e.contextName != "" ==> name == contextName + " > " + e.contextName
      ensures contextName != "" && e.contextName == "" ==> name == contextName
      ensures contextName == "" ==> name == e.contextName
    {
      name := "";
      if contextName != "" {
        if e.contextName != "" {
          name := contextName + Separator + e.contextName;
        } else {
          name := contextName;
        }
      } else if e.contextName != "" {
        name := e.contextName;
      }
    }

    /** The errors, in insertion order. */
    function GetErrors(): (es: seq<BasicError>)
      reads this
      ensures es == Value().List(ErrorLevel)
    {
      errors
    }

    /** The warnings, in insertion order. */
    function GetWarnings(): (ws: seq<BasicError>)
      reads this
      ensures ws == Value().List(WarningLevel)
    {
      warnings
    }

    /** Whether this context holds at least one error. */
    function HasErrors(): (b: bool)
      reads this
      ensures b <==> |errors| > 0
    {
      errors != []
    }

    /** Whether this context holds at least one warning. */
    function HasWarnings(): (b: bool)
      reads this
      ensures b <==> |warnings| > 0
    {
      warnings != []
    }
  }
}
