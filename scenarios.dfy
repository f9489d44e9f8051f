/** Concrete histories of the error handler: the fold example documented on
    the context class, the three cases of name composition, the converting
    folds, and absorbing a whole handler. */
module Scenarios {
  import opened Messages
  import opened StackSpec
  import Errors
  import Output

  /** Context "root" holds errors "A" and "B"; the pushed context "function"
      holds error "C". Folding leaves one context, "root", whose errors are
      [root] A, [root] B and [root > function] C, in that order. */
  lemma WorkedExample()
    ensures var s: ContextStack := [ContextValue("root", [BasicError("root", "A"), BasicError("root", "B")], []),
                                    ContextValue("function", [BasicError("function", "C")], [])];
      Fold(s) == [ContextValue("root", [BasicError("root", "A"), BasicError("root", "B"),
                                        BasicError("root > function", "C")], [])]
  {
    var s: ContextStack := [ContextValue("root", [BasicError("root", "A"), BasicError("root", "B")], []),
                            ContextValue("function", [BasicError("function", "C")], [])];
    FoldShape(s);
    assert ComposeName("root", "function") == "root > function";
    assert Composed("root", [BasicError("function", "C")]) == [BasicError("root > function", "C")];
    assert Fold(s) == [Top(Fold(s))];
    assert [BasicError("root", "A"), BasicError("root", "B")] + [BasicError("root > function", "C")]
        == [BasicError("root", "A"), BasicError("root", "B"), BasicError("root > function", "C")];
  }

  /** The lines written for the folded example context. */
  lemma WorkedExampleLines()
    ensures Output.ErrorLines(ContextValue("root", [BasicError("root", "A"), BasicError("root", "B"),
                                                    BasicError("root > function", "C")], []))
         == ["Error : [root] : A", "Error : [root] : B", "Error : [root > function] : C"]
  {
    var es := [BasicError("root", "A"), BasicError("root", "B"), BasicError("root > function", "C")];
    var l := Output.Lines(Output.ErrorLabel, es);
    assert l[0] == "Error : [root] : A";
    assert l[1] == "Error : [root] : B";
    assert l[2] == "Error : [root > function] : C";
  }

  /** A message recorded in a child named `child`, pushed on a parent named
      `parent` that holds nothing, is tagged with the composed name once the
      child is folded. */
  lemma ChildIntoParent(base: ContextStack, parent: string, child: string, m: string)
    ensures var s := AddMessages(Push(Push(base, parent), child), ErrorLevel, [m]);
      Top(Fold(s)) == ContextValue(parent, [BasicError(ComposeName(parent, child), m)], [])
  {
    var s := AddMessages(Push(Push(base, parent), child), ErrorLevel, [m]);
    assert Top(s) == ContextValue(child, [BasicError(child, m)], []);
    assert s[|s| - 2] == Fresh(parent);
    FoldShape(s);
    assert Composed(parent, [BasicError(child, m)]) == [BasicError(ComposeName(parent, child), m)];
  }

  /** Folding a child "B" into a parent "A" tags the child's messages
      "A > B"; an anonymous child folded into "A" gives "A"; a child "B"
      folded into an anonymous parent gives "B". */
  lemma NameCompositionCases(base: ContextStack, m: string)
    ensures Top(Fold(AddMessages(Push(Push(base, "A"), "B"), ErrorLevel, [m]))).errors == [BasicError("A > B", m)]
    ensures Top(Fold(AddMessages(Push(Push(base, "A"), ""), ErrorLevel, [m]))).errors == [BasicError("A", m)]
    ensures Top(Fold(AddMessages(Push(Push(base, ""), "B"), ErrorLevel, [m]))).errors == [BasicError("B", m)]
  {
    ChildIntoParent(base, "A", "B", m);
    ChildIntoParent(base, "A", "", m);
    ChildIntoParent(base, "", "B", m);
    assert ComposeName("A", "B") == "A > B";
  }

  /** A child holding one error and one warning, folded with foldToError,
      adds two errors to the parent and no warning; with foldToWarning, two
      warnings and no error. */
  lemma ConvertingFolds(base: ContextStack, e: string, w: string)
    ensures var s := AddMessages(AddMessages(Push(base, "child"), ErrorLevel, [e]), WarningLevel, [w]);
      |Top(FoldToError(s)).errors| == |Top(base).errors| + 2 &&
      Top(FoldToError(s)).warnings == Top(base).warnings &&
      |Top(FoldToWarning(s)).warnings| == |Top(base).warnings| + 2 &&
      Top(FoldToWarning(s)).errors == Top(base).errors
  {
    var s := AddMessages(AddMessages(Push(base, "child"), ErrorLevel, [e]), WarningLevel, [w]);
    assert Below(s) == base;
    assert |Top(s).errors| == 1 && |Top(s).warnings| == 1;
    FoldToErrorShape(s);
    FoldToWarningShape(s);
  }

  /** Absorbing a handler whose root context "root" holds error "e1" and
      whose unfolded context "fn" holds error "e2" adds exactly one anonymous
      context, holding [root] e1 and then [root > fn] e2. */
  lemma AbsorbExample(s: ContextStack, e1: string, e2: string)
    ensures var other: ContextStack := [ContextValue("root", [BasicError("root", e1)], []),
                                        ContextValue("fn", [BasicError("fn", e2)], [])];
      var r := PushStack(s, other);
      |r| == |s| + 1 && Below(r) == s &&
      Top(r) == ContextValue("", [BasicError("root", e1), BasicError("root > fn", e2)], [])
  {
    var other: ContextStack := [ContextValue("root", [BasicError("root", e1)], []),
                                ContextValue("fn", [BasicError("fn", e2)], [])];
    PushStackShape(s, other);
    assert other[1..] == [other[1]];
    assert ComposeName("root", "fn") == "root > fn";
  }

  /** Pushing an anonymous context and popping it at once hands back an
      anonymous context with no messages and restores the depth; popping the
      only context hands back all its messages and leaves a fresh anonymous
      context. */
  method PushPopClient(name: string, m: string)
  {
    var h := new Errors.Error(name);
    h.AddError(m);
    h.Push();
    var popped := h.Pop();
    assert popped.Value() == Fresh("");
    assert |h.Stack| == 1;
    var last := h.Pop();
    assert last.Value() == ContextValue(name, [BasicError(name, m)], []);
    assert h.CurrentContext() == Fresh("");
    assert !h.HasErrors() && !h.HasWarnings();
  }

  /** The documented example built through the handler: "root" with "A"
      and "B", then "function" with "C" pushed on it. */
  method BuildExample() returns (h: Errors.Error)
    ensures h.Valid() && fresh(h.Repr)
    ensures h.Stack == [ContextValue("root", [BasicError("root", "A"), BasicError("root", "B")], []),
                        ContextValue("function", [BasicError("function", "C")], [])]
  {
    h := new Errors.Error("root");
    h.AddError("A");
    AddOne(Initial("root"), ErrorLevel, "A");
    ghost var a := Fresh("root").Append(ErrorLevel, [BasicError("root", "A")]);
    assert Below(Initial("root")) == [] && WithTop(Initial("root"), a) == [a];
    h.AddError("B");
    AddOne([a], ErrorLevel, "B");
    ghost var ab := a.Append(ErrorLevel, [BasicError("root", "B")]);
    assert Below([a]) == [] && WithTop([a], ab) == [ab];
    assert ab.errors == [BasicError("root", "A")] + [BasicError("root", "B")]
                     == [BasicError("root", "A"), BasicError("root", "B")];
    assert ab == ContextValue("root", [BasicError("root", "A"), BasicError("root", "B")], []);
    h.Push("function");
    ghost var pushed := h.Stack;
    h.AddError("C");
    AddOne(pushed, ErrorLevel, "C");
    assert pushed == [ab, Fresh("function")] && Below(pushed) == [ab];
    ghost var c := Fresh("function").Append(ErrorLevel, [BasicError("function", "C")]);
    assert c.errors == [BasicError("function", "C")];
    assert WithTop(pushed, c) == [ab, c];
  }

  /** The documented fold example driven through the handler; writing the
      errors twice gives the same lines. */
  method WorkedExampleClient()
  {
    var h := BuildExample();
    h.Fold();
    WorkedExample();
    assert Top(h.Stack).errors == [BasicError("root", "A"), BasicError("root", "B"), BasicError("root > function", "C")];
    var lines := h.WriteErrorsTo();
    var again := h.WriteErrorsTo();
    assert lines == again;
    WorkedExampleLines();
    assert lines == ["Error : [root] : A", "Error : [root] : B", "Error : [root > function] : C"];
  }

  /** Clearing leaves one context with the given name and no messages,
      whatever was recorded before; without a name, the handler and the
      cleared context are anonymous. */
  method ClearClient(m: string)
  {
    var h := new Errors.Error("root");
    h.Push("inner");
    h.AddWarning(m);
    h.Clear("x");
    assert h.CurrentContext() == Fresh("x") && |h.Stack| == 1;
    assert !h.HasErrors() && !h.HasWarnings();
    var anonymous := new Errors.Error();
    assert anonymous.CurrentContext() == Fresh("");
    anonymous.AddError(m);
    anonymous.Clear();
    assert anonymous.CurrentContext() == Fresh("") && |anonymous.Stack| == 1;
  }
}
