/** The aggregator's stack of contexts as a value, and what each of its
    operations does to it. The last element is the top (current) context. */
module StackSpec {
  import opened Messages

  /** A stack of contexts; it always holds at least one. */
  type ContextStack = s: seq<ContextValue> | |s| >= 1 witness [Fresh("")]

  /** The top (current) context. */
  function Top(s: ContextStack): ContextValue
  {
    s[|s| - 1]
  }

  /** The contexts below the top, bottom first. */
  function Below(s: ContextStack): seq<ContextValue>
  {
    s[..|s| - 1]
  }

  /** The stack with its top replaced by `c`. */
  function WithTop(s: ContextStack, c: ContextValue): ContextStack
  {
    Below(s) + [c]
  }

  /** A new aggregator: one context with the given name. Also the state left
      by clearing. */
  function Initial(name: string): ContextStack
  {
    [Fresh(name)]
  }

  /** Plain messages added to the top context, tagged with its name. */
  function AddMessages(s: ContextStack, level: Level, messages: seq<string>): ContextStack
  {
    WithTop(s, Top(s).Append(level, Tagged(Top(s).name, messages)))
  }

  /** A new empty context with the given name on top. */
  function Push(s: ContextStack, name: string): ContextStack
  {
    s + [Fresh(name)]
  }

  /** The top removed; a lone context is replaced by a fresh one with the
      empty name. The removed context is Top(s). */
  function Pop(s: ContextStack): ContextStack
  {
    if |s| == 1 then [Fresh("")] else Below(s)
  }

  /** `c` with the child's errors ingested into the list `errorsTo` and then
      the child's warnings into the list `warningsTo`, under composed names. */
  function Ingest(c: ContextValue, child: ContextValue, errorsTo: Level, warningsTo: Level): ContextValue
  {
    c.Append(errorsTo, Composed(c.name, child.errors))
     .Append(warningsTo, Composed(c.name, child.warnings))
  }

  /** The top popped and ingested into the new top. `fold` keeps the levels,
      `foldToError` sends both lists to the errors, `foldToWarning` to the
      warnings. */
  function FoldBy(s: ContextStack, errorsTo: Level, warningsTo: Level): ContextStack
  {
    var rest := Pop(s);
    WithTop(rest, Ingest(Top(rest), Top(s), errorsTo, warningsTo))
  }

  function Fold(s: ContextStack): ContextStack
  {
    FoldBy(s, ErrorLevel, WarningLevel)
  }

  function FoldToError(s: ContextStack): ContextStack
  {
    FoldBy(s, ErrorLevel, ErrorLevel)
  }

  function FoldToWarning(s: ContextStack): ContextStack
  {
    FoldBy(s, WarningLevel, WarningLevel)
  }

  /** The one context left after folding until only one remains. */
  function Collapse(s: ContextStack): ContextValue
    decreases |s|
  {
    if |s| == 1 then s[0] else Collapse(Fold(s))
  }

  /** Another aggregator's state absorbed as one new anonymous context. */
  function PushStack(s: ContextStack, other: ContextStack): ContextStack
  {
    var c := Collapse(other);
    var pushed := Push(s, "");
    WithTop(pushed, Ingest(Top(pushed), c, ErrorLevel, WarningLevel))
  }

  /** Closed form of a collapse, bottom up: the bottom context's own list,
      then everything above it under names composed with its name. */
  function Flattened(s: ContextStack, level: Level): seq<BasicError>
    decreases |s|
  {
    if |s| == 1 then s[0].List(level)
    else s[0].List(level) + Composed(s[0].name, Flattened(s[1..], level))
  }

  /** The name chain of a run of contexts, bottom first. */
  function PathName(s: seq<ContextValue>): string
  {
    if s == [] then "" else ComposeName(s[0].name, PathName(s[1..]))
  }

  // ---------------------------------------------------------------------
  // Adding messages

  /** Adding plain messages changes only the chosen list of the top: it
      grows by exactly those messages, in order, each tagged with the top's
      name. */
  lemma AddMessagesShape(s: ContextStack, level: Level, messages: seq<string>)
    ensures var r := AddMessages(s, level, messages);
      |r| == |s| && Below(r) == Below(s) && Top(r).name == Top(s).name &&
      |Top(r).List(level)| == |Top(s).List(level)| + |messages| &&
      Top(r).List(level)[..|Top(s).List(level)|] == Top(s).List(level) &&
      (forall i :: 0 <= i < |messages| ==>
         Top(r).List(level)[|Top(s).List(level)| + i] == BasicError(Top(s).name, messages[i])) &&
      (forall other: Level :: other != level ==> Top(r).List(other) == Top(s).List(other))
  {
    var r := AddMessages(s, level, messages);
    assert Below(r) == Below(s);
    var old_, tagged := Top(s).List(level), Tagged(Top(s).name, messages);
    assert Top(r).List(level) == old_ + tagged;
    forall i | 0 <= i < |messages|
      ensures Top(r).List(level)[|old_| + i] == BasicError(Top(s).name, messages[i])
    {
      assert (old_ + tagged)[|old_| + i] == tagged[i];
    }
  }

  /** Adding one message appends exactly one entry, tagged with the top's
      name, to the chosen list of the top; nothing else changes. */
  lemma AddOne(s: ContextStack, level: Level, m: string)
    ensures AddMessages(s, level, [m]) == WithTop(s, Top(s).Append(level, [BasicError(Top(s).name, m)]))
  {
    assert Tagged(Top(s).name, [m]) == [BasicError(Top(s).name, m)];
  }

  // ---------------------------------------------------------------------
  // Push and pop

  /** Push raises the depth by one, leaves the lower contexts alone, and the
      new top has the given name and no messages; a pop then restores the
      stack. */
  lemma PushThenPop(s: ContextStack, name: string)
    ensures |Push(s, name)| == |s| + 1
    ensures Below(Push(s, name)) == s
    ensures Top(Push(s, name)) == ContextValue(name, [], [])
    ensures Pop(Push(s, name)) == s
  {
    assert Below(Push(s, name)) == s;
  }

  /** Pop never empties the stack: from depth above one it drops one context
      and keeps the others; from depth one it leaves a single anonymous
      context with no messages. */
  lemma PopShape(s: ContextStack)
    ensures |s| > 1 ==> |Pop(s)| == |s| - 1 && (forall i :: 0 <= i < |s| - 1 ==> Pop(s)[i] == s[i])
    ensures |s| == 1 ==> |Pop(s)| == 1 && Top(Pop(s)) == ContextValue("", [], [])
  {
  }

  // ---------------------------------------------------------------------
  // Folding

  /** A fold from depth above one leaves the contexts below the parent alone
      and replaces the parent and the child by the parent with the child
      ingested. */
  lemma FoldByDeep(s: ContextStack, errorsTo: Level, warningsTo: Level)
    requires |s| > 1
    ensures FoldBy(s, errorsTo, warningsTo) == s[..|s| - 2] + [Ingest(s[|s| - 2], s[|s| - 1], errorsTo, warningsTo)]
  {
    assert Pop(s) == s[..|s| - 1];
    assert Below(Pop(s)) == s[..|s| - 2];
  }

  /** `fold` from depth above one: errors stay errors, warnings stay
      warnings. */
  lemma FoldShape(s: ContextStack)
    requires |s| > 1
    ensures var r, parent, child := Fold(s), s[|s| - 2], s[|s| - 1];
      |r| == |s| - 1 && Below(r) == s[..|s| - 2] &&
      Top(r) == ContextValue(parent.name,
                             parent.errors + Composed(parent.name, child.errors),
                             parent.warnings + Composed(parent.name, child.warnings))
  {
    FoldByDeep(s, ErrorLevel, WarningLevel);
  }

  /** `foldToError`: the parent's errors grow by the child's errors and then
      its warnings, all under composed names; the parent's warnings stay. */
  lemma FoldToErrorShape(s: ContextStack)
    requires |s| > 1
    ensures var r, parent, child := FoldToError(s), s[|s| - 2], s[|s| - 1];
      |r| == |s| - 1 && Below(r) == s[..|s| - 2] &&
      Top(r).name == parent.name &&
      Top(r).errors == parent.errors + Composed(parent.name, child.errors) + Composed(parent.name, child.warnings) &&
      |Top(r).errors| == |parent.errors| + |child.errors| + |child.warnings| &&
      Top(r).warnings == parent.warnings
  {
    FoldByDeep(s, ErrorLevel, ErrorLevel);
  }

  /** `foldToWarning`: the parent's warnings grow by the child's errors and
      then its warnings, all under composed names; the parent's errors stay. */
  lemma FoldToWarningShape(s: ContextStack)
    requires |s| > 1
    ensures var r, parent, child := FoldToWarning(s), s[|s| - 2], s[|s| - 1];
      |r| == |s| - 1 && Below(r) == s[..|s| - 2] &&
      Top(r).name == parent.name &&
      Top(r).warnings == parent.warnings + Composed(parent.name, child.errors) + Composed(parent.name, child.warnings) &&
      |Top(r).warnings| == |parent.warnings| + |child.errors| + |child.warnings| &&
      Top(r).errors == parent.errors
  {
    FoldByDeep(s, WarningLevel, WarningLevel);
  }

  /** A fold at depth one pops into a fresh anonymous context: the messages
      survive with the names they carried, but the context's own name becomes
      empty. The two converting folds move everything into one list. */
  lemma FoldAtRoot(s: ContextStack)
    requires |s| == 1
    ensures Fold(s) == [ContextValue("", s[0].errors, s[0].warnings)]
    ensures FoldToError(s) == [ContextValue("", s[0].errors + s[0].warnings, [])]
    ensures FoldToWarning(s) == [ContextValue("", [], s[0].errors + s[0].warnings)]
  {
    var c := s[0];
    assert Pop(s) == [Fresh("")];
    ComposedAnonymous(c.errors);
    ComposedAnonymous(c.warnings);
    assert [] + c.errors == c.errors && [] + c.warnings == c.warnings;
    assert Ingest(Fresh(""), c, ErrorLevel, WarningLevel) == ContextValue("", c.errors, c.warnings);
    assert Ingest(Fresh(""), c, ErrorLevel, ErrorLevel) == ContextValue("", c.errors + c.warnings, []);
    assert Ingest(Fresh(""), c, WarningLevel, WarningLevel) == ContextValue("", [], c.errors + c.warnings);
  }

  /** Every fold leaves depth one at one and otherwise lowers it by one. */
  lemma FoldDepth(s: ContextStack, errorsTo: Level, warningsTo: Level)
    ensures |FoldBy(s, errorsTo, warningsTo)| == if |s| == 1 then 1 else |s| - 1
  {
  }

  // ---------------------------------------------------------------------
  // Collapsing a whole stack

  /** Folding never touches the bottom context until only two remain, so a
      fold of a stack of three or more is a fold of the stack above the
      bottom. */
  lemma FoldAboveBottom(s: ContextStack)
    requires |s| >= 3
    ensures Fold(s) == [s[0]] + Fold(s[1..])
  {
    var t: ContextStack := s[1..];
    assert Pop(s) == [s[0]] + Pop(t);
    assert Top(s) == Top(t);
    assert Top(Pop(s)) == Top(Pop(t));
    assert Below(Pop(s)) == [s[0]] + Below(Pop(t));
  }

  /** Collapsing a stack of two or more merges the bottom context with the
      collapse of the stack above it. */
  lemma {:induction false} CollapseSplit(s: ContextStack)
    requires |s| >= 2
    ensures Collapse(s) == Ingest(s[0], Collapse(s[1..]), ErrorLevel, WarningLevel)
    decreases |s|
  {
    if |s| == 2 {
      assert Fold(s) == [Ingest(s[0], s[1], ErrorLevel, WarningLevel)];
      assert s[1..] == [s[1]];
    } else {
      var t: ContextStack := s[1..];
      FoldAboveBottom(s);
      var f: ContextStack := [s[0]] + Fold(t);
      assert Fold(s) == f;
      CollapseSplit(f);
      assert f[1..] == Fold(t);
      assert f[0] == s[0];
    }
  }

  /** The collapse of a stack keeps the bottom context's name, and its lists
      are the flattened lists of the whole stack. */
  lemma {:induction false} CollapseIsFlattened(s: ContextStack)
    ensures Collapse(s) == ContextValue(s[0].name, Flattened(s, ErrorLevel), Flattened(s, WarningLevel))
    decreases |s|
  {
    if |s| >= 2 {
      CollapseSplit(s);
      CollapseIsFlattened(s[1..]);
    }
  }

  /** Every message of every context of a stack is in its flattened list,
      with its text and under the name chain of the contexts below it
      composed with the name it carried. */
  lemma {:induction false} FlattenedHas(s: ContextStack, level: Level, k: nat, j: nat)
    requires k < |s| && j < |s[k].List(level)|
    ensures var e := s[k].List(level)[j];
      BasicError(ComposeName(PathName(s[..k]), e.contextName), e.message) in Flattened(s, level)
    decreases k
  {
    var e := s[k].List(level)[j];
    if k == 0 {
      assert PathName(s[..0]) == "";
      ComposeNameCases("", e.contextName);
      assert e in s[0].List(level);
    } else {
      var t: ContextStack := s[1..];
      assert t[k - 1] == s[k];
      FlattenedHas(t, level, k - 1, j);
      var path := PathName(t[..k - 1]);
      ComposedHas(s[0].name, Flattened(t, level), BasicError(ComposeName(path, e.contextName), e.message));
      ComposeNameAssociative(s[0].name, path, e.contextName);
      PathNameStep(s, k);
    }
  }

  /** The name chain of the first k contexts is the bottom name composed
      with the chain of the ones above it. */
  lemma PathNameStep(s: ContextStack, k: nat)
    requires 0 < k < |s|
    ensures PathName(s[..k]) == ComposeName(s[0].name, PathName(s[1..][..k - 1]))
  {
    assert s[..k][1..] == s[1..][..k - 1];
  }

  /** A message moved into a parent is found there under the composed name. */
  lemma ComposedHas(parent: string, es: seq<BasicError>, x: BasicError)
    requires x in es
    ensures BasicError(ComposeName(parent, x.contextName), x.message) in Composed(parent, es)
  {
    var i :| 0 <= i < |es| && es[i] == x;
    assert Composed(parent, es)[i] == BasicError(ComposeName(parent, x.contextName), x.message);
  }

  // ---------------------------------------------------------------------
  // Absorbing another aggregator

  /** Absorbing another stack adds exactly one context on top of the
      receiver, leaves the receiver's contexts alone, and the new context is
      anonymous and holds the other stack's flattened lists with their names
      passed through unchanged. */
  lemma PushStackShape(s: ContextStack, other: ContextStack)
    ensures var r := PushStack(s, other);
      |r| == |s| + 1 && Below(r) == s &&
      Top(r) == ContextValue("", Flattened(other, ErrorLevel), Flattened(other, WarningLevel))
  {
    var c := Collapse(other);
    CollapseIsFlattened(other);
    ComposedAnonymous(c.errors);
    ComposedAnonymous(c.warnings);
    assert Below(PushStack(s, other)) == s;
  }
}
