/** Values recorded by the error aggregator: tagged messages, the value of one
    context, and the rule that composes context names when messages move from
    one context into another. */
module Messages {

  /** One recorded error or warning: the name of the context chain that
      produced it, and its text (the `basicError` struct). */
  datatype BasicError = BasicError(contextName: string, message: string)

  /** Which of a context's two lists a message belongs to. */
  datatype Level = ErrorLevel | WarningLevel

  /** What one context holds: its name, then its errors and its warnings,
      each in insertion order. */
  datatype ContextValue = ContextValue(name: string, errors: seq<BasicError>, warnings: seq<BasicError>)
  {
    /** The list of the given level. */
    function List(level: Level): seq<BasicError>
    {
      match level
      case ErrorLevel => errors
      case WarningLevel => warnings
    }

    /** This context with `es` appended to the list of `level`. */
    function Append(level: Level, es: seq<BasicError>): (c: ContextValue)
      ensures c.name == name
      ensures c.List(level) == List(level) + es
      ensures forall other: Level :: other != level ==> c.List(other) == List(other)
    {
      match level
      case ErrorLevel => ContextValue(name, errors + es, warnings)
      case WarningLevel => ContextValue(name, errors, warnings + es)
    }
  }

  /** A newly created context: the given name and no messages. */
  function Fresh(name: string): ContextValue
  {
    ContextValue(name, [], [])
  }

  /** What stands between a parent's name and a child's name. */
  const Separator: string := " > "

  /** The name a message carries once it moves from a child context into a
      parent context: both names joined by " > " when both are non-empty, the
      parent's name when only it is non-empty, else the child's name. */
  function ComposeName(parent: string, child: string): string
  {
    if parent != "" then
      if child != "" then parent + Separator + child else parent
    else if child != "" then child
    else ""
  }

  /** Both cases of the rule in which one side is empty, and when the
      composed name is empty. */
  lemma ComposeNameCases(parent: string, child: string)
    ensures parent == "" ==> ComposeName(parent, child) == child
    ensures child == "" ==> ComposeName(parent, child) == parent
    ensures parent != "" && child != "" ==> ComposeName(parent, child) == parent + " > " + child
    ensures ComposeName(parent, child) == "" <==> parent == "" && child == ""
  {
  }

  /** Composing names is associative, so a message that moves up through
      several contexts carries the chain "a > b > c" whichever way it is
      grouped. */
  lemma ComposeNameAssociative(a: string, b: string, c: string)
    ensures ComposeName(a, ComposeName(b, c)) == ComposeName(ComposeName(a, b), c)
  {
    if a != "" && b != "" && c != "" {
      assert a + Separator + (b + Separator + c) == (a + Separator + b) + Separator + c;
    }
  }

  /** Plain messages tagged with one context name, in their order. */
  function Tagged(name: string, messages: seq<string>): (r: seq<BasicError>)
    ensures |r| == |messages|
    ensures forall i :: 0 <= i < |messages| ==> r[i] == BasicError(name, messages[i])
  {
    if messages == [] then [] else [BasicError(name, messages[0])] + Tagged(name, messages[1..])
  }

  /** Messages of a child context as they are recorded in a parent named
      `parent`: same texts in the same order, each carrying the composed name. */
  function Composed(parent: string, es: seq<BasicError>): (r: seq<BasicError>)
    ensures |r| == |es|
    ensures forall i :: 0 <= i < |es| ==>
              r[i] == BasicError(ComposeName(parent, es[i].contextName), es[i].message)
  {
    if es == [] then []
    else [BasicError(ComposeName(parent, es[0].contextName), es[0].message)] + Composed(parent, es[1..])
  }

  /** Tagging one more message appends exactly one entry. */
  lemma TaggedSnoc(name: string, messages: seq<string>, m: string)
    ensures Tagged(name, messages + [m]) == Tagged(name, messages) + [BasicError(name, m)]
  {
    var l, r := Tagged(name, messages + [m]), Tagged(name, messages) + [BasicError(name, m)];
    assert |l| == |r|;
    forall i | 0 <= i < |l| ensures l[i] == r[i] {
      if i < |messages| {
        assert (messages + [m])[i] == messages[i];
      }
    }
  }

  /** Composing one more message appends exactly one entry. */
  lemma ComposedSnoc(parent: string, es: seq<BasicError>, e: BasicError)
    ensures Composed(parent, es + [e]) == Composed(parent, es) + [BasicError(ComposeName(parent, e.contextName), e.message)]
  {
    var l, r := Composed(parent, es + [e]), Composed(parent, es) + [BasicError(ComposeName(parent, e.contextName), e.message)];
    assert |l| == |r|;
    forall i | 0 <= i < |l| ensures l[i] == r[i] {
      if i < |es| {
        assert (es + [e])[i] == es[i];
      }
    }
  }

  /** Composing distributes over concatenation of message lists. */
  lemma ComposedConcat(parent: string, a: seq<BasicError>, b: seq<BasicError>)
    ensures Composed(parent, a + b) == Composed(parent, a) + Composed(parent, b)
  {
    var l, r := Composed(parent, a + b), Composed(parent, a) + Composed(parent, b);
    assert |l| == |r|;
    forall i | 0 <= i < |l| ensures l[i] == r[i] {
      if i < |a| {
        assert (a + b)[i] == a[i];
      } else {
        assert (a + b)[i] == b[i - |a|];
      }
    }
  }

  /** Ingesting into an anonymous context keeps every message as it was. */
  lemma {:induction false} ComposedAnonymous(es: seq<BasicError>)
    ensures Composed("", es) == es
  {
    if es != [] {
      ComposedAnonymous(es[1..]);
      assert es == [es[0]] + es[1..];
    }
  }

  /** Moving messages up twice is moving them once under the composed name. */
  lemma ComposedNested(p: string, q: string, es: seq<BasicError>)
    ensures Composed(p, Composed(q, es)) == Composed(ComposeName(p, q), es)
  {
    var l, r := Composed(p, Composed(q, es)), Composed(ComposeName(p, q), es);
    assert |l| == |r|;
    forall i | 0 <= i < |l| ensures l[i] == r[i] {
      ComposeNameAssociative(p, q, es[i].contextName);
    }
  }

  /** Plain messages of a child named `child`, moved into `parent`, carry
      the composed name. */
  lemma ComposedTagged(parent: string, child: string, messages: seq<string>)
    ensures Composed(parent, Tagged(child, messages)) == Tagged(ComposeName(parent, child), messages)
  {
    var l, r := Composed(parent, Tagged(child, messages)), Tagged(ComposeName(parent, child), messages);
    assert |l| == |r|;
    forall i | 0 <= i < |l| ensures l[i] == r[i] {
    }
  }
}
