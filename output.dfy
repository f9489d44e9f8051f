/** The text the write operations emit for a context: one line per message,
    "Error : [name] : text" or "Warning : [name] : text". A line here is the
    text before its line terminator. */
module Output {
  import opened Messages

  const ErrorLabel: string := "Error"
  const WarningLabel: string := "Warning"

  /** The line written for one message under the given tag. */
  function Line(tag: string, e: BasicError): string
  {
    tag + " : [" + e.contextName + "] : " + e.message
  }

  /** One line per message, in list order. */
  function Lines(tag: string, es: seq<BasicError>): (r: seq<string>)
    ensures |r| == |es|
    ensures forall i :: 0 <= i < |es| ==> r[i] == Line(tag, es[i])
  {
    if es == [] then [] else [Line(tag, es[0])] + Lines(tag, es[1..])
  }

  /** What is written for a context's errors. */
  function ErrorLines(c: ContextValue): seq<string>
  {
    Lines(ErrorLabel, c.errors)
  }

  /** What is written for a context's warnings. */
  function WarningLines(c: ContextValue): seq<string>
  {
    Lines(WarningLabel, c.warnings)
  }

  /** What is written for a whole context: its errors, then its warnings. */
  function ContextLines(c: ContextValue): seq<string>
  {
    ErrorLines(c) + WarningLines(c)
  }

  /** Writing one more message appends exactly its line. */
  lemma LinesSnoc(tag: string, es: seq<BasicError>, e: BasicError)
    ensures Lines(tag, es + [e]) == Lines(tag, es) + [Line(tag, e)]
  {
    var l, r := Lines(tag, es + [e]), Lines(tag, es) + [Line(tag, e)];
    assert |l| == |r|;
    forall i | 0 <= i < |l| ensures l[i] == r[i] {
      if i < |es| {
        assert (es + [e])[i] == es[i];
      }
    }
  }

  /** A context is written as every error line, in order, then every warning
      line, in order, and nothing else. */
  lemma ContextLinesOrder(c: ContextValue)
    ensures |ContextLines(c)| == |c.errors| + |c.warnings|
    ensures forall i :: 0 <= i < |c.errors| ==>
              ContextLines(c)[i] == "Error : [" + c.errors[i].contextName + "] : " + c.errors[i].message
    ensures forall j :: 0 <= j < |c.warnings| ==>
              ContextLines(c)[|c.errors| + j] == "Warning : [" + c.warnings[j].contextName + "] : " + c.warnings[j].message
  {
    var e, w := ErrorLines(c), WarningLines(c);
    forall j | 0 <= j < |c.warnings|
      ensures ContextLines(c)[|c.errors| + j] == Line(WarningLabel, c.warnings[j])
    {
      assert ContextLines(c)[|e| + j] == w[j];
    }
  }
}
