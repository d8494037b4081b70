/** errors.go: the `MultiError` type, several errors reported as one. */
module Errors {
  import opened GoStrings

  /** A Go `error`, observed through the text its `Error()` method returns. */
  datatype Error = Error(message: string)

  function Messages(errs: seq<Error>): (ms: seq<string>)
    ensures |ms| == |errs|
    ensures forall i :: 0 <= i < |errs| ==> ms[i] == errs[i].message
  {
    seq(|errs|, i requires 0 <= i < |errs| => errs[i].message)
  }

  datatype MultiError = MultiError(errors: seq<Error>)
  {
    /** The text `Error()` is specified to return: the messages in order, one per line. */
    function Text(): string {
      Join(Messages(errors), "\n")
    }

    /** `MultiError.Error`: collects every message into a fresh slice, then joins them with newlines. */
    method Error() returns (s: string)
      ensures s == Text()
    {
      var errs := new string[|errors|];
      var i := 0;
      while i < |errors|
        invariant 0 <= i <= |errors|
        invariant forall j :: 0 <= j < i ==> errs[j] == errors[j].message
      {
        errs[i] := errors[i].message;
        i := i + 1;
      }
      assert errs[..] == Messages(errors);
      s := Join(errs[..], "\n");
    }
  }

  /** `NewMultiError`: keeps the given errors, in the given order. */
  function NewMultiError(errs: seq<Error>): (m: MultiError)
    ensures |m.errors| == |errs|
    ensures forall i :: 0 <= i < |errs| ==> m.errors[i] == errs[i]
  {
    MultiError(errs)
  }

  /** No errors give the empty text; one error gives exactly its own message. */
  lemma TextOfFew(m: MultiError)
    ensures |m.errors| == 0 ==> m.Text() == ""
    ensures |m.errors| == 1 ==> m.Text() == m.errors[0].message
  {
  }

  /** The text of n >= 1 errors is as long as their messages plus the n - 1 newlines. */
  lemma TextLength(m: MultiError)
    requires |m.errors| >= 1
    ensures |m.Text()| == SumLen(Messages(m.errors)) + |m.errors| - 1
  {
    JoinLength(Messages(m.errors), "\n");
  }

  /** When no message spans lines, the text holds exactly n - 1 line breaks: one line per error. */
  lemma TextLineBreaks(m: MultiError)
    requires |m.errors| >= 1
    requires forall i :: 0 <= i < |m.errors| ==> Count(m.errors[i].message, '\n') == 0
    ensures Count(m.Text(), '\n') == |m.errors| - 1
  {
    CountJoin(Messages(m.errors), '\n');
  }
}
